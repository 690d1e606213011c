/** What the pages show: toast notifications and navigation, as values. */
module Views {
  import opened Wrappers
  import opened UserRecord

  /** A toast: title, description and whether it uses the destructive style. */
  datatype Toast = Toast(title: string, description: string, destructive: bool)

  function ErrorToast(description: string): Toast {
    Toast("Erro", description, true)
  }

  function SuccessToast(description: string): Toast {
    Toast("Sucesso!", description, false)
  }

  /** A router `<Navigate>`: the target path and whether it replaces the current history entry. */
  datatype Navigation = Navigation(path: string, replace: bool)

  /** The redirect the guard and the dashboard use for a visitor without a user. */
  const ToLogin: Navigation := Navigation("/login", true)

  /** The redirect the form pages use for a visitor who already has a user. */
  const ToDashboard: Navigation := Navigation("/dashboard", true)

  /** What a page renders: a redirect, or its own content. */
  datatype Screen<+C> = Navigate(to: Navigation) | Show(content: C)

  /** The login and registration pages send a logged-in visitor to the dashboard, and otherwise show their form. */
  function FormScreen(user: Option<User>): (s: Screen<()>)
    ensures s.Navigate? <==> user.Some?
    ensures s.Navigate? ==> s.to == ToDashboard
  {
    if user.Some? then Navigate(ToDashboard) else Show(())
  }
}
