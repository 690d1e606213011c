/** The login page: the presence check, the call to the store and the message shown. */
module LoginPage {
  import opened Wrappers
  import opened AuthContext
  import opened Views

  const MissingFieldsMsg: string := "Por favor, preencha todos os campos."
  const LoggedInMsg: string := "Login realizado com sucesso."
  const BadCredentialsMsg: string := "Usuário ou senha incorretos."

  /** The toast after the store's `login` returned `success`. */
  function ResultToast(success: bool): (t: Toast)
    ensures t == SuccessToast(LoggedInMsg) <==> success
    ensures t == ErrorToast(BadCredentialsMsg) <==> !success
  {
    if success then SuccessToast(LoggedInMsg) else ErrorToast(BadCredentialsMsg)
  }

  class LoginForm {
    var usuario: string
    var senha: string
    var isLoading: bool

    constructor ()
      ensures usuario == "" && senha == "" && !isLoading
    {
      usuario, senha, isLoading := "", "", false;
    }

    method SetUsuario(value: string)
      modifies this
      ensures usuario == value && senha == old(senha) && isLoading == old(isLoading)
    {
      usuario := value;
    }

    method SetSenha(value: string)
      modifies this
      ensures senha == value && usuario == old(usuario) && isLoading == old(isLoading)
    {
      senha := value;
    }

    /**
     * Submits the credentials.  `sent` is what was passed to the store's
     * `login`, or `None` when a field was empty and nothing was sent.
     */
    method HandleSubmit(auth: AuthProvider, api: Credentials -> Response<LoginBody>)
      returns (toast: Toast, sent: Option<Credentials>)
      modifies this, auth
      ensures usuario == old(usuario) && senha == old(senha)
      ensures sent.None? <==> usuario == "" || senha == ""
      ensures sent.None? ==>
        toast == ErrorToast(MissingFieldsMsg) && isLoading == old(isLoading) &&
        auth.State() == old(auth.State())
      ensures sent.Some? ==>
        sent.value == Credentials(usuario, senha) && !isLoading &&
        var (after, ok) := LoginEffect(old(auth.State()), api(sent.value));
        auth.State() == after && toast == ResultToast(ok)
      ensures toast == SuccessToast(LoggedInMsg) ==> FormScreen(auth.user) == Navigate(ToDashboard)
    {
      if usuario == "" || senha == "" {
        toast, sent := ErrorToast(MissingFieldsMsg), None;
        return;
      }
      isLoading := true;
      var success := auth.Login(usuario, senha, api);
      toast := ResultToast(success);
      sent := Some(Credentials(usuario, senha));
      isLoading := false;
    }
  }
}
