/**
 * End-to-end uses of the store, the guard and the pages, against a stub of
 * the API given as a function.
 */
module Scenarios {
  import opened Wrappers
  import opened UserRecord
  import opened AuthContext
  import opened ProtectedRoute
  import opened Views
  import RegisterPage

  /** A login endpoint that knows one account, `alice` with password `secret`. */
  function AliceApi(alice: User): Credentials -> Response<LoginBody> {
    (c: Credentials) => if c == Credentials("alice", "secret") then HttpOk(LoginBody(true, alice, "t1")) else HttpNotOk
  }

  /**
   * Logging in as an administrator: the login succeeds, the token is stored,
   * the administrator route renders, and a reload restores the same user.
   */
  method AdminLogin(alice: User) returns (ok: bool, token: Option<string>, decision: Decision, restored: Option<User>)
    requires alice.administrador
    ensures ok && token == Some("t1") && decision == Render && restored == Some(alice)
  {
    var auth := new AuthProvider(map[]);
    var threw := auth.Init();
    ghost var before := auth.State();
    ok := auth.Login("alice", "secret", AliceApi(alice));
    token := GetItem(auth.storage, TokenKey);
    decision := Guard(auth.loading, auth.user, Some(Administrador));

    var reloaded := new AuthProvider(auth.storage);
    ReloadAfterLogin(before, LoginBody(true, alice, "t1"));
    threw := reloaded.Init();
    restored := reloaded.user;
  }

  /** A wrong password: no session, nothing stored, and the guard sends the visitor to login. */
  method WrongPassword(alice: User) returns (ok: bool, decision: Decision)
    ensures !ok && decision == Redirect(ToLogin)
  {
    var auth := new AuthProvider(map[]);
    var threw := auth.Init();
    ok := auth.Login("alice", "wrong", AliceApi(alice));
    decision := Guard(auth.loading, auth.user, None);
  }

  /** A three-character password is refused before anything is sent. */
  method ShortPassword() returns (toast: Toast, sent: Option<RegisterData>)
    ensures sent == None && toast == ErrorToast(RegisterPage.TooShortMsg)
  {
    var auth := new AuthProvider(map[]);
    var form := new RegisterPage.RegisterForm();
    form.HandleInputChange(RegisterPage.Nome, "Bob");
    form.HandleInputChange(RegisterPage.Email, "bob@example.com");
    form.HandleInputChange(RegisterPage.Usuario, "bob");
    form.HandleInputChange(RegisterPage.Senha, "abc");
    form.HandleInputChange(RegisterPage.ConfirmarSenha, "abc");
    var navigate;
    toast, navigate, sent := form.HandleSubmit(auth, (d: RegisterData) => HttpOk(RegisterBody(true)));
  }
}
