/**
 * The registration page: a six-field form, the checks made before anything
 * is sent, the payload built from the form, and the submission.
 */
module RegisterPage {
  import opened Wrappers
  import opened AuthContext
  import opened Views

  /** The form's inputs, by their `name` attribute. */
  datatype Field = Nome | Email | Usuario | Senha | ConfirmarSenha | Doc

  datatype FormData = FormData(
    nome: string, email: string, usuario: string,
    senha: string, confirmarSenha: string, doc: string)

  const EmptyForm: FormData := FormData("", "", "", "", "", "")

  /** The minimum password length. */
  const MinPasswordLength: nat := 6

  const MissingFieldsMsg: string := "Por favor, preencha todos os campos obrigatórios."
  const MismatchMsg: string := "As senhas não coincidem."
  const TooShortMsg: string := "A senha deve ter pelo menos 6 caracteres."
  const CreatedMsg: string := "Conta criada com sucesso. Você pode fazer login agora."
  const CreateFailedMsg: string := "Erro ao criar conta. Tente novamente."

  function FieldValue(f: FormData, field: Field): string {
    match field
    case Nome => f.nome
    case Email => f.email
    case Usuario => f.usuario
    case Senha => f.senha
    case ConfirmarSenha => f.confirmarSenha
    case Doc => f.doc
  }

  /** The form after the input named `field` changed to `value`. */
  function WithField(f: FormData, field: Field, value: string): (r: FormData)
    ensures FieldValue(r, field) == value
    ensures forall g :: g != field ==> FieldValue(r, g) == FieldValue(f, g)
  {
    match field
    case Nome => f.(nome := value)
    case Email => f.(email := value)
    case Usuario => f.(usuario := value)
    case Senha => f.(senha := value)
    case ConfirmarSenha => f.(confirmarSenha := value)
    case Doc => f.(doc := value)
  }

  /** Every field except the document is required. */
  predicate RequiredFilled(f: FormData) {
    forall g :: g != Doc ==> FieldValue(f, g) != ""
  }

  lemma RequiredFilledFields(f: FormData)
    ensures RequiredFilled(f) <==>
      f.nome != "" && f.email != "" && f.usuario != "" && f.senha != "" && f.confirmarSenha != ""
  {
    if !RequiredFilled(f) {
      var g :| g != Doc && FieldValue(f, g) == "";
    } else {
      assert FieldValue(f, Nome) != "" && FieldValue(f, Email) != "" && FieldValue(f, Usuario) != "";
      assert FieldValue(f, Senha) != "" && FieldValue(f, ConfirmarSenha) != "";
    }
  }

  /**
   * The checks before submission, in order: presence, then the two
   * passwords match, then the length.  `None` when all pass, otherwise the
   * message of the first that fails.
   */
  function Validate(f: FormData): (r: Option<string>)
    ensures r.None? <==> RequiredFilled(f) && f.senha == f.confirmarSenha && |f.senha| >= MinPasswordLength
    ensures r == Some(MissingFieldsMsg) <==> !RequiredFilled(f)
    ensures r == Some(MismatchMsg) <==> RequiredFilled(f) && f.senha != f.confirmarSenha
    ensures r == Some(TooShortMsg) <==>
      RequiredFilled(f) && f.senha == f.confirmarSenha && |f.senha| < MinPasswordLength
  {
    RequiredFilledFields(f);
    if f.nome == "" || f.email == "" || f.usuario == "" || f.senha == "" || f.confirmarSenha == "" then
      Some(MissingFieldsMsg)
    else if f.senha != f.confirmarSenha then Some(MismatchMsg)
    else if |f.senha| < MinPasswordLength then Some(TooShortMsg)
    else None
  }

  /** What is sent: the form without the confirmation, the document as typed, level `usuario`. */
  function Payload(f: FormData): (p: RegisterData)
    ensures p.nome == f.nome && p.email == f.email && p.usuario == f.usuario && p.senha == f.senha
    ensures p.doc == Some(f.doc) && p.nivel == Some("usuario")
  {
    RegisterData(f.nome, f.email, f.usuario, f.senha, Some(f.doc), Some("usuario"))
  }

  /** A short password that differs from its confirmation is reported as a mismatch. */
  lemma MismatchReportedBeforeLength(f: FormData)
    requires RequiredFilled(f) && f.senha != f.confirmarSenha && |f.senha| < MinPasswordLength
    ensures Validate(f) == Some(MismatchMsg)
  {
  }

  /** Whatever passes validation sends a password of at least six characters. */
  lemma SentPasswordLongEnough(f: FormData)
    requires Validate(f).None?
    ensures |Payload(f).senha| >= MinPasswordLength && Payload(f).senha == f.confirmarSenha
  {
  }

  class RegisterForm {
    var formData: FormData
    var isLoading: bool

    constructor ()
      ensures formData == EmptyForm && !isLoading
    {
      formData := EmptyForm;
      isLoading := false;
    }

    method HandleInputChange(name: Field, value: string)
      modifies this
      ensures formData == WithField(old(formData), name, value)
      ensures isLoading == old(isLoading)
    {
      formData := WithField(formData, name, value);
    }

    /**
     * Submits the form.  `sent` is the payload passed to the store's
     * `register`, or `None` when validation stopped the submission; the
     * toast and the navigation are what the page shows afterwards.
     */
    method HandleSubmit(auth: AuthProvider, api: RegisterData -> Response<RegisterBody>)
      returns (toast: Toast, navigate: Option<string>, sent: Option<RegisterData>)
      modifies this, auth
      ensures formData == old(formData)
      ensures sent.None? <==> Validate(formData).Some?
      ensures sent.None? ==>
        toast == ErrorToast(Validate(formData).value) && navigate == None &&
        isLoading == old(isLoading) && auth.State() == old(auth.State())
      ensures sent.Some? ==>
        sent.value == Payload(formData) && !isLoading &&
        var (after, ok) := RegisterEffect(old(auth.State()), api(sent.value));
        auth.State() == after &&
        (ok ==> toast == SuccessToast(CreatedMsg) && navigate == Some("/login")) &&
        (!ok ==> toast == ErrorToast(CreateFailedMsg) && navigate == None)
    {
      var check := Validate(formData);
      if check.Some? {
        toast, navigate, sent := ErrorToast(check.value), None, None;
        return;
      }
      isLoading := true;
      var payload := Payload(formData);
      var success := auth.Register(payload, api);
      if success {
        toast, navigate := SuccessToast(CreatedMsg), Some("/login");
      } else {
        toast, navigate := ErrorToast(CreateFailedMsg), None;
      }
      sent := Some(payload);
      isLoading := false;
    }
  }
}
