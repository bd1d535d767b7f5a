/**
 * The sign-in page: two fields, a blank check on submit, and a loading flag
 * that stays set until the simulated sign-in completes.
 */
module Login {
  import opened JsStrings
  import opened Ui

  datatype LoginForm = LoginForm(email: string, password: string)
  {
    function Get(field: Field): string {
      match field
      case Email => email
      case Password => password
    }
  }

  datatype Field = Email | Password

  const EMPTY_FORM := LoginForm("", "")

  const FIELDS_MISSING := "Please fill in all fields"
  const WELCOME_BACK := "Welcome back to Safe Start!"

  /**
   * The submit guard: neither field is blank after `trim`, that is, each
   * holds a character `trim` keeps.
   */
  function CanSubmit(f: LoginForm): (ok: bool)
    ensures ok <==> HasVisibleChar(f.email) && HasVisibleChar(f.password)
  {
    BlankIff(f.email);
    BlankIff(f.password);
    !(IsBlank(f.email) || IsBlank(f.password))
  }

  /** Whitespace-only input is refused in either field. */
  lemma WhitespaceOnlyRefused(f: LoginForm)
    requires || (forall i :: 0 <= i < |f.email| ==> IsTrimmable(f.email[i]))
             || (forall i :: 0 <= i < |f.password| ==> IsTrimmable(f.password[i]))
    ensures !CanSubmit(f)
  {
  }

  /** Surrounding spaces are accepted: the check trims, the stored value is raw. */
  lemma PaddedInputAccepted(email: string, password: string)
    requires CanSubmit(LoginForm(email, password))
    ensures CanSubmit(LoginForm(" " + email + " ", password))
  {
    VisibleCharSurvivesPadding(" ", email, " ");
  }

  /** The sign-in page's state. */
  class LoginPage {
    var formData: LoginForm
    var isLoading: bool

    constructor ()
      ensures formData == EMPTY_FORM && !isLoading
    {
      formData := EMPTY_FORM;
      isLoading := false;
    }

    /** handleInputChange: the field stores the raw value, untrimmed. */
    method HandleInputChange(field: Field, value: string)
      modifies this
      ensures formData.Get(field) == value
      ensures forall g :: g != field ==> formData.Get(g) == old(formData).Get(g)
      ensures isLoading == old(isLoading)
    {
      formData := match field
        case Email => formData.(email := value)
        case Password => formData.(password := value);
    }

    /**
     * handleSubmit: a blank field raises the error toast and returns before
     * the loading flag is touched; otherwise the page starts loading.
     */
    method HandleSubmit() returns (toast: Toast)
      modifies this
      ensures formData == old(formData)
      ensures !CanSubmit(formData) ==> toast == Error(FIELDS_MISSING) && isLoading == old(isLoading)
      ensures CanSubmit(formData) ==> toast == NoToast && isLoading
    {
      if IsBlank(formData.email) || IsBlank(formData.password) {
        return Error(FIELDS_MISSING);
      }
      toast := NoToast;
      isLoading := true;
    }

    /** The delayed completion: loading ends, with a welcome toast and the dashboard. */
    method CompleteLogin() returns (toast: Toast, navigateTo: Option<string>)
      modifies this
      ensures !isLoading && formData == old(formData)
      ensures toast == Success(WELCOME_BACK) && navigateTo == Some("/dashboard")
    {
      isLoading := false;
      toast := Success(WELCOME_BACK);
      navigateTo := Some("/dashboard");
    }
  }

  /** An accepted submission sets the flag and its completion clears it again. */
  method SubmitThenComplete(page: LoginPage) returns (loadingAfterSubmit: bool, loadingAfterCompletion: bool)
    requires CanSubmit(page.formData)
    modifies page
    ensures loadingAfterSubmit && !loadingAfterCompletion
    ensures page.formData == old(page.formData)
  {
    var _ := page.HandleSubmit();
    loadingAfterSubmit := page.isLoading;
    var _, _ := page.CompleteLogin();
    loadingAfterCompletion := page.isLoading;
  }
}
