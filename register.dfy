/**
 * The registration page: a two-step form (pick an account type, then fill
 * in the details) whose submit handler is an ordered chain of guard checks.
 * The account type is the string the page stores: "general", "company",
 * "admin", or "" before one is picked.
 */
module Register {
  import opened JsStrings
  import opened Ui

  datatype RegisterForm = RegisterForm(
    name: string,
    email: string,
    password: string,
    confirmPassword: string,
    companyName: string,
    companyEmail: string,
    companyWebsite: string,
    companyRegistration: string,
    jobTitle: string,
    adminCode: string)
  {
    function Get(field: Field): string {
      match field
      case Name => name
      case Email => email
      case Password => password
      case ConfirmPassword => confirmPassword
      case CompanyName => companyName
      case CompanyEmail => companyEmail
      case CompanyWebsite => companyWebsite
      case CompanyRegistration => companyRegistration
      case JobTitle => jobTitle
      case AdminCode => adminCode
    }
  }

  /** The keys `handleInputChange` is called with. */
  datatype Field = Name | Email | Password | ConfirmPassword | CompanyName | CompanyEmail
                 | CompanyWebsite | CompanyRegistration | JobTitle | AdminCode

  const EMPTY_FORM := RegisterForm("", "", "", "", "", "", "", "", "", "")

  const ADMIN_CODE := "SAFESTART2024"

  const FIELDS_MISSING := "Please fill in all required fields"
  const PASSWORD_MISMATCH := "Passwords do not match"
  const BAD_COMPANY_EMAIL := "Please use a valid company email"
  const BAD_ADMIN_CODE := "Invalid admin code"
  const ACCOUNT_CREATED := "Account created successfully! Welcome to Safe Start."

  /** What the submit handler decides. */
  datatype Outcome = Accepted | Rejected(message: string)

  /** Name, email and password each hold a character `trim` keeps. */
  predicate RequiredFilled(f: RegisterForm) {
    !IsBlank(f.name) && !IsBlank(f.email) && !IsBlank(f.password)
  }

  /** The two checks every account type goes through. */
  predicate CommonChecksPass(f: RegisterForm) {
    RequiredFilled(f) && f.password == f.confirmPassword
  }

  /** The check that depends on the account type. */
  predicate AccountCheckPasses(accountType: string, f: RegisterForm) {
    && (accountType == "company" ==> '@' in f.companyEmail)
    && (accountType == "admin" ==> f.adminCode == ADMIN_CODE)
  }

  /**
   * handleSubmit's guard chain. The checks run in a fixed order and the first
   * one that fails names the error; a form that passes them all is accepted.
   */
  function Validate(accountType: string, f: RegisterForm): (r: Outcome)
    ensures r.Accepted? <==> CommonChecksPass(f) && AccountCheckPasses(accountType, f)
    ensures r.Rejected? ==> r.message in {FIELDS_MISSING, PASSWORD_MISMATCH, BAD_COMPANY_EMAIL, BAD_ADMIN_CODE}
  {
    IncludesCharIff(f.companyEmail, '@');
    if IsBlank(f.name) || IsBlank(f.email) || IsBlank(f.password) then Rejected(FIELDS_MISSING)
    else if f.password != f.confirmPassword then Rejected(PASSWORD_MISMATCH)
    else if accountType == "company" && !Includes(f.companyEmail, "@") then Rejected(BAD_COMPANY_EMAIL)
    else if accountType == "admin" && f.adminCode != ADMIN_CODE then Rejected(BAD_ADMIN_CODE)
    else Accepted
  }

  /** `s.includes(c)` for a one-character string is membership of `c`. */
  lemma IncludesCharIff(s: string, c: char)
    ensures Includes(s, [c]) <==> c in s
  {
    if c in s {
      var i :| 0 <= i < |s| && s[i] == c;
      assert OccursAt(s, [c], i);
    } else {
      MissingCharExcludes(s, [c], 0);
    }
  }

  /** A blank name, email or password is reported first, whatever else is wrong. */
  lemma RequiredFieldsFirst(accountType: string, f: RegisterForm)
    requires !RequiredFilled(f)
    ensures Validate(accountType, f) == Rejected(FIELDS_MISSING)
  {
  }

  /**
   * With the required fields filled in, a password that differs from its
   * confirmation is reported before any account-type check.
   */
  lemma MismatchBeforeAccountChecks(accountType: string, f: RegisterForm)
    requires RequiredFilled(f) && f.password != f.confirmPassword
    ensures Validate(accountType, f) == Rejected(PASSWORD_MISMATCH)
  {
  }

  /**
   * An accepted form has a non-blank confirmation: the comparison is exact
   * and untrimmed, so the confirmation is the non-blank password itself.
   */
  lemma AcceptedConfirmationFilled(accountType: string, f: RegisterForm)
    requires Validate(accountType, f).Accepted?
    ensures !IsBlank(f.confirmPassword)
  {
  }

  /** Passwords that differ only by trailing spaces do not match. */
  lemma PasswordComparedUntrimmed(f: RegisterForm)
    requires RequiredFilled(f) && f.confirmPassword == f.password + " "
    ensures Validate("general", f) == Rejected(PASSWORD_MISMATCH)
    ensures Validate("general", f.(confirmPassword := f.password)) == Accepted
  {
    assert |f.confirmPassword| != |f.password|;
  }

  /**
   * A company account that passes the common checks is rejected exactly when
   * its company email has no '@'.
   */
  lemma CompanyEmailNeedsAt(f: RegisterForm)
    ensures CommonChecksPass(f) ==>
      Validate("company", f) == (if '@' in f.companyEmail then Accepted else Rejected(BAD_COMPANY_EMAIL))
  {
    IncludesCharIff(f.companyEmail, '@');
  }

  /**
   * An admin account that passes the common checks is accepted exactly with
   * the code "SAFESTART2024"; any other code is rejected.
   */
  lemma AdminCodeExact(f: RegisterForm)
    ensures CommonChecksPass(f) ==>
      Validate("admin", f) == (if f.adminCode == ADMIN_CODE then Accepted else Rejected(BAD_ADMIN_CODE))
  {
  }

  /** A general account is accepted exactly when the two common checks pass. */
  lemma GeneralAcceptedIff(f: RegisterForm)
    ensures Validate("general", f).Accepted? <==> CommonChecksPass(f)
  {
  }

  /**
   * The company name, website, registration number and job title are never
   * looked at, although the form marks the company name as required.
   */
  lemma CompanyDetailsUnchecked(accountType: string, f: RegisterForm, companyName: string,
                                companyWebsite: string, companyRegistration: string, jobTitle: string)
    ensures Validate(accountType, f) == Validate(accountType, f.(companyName := companyName,
      companyWebsite := companyWebsite, companyRegistration := companyRegistration, jobTitle := jobTitle))
  {
  }

  /** The registration page's state. */
  class RegisterPage {
    var accountType: string
    var formData: RegisterForm
    var step: int

    ghost predicate Valid()
      reads this
    {
      step == 1 || step == 2
    }

    constructor ()
      ensures Valid()
      ensures accountType == "" && formData == EMPTY_FORM && step == 1
    {
      accountType := "";
      formData := EMPTY_FORM;
      step := 1;
    }

    /** handleInputChange: one form field takes the raw value. */
    method HandleInputChange(field: Field, value: string)
      requires Valid()
      modifies this
      ensures Valid()
      ensures formData.Get(field) == value
      ensures forall g :: g != field ==> formData.Get(g) == old(formData).Get(g)
      ensures accountType == old(accountType) && step == old(step)
    {
      formData := match field
        case Name => formData.(name := value)
        case Email => formData.(email := value)
        case Password => formData.(password := value)
        case ConfirmPassword => formData.(confirmPassword := value)
        case CompanyName => formData.(companyName := value)
        case CompanyEmail => formData.(companyEmail := value)
        case CompanyWebsite => formData.(companyWebsite := value)
        case CompanyRegistration => formData.(companyRegistration := value)
        case JobTitle => formData.(jobTitle := value)
        case AdminCode => formData.(adminCode := value);
    }

    /** handleAccountTypeSelect: remember the type and move to the details step. */
    method HandleAccountTypeSelect(accountTypeChosen: string)
      requires Valid()
      modifies this
      ensures Valid()
      ensures accountType == accountTypeChosen && step == 2 && formData == old(formData)
    {
      accountType := accountTypeChosen;
      step := 2;
    }

    /** goBack: from the details step back to the type choice; from the type choice, leave for home. */
    method GoBack() returns (navigateTo: Option<string>)
      requires Valid()
      modifies this
      ensures Valid()
      ensures old(step) == 2 ==> step == 1 && navigateTo == None
      ensures old(step) == 1 ==> step == 1 && navigateTo == Some("/")
      ensures accountType == old(accountType) && formData == old(formData)
    {
      if step == 1 {
        navigateTo := Some("/");
      } else {
        step := step - 1;
        navigateTo := None;
      }
    }

    /**
     * handleSubmit: the first failing check raises its error toast; a form
     * that passes every check raises the success toast and, once the delay
     * has run, goes to the dashboard. The page state does not change.
     */
    method HandleSubmit() returns (toast: Toast, navigateTo: Option<string>)
      requires Valid()
      ensures Validate(accountType, formData).Accepted? ==>
        toast == Success(ACCOUNT_CREATED) && navigateTo == Some("/dashboard")
      ensures Validate(accountType, formData).Rejected? ==>
        toast == Error(Validate(accountType, formData).message) && navigateTo == None
    {
      var outcome := Validate(accountType, formData);
      if outcome.Rejected? {
        return Error(outcome.message), None;
      }
      return Success(ACCOUNT_CREATED), Some("/dashboard");
    }
  }
}
