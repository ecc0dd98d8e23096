/** The Portuguese sign-up page of src/pages/pt/SignUp.tsx: form validation and the sign-up flow. */
module SignUp {
  import opened Wrappers
  import opened Text

  const MinPasswordLength := 6
  const PasswordMessage := "A senha deve ter pelo menos 6 caracteres"
  const PhoneMessage := "Número de telefone é obrigatório"
  const MissingFieldsMessage := "Por favor, preencha todos os campos"
  const AlreadyRegistered := "User already registered"
  const AlreadyRegisteredMessage := "Este email já está registrado. Por favor, tente fazer login."
  const FallbackMessage := "Falha ao criar conta. Por favor, tente novamente."
  const LoginPath := "/pt/login"
  const MemberRole := "member"
  /** The `signupMethod` property of the sign-up event. */
  const SignupMethod := "email"

  datatype Form = Form(firstName: string, lastName: string, email: string, password: string, phone: string)

  /** The inline messages under the password and phone inputs; "" when there is none. */
  datatype Errors = Errors(password: string, phone: string)

  const NoErrors := Errors("", "")

  /** Name and e-mail are filled in; these are reported by a toast, not inline. */
  predicate NamesPresent(f: Form) {
    f.firstName != "" && f.lastName != "" && f.email != ""
  }

  /** Every rule of the form holds. */
  predicate IsFormValid(f: Form) {
    |f.password| >= MinPasswordLength && f.phone != "" && NamesPresent(f)
  }

  /** The inline errors a form produces, rebuilt from nothing on every validation. */
  function ErrorsFor(f: Form): (r: Errors)
    ensures r.password != "" <==> |f.password| < MinPasswordLength
    ensures r.password != "" ==> r.password == PasswordMessage
    ensures r.phone != "" <==> f.phone == ""
    ensures r.phone != "" ==> r.phone == PhoneMessage
  {
    Errors(if |f.password| < MinPasswordLength then PasswordMessage else "",
           if f.phone == "" then PhoneMessage else "")
  }

  /** A form is valid exactly when it shows no inline error and no missing-field toast. */
  lemma ValidIffNoErrors(f: Form)
    ensures IsFormValid(f) <==> ErrorsFor(f) == NoErrors && NamesPresent(f)
  {
  }

  /** What the sign-up call answers: an error with its message, or data with an optional user id. */
  datatype AuthResponse = AuthError(message: string) | AuthData(user: Option<string>)

  datatype Effect =
    | ErrorToast(message: string)
    | SignUpRequest(email: string, password: string, firstName: string, lastName: string, phone: string, role: string)
    | UpsertProfile(id: string, firstName: string, lastName: string, email: string, phone: string, role: string)
    | TrackSignedUp(userId: string, email: string, firstName: string, lastName: string, phone: string, signupMethod: string)
    | Navigate(path: string)

  /** `error.message || fallback` in the catch block. */
  function FailureMessage(message: string): (r: string)
    ensures r != ""
    ensures message != "" ==> r == message
  {
    if message != "" then message else FallbackMessage
  }

  /**
   * What follows the sign-up request: an already registered e-mail gets its own toast and no
   * exception; any other error is thrown and reported; a user gets a profile row and, when that
   * write succeeds, the sign-up event and the move to the login page.
   */
  function AfterRequest(f: Form, auth: AuthResponse, profileError: Option<string>): (r: seq<Effect>)
    ensures Navigate(LoginPath) in r <==> auth.AuthData? && auth.user.Some? && profileError.None?
    ensures auth.AuthError? ==> |r| == 1 && r[0].ErrorToast?
    ensures auth.AuthData? && auth.user.None? ==> r == []
    ensures auth.AuthData? && auth.user.Some? ==> |r| >= 2 && r[0] == UpsertProfile(auth.user.value, f.firstName, f.lastName, f.email, f.phone, MemberRole)
    ensures auth.AuthData? && auth.user.Some? && profileError.None? ==>
      r == [UpsertProfile(auth.user.value, f.firstName, f.lastName, f.email, f.phone, MemberRole),
            TrackSignedUp(auth.user.value, f.email, f.firstName, f.lastName, f.phone, SignupMethod),
            Navigate(LoginPath)]
    ensures auth.AuthData? && auth.user.Some? && profileError.Some? ==>
      r == [UpsertProfile(auth.user.value, f.firstName, f.lastName, f.email, f.phone, MemberRole),
            ErrorToast(FailureMessage(profileError.value))]
  {
    match auth
    case AuthError(message) =>
      if Includes(message, AlreadyRegistered) then [ErrorToast(AlreadyRegisteredMessage)]
      else [ErrorToast(FailureMessage(message))]
    case AuthData(None) => []
    case AuthData(Some(id)) =>
      var upsert := UpsertProfile(id, f.firstName, f.lastName, f.email, f.phone, MemberRole);
      match profileError
      case Some(message) => [upsert, ErrorToast(FailureMessage(message))]
      case None => [upsert, TrackSignedUp(id, f.email, f.firstName, f.lastName, f.phone, SignupMethod), Navigate(LoginPath)]
  }

  /** A second sign-up with a registered e-mail stays on the page with the "already registered" toast. */
  lemma AlreadyRegisteredStays(f: Form, message: string, profileError: Option<string>)
    requires Includes(message, AlreadyRegistered)
    ensures AfterRequest(f, AuthError(message), profileError) == [ErrorToast(AlreadyRegisteredMessage)]
  {
  }

  /** Any other sign-up error is reported with its own message, or the fallback when it has none. */
  lemma OtherErrorsReported(f: Form, message: string, profileError: Option<string>)
    requires !Includes(message, AlreadyRegistered)
    ensures message != "" ==> AfterRequest(f, AuthError(message), profileError) == [ErrorToast(message)]
    ensures message == "" ==> AfterRequest(f, AuthError(message), profileError) == [ErrorToast(FallbackMessage)]
  {
  }

  /** The sign-up event is tracked only after the profile row was written, and right before navigating. */
  lemma TrackedOnlyAfterProfile(f: Form, auth: AuthResponse, profileError: Option<string>, k: nat)
    requires k < |AfterRequest(f, auth, profileError)| && AfterRequest(f, auth, profileError)[k].TrackSignedUp?
    ensures k == 1 && AfterRequest(f, auth, profileError)[0].UpsertProfile? && profileError.None?
    ensures AfterRequest(f, auth, profileError)[2] == Navigate(LoginPath)
  {
  }

  /** The page's form, its inline errors and its loading flag. */
  class SignUpPage {
    var form: Form
    var errors: Errors
    var isLoading: bool

    constructor ()
      ensures form == Form("", "", "", "", "") && errors == NoErrors && !isLoading
    {
      form := Form("", "", "", "", "");
      errors := NoErrors;
      isLoading := false;
    }

    /** Editing an input replaces the form. */
    method Edit(f: Form)
      modifies this
      ensures form == f && errors == old(errors) && isLoading == old(isLoading)
    {
      form := f;
    }

    /**
     * `validateForm`: rebuilds the inline errors from the current form, toasts once when a name
     * or the e-mail is missing, and answers whether every rule holds.
     */
    method ValidateForm() returns (isValid: bool, toasts: seq<Effect>)
      modifies this
      ensures errors == ErrorsFor(form) && form == old(form) && isLoading == old(isLoading)
      ensures isValid <==> IsFormValid(form)
      ensures toasts == (if NamesPresent(form) then [] else [ErrorToast(MissingFieldsMessage)])
    {
      var newErrors := NoErrors;
      isValid := true;
      toasts := [];
      if |form.password| < MinPasswordLength {
        newErrors := newErrors.(password := PasswordMessage);
        isValid := false;
      }
      if form.phone == "" {
        newErrors := newErrors.(phone := PhoneMessage);
        isValid := false;
      }
      if form.firstName == "" || form.lastName == "" || form.email == "" {
        isValid := false;
        toasts := toasts + [ErrorToast(MissingFieldsMessage)];
      }
      errors := newErrors;
    }

    /**
     * `handleSignUp`: an invalid form stops before any request; otherwise the request goes out,
     * its answer is handled as in AfterRequest, and the loading flag is cleared in every case.
     */
    method HandleSignUp(auth: AuthResponse, profileError: Option<string>) returns (effects: seq<Effect>)
      modifies this
      ensures form == old(form) && errors == ErrorsFor(form)
      ensures !IsFormValid(form) ==> isLoading == old(isLoading) && effects == (if NamesPresent(form) then [] else [ErrorToast(MissingFieldsMessage)])
      ensures IsFormValid(form) ==> !isLoading
      ensures IsFormValid(form) ==>
        effects == [SignUpRequest(form.email, form.password, form.firstName, form.lastName, form.phone, MemberRole)]
                   + AfterRequest(form, auth, profileError)
    {
      var valid, toasts := ValidateForm();
      if !valid {
        effects := toasts;
        return;
      }
      isLoading := true;
      effects := [SignUpRequest(form.email, form.password, form.firstName, form.lastName, form.phone, MemberRole)];
      match auth {
        case AuthError(message) =>
          if Includes(message, AlreadyRegistered) {
            effects := effects + [ErrorToast(AlreadyRegisteredMessage)];
          } else {
            effects := effects + [ErrorToast(FailureMessage(message))];
          }
        case AuthData(None) =>
        case AuthData(Some(id)) =>
          effects := effects + [UpsertProfile(id, form.firstName, form.lastName, form.email, form.phone, MemberRole)];
          if profileError.Some? {
            effects := effects + [ErrorToast(FailureMessage(profileError.value))];
          } else {
            effects := effects + [TrackSignedUp(id, form.email, form.firstName, form.lastName, form.phone, "email"), Navigate(LoginPath)];
          }
      }
      isLoading := false;
    }
  }
}
