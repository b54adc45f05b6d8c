/**
 * The login/registration form: its field values and error messages, the
 * validator, the change handler and the submit handler. Logging in and
 * registering are outside calls whose outcome is a parameter.
 */
module AuthForm {
  import opened Wrappers
  import opened Text

  datatype FormKind = Login | Register

  /** The form's input names. */
  datatype Field = Name | Email | Password | Role | TeachingExperience | Expertise | Qualifications

  datatype FormData = FormData(name: string, email: string, password: string, role: string,
                               teachingExperience: string, expertise: string, qualifications: string)
  {
    function Get(field: Field): string {
      match field
      case Name => name
      case Email => email
      case Password => password
      case Role => role
      case TeachingExperience => teachingExperience
      case Expertise => expertise
      case Qualifications => qualifications
    }

    /** `{ ...prev, [field]: value }`. */
    function With(field: Field, value: string): (d: FormData)
      ensures d.Get(field) == value
      ensures forall f :: f != field ==> d.Get(f) == Get(f)
    {
      match field
      case Name => this.(name := value)
      case Email => this.(email := value)
      case Password => this.(password := value)
      case Role => this.(role := value)
      case TeachingExperience => this.(teachingExperience := value)
      case Expertise => this.(expertise := value)
      case Qualifications => this.(qualifications := value)
    }
  }

  /** The error messages; the role has none. */
  datatype FormErrors = FormErrors(name: string, email: string, password: string,
                                   teachingExperience: string, expertise: string, qualifications: string)
  {
    /** The error shown for a field, `undefined` (here `None`) for the role. */
    function ErrorOf(field: Field): Option<string> {
      match field
      case Name => Some(name)
      case Email => Some(email)
      case Password => Some(password)
      case Role => None
      case TeachingExperience => Some(teachingExperience)
      case Expertise => Some(expertise)
      case Qualifications => Some(qualifications)
    }

    /** `{ ...prev, [field]: '' }` for a field with an error slot. */
    function Cleared(field: Field): (e: FormErrors)
      requires field != Role
      ensures e.ErrorOf(field) == Some("")
      ensures forall f :: f != field ==> e.ErrorOf(f) == ErrorOf(f)
    {
      match field
      case Name => this.(name := "")
      case Email => this.(email := "")
      case Password => this.(password := "")
      case TeachingExperience => this.(teachingExperience := "")
      case Expertise => this.(expertise := "")
      case Qualifications => this.(qualifications := "")
    }
  }

  const InitialData := FormData("", "", "", "student", "", "", "")
  const NoErrors := FormErrors("", "", "", "", "", "")

  /** The error messages the validator can produce. */
  datatype ErrorMessage = NameRequired | EmailRequired | EmailInvalid | PasswordRequired | PasswordTooShort
                        | ExperienceRequired | ExpertiseRequired | QualificationsRequired

  /** The text of each message; none is empty, so a set message always counts as an error. */
  function Message(m: ErrorMessage): (text: string)
    ensures text != ""
  {
    match m
    case NameRequired => "Name is required"
    case EmailRequired => "Email is required"
    case EmailInvalid => "Email is invalid"
    case PasswordRequired => "Password is required"
    case PasswordTooShort => "Password must be at least 6 characters"
    case ExperienceRequired => "Teaching experience is required for tutors"
    case ExpertiseRequired => "Area of expertise is required for tutors"
    case QualificationsRequired => "Qualifications are required for tutors"
  }

  /** `\S+@\S+\.\S+` matched with the `@` at `p` and the `.` at `q`. */
  predicate EmailShapeAt(s: string, p: nat, q: nat) {
    1 <= p && p + 1 < q && q + 1 < |s| && s[p] == '@' && s[q] == '.' &&
    !IsSpace(s[p - 1]) && !IsSpace(s[q + 1]) && forall k :: p < k < q ==> !IsSpace(s[k])
  }

  /** `/\S+@\S+\.\S+/.test(s)`: the pattern is not anchored, so it may match anywhere. */
  predicate EmailLooksValid(s: string) {
    exists p: nat, q: nat :: p < |s| && q < |s| && EmailShapeAt(s, p, q)
  }

  /** The pattern is not anchored: text around a matching address keeps it matching. */
  lemma {:induction false} EmailUnanchored(s: string, x: string, y: string)
    requires EmailLooksValid(s)
    ensures EmailLooksValid(x + s + y)
  {
    var p: nat, q: nat :| p < |s| && q < |s| && EmailShapeAt(s, p, q);
    var t := x + s + y;
    assert forall k :: 0 <= k < |s| ==> t[|x| + k] == s[k];
    assert EmailShapeAt(t, |x| + p, |x| + q);
  }

  /** The name error: only registration requires a name, and white space counts as one. */
  function NameError(kind: FormKind, data: FormData): string {
    if kind == Register && data.name == "" then Message(NameRequired) else ""
  }

  /** The email error: at most one message, "required" taking precedence over "invalid". */
  function EmailError(data: FormData): string {
    if data.email == "" then Message(EmailRequired)
    else if !EmailLooksValid(data.email) then Message(EmailInvalid)
    else ""
  }

  function PasswordError(data: FormData): string {
    if data.password == "" then Message(PasswordRequired)
    else if |data.password| < 6 then Message(PasswordTooShort)
    else ""
  }

  /** Tutor details are required only when registering as a tutor. */
  predicate TutorDetailsRequired(kind: FormKind, data: FormData) {
    kind == Register && data.role == "tutor"
  }

  /** The error record `validateForm` stores, field by field. */
  function Validation(kind: FormKind, data: FormData): FormErrors {
    var tutor := TutorDetailsRequired(kind, data);
    FormErrors(
      NameError(kind, data),
      EmailError(data),
      PasswordError(data),
      if tutor && data.teachingExperience == "" then Message(ExperienceRequired) else "",
      if tutor && data.expertise == "" then Message(ExpertiseRequired) else "",
      if tutor && data.qualifications == "" then Message(QualificationsRequired) else "")
  }

  /**
   * The form passes exactly when the name (when registering) is non-empty,
   * the email is non-empty and looks like an address, the password has at
   * least six characters, and a registering tutor gave all three details.
   */
  lemma {:induction false} ValidationPasses(kind: FormKind, data: FormData)
    ensures Validation(kind, data) == NoErrors <==>
      && (kind == Register ==> data.name != "")
      && data.email != "" && EmailLooksValid(data.email)
      && |data.password| >= 6
      && (TutorDetailsRequired(kind, data) ==>
            data.teachingExperience != "" && data.expertise != "" && data.qualifications != "")
  {
  }

  /** Logging in never looks at the name or the tutor details. */
  lemma {:induction false} LoginIgnoresName(data: FormData, name: string, details: string)
    ensures Validation(Login, data.(name := name, teachingExperience := details, expertise := details,
                                    qualifications := details, role := "tutor"))
         == Validation(Login, data)
  {
  }

  /** What `handleSubmit` asks the authentication context to do. */
  datatype AuthCall = NoCall | LoginCall(email: string, password: string) | RegisterCall(name: string, email: string, password: string)

  class AuthFormState {
    const kind: FormKind
    var formData: FormData
    var formErrors: FormErrors
    var isLoading: bool

    constructor(kind: FormKind)
      ensures this.kind == kind && formData == InitialData && formErrors == NoErrors && !isLoading
    {
      this.kind := kind;
      formData := InitialData;
      formErrors := NoErrors;
      isLoading := false;
    }

    /** `handleChange`: sets the named field, and clears that field's error and no other. */
    method HandleChange(field: Field, value: string)
      modifies this
      ensures formData == old(formData).With(field, value)
      ensures formErrors.ErrorOf(field) == (if field == Role then None else Some(""))
      ensures forall f :: f != field ==> formErrors.ErrorOf(f) == old(formErrors).ErrorOf(f)
      ensures isLoading == old(isLoading)
    {
      formData := formData.With(field, value);
      var current := formErrors.ErrorOf(field);
      if current.Some? && current.value != "" {
        formErrors := formErrors.Cleared(field);
      }
    }

    /**
     * `validateForm`: builds the error record one check at a time, replaces
     * the stored errors with it, and reports whether every message is empty.
     */
    method ValidateForm() returns (valid: bool)
      modifies this
      ensures formErrors == Validation(kind, formData)
      ensures valid <==> formErrors == NoErrors
      ensures formData == old(formData) && isLoading == old(isLoading)
    {
      var data := formData;
      valid := true;
      var newErrors := NoErrors;
      if kind == Register && data.name == "" {
        newErrors := newErrors.(name := Message(NameRequired));
        valid := false;
      }
      if data.email == "" {
        newErrors := newErrors.(email := Message(EmailRequired));
        valid := false;
      } else if !EmailLooksValid(data.email) {
        newErrors := newErrors.(email := Message(EmailInvalid));
        valid := false;
      }
      if data.password == "" {
        newErrors := newErrors.(password := Message(PasswordRequired));
        valid := false;
      } else if |data.password| < 6 {
        newErrors := newErrors.(password := Message(PasswordTooShort));
        valid := false;
      }
      if kind == Register && data.role == "tutor" {
        if data.teachingExperience == "" {
          newErrors := newErrors.(teachingExperience := Message(ExperienceRequired));
          valid := false;
        }
        if data.expertise == "" {
          newErrors := newErrors.(expertise := Message(ExpertiseRequired));
          valid := false;
        }
        if data.qualifications == "" {
          newErrors := newErrors.(qualifications := Message(QualificationsRequired));
          valid := false;
        }
      }
      formErrors := newErrors;
    }

    /**
     * `handleSubmit`: an invalid form calls nothing; otherwise it logs in
     * with the email and password, or registers with the name, email and
     * password only (the role and tutor details are not passed on). It
     * returns the call made and whether the user is sent to the dashboard,
     * which happens when `authOk`, the outcome of the call, is success.
     */
    method HandleSubmit(authOk: bool) returns (call: AuthCall, navigateTo: Option<string>)
      modifies this
      ensures formErrors == Validation(kind, old(formData)) && formData == old(formData)
      ensures formErrors != NoErrors ==> call == NoCall && navigateTo == None && isLoading == old(isLoading)
      ensures formErrors == NoErrors ==> !isLoading
      ensures formErrors == NoErrors && kind == Login ==> call == LoginCall(formData.email, formData.password)
      ensures formErrors == NoErrors && kind == Register ==>
        call == RegisterCall(formData.name, formData.email, formData.password)
      ensures navigateTo.Some? <==> formErrors == NoErrors && authOk
      ensures navigateTo.Some? ==> navigateTo.value == "/dashboard"
    {
      var valid := ValidateForm();
      if !valid {
        return NoCall, None;
      }
      isLoading := true;
      if kind == Login {
        call := LoginCall(formData.email, formData.password);
      } else {
        call := RegisterCall(formData.name, formData.email, formData.password);
      }
      navigateTo := if authOk then Some("/dashboard") else None;
      isLoading := false;
    }
  }
}
