/** The registration and login schemas as validity checks: each returns the
    set of fields that fail, and a form is valid when that set is empty.
    Whether a string is an email address or a URL is decided by the
    validation library; the checks receive those two tests as a `Library`. */
module AuthSchema {
  import opened Api
  import Roles

  /** The library's email and URL tests. */
  datatype Library = Library(isEmail: string -> bool, isUrl: string -> bool)

  datatype Field = Name | Email | Password | Specialization | PhotoUrl | Role

  datatype PatientForm = PatientForm(name: string, email: string, password: string,
                                     photoUrl: Option<string>)

  datatype DoctorForm = DoctorForm(name: string, email: string, password: string,
                                   specialization: string, photoUrl: Option<string>)
  {
    /** The same form without its specialization. */
    function WithoutSpecialization(): PatientForm {
      PatientForm(name, email, password, photoUrl)
    }
  }

  datatype LoginForm = LoginForm(email: string, password: string, role: string)

  const MinName: nat := 2
  const MinPassword: nat := 6
  const MinSpecialization: nat := 2

  /** `z.string().url().optional().or(z.literal(""))`: absent, empty, or a URL. */
  predicate PhotoUrlOk(lib: Library, photoUrl: Option<string>) {
    photoUrl.None? || photoUrl.value == "" || lib.isUrl(photoUrl.value)
  }

  /** The failing fields of `patientRegisterSchema`. */
  function PatientIssues(lib: Library, f: PatientForm): (issues: set<Field>)
    ensures issues <= {Name, Email, Password, PhotoUrl}
    ensures Name in issues <==> |f.name| < MinName
    ensures Email in issues <==> !lib.isEmail(f.email)
    ensures Password in issues <==> |f.password| < MinPassword
    ensures PhotoUrl in issues <==> !PhotoUrlOk(lib, f.photoUrl)
  {
    (if |f.name| < MinName then {Name} else {})
    + (if !lib.isEmail(f.email) then {Email} else {})
    + (if |f.password| < MinPassword then {Password} else {})
    + (if !PhotoUrlOk(lib, f.photoUrl) then {PhotoUrl} else {})
  }

  /** The failing fields of `doctorRegisterSchema`: the patient rules on the
      shared fields, plus the specialization rule. */
  function DoctorIssues(lib: Library, f: DoctorForm): (issues: set<Field>)
    ensures issues - {Specialization} == PatientIssues(lib, f.WithoutSpecialization())
    ensures Specialization in issues <==> |f.specialization| < MinSpecialization
  {
    (if |f.name| < MinName then {Name} else {})
    + (if !lib.isEmail(f.email) then {Email} else {})
    + (if |f.password| < MinPassword then {Password} else {})
    + (if |f.specialization| < MinSpecialization then {Specialization} else {})
    + (if !PhotoUrlOk(lib, f.photoUrl) then {PhotoUrl} else {})
  }

  /** The failing fields of `loginSchema`. The role must be one of the two
      enum names; its refinement (`val !== undefined`) holds of both and
      never adds an issue. */
  function LoginIssues(lib: Library, f: LoginForm): (issues: set<Field>)
    ensures issues <= {Email, Password, Role}
    ensures Email in issues <==> !lib.isEmail(f.email)
    ensures Password in issues <==> |f.password| < MinPassword
    ensures Role in issues <==> f.role != "patient" && f.role != "doctor"
  {
    (if !lib.isEmail(f.email) then {Email} else {})
    + (if |f.password| < MinPassword then {Password} else {})
    + (if Roles.Parse(f.role).None? then {Role} else {})
  }

  predicate PatientValid(lib: Library, f: PatientForm) {
    PatientIssues(lib, f) == {}
  }

  predicate DoctorValid(lib: Library, f: DoctorForm) {
    DoctorIssues(lib, f) == {}
  }

  predicate LoginValid(lib: Library, f: LoginForm) {
    LoginIssues(lib, f) == {}
  }

  /** A patient form is valid exactly when the name has at least 2
      characters, the email passes, the password has at least 6 characters
      and the photo URL is absent, empty or a URL. */
  lemma PatientValidIff(lib: Library, f: PatientForm)
    ensures PatientValid(lib, f) <==>
              |f.name| >= 2 && lib.isEmail(f.email) && |f.password| >= 6 && PhotoUrlOk(lib, f.photoUrl)
  {
  }

  /** A doctor form is valid exactly when, without its specialization, it is
      a valid patient form and the specialization has at least 2 characters. */
  lemma DoctorValidIff(lib: Library, f: DoctorForm)
    ensures DoctorValid(lib, f) <==>
              PatientValid(lib, f.WithoutSpecialization()) && |f.specialization| >= 2
  {
  }

  /** Login is valid exactly when the email passes, the password has at
      least 6 characters and the role is `"patient"` or `"doctor"`. */
  lemma LoginValidIff(lib: Library, f: LoginForm)
    ensures LoginValid(lib, f) <==>
              lib.isEmail(f.email) && |f.password| >= 6 && Roles.Parse(f.role).Some?
  {
  }

  /** An absent photo URL and an empty one are treated alike. */
  lemma EmptyPhotoUrlIsAbsent(lib: Library, f: PatientForm)
    ensures PatientValid(lib, f.(photoUrl := None)) <==> PatientValid(lib, f.(photoUrl := Some("")))
  {
  }

  /** A password of 5 characters or fewer fails every schema. */
  lemma ShortPasswordRejected(lib: Library, password: string, p: PatientForm, d: DoctorForm, l: LoginForm)
    requires |password| <= 5
    ensures !PatientValid(lib, p.(password := password))
    ensures !DoctorValid(lib, d.(password := password))
    ensures !LoginValid(lib, l.(password := password))
  {
  }
}
