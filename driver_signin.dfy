/** The driver sign-up page: six fields checked on their trimmed text (the password as
    typed), an optional avatar, and a registration request whose reply is a parameter here.
    A successful registration marks the browser as a driver's and moves on to the car form. */
module DriverSignIn {
  import opened Common
  import opened Validators
  import opened Session

  datatype Field = Name | LastName | Id | Email | Phone | Password

  const AllFields: set<Field> := {Name, LastName, Id, Email, Phone, Password}

  datatype Values = Values(name: string, lastName: string, id: string, email: string,
                           phone: string, password: string) {
    function Get(f: Field): string {
      match f
      case Name => name
      case LastName => lastName
      case Id => id
      case Email => email
      case Phone => phone
      case Password => password
    }

    /** `{ ...prev, [field]: value }` */
    function With(f: Field, value: string): (r: Values)
      ensures r.Get(f) == value
      ensures forall g :: g != f ==> r.Get(g) == Get(g)
    {
      match f
      case Name => this.(name := value)
      case LastName => this.(lastName := value)
      case Id => this.(id := value)
      case Email => this.(email := value)
      case Phone => this.(phone := value)
      case Password => this.(password := value)
    }
  }

  const EmptyValues := Values("", "", "", "", "", "")

  const DriverIdMessage := "Must be 10 digits, starting with 0000 *"

  /** The format test of each field: the trimmed text against the field's pattern, except
      the password, which is tested as typed. */
  predicate FormatOk(f: Field, value: string) {
    match f
    case Name => IsName(Trim(value))
    case LastName => IsName(Trim(value))
    case Id => IsDriverId(Trim(value))
    case Email => IsInstitutionalEmail(Trim(value))
    case Phone => IsPhone(Trim(value))
    case Password => IsStrongPassword(value)
  }

  function FormatMessage(f: Field): string {
    match f
    case Name => OnlyLetters
    case LastName => OnlyLetters
    case Id => DriverIdMessage
    case Email => EmailMessage
    case Phone => PhoneMessage
    case Password => PasswordMessage
  }

  /** `validateFields()`: one entry per field that is blank or fails its format test. */
  function ValidateFields(values: Values): map<Field, string> {
    map f | f in AllFields && FieldError(values.Get(f), FormatOk(f, values.Get(f)), FormatMessage(f)).Some?
      :: FieldError(values.Get(f), FormatOk(f, values.Get(f)), FormatMessage(f)).value
  }

  /** A field has an error exactly when it is blank or fails its format test; a blank field
      is reported as required, never as malformed. */
  lemma ValidateFieldsMeaning(values: Values, f: Field)
    ensures f in ValidateFields(values) <==> Blank(values.Get(f)) || !FormatOk(f, values.Get(f))
    ensures Blank(values.Get(f)) ==> ValidateFields(values)[f] == Required
    ensures !Blank(values.Get(f)) && !FormatOk(f, values.Get(f)) ==> ValidateFields(values)[f] == FormatMessage(f)
  {
    var e := FieldError(values.Get(f), FormatOk(f, values.Get(f)), FormatMessage(f));
    assert f in AllFields by {
      match f
      case Name => case LastName => case Id => case Email => case Phone => case Password =>
    }
  }

  /** Surrounding spaces do not fail the format test of a trimmed field: the ID
      " 0000123456 " passes, because the text tested is its trim. */
  lemma IdTrimmedBeforeTest()
    ensures FormatOk(Id, " 0000123456 ")
  {
    var s := " 0000123456 ";
    TrimNoWhitespaceAtEnds(s[1..11]);
    assert TrimStart(s) == s[1..];
    assert TrimEnd(s[1..]) == s[1..11];
    assert Trim(s) == "0000123456";
  }

  // ---------------------------------------------------------------------------
  // The page.

  /** The registration sent to the backend: the fields as typed (not trimmed), the
      university ID under `idUniversidad`, the role "driver", and the avatar when one was
      accepted. */
  datatype Registration = Registration(name: string, lastName: string, idUniversidad: string,
                                       email: string, phone: string, password: string,
                                       role: string, avatar: Option<File>)

  function RegistrationOf(values: Values, avatar: Option<File>): (r: Registration)
    ensures r.role == "driver" && r.avatar == avatar && r.idUniversidad == values.id
    ensures r.name == values.name && r.lastName == values.lastName && r.email == values.email
    ensures r.phone == values.phone && r.password == values.password
  {
    Registration(values.name, values.lastName, values.id, values.email, values.phone,
                 values.password, "driver", avatar)
  }

  /** The backend's answer: the request failed or the body was unreadable, the registration
      was refused with a message ("" when it sent none), or it succeeded with a token ("" when
      it sent none). */
  datatype RegisterReply = ConnectionError | Refused(message: string) | Registered(token: string)

  const RegisterFailed := "Error al registrar usuario."
  const ConnectionFailed := "⚠️ Error al conectar con el servidor."

  /** Storage after a successful registration: the token when one came back, then the role
      marker and the authentication flag. */
  function StorageAfterRegister(items: map<string, string>, token: string): map<string, string> {
    var withToken := if token != "" then items["token" := token] else items;
    withToken["userRole" := "driver"]["isAuthenticated" := "true"]
  }

  /** Registration never stores a user record: the session provider reading this storage at
      start-up finds exactly the user it found before, so a driver who has just registered
      has no session user until logging in. */
  lemma RegisterStoresNoUser(items: map<string, string>, token: string)
    requires Readable(items)
    ensures Readable(StorageAfterRegister(items, token))
    ensures Rehydrate(StorageAfterRegister(items, token)).user == Rehydrate(items).user
    ensures token != "" ==> Rehydrate(StorageAfterRegister(items, token)).token == Some(token)
    ensures token == "" ==> Rehydrate(StorageAfterRegister(items, token)).token == Rehydrate(items).token
  {
    var after := StorageAfterRegister(items, token);
    assert "user" in after <==> "user" in items;
    assert "user" in items ==> after["user"] == items["user"];
  }

  class DriverSignInPage {
    var values: Values
    var errors: map<Field, string>
    var preview: Option<string>
    var selectedFile: Option<File>
    var imageError: string
    var serverError: string
    var submitted: bool

    constructor ()
      ensures values == EmptyValues && errors == map[]
      ensures preview.None? && selectedFile.None? && imageError == "" && serverError == ""
      ensures !submitted
    {
      values := EmptyValues;
      errors := map[];
      preview := None;
      selectedFile := None;
      imageError := "";
      serverError := "";
      submitted := false;
    }

    /** Choosing an avatar. No file clears the choice and the preview; a file of the wrong
        type or over 2 MB clears the chosen file (the old preview stays on screen) and sets
        the matching message; an acceptable file becomes the choice, previewed at `url`. */
    method ValidateAndSetImage(file: Option<File>, url: string)
      modifies this
      ensures values == old(values) && errors == old(errors) && serverError == old(serverError)
      ensures submitted == old(submitted)
      ensures match CheckUpload(file, ImageTypes)
        case NoFile => selectedFile.None? && preview.None? && imageError == ""
        case UnsupportedType => selectedFile.None? && preview == old(preview) && imageError == ImageTypeMessage
        case TooLarge => selectedFile.None? && preview == old(preview) && imageError == ImageSizeMessage
        case Acceptable(f) => selectedFile == Some(f) && preview == Some(url) && imageError == ""
    {
      imageError := "";
      match CheckUpload(file, ImageTypes)
      case NoFile =>
        selectedFile := None;
        preview := None;
      case UnsupportedType =>
        imageError := ImageTypeMessage;
        selectedFile := None;
      case TooLarge =>
        imageError := ImageSizeMessage;
        selectedFile := None;
      case Acceptable(f) =>
        preview := Some(url);
        selectedFile := Some(f);
    }

    /** Typing into a field: that field's value, its error cleared, and the server message
        cleared. */
    method HandleChange(f: Field, value: string)
      modifies this
      ensures values == old(values).With(f, value)
      ensures errors == old(errors)[f := ""]
      ensures serverError == ""
      ensures preview == old(preview) && selectedFile == old(selectedFile)
      ensures imageError == old(imageError) && submitted == old(submitted)
    {
      values := values.With(f, value);
      errors := errors[f := ""];
      serverError := "";
    }

    /** Pressing "Continue". Nothing is sent while a field has an error or the last avatar
        choice was rejected; otherwise `sent` is the registration, and the reply decides the
        storage writes, the message and whether the page moves on to "/carSignIn". */
    method HandleAddCar(reply: RegisterReply, storage: LocalStorage)
      returns (sent: Option<Registration>, navigateTo: Option<string>)
      modifies this, storage
      ensures submitted && values == old(values) && errors == ValidateFields(values)
      ensures preview == old(preview) && selectedFile == old(selectedFile) && imageError == old(imageError)
      ensures sent.Some? <==> errors == map[] && imageError == ""
      ensures sent.Some? ==> sent.value == RegistrationOf(values, selectedFile)
      ensures sent.None? ==> serverError == "" && storage.items == old(storage.items) && navigateTo.None?
      ensures sent.Some? && reply.Registered? ==>
                && storage.items == StorageAfterRegister(old(storage.items), reply.token)
                && serverError == "" && navigateTo == Some("/carSignIn")
      ensures sent.Some? && reply.Refused? ==>
                && storage.items == old(storage.items)
                && serverError == OrElse(reply.message, RegisterFailed) && navigateTo.None?
      ensures sent.Some? && reply.ConnectionError? ==>
                && storage.items == old(storage.items)
                && serverError == ConnectionFailed && navigateTo.None?
    {
      submitted := true;
      serverError := "";
      errors := ValidateFields(values);
      sent := None;
      navigateTo := None;
      if errors != map[] || imageError != "" {
        return;
      }
      sent := Some(RegistrationOf(values, selectedFile));
      match reply
      case Refused(message) =>
        serverError := OrElse(message, RegisterFailed);
      case ConnectionError =>
        serverError := ConnectionFailed;
      case Registered(token) =>
        if token != "" {
          storage.SetItem("token", token);
        }
        storage.SetItem("userRole", "driver");
        storage.SetItem("isAuthenticated", "true");
        navigateTo := Some("/carSignIn");
    }
  }
}
