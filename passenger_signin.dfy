/** The passenger sign-up page: six fields, required on their trimmed text but format-checked
    as typed, an optional avatar, and a registration request whose reply is a parameter here.
    A successful registration marks the browser as a passenger's and goes to the passenger
    home page. */
module PassengerSignIn {
  import opened Common
  import opened Validators
  import opened Session
  import opened Routing

  datatype Field = Nombre | Apellido | IdUniversidad | Email | Celular | Password

  const AllFields: set<Field> := {Nombre, Apellido, IdUniversidad, Email, Celular, Password}

  datatype Values = Values(nombre: string, apellido: string, idUniversidad: string,
                           email: string, celular: string, password: string) {
    function Get(f: Field): string {
      match f
      case Nombre => nombre
      case Apellido => apellido
      case IdUniversidad => idUniversidad
      case Email => email
      case Celular => celular
      case Password => password
    }

    /** `{ ...prev, [field]: value }` */
    function With(f: Field, value: string): (r: Values)
      ensures r.Get(f) == value
      ensures forall g :: g != f ==> r.Get(g) == Get(g)
    {
      match f
      case Nombre => this.(nombre := value)
      case Apellido => this.(apellido := value)
      case IdUniversidad => this.(idUniversidad := value)
      case Email => this.(email := value)
      case Celular => this.(celular := value)
      case Password => this.(password := value)
    }
  }

  const EmptyValues := Values("", "", "", "", "", "")

  const IdMessage := "Invalid ID format *"

  /** The format test of each field, on the text as typed. */
  predicate FormatOk(f: Field, value: string) {
    match f
    case Nombre => IsName(value)
    case Apellido => IsName(value)
    case IdUniversidad => IsPassengerId(value)
    case Email => IsInstitutionalEmail(value)
    case Celular => IsPhone(value)
    case Password => IsStrongPassword(value)
  }

  function FormatMessage(f: Field): string {
    match f
    case Nombre => OnlyLetters
    case Apellido => OnlyLetters
    case IdUniversidad => IdMessage
    case Email => EmailMessage
    case Celular => PhoneMessage
    case Password => PasswordMessage
  }

  /** `validateForm()`: one entry per field that is blank or fails its format test. */
  function ValidateForm(values: Values): map<Field, string> {
    map f | f in AllFields && FieldError(values.Get(f), FormatOk(f, values.Get(f)), FormatMessage(f)).Some?
      :: FieldError(values.Get(f), FormatOk(f, values.Get(f)), FormatMessage(f)).value
  }

  /** A field has an error exactly when it is blank or fails its format test; a blank field
      is reported as required, never as malformed. */
  lemma ValidateFormMeaning(values: Values, f: Field)
    ensures f in ValidateForm(values) <==> Blank(values.Get(f)) || !FormatOk(f, values.Get(f))
    ensures Blank(values.Get(f)) ==> ValidateForm(values)[f] == Required
    ensures !Blank(values.Get(f)) && !FormatOk(f, values.Get(f)) ==> ValidateForm(values)[f] == FormatMessage(f)
  {
    assert f in AllFields by {
      match f
      case Nombre => case Apellido => case IdUniversidad => case Email => case Celular => case Password =>
    }
  }

  /** The format test sees the text as typed: an ID with a trailing space is not blank, yet
      it fails, and is reported as malformed. */
  lemma UntrimmedIdRejected(values: Values)
    requires values.idUniversidad == "12345 "
    ensures ValidateForm(values)[IdUniversidad] == IdMessage
  {
    assert !IsWhitespace(values.idUniversidad[0]);
    ValidateFormMeaning(values, IdUniversidad);
  }

  // ---------------------------------------------------------------------------
  // The page.

  /** The registration sent to the backend: the six fields as typed, the role "passenger",
      and the avatar when one was accepted. */
  datatype Registration = Registration(values: Values, role: string, avatar: Option<File>)

  datatype RegisterReply = ConnectionError | Refused(message: string) | Registered

  const RegisterFailed := "Error al registrar usuario."
  const ConnectionFailed := "⚠️ Error al conectar con el servidor."

  /** Storage after a successful registration: the role marker and the authentication flag,
      and nothing else. */
  function StorageAfterSignUp(items: map<string, string>): map<string, string> {
    items["userRole" := "passenger"]["isAuthenticated" := "true"]
  }

  /** Registration writes neither "user" nor "token": a reload finds the session it found
      before. So a visitor without a session, sent on to the guarded home page, is redirected
      to "/login" there. */
  lemma SignUpLandsOnLogIn(items: map<string, string>)
    requires Readable(items)
    ensures Readable(StorageAfterSignUp(items))
    ensures Rehydrate(StorageAfterSignUp(items)) == Rehydrate(items).(items := StorageAfterSignUp(items))
    ensures !Authenticated(Rehydrate(items)) ==>
              Navigate("/passengerHome", Authenticated(Rehydrate(StorageAfterSignUp(items))),
                       Rehydrate(StorageAfterSignUp(items)).user) == Go("/login")
  {
    var after := StorageAfterSignUp(items);
    assert "user" in after <==> "user" in items;
    assert "token" in after <==> "token" in items;
    assert "user" in items ==> after["user"] == items["user"];
    assert "token" in items ==> after["token"] == items["token"];
    NavigateDeclared(7, Authenticated(Rehydrate(after)), Rehydrate(after).user);
  }

  class PassengerSignInPage {
    var values: Values
    var errors: map<Field, string>
    var preview: Option<string>
    var selectedFile: Option<File>
    var imageError: string
    var serverError: string
    var submitted: bool
    var loading: bool

    constructor ()
      ensures values == EmptyValues && errors == map[]
      ensures preview.None? && selectedFile.None? && imageError == "" && serverError == ""
      ensures !submitted && !loading
    {
      values := EmptyValues;
      errors := map[];
      preview := None;
      selectedFile := None;
      imageError := "";
      serverError := "";
      submitted := false;
      loading := false;
    }

    /** Choosing an avatar. No file clears the choice and the preview; a file of the wrong
        type or over 2 MB only sets the matching message, keeping the previous choice and
        preview; an acceptable file becomes the choice, previewed at `url`. */
    method ValidateAndSetImage(file: Option<File>, url: string)
      modifies this
      ensures values == old(values) && errors == old(errors) && serverError == old(serverError)
      ensures submitted == old(submitted) && loading == old(loading)
      ensures match CheckUpload(file, ImageTypes)
        case NoFile => selectedFile.None? && preview.None? && imageError == ""
        case UnsupportedType =>
          selectedFile == old(selectedFile) && preview == old(preview) && imageError == ImageTypeMessage
        case TooLarge =>
          selectedFile == old(selectedFile) && preview == old(preview) && imageError == ImageSizeMessage
        case Acceptable(f) => selectedFile == Some(f) && preview == Some(url) && imageError == ""
    {
      imageError := "";
      match CheckUpload(file, ImageTypes)
      case NoFile =>
        selectedFile := None;
        preview := None;
      case UnsupportedType =>
        imageError := ImageTypeMessage;
      case TooLarge =>
        imageError := ImageSizeMessage;
      case Acceptable(f) =>
        preview := Some(url);
        selectedFile := Some(f);
    }

    /** Typing into a field: that field's value, its error cleared, and the server message
        cleared. */
    method HandleChange(f: Field, value: string)
      modifies this
      ensures values == old(values).With(f, value)
      ensures errors == old(errors)[f := ""]
      ensures serverError == ""
      ensures preview == old(preview) && selectedFile == old(selectedFile)
      ensures imageError == old(imageError) && submitted == old(submitted) && loading == old(loading)
    {
      values := values.With(f, value);
      errors := errors[f := ""];
      serverError := "";
    }

    /** Pressing "Sign up". Nothing is sent while a field has an error or the last avatar
        choice was rejected; otherwise `sent` is the registration, and the reply decides the
        storage writes, the message and whether the page goes to "/passengerHome". Loading
        is off again once the reply is handled. */
    method HandleSignUp(reply: RegisterReply, storage: LocalStorage)
      returns (sent: Option<Registration>, navigateTo: Option<string>)
      modifies this, storage
      ensures submitted && values == old(values) && errors == ValidateForm(values)
      ensures preview == old(preview) && selectedFile == old(selectedFile) && imageError == old(imageError)
      ensures sent.Some? <==> errors == map[] && imageError == ""
      ensures sent.Some? ==> sent.value == Registration(values, "passenger", selectedFile) && !loading
      ensures sent.None? ==> && serverError == "" && storage.items == old(storage.items)
                             && navigateTo.None? && loading == old(loading)
      ensures sent.Some? && reply.Registered? ==>
                && storage.items == StorageAfterSignUp(old(storage.items))
                && serverError == "" && navigateTo == Some("/passengerHome")
      ensures sent.Some? && reply.Refused? ==>
                && storage.items == old(storage.items)
                && serverError == OrElse(reply.message, RegisterFailed) && navigateTo.None?
      ensures sent.Some? && reply.ConnectionError? ==>
                && storage.items == old(storage.items)
                && serverError == ConnectionFailed && navigateTo.None?
    {
      submitted := true;
      serverError := "";
      errors := ValidateForm(values);
      sent := None;
      navigateTo := None;
      if errors != map[] || imageError != "" {
        return;
      }
      loading := true;
      sent := Some(Registration(values, "passenger", selectedFile));
      match reply {
        case Refused(message) =>
          serverError := OrElse(message, RegisterFailed);
        case ConnectionError =>
          serverError := ConnectionFailed;
        case Registered =>
          storage.SetItem("userRole", "passenger");
          storage.SetItem("isAuthenticated", "true");
          navigateTo := Some("/passengerHome");
      }
      loading := false;
    }
  }
}
