/** The car registration page a new driver reaches after signing up: plate, capacity, make
    and model, a car photo and an insurance document (SOAT), sent with the stored token. The
    reply is a parameter here. */
module CarSignIn {
  import opened Common
  import opened Validators
  import opened Session

  datatype Field = LicensePlate | Capacity | Make | Model

  const AllFields: set<Field> := {LicensePlate, Capacity, Make, Model}

  datatype Values = Values(licensePlate: string, capacity: string, make: string, model: string) {
    function Get(f: Field): string {
      match f
      case LicensePlate => licensePlate
      case Capacity => capacity
      case Make => make
      case Model => model
    }

    /** `{ ...prev, [key]: value }` */
    function With(f: Field, value: string): (r: Values)
      ensures r.Get(f) == value
      ensures forall g :: g != f ==> r.Get(g) == Get(g)
    {
      match f
      case LicensePlate => this.(licensePlate := value)
      case Capacity => this.(capacity := value)
      case Make => this.(make := value)
      case Model => this.(model := value)
    }
  }

  const EmptyValues := Values("", "", "", "")

  // ---------------------------------------------------------------------------
  // The choices the page offers.

  /** The capacity options, as the select's values. */
  const CapacityOptions: seq<string> := ["2", "3", "4", "5", "6", "7"]

  /** The makes in the order the select lists them, and each make's models. */
  const MakeNames: seq<string> := ["Toyota", "Mazda", "Chevrolet", "Renault", "Kia"]

  const CarMakes: map<string, seq<string>> := map[
    "Toyota" := ["Corolla", "Yaris", "Hilux", "RAV4"],
    "Mazda" := ["Mazda 2", "Mazda 3", "CX-5"],
    "Chevrolet" := ["Spark", "Sail", "Onix", "Tracker"],
    "Renault" := ["Logan", "Sandero", "Duster"],
    "Kia" := ["Picanto", "Rio", "Sportage"]
  ]

  /** The model options under the chosen make: none until a make is chosen. */
  function ModelOptions(make: string): (r: seq<string>)
    requires make == "" || make in CarMakes
    ensures make == "" ==> r == []
  {
    if make == "" then [] else CarMakes[make]
  }

  /** The make select lists exactly the keys of the table, and every option of every select
      is a non-empty value. */
  lemma OptionsAreNonEmpty()
    ensures forall m :: m in MakeNames <==> m in CarMakes
    ensures forall c :: c in CapacityOptions ==> c != ""
    ensures forall m, x :: m in CarMakes && x in CarMakes[m] ==> x != ""
  {
    forall m, x | m in CarMakes && x in CarMakes[m] ensures x != "" {
      assert m in MakeNames;
    }
  }

  // ---------------------------------------------------------------------------
  // Field checks.

  const PlateMessage := "Invalid plate. Use 3 letters + 3 numbers"

  /** The plate is required on its trimmed text and then must be three letters of either
      case and three digits; capacity, make and model are only required. */
  function FieldCheck(f: Field, values: Values): Option<string> {
    match f
    case LicensePlate =>
      FieldError(values.licensePlate, IsPlate(Trim(values.licensePlate)), PlateMessage)
    case _ => if values.Get(f) == "" then Some(Required) else None
  }

  /** The field errors `handleContinue` records. */
  function FieldErrors(values: Values): map<Field, string> {
    map f | f in AllFields && FieldCheck(f, values).Some? :: FieldCheck(f, values).value
  }

  lemma FieldErrorsMeaning(values: Values)
    ensures LicensePlate in FieldErrors(values) <==>
              Blank(values.licensePlate) || !IsPlate(Trim(values.licensePlate))
    ensures Blank(values.licensePlate) ==> FieldErrors(values)[LicensePlate] == Required
    ensures !Blank(values.licensePlate) && !IsPlate(Trim(values.licensePlate)) ==>
              FieldErrors(values)[LicensePlate] == PlateMessage
    ensures forall f :: f != LicensePlate ==> (f in FieldErrors(values) <==> values.Get(f) == "")
    ensures forall f :: f != LicensePlate && f in FieldErrors(values) ==> FieldErrors(values)[f] == Required
  {
    assert LicensePlate in AllFields;
    forall f | f != LicensePlate
      ensures f in FieldErrors(values) <==> values.Get(f) == ""
    {
      assert f in AllFields by {
        match f
        case LicensePlate => case Capacity => case Make => case Model =>
      }
    }
  }

  /** Choosing a plate of the right shape and one option from each select leaves no field
      error. */
  lemma SelectedOptionsPass(values: Values)
    requires IsPlate(Trim(values.licensePlate))
    requires values.capacity in CapacityOptions && values.make in MakeNames
    requires values.model in ModelOptions(values.make)
    ensures FieldErrors(values) == map[]
  {
    OptionsAreNonEmpty();
    TrimEmpty(values.licensePlate);
    FieldErrorsMeaning(values);
    forall f ensures f !in FieldErrors(values) {
      match f
      case LicensePlate =>
      case Capacity => assert values.capacity != "";
      case Make => assert values.make != "";
      case Model => assert values.model != "";
    }
    assert FieldErrors(values).Keys == {};
  }

  // ---------------------------------------------------------------------------
  // The two document slots.

  const DocTypeMessage := "Not supported. Use JPG/PNG/PDF."
  const DocSizeMessage := "File too large. Max 2MB."

  /** One upload slot: the file's name as shown, its preview ("pdf" for a PDF, otherwise a
      temporary URL), the chosen file, and the slot's message. */
  datatype DocSlot = DocSlot(fileName: string, preview: Option<string>, file: Option<File>, error: string)

  const EmptySlot := DocSlot("", None, None, "")

  /** `validateAndSetFile`: no file empties the slot; a file of the wrong type or over 2 MB
      sets only the message, keeping the previous file; an acceptable file fills the slot. */
  function ChooseDocument(slot: DocSlot, file: Option<File>, url: string): (r: DocSlot)
    ensures file.None? ==> r == EmptySlot
    ensures CheckUpload(file, DocumentTypes) == UnsupportedType ==> r == slot.(error := DocTypeMessage)
    ensures CheckUpload(file, DocumentTypes) == TooLarge ==> r == slot.(error := DocSizeMessage)
    ensures CheckUpload(file, DocumentTypes).Acceptable? ==>
              && r.file == file && r.fileName == file.value.name && r.error == ""
              && r.preview == Some(if file.value.mime == "application/pdf" then "pdf" else url)
  {
    match CheckUpload(file, DocumentTypes)
    case NoFile => EmptySlot
    case UnsupportedType => slot.(error := DocTypeMessage)
    case TooLarge => slot.(error := DocSizeMessage)
    case Acceptable(f) =>
      DocSlot(f.name, Some(if f.mime == "application/pdf" then "pdf" else url), Some(f), "")
  }

  /** A slot's message after pressing "Continue": "Required field *" when it holds no file,
      otherwise unchanged. */
  function MarkMissing(slot: DocSlot): (r: DocSlot)
    ensures slot.file.None? ==> r == slot.(error := Required)
    ensures slot.file.Some? ==> r == slot
  {
    if slot.file.None? then slot.(error := Required) else slot
  }

  // ---------------------------------------------------------------------------
  // Submitting.

  /** Whether "Continue" stops before the request: a field error, or a message that either
      slot showed BEFORE the press. The messages the press itself writes for missing files
      are not yet visible to the check that follows them. */
  predicate Blocked(values: Values, photoError: string, soatError: string) {
    FieldErrors(values) != map[] || photoError != "" || soatError != ""
  }

  /** The request: the four fields as typed, both files (absent ones included), and the
      bearer header when a token is stored. */
  datatype CarRegistration = CarRegistration(licensePlate: string, capacity: string, make: string,
                                             model: string, carPhoto: Option<File>, soat: Option<File>,
                                             authorization: Option<string>)

  /** `token ? "Bearer " + token : undefined` */
  function Authorization(token: Option<string>): (r: Option<string>)
    ensures r.Some? <==> Present(token)
    ensures r.Some? ==> r.value == "Bearer " + token.value
  {
    if Present(token) then Some("Bearer " + token.value) else None
  }

  datatype CarReply = ConnectionError | Refused(message: string) | Saved

  datatype Message = Message(kind: string, text: string)

  const AlreadyRegistered := "Vehicle already registered."
  const ConnectionFailed := "Error connecting to the server."

  /** A first press with valid fields and no earlier slot message sends the request even
      when neither document was chosen; the press marks both slots, so a second press with
      the same state is blocked. */
  lemma MissingDocumentsBlockOnlyTheSecondPress(values: Values, photo: DocSlot, soat: DocSlot)
    requires FieldErrors(values) == map[] && photo.error == "" && soat.error == ""
    requires photo.file.None? && soat.file.None?
    ensures !Blocked(values, photo.error, soat.error)
    ensures Blocked(values, MarkMissing(photo).error, MarkMissing(soat).error)
  {
  }

  class CarSignInPage {
    var values: Values
    var errors: map<Field, string>
    var carPhoto: DocSlot
    var soat: DocSlot
    var submitted: bool
    var formMessage: Option<Message>
    var showBackArrow: bool

    constructor ()
      ensures values == EmptyValues && errors == map[] && carPhoto == EmptySlot && soat == EmptySlot
      ensures !submitted && formMessage.None? && showBackArrow
    {
      values := EmptyValues;
      errors := map[];
      carPhoto := EmptySlot;
      soat := EmptySlot;
      submitted := false;
      formMessage := None;
      showBackArrow := true;
    }

    /** Choosing a make resets the model; errors are left as they are. */
    method HandleMakeChange(make: string)
      modifies this
      ensures values == old(values).(make := make, model := "")
      ensures errors == old(errors) && carPhoto == old(carPhoto) && soat == old(soat)
      ensures submitted == old(submitted) && formMessage == old(formMessage)
      ensures showBackArrow == old(showBackArrow)
    {
      values := values.(make := make, model := "");
    }

    method HandleChange(f: Field, value: string)
      modifies this
      ensures values == old(values).With(f, value) && errors == old(errors)[f := ""]
      ensures carPhoto == old(carPhoto) && soat == old(soat)
      ensures submitted == old(submitted) && formMessage == old(formMessage)
      ensures showBackArrow == old(showBackArrow)
    {
      values := values.With(f, value);
      errors := errors[f := ""];
    }

    method ChooseCarPhoto(file: Option<File>, url: string)
      modifies this
      ensures carPhoto == ChooseDocument(old(carPhoto), file, url)
      ensures values == old(values) && errors == old(errors) && soat == old(soat)
      ensures submitted == old(submitted) && formMessage == old(formMessage)
      ensures showBackArrow == old(showBackArrow)
    {
      carPhoto := ChooseDocument(carPhoto, file, url);
    }

    method ChooseSoat(file: Option<File>, url: string)
      modifies this
      ensures soat == ChooseDocument(old(soat), file, url)
      ensures values == old(values) && errors == old(errors) && carPhoto == old(carPhoto)
      ensures submitted == old(submitted) && formMessage == old(formMessage)
      ensures showBackArrow == old(showBackArrow)
    {
      soat := ChooseDocument(soat, file, url);
    }

    /** Pressing "Continue". Storage is only read, for the token. */
    method HandleContinue(reply: CarReply, storage: LocalStorage)
      returns (sent: Option<CarRegistration>, navigateTo: Option<string>)
      modifies this
      ensures submitted && values == old(values) && errors == FieldErrors(values)
      ensures carPhoto == MarkMissing(old(carPhoto)) && soat == MarkMissing(old(soat))
      ensures sent.Some? <==> !Blocked(values, old(carPhoto.error), old(soat.error))
      ensures sent.Some? ==> sent.value == CarRegistration(values.licensePlate, values.capacity,
                                values.make, values.model, carPhoto.file, soat.file,
                                Authorization(storage.GetItem("token")))
      ensures sent.None? ==> formMessage.None? && navigateTo.None? && showBackArrow == old(showBackArrow)
      ensures sent.Some? && reply.Saved? ==>
                formMessage.None? && !showBackArrow && navigateTo == Some("/driverHome")
      ensures sent.Some? && reply.Refused? ==>
                && formMessage == Some(Message("error", OrElse(reply.message, AlreadyRegistered)))
                && showBackArrow == old(showBackArrow) && navigateTo.None?
      ensures sent.Some? && reply.ConnectionError? ==>
                && formMessage == Some(Message("error", ConnectionFailed))
                && showBackArrow == old(showBackArrow) && navigateTo.None?
    {
      submitted := true;
      formMessage := None;
      var photoError, soatError := carPhoto.error, soat.error;
      errors := FieldErrors(values);
      carPhoto := MarkMissing(carPhoto);
      soat := MarkMissing(soat);
      sent := None;
      navigateTo := None;
      if Blocked(values, photoError, soatError) {
        return;
      }
      sent := Some(CarRegistration(values.licensePlate, values.capacity, values.make, values.model,
                                   carPhoto.file, soat.file, Authorization(storage.GetItem("token"))));
      match reply
      case Saved =>
        showBackArrow := false;
        navigateTo := Some("/driverHome");
      case Refused(message) =>
        formMessage := Some(Message("error", OrElse(message, AlreadyRegistered)));
      case ConnectionError =>
        formMessage := Some(Message("error", ConnectionFailed));
    }
  }
}
