/** The log-in page: two required fields, a request whose reply is a parameter here, the
    session written straight into storage on success, and a redirect chosen by role. */
module LogIn {
  import opened Common
  import opened Validators
  import opened Session
  import opened Routing

  datatype Field = Email | Password

  datatype Values = Values(email: string, password: string) {
    function Get(f: Field): string {
      match f
      case Email => email
      case Password => password
    }

    /** `{ ...values, [key]: value }` */
    function With(f: Field, value: string): (r: Values)
      ensures r.Get(f) == value
      ensures forall g :: g != f ==> r.Get(g) == Get(g)
    {
      match f
      case Email => this.(email := value)
      case Password => this.(password := value)
    }
  }

  /** The banner under the form: `{ type, text }`. */
  datatype Message = Message(kind: string, text: string)

  const NoMessage := Message("", "")

  /** The errors `validateForm` records: "Required field *" under each field that is empty
      after trimming. */
  function FormErrors(values: Values): map<Field, string> {
    var e := if Trim(values.email) == "" then map[Email := Required] else map[];
    if Trim(values.password) == "" then e[Password := Required] else e
  }

  /** `validateForm()`'s result: no error was recorded. */
  function ValidateForm(values: Values): bool {
    FormErrors(values) == map[]
  }

  /** A field gets an error exactly when it is blank, the error is always "Required field *",
      and the form is valid exactly when both fields have content. */
  lemma FormErrorsMeaning(values: Values)
    ensures forall f :: f in FormErrors(values) <==> Blank(values.Get(f))
    ensures forall f :: f in FormErrors(values) ==> FormErrors(values)[f] == Required
    ensures ValidateForm(values) <==> !Blank(values.email) && !Blank(values.password)
  {
    var errors := FormErrors(values);
    TrimEmpty(values.email);
    TrimEmpty(values.password);
    assert Email in errors <==> Blank(values.email);
    assert Password in errors <==> Blank(values.password);
    forall f: Field ensures f in errors <==> Blank(values.Get(f)) {
      match f
      case Email =>
      case Password =>
    }
    if !Blank(values.email) && !Blank(values.password) {
      assert errors.Keys == {} by {
        forall f: Field ensures f !in errors {
          match f
          case Email =>
          case Password =>
        }
      }
    }
  }

  /** The backend's answer to the log-in request: the request failed (network error or an
      unreadable body), it was refused with a message ("" when it sent none), or it was
      accepted with a token and the user record. */
  datatype LoginReply = ConnectionError | Rejected(message: string) | Accepted(token: string, user: User)

  /** Where a signed-in user goes: drivers to their home page, every other role to the
      passenger home page. */
  function HomeFor(role: string): string {
    if role == "driver" then "/driverHome" else "/passengerHome"
  }

  lemma HomeForRoles(role: string)
    ensures HomeFor("driver") == "/driverHome"
    ensures role != "driver" ==> HomeFor(role) == "/passengerHome"
  {
  }

  /** The storage writes of a successful log-in: "token" first, then the serialised user. */
  function LoginWrites(items: map<string, string>, token: string, user: User): map<string, string> {
    items["token" := token]["user" := Serialize(user)]
  }

  /** The page writes the same two entries `AuthProvider.login` writes, so a reload after
      logging in here starts with that user and token. */
  lemma LoginWritesMatchSession(s: Snapshot, token: string, user: User)
    ensures LoginWrites(s.items, token, user) == AfterLogin(s, user, token).items
    ensures Readable(LoginWrites(s.items, token, user))
    ensures Rehydrate(LoginWrites(s.items, token, user)).user == Some(user)
  {
    LoginThenRehydrate(s, user, token);
  }

  /** What a sent request leaves behind besides storage: the banner and the page the timer
      navigates to. */
  datatype Response = Response(message: Message, redirect: Option<string>)

  /** Success shows "Login successful!" and goes to the role's home page; a refusal shows
      the backend's message, or "Incorrect email or password." when it sent none; a failed
      request shows "Server connection error.". Only success navigates. */
  function Respond(reply: LoginReply): (r: Response)
    ensures r.redirect.Some? <==> reply.Accepted?
    ensures reply.Accepted? ==> r == Response(Message("success", "Login successful!"), Some(HomeFor(reply.user.role)))
    ensures reply.Rejected? && reply.message != "" ==> r.message == Message("error", reply.message)
    ensures reply.Rejected? && reply.message == "" ==> r.message == Message("error", "Incorrect email or password.")
    ensures reply.ConnectionError? ==> r.message == Message("error", "Server connection error.")
  {
    match reply
    case Accepted(_, user) => Response(Message("success", "Login successful!"), Some(HomeFor(user.role)))
    case Rejected(text) => Response(Message("error", OrElse(text, "Incorrect email or password.")), None)
    case ConnectionError => Response(Message("error", "Server connection error."), None)
  }

  /** Storage after a sent request: only a success writes. */
  function StorageAfter(items: map<string, string>, reply: LoginReply): map<string, string> {
    if reply.Accepted? then LoginWrites(items, reply.token, reply.user) else items
  }

  /** A refused or failed log-in leaves storage as it was; a successful one stores a session
      that a reload reads back as the replied user, whatever storage held before. */
  lemma StorageAfterReply(items: map<string, string>, reply: LoginReply)
    ensures !reply.Accepted? ==> StorageAfter(items, reply) == items
    ensures reply.Accepted? ==> Readable(StorageAfter(items, reply))
                                && Rehydrate(StorageAfter(items, reply)).user == Some(reply.user)
    ensures forall k :: k != "user" && k != "token" && k in items ==>
              k in StorageAfter(items, reply) && StorageAfter(items, reply)[k] == items[k]
  {
    if reply.Accepted? {
      LoginWritesMatchSession(Snapshot(items, None, None), reply.token, reply.user);
    }
  }

  /** The page writes storage but never calls the provider's `login`, so until the next
      reload the provider keeps the user and token it started with. A visitor who had no
      session and logs in successfully is sent to a home page whose guard still sees that
      session, and is redirected to "/login". */
  lemma StaleProviderBouncesHome(provider: Snapshot, reply: LoginReply)
    requires reply.Accepted?
    requires !Authenticated(provider) || provider.user.None?
    ensures Respond(reply).redirect == Some(HomeFor(reply.user.role))
    ensures Navigate(HomeFor(reply.user.role), Authenticated(provider), provider.user) == Go("/login")
  {
    if reply.user.role == "driver" {
      NavigateDeclared(8, Authenticated(provider), provider.user);
    } else {
      NavigateDeclared(7, Authenticated(provider), provider.user);
    }
  }

  class LogInPage {
    var values: Values
    var errors: map<Field, string>
    var message: Message
    var loading: bool
    var submitted: bool

    constructor ()
      ensures values == Values("", "") && errors == map[] && message == NoMessage
      ensures !loading && !submitted
    {
      values := Values("", "");
      errors := map[];
      message := NoMessage;
      loading := false;
      submitted := false;
    }

    /** Typing into a field: only that field's value changes, only its error is cleared (set
        to ""), and the banner is cleared. */
    method HandleChange(key: Field, value: string)
      modifies this
      ensures values == old(values).With(key, value)
      ensures errors == old(errors)[key := ""]
      ensures message == NoMessage
      ensures loading == old(loading) && submitted == old(submitted)
    {
      values := values.With(key, value);
      errors := errors[key := ""];
      message := NoMessage;
    }

    /** Pressing "Log In". `requested` says whether the request was sent; `redirect` is the
        page the timer navigates to afterwards. */
    method HandleLogIn(reply: LoginReply, storage: LocalStorage) returns (requested: bool, redirect: Option<string>)
      modifies this, storage
      ensures submitted && values == old(values)
      ensures errors == FormErrors(values)
      ensures requested <==> ValidateForm(values)
      ensures !requested ==> storage.items == old(storage.items) && message == NoMessage
                             && loading == old(loading) && redirect.None?
      ensures requested ==> && !loading
                            && storage.items == StorageAfter(old(storage.items), reply)
                            && message == Respond(reply).message
                            && redirect == Respond(reply).redirect
    {
      submitted := true;
      message := NoMessage;
      errors := FormErrors(values);
      redirect := None;
      requested := ValidateForm(values);
      if !requested {
        return;
      }
      loading := true;
      if reply.Accepted? {
        storage.SetItem("token", reply.token);
        storage.SetItem("user", Serialize(reply.user));
      }
      var response := Respond(reply);
      message := response.message;
      redirect := response.redirect;
      loading := false;
    }
  }
}
