/** The session store of `AuthContext`: the signed-in user and the bearer token, kept in
    memory and mirrored into the browser's key/value storage under the keys "user" (the
    user record, serialised) and "token". `login` writes both, `logout` removes both, and
    the provider reads both back when the application starts. */
module Session {
  import opened Common

  /** The user record as the client keeps it. The backend sends the identifier as `id` or as
      `_id` (here `dbId`); an absent one is "". */
  datatype User = User(id: string, dbId: string, name: string, role: string)

  // ---------------------------------------------------------------------------
  // Serialisation of the user record (`JSON.stringify` / `JSON.parse`), reduced to the four
  // string fields: string values are quoted, with `"` and `\` escaped by a backslash.

  function Escape(s: string): string {
    if s == [] then []
    else (if s[0] == '"' || s[0] == '\\' then ['\\', s[0]] else [s[0]]) + Escape(s[1..])
  }

  function Quote(s: string): string {
    "\"" + Escape(s) + "\""
  }

  /** Reads the rest of a quoted string (the opening quote already consumed): its value and
      what follows the closing quote. */
  function ParseString(s: string): Option<(string, string)>
    decreases |s|
  {
    if s == [] then None
    else if s[0] == '"' then Some(("", s[1..]))
    else if s[0] == '\\' then
      if |s| < 2 then None
      else
        var p :- ParseString(s[2..]);
        Some(([s[1]] + p.0, p.1))
    else
      var p :- ParseString(s[1..]);
      Some(([s[0]] + p.0, p.1))
  }

  function ParseQuoted(s: string): Option<(string, string)> {
    if s != [] && s[0] == '"' then ParseString(s[1..]) else None
  }

  /** The text after `prefix`, when `s` starts with it. */
  function Expect(prefix: string, s: string): (r: Option<string>)
    ensures r.Some? <==> |prefix| <= |s| && s[..|prefix|] == prefix
    ensures r.Some? ==> s == prefix + r.value
  {
    if |prefix| <= |s| && s[..|prefix|] == prefix then Some(s[|prefix|..]) else None
  }

  const IdKey := "{\"id\":"
  const DbIdKey := ",\"_id\":"
  const NameKey := ",\"name\":"
  const RoleKey := ",\"role\":"
  const Close := "}"

  function Serialize(u: User): string {
    IdKey + (Quote(u.id) + (DbIdKey + (Quote(u.dbId) + (NameKey + (Quote(u.name)
      + (RoleKey + (Quote(u.role) + Close)))))))
  }

  function Deserialize(s: string): Option<User> {
    var s1 :- Expect(IdKey, s);
    var id :- ParseQuoted(s1);
    var s2 :- Expect(DbIdKey, id.1);
    var dbId :- ParseQuoted(s2);
    var s3 :- Expect(NameKey, dbId.1);
    var name :- ParseQuoted(s3);
    var s4 :- Expect(RoleKey, name.1);
    var role :- ParseQuoted(s4);
    var s5 :- Expect(Close, role.1);
    if s5 == [] then Some(User(id.0, dbId.0, name.0, role.0)) else None
  }

  lemma {:induction false} ParseEscaped(v: string, rest: string)
    ensures ParseString(Escape(v) + "\"" + rest) == Some((v, rest))
  {
    var s := Escape(v) + "\"" + rest;
    if v == [] {
      assert s == "\"" + rest;
    } else {
      var tail := Escape(v[1..]) + "\"" + rest;
      ParseEscaped(v[1..], rest);
      assert [v[0]] + v[1..] == v;
      if v[0] == '"' || v[0] == '\\' {
        assert s == ['\\', v[0]] + tail;
        assert s[2..] == tail;
      } else {
        assert s == [v[0]] + tail;
        assert s[1..] == tail;
      }
    }
  }

  lemma QuotedRoundTrip(v: string, rest: string)
    ensures ParseQuoted(Quote(v) + rest) == Some((v, rest))
  {
    var s := Quote(v) + rest;
    assert s[1..] == Escape(v) + "\"" + rest;
    ParseEscaped(v, rest);
  }

  lemma ExpectPrefix(prefix: string, rest: string)
    ensures Expect(prefix, prefix + rest) == Some(rest)
  {
    assert (prefix + rest)[..|prefix|] == prefix;
  }

  /** `JSON.parse(JSON.stringify(u))` gives `u` back. */
  lemma SerializeRoundTrip(u: User)
    ensures Deserialize(Serialize(u)) == Some(u)
  {
    var t5 := Close;
    var t4 := Quote(u.role) + t5;
    var t3 := Quote(u.name) + (RoleKey + t4);
    var t2 := Quote(u.dbId) + (NameKey + t3);
    var t1 := Quote(u.id) + (DbIdKey + t2);
    assert Serialize(u) == IdKey + t1;
    ExpectPrefix(IdKey, t1);
    QuotedRoundTrip(u.id, DbIdKey + t2);
    ExpectPrefix(DbIdKey, t2);
    QuotedRoundTrip(u.dbId, NameKey + t3);
    ExpectPrefix(NameKey, t3);
    QuotedRoundTrip(u.name, RoleKey + t4);
    ExpectPrefix(RoleKey, t4);
    QuotedRoundTrip(u.role, t5);
    ExpectPrefix(Close, []);
    assert Close + [] == Close;
  }

  /** Different users are stored as different strings. */
  lemma SerializeInjective(u: User, v: User)
    ensures Serialize(u) == Serialize(v) ==> u == v
  {
    SerializeRoundTrip(u);
    SerializeRoundTrip(v);
  }

  // ---------------------------------------------------------------------------
  // Browser storage and the session provider.

  /** `localStorage`: string keys to string values. */
  class LocalStorage {
    var items: map<string, string>

    constructor (initial: map<string, string>)
      ensures items == initial
    {
      items := initial;
    }

    /** `getItem(key)`: `null` (here `None`) when the key is absent. */
    function GetItem(key: string): (r: Option<string>)
      reads this
      ensures r.Some? <==> key in items
      ensures r.Some? ==> r.value == items[key]
    {
      if key in items then Some(items[key]) else None
    }

    method SetItem(key: string, value: string)
      modifies this
      ensures items == old(items)[key := value]
    {
      items := items[key := value];
    }

    method RemoveItem(key: string)
      modifies this
      ensures items == old(items) - {key}
    {
      items := items - {key};
    }
  }

  /** The provider's whole state: the storage contents and the two in-memory fields. */
  datatype Snapshot = Snapshot(items: map<string, string>, user: Option<User>, token: Option<string>)

  /** `isAuthenticated = !!token`: a token is present and is not the empty string. */
  predicate Authenticated(s: Snapshot) {
    Present(s.token)
  }

  /** What `login(u, t)` leaves behind. */
  function AfterLogin(s: Snapshot, u: User, t: string): Snapshot {
    Snapshot(s.items["user" := Serialize(u)]["token" := t], Some(u), Some(t))
  }

  /** What `logout()` leaves behind. */
  function AfterLogout(s: Snapshot): Snapshot {
    Snapshot(s.items - {"user", "token"}, None, None)
  }

  /** Start-up reads a stored "user" only when it is a non-empty string; the source parses it
      without a guard, so storage whose "user" does not parse is outside the model. */
  predicate Readable(items: map<string, string>) {
    "user" in items && items["user"] != "" ==> Deserialize(items["user"]).Some?
  }

  /** The provider's state at start-up: the parsed stored user, or none when absent or empty;
      the stored token, or none when absent or empty. */
  function Rehydrate(items: map<string, string>): (s: Snapshot)
    requires Readable(items)
    ensures s.items == items
    ensures s.user.Some? <==> "user" in items && items["user"] != ""
    ensures s.user.Some? ==> s.user == Deserialize(items["user"])
    ensures s.token.Some? <==> "token" in items && items["token"] != ""
    ensures s.token.Some? ==> s.token.value == items["token"]
    ensures Authenticated(s) <==> "token" in items && items["token"] != ""
  {
    var user := if "user" in items && items["user"] != "" then Deserialize(items["user"]) else None;
    var token := if "token" in items && items["token"] != "" then Some(items["token"]) else None;
    Snapshot(items, user, token)
  }

  /** After `login(u, t)` storage holds the serialised `u` under "user" and `t` under "token",
      and the in-memory fields are `u` and `t`; the session is authenticated exactly when `t`
      is not empty. */
  lemma LoginStores(s: Snapshot, u: User, t: string)
    ensures var s' := AfterLogin(s, u, t);
      && "user" in s'.items && s'.items["user"] == Serialize(u)
      && "token" in s'.items && s'.items["token"] == t
      && s'.user == Some(u) && s'.token == Some(t)
      && (Authenticated(s') <==> t != "")
  {
  }

  /** After `logout()` neither key is stored and both in-memory fields are empty. */
  lemma LogoutClears(s: Snapshot)
    ensures var s' := AfterLogout(s);
      "user" !in s'.items && "token" !in s'.items && s'.user.None? && s'.token.None?
      && !Authenticated(s')
  {
  }

  /** Logging out twice leaves the same state as logging out once. */
  lemma LogoutIdempotent(s: Snapshot)
    ensures AfterLogout(AfterLogout(s)) == AfterLogout(s)
  {
    assert AfterLogout(AfterLogout(s)).items == AfterLogout(s).items;
  }

  /** `login` and `logout` touch only "user" and "token": any other key, such as "userRole"
      or "isAuthenticated", keeps its presence and value. */
  lemma SessionKeysOnly(s: Snapshot, u: User, t: string, k: string)
    requires k != "user" && k != "token"
    ensures k in AfterLogin(s, u, t).items <==> k in s.items
    ensures k in s.items ==> AfterLogin(s, u, t).items[k] == s.items[k]
    ensures k in AfterLogout(s).items <==> k in s.items
    ensures k in s.items ==> AfterLogout(s).items[k] == s.items[k]
  {
  }

  /** A login survives a reload: start-up on the storage `login(u, t)` wrote yields the user
      `u`, the token `t` unless it is empty, and the same authentication status. */
  lemma LoginThenRehydrate(s: Snapshot, u: User, t: string)
    ensures Readable(AfterLogin(s, u, t).items)
    ensures var r := Rehydrate(AfterLogin(s, u, t).items);
      && r.user == Some(u)
      && r.token == (if t != "" then Some(t) else None)
      && (Authenticated(r) <==> Authenticated(AfterLogin(s, u, t)))
  {
    var items := AfterLogin(s, u, t).items;
    SerializeRoundTrip(u);
    assert Serialize(u) != "" by {
      assert Serialize(u)[..|IdKey|] == IdKey;
    }
  }

  /** A logout survives a reload: start-up finds no session. */
  lemma LogoutThenRehydrate(s: Snapshot)
    ensures Readable(AfterLogout(s).items)
    ensures Rehydrate(AfterLogout(s).items) == AfterLogout(s)
  {
  }

  /** The session provider. Storage is the page-wide object the other pages write too. */
  class AuthProvider {
    const storage: LocalStorage
    var user: Option<User>
    var token: Option<string>

    ghost function State(): Snapshot
      reads this, storage
    {
      Snapshot(storage.items, user, token)
    }

    /** Start-up: both fields are read back from storage. */
    constructor (storage: LocalStorage)
      requires Readable(storage.items)
      ensures this.storage == storage
      ensures State() == Rehydrate(storage.items)
    {
      this.storage := storage;
      var stored := storage.GetItem("user");
      user := if stored.Some? && stored.value != "" then Deserialize(stored.value) else None;
      var storedToken := storage.GetItem("token");
      token := if storedToken.Some? && storedToken.value != "" then storedToken else None;
    }

    method Login(userData: User, tokenData: string)
      modifies this, storage
      ensures State() == AfterLogin(old(State()), userData, tokenData)
    {
      storage.SetItem("user", Serialize(userData));
      storage.SetItem("token", tokenData);
      user := Some(userData);
      token := Some(tokenData);
    }

    method Logout()
      modifies this, storage
      ensures State() == AfterLogout(old(State()))
    {
      storage.RemoveItem("user");
      storage.RemoveItem("token");
      user := None;
      token := None;
      assert storage.items == old(storage.items) - {"user", "token"};
    }

    /** `isAuthenticated`, derived from the token alone. */
    function IsAuthenticated(): (b: bool)
      reads this
      ensures b <==> token.Some? && token.value != ""
    {
      Present(token)
    }
  }
}
