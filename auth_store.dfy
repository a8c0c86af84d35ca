/** The auth store: the signed-in user, the `isAuthenticated` flag derived
    from it, and the copy of the user kept in `localStorage` under "user". */
module AuthStore {
  import opened Base
  import opened BrowserStorage

  /** The storage key the store keeps the serialised user under. */
  const UserKey := "user"

  /** The user object; both properties are optional in the source's type. */
  datatype User = User(email: Option<string>, name: Option<string>)

  /** What `JSON.parse` makes of a stored string: a thrown `SyntaxError`,
      or a value that is `null` or a user object. */
  datatype ParseOutcome = Unparsable | Parsed(user: Option<User>)

  /** `JSON.stringify` and `JSON.parse`, left uninterpreted. */
  datatype JsonCodec = JsonCodec(stringify: User -> string, parse: string -> ParseOutcome)

  /** The JSON facts the session round trip relies on for one user: parsing
      the serialised user gives it back, and the serialisation is a
      non-empty (hence truthy) string, as every JSON object text is. */
  predicate RoundTrips(json: JsonCodec, u: User)
  {
    json.stringify(u) != "" && json.parse(json.stringify(u)) == Parsed(Some(u))
  }

  /** The store's state. */
  datatype AuthState = AuthState(isAuthenticated: bool, user: Option<User>)

  /** The state the store is created with. */
  function InitialAuth(): (s: AuthState)
    ensures !s.isAuthenticated && s.user.None?
  {
    AuthState(false, None)
  }

  /** The effect of `SET_USER(u)` on the state and on the storage contents. */
  function AfterSetUser(items: map<string, string>, json: JsonCodec, u: Option<User>): (r: (AuthState, map<string, string>))
    ensures r.0.user == u
    ensures r.0.isAuthenticated <==> u.Some?
    ensures u.Some? ==> UserKey in r.1 && r.1[UserKey] == json.stringify(u.value)
    ensures u.None? ==> UserKey !in r.1
    ensures forall k :: k != UserKey ==> (k in r.1 <==> k in items)
    ensures forall k :: k != UserKey && k in items ==> r.1[k] == items[k]
  {
    if u.Some? then (AuthState(true, u), items[UserKey := json.stringify(u.value)])
    else (AuthState(false, None), items - {UserKey})
  }

  /** `email.split("@")[0]`: the email up to its first "@", or all of it. */
  function LocalPart(email: string): (name: string)
    ensures name <= email
    ensures '@' !in name
    ensures |name| < |email| ==> email[|name|] == '@'
  {
    if email == [] || email[0] == '@' then [] else [email[0]] + LocalPart(email[1..])
  }

  /** For an address `a@b` whose local part `a` has no "@", the name is `a`. */
  lemma {:induction false} LocalPartOfAddress(a: string, b: string)
    requires '@' !in a
    ensures LocalPart(a + "@" + b) == a
  {
    if a != [] {
      assert (a + "@" + b)[1..] == a[1..] + "@" + b;
      LocalPartOfAddress(a[1..], b);
    }
  }

  /** The user `login` builds; the password plays no part. */
  function LoginUser(email: string): (u: User)
    ensures u.email == Some(email)
    ensures u.name.Some? && u.name.value <= email && '@' !in u.name.value
    ensures |u.name.value| < |email| ==> email[|u.name.value|] == '@'
  {
    User(Some(email), Some(LocalPart(email)))
  }

  /** The effect of `checkAuth`: a missing or empty stored value changes
      nothing, one that does not parse is removed, and a parsed value is
      committed through `SET_USER`. */
  function AfterCheckAuth(s: AuthState, items: map<string, string>, json: JsonCodec): (r: (AuthState, map<string, string>))
    ensures (UserKey !in items || items[UserKey] == "") ==> r == (s, items)
    ensures UserKey in items && items[UserKey] != "" && json.parse(items[UserKey]).Unparsable?
            ==> r.0 == s && r.1 == items - {UserKey}
    ensures UserKey in items && items[UserKey] != "" && json.parse(items[UserKey]).Parsed?
            ==> var u := json.parse(items[UserKey]).user;
                && r == AfterSetUser(items, json, u)
                && r.0 == AuthState(u.Some?, u)
                && r.1 == (if u.Some? then items[UserKey := json.stringify(u.value)] else items - {UserKey})
  {
    if UserKey in items && items[UserKey] != "" then
      match json.parse(items[UserKey])
      case Unparsable => (s, items - {UserKey})
      case Parsed(u) => AfterSetUser(items, json, u)
    else (s, items)
  }

  /** A session saved by `SET_USER` is restored by `checkAuth` in a fresh store. */
  lemma ReloadRestoresSession(items: map<string, string>, json: JsonCodec, u: User)
    requires RoundTrips(json, u)
    ensures var saved := AfterSetUser(items, json, Some(u)).1;
            AfterCheckAuth(InitialAuth(), saved, json) == (AuthState(true, Some(u)), saved)
  {
    var saved := AfterSetUser(items, json, Some(u)).1;
    assert saved[UserKey := json.stringify(u)] == saved;
  }

  /** After a logout, `checkAuth` leaves any state and the storage as they are. */
  lemma LogoutSurvivesReload(s: AuthState, items: map<string, string>, json: JsonCodec)
    ensures var saved := AfterSetUser(items, json, None).1;
            AfterCheckAuth(s, saved, json) == (s, saved)
  {
  }

  /** With a codec that round-trips every user, running `checkAuth` twice
      is running it once. */
  lemma CheckAuthIdempotent(s: AuthState, items: map<string, string>, json: JsonCodec)
    requires forall u :: RoundTrips(json, u)
    ensures var once := AfterCheckAuth(s, items, json);
            AfterCheckAuth(once.0, once.1, json) == once
  {
    var once := AfterCheckAuth(s, items, json);
    if UserKey in items && items[UserKey] != "" {
      match json.parse(items[UserKey])
      case Unparsable =>
      case Parsed(u) =>
        if u.Some? {
          assert RoundTrips(json, u.value);
          assert once.1[UserKey := json.stringify(u.value)] == once.1;
        }
    }
  }

  /** The Vuex auth module as an object: `user` and `isAuthenticated` are its
      state, `storage` the browser's `localStorage`. */
  class Auth {
    var isAuthenticated: bool
    var user: Option<User>
    const storage: Storage
    const json: JsonCodec

    function State(): AuthState
      reads this
    {
      AuthState(isAuthenticated, user)
    }

    constructor(storage: Storage, json: JsonCodec)
      ensures State() == InitialAuth()
      ensures this.storage == storage && this.json == json
    {
      isAuthenticated := false;
      user := None;
      this.storage := storage;
      this.json := json;
    }

    /** The `SET_USER` mutation. */
    method SetUser(u: Option<User>)
      modifies this, storage
      ensures (State(), storage.items) == AfterSetUser(old(storage.items), json, u)
    {
      user := u;
      isAuthenticated := u.Some?;
      if u.Some? {
        storage.SetItem(UserKey, json.stringify(u.value));
      } else {
        storage.RemoveItem(UserKey);
      }
    }

    /** The `login` action; it always resolves with the user it commits. */
    method Login(email: string, password: string) returns (u: User)
      modifies this, storage
      ensures u == LoginUser(email)
      ensures (State(), storage.items) == AfterSetUser(old(storage.items), json, Some(u))
    {
      u := LoginUser(email);
      SetUser(Some(u));
    }

    /** The `logout` action. */
    method Logout()
      modifies this, storage
      ensures (State(), storage.items) == AfterSetUser(old(storage.items), json, None)
    {
      SetUser(None);
    }

    /** The `checkAuth` action. */
    method CheckAuth()
      modifies this, storage
      ensures (State(), storage.items) == AfterCheckAuth(old(State()), old(storage.items), json)
    {
      var saved := storage.GetItem(UserKey);
      if saved.Some? && saved.value != "" {
        match json.parse(saved.value)
        case Unparsable =>
          storage.RemoveItem(UserKey);
        case Parsed(u) =>
          SetUser(u);
      }
    }
  }
}
