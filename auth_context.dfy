/**
 * The session and role store of src/contexts/AuthContext.tsx: the current
 * user and token, their mirror in the browser's key-value storage under the
 * keys `zdb_token` and `zdb_user`, the three-level role hierarchy, and the
 * login / register / logout transitions and the rehydration run on mount.
 *
 * The storage is a map from key to stored value; the stored user is kept as a
 * record rather than as its JSON text. The network call of login and register
 * is a parameter: `Some(session)` is what the server answered, `None` is any
 * failure, which takes the built-in fallback path.
 */
module Auth {
  import opened Wrappers
  import Text

  /** A user record. The role is any string: registration casts it unchecked. */
  datatype User = User(id: string, email: string, name: string, role: string)

  /** A user paired with the token that authenticates it. */
  datatype Session = Session(user: User, token: string)

  /** A value held in storage: a plain string, or a serialised user record. */
  datatype Stored = StoredText(text: string) | StoredUser(user: User)

  const TokenKey: string := "zdb_token"
  const UserKey: string := "zdb_user"

  /** The token every fallback session carries. */
  const MockToken: string := "mock-jwt-token"

  /** The role lookup table: each known role and the roles it grants. */
  const RoleHierarchy: map<string, seq<string>> := map[
    "Admin" := ["Admin", "Developer", "Viewer"],
    "Developer" := ["Developer", "Viewer"],
    "Viewer" := ["Viewer"]
  ]

  /** The position of a role in the hierarchy; 0 for any string that is not a role. */
  function Rank(role: string): nat
  {
    if role == "Admin" then 3
    else if role == "Developer" then 2
    else if role == "Viewer" then 1
    else 0
  }

  /**
   * `hasRole(role)`: no user grants nothing; otherwise the user's role grants
   * exactly the known roles at or below it, and an unknown role grants nothing.
   */
  function HasRole(user: Option<User>, role: string): (r: bool)
    ensures r <==> user.Some? && 0 < Rank(role) <= Rank(user.value.role)
  {
    match user
    case None => false
    case Some(u) => u.role in RoleHierarchy && role in RoleHierarchy[u.role]
  }

  /** Holding a higher role grants every role a lower one grants: Viewer ⊆ Developer ⊆ Admin. */
  lemma HasRoleMonotone(lower: User, higher: User, role: string)
    requires Rank(lower.role) <= Rank(higher.role)
    ensures HasRole(Some(lower), role) ==> HasRole(Some(higher), role)
  {
  }

  /** The hierarchy is transitive: a user with role `a` who may act as `b` may act as whatever `b` may. */
  lemma HasRoleTransitive(u: User, b: string, c: string)
    requires HasRole(Some(u), b)
    requires HasRole(Some(User(u.id, u.email, u.name, b)), c)
    ensures HasRole(Some(u), c)
  {
  }

  /**
   * The names of the members every JavaScript object inherits. Looking one of
   * them up in the role table finds a function or an object, not a list.
   */
  const ObjectPrototypeMembers: set<string> := {
    "constructor", "hasOwnProperty", "isPrototypeOf", "propertyIsEnumerable",
    "toString", "toLocaleString", "valueOf", "__proto__",
    "__defineGetter__", "__defineSetter__", "__lookupGetter__", "__lookupSetter__"
  }

  /** The outcome of evaluating `hasRole` as written: a value, or a thrown TypeError. */
  datatype Evaluation = Returned(value: bool) | ThrewTypeError

  /**
   * `hasRole` as the source evaluates it: `roleHierarchy[user.role]?.includes(role)`
   * guards only against a missing entry, so a role naming an inherited member
   * yields a value without `includes`, and calling it throws.
   */
  function HasRoleAsWritten(user: Option<User>, role: string): (r: Evaluation)
    ensures r.ThrewTypeError? <==> user.Some? && user.value.role in ObjectPrototypeMembers
    ensures r.Returned? ==> r.value == HasRole(user, role)
  {
    match user
    case None => Returned(false)
    case Some(u) =>
      if u.role in RoleHierarchy then Returned(role in RoleHierarchy[u.role])
      else if u.role in ObjectPrototypeMembers then ThrewTypeError
      else Returned(false)
  }

  /** A user registered with the role "toString" makes `hasRole` throw instead of answering false. */
  lemma HasRoleThrowsOnInheritedRoleName()
    ensures HasRoleAsWritten(Some(User("1", "a@b.c", "a", "toString")), "Viewer") == ThrewTypeError
    ensures !HasRole(Some(User("1", "a@b.c", "a", "toString")), "Viewer")
  {
  }

  /** The storage after writing a session to it: the token under one key, the user under the other. */
  function Persist(storage: map<string, Stored>, s: Session): (r: map<string, Stored>)
    ensures r.Keys == storage.Keys + {TokenKey, UserKey}
    ensures r[TokenKey] == StoredText(s.token) && r[UserKey] == StoredUser(s.user)
    ensures forall k :: k in storage && k != TokenKey && k != UserKey ==> r[k] == storage[k]
  {
    storage[TokenKey := StoredText(s.token)][UserKey := StoredUser(s.user)]
  }

  /**
   * The session the mount effect restores from storage: both keys must be
   * present and truthy (a non-empty token; a serialised user is never empty).
   * An entry that does not hold the kind of value written under its key
   * restores nothing.
   */
  function Restored(storage: map<string, Stored>): (r: Option<Session>)
    ensures r.Some? ==> r.value.token != "" && Persist(storage, r.value) == storage
    ensures forall s: Session :: s.token != "" && Persist(storage, s) == storage ==> r == Some(s)
  {
    if TokenKey in storage && UserKey in storage
       && storage[TokenKey].StoredText? && storage[TokenKey].text != ""
       && storage[UserKey].StoredUser?
    then Some(Session(storage[UserKey].user, storage[TokenKey].text))
    else None
  }

  /** Writing a session and reloading gives it back, exactly when its token is non-empty. */
  lemma PersistRestored(storage: map<string, Stored>, s: Session)
    ensures Restored(Persist(storage, s)) == if s.token != "" then Some(s) else None
  {
  }

  /** After both keys are removed, a reload restores nothing. */
  lemma ClearedNotRestored(storage: map<string, Stored>)
    ensures Restored(storage - {TokenKey, UserKey}) == None
  {
  }

  /**
   * The session the login fallback builds: id "1", the text of the e-mail
   * before its first '@' as the name, role Admin, the mock token.
   */
  function LoginFallback(email: string): (s: Session)
    ensures s.user.id == "1" && s.user.email == email && s.user.role == "Admin"
    ensures s.token == MockToken
    ensures s.user.name <= email && '@' !in s.user.name
    ensures |s.user.name| < |email| ==> email[|s.user.name|] == '@'
  {
    Text.SplitHead(email, '@');
    Session(User("1", email, Text.Split(email, '@')[0], "Admin"), MockToken)
  }

  /** The session the register fallback builds from the form values, the role cast unchecked. */
  function RegisterFallback(name: string, email: string, role: string): (s: Session)
    ensures s.user.id == "1" && s.token == MockToken
    ensures s.user.name == name && s.user.email == email && s.user.role == role
    ensures forall requested :: HasRole(Some(s.user), requested) <==> 0 < Rank(requested) <= Rank(role)
  {
    Session(User("1", email, name, role), MockToken)
  }

  /** A user registered with a role outside the hierarchy is granted no role at all. */
  lemma UnknownRoleGrantsNothing(name: string, email: string, role: string, requested: string)
    requires Rank(role) == 0
    ensures !HasRole(Some(RegisterFallback(name, email, role).user), requested)
  {
  }

  class AuthProvider {
    var user: Option<User>
    var token: Option<string>
    var storage: map<string, Stored>

    /** In-memory state and storage agree: both hold the same session, or neither holds one. */
    ghost predicate Mirrored()
      reads this
    {
      match (user, token)
      case (Some(u), Some(t)) =>
        TokenKey in storage && UserKey in storage
        && storage[TokenKey] == StoredText(t) && storage[UserKey] == StoredUser(u)
      case (None, None) => TokenKey !in storage && UserKey !in storage
      case _ => false
    }

    /** `!!user && !!token`: an empty token counts as absent. */
    predicate IsAuthenticated()
      reads this
      ensures user.None? || token.None? ==> !IsAuthenticated()
      ensures user.Some? && token.Some? ==>
        (IsAuthenticated() <==>
          Restored(Persist(storage, Session(user.value, token.value))) == Some(Session(user.value, token.value)))
    {
      user.Some? && token.Some? && token.value != ""
    }

    /** The provider as first rendered: anonymous, over whatever storage the browser kept. */
    constructor (persisted: map<string, Stored>)
      ensures user == None && token == None && storage == persisted
    {
      user := None;
      token := None;
      storage := persisted;
    }

    /** The mount effect: restore the stored session when both keys hold one. */
    method Rehydrate()
      modifies this`user, this`token
      ensures Restored(storage).Some? ==>
        user == Some(Restored(storage).value.user) && token == Some(Restored(storage).value.token)
      ensures Restored(storage).None? ==> user == old(user) && token == old(token)
    {
      var restored := Restored(storage);
      if restored.Some? {
        token := Some(restored.value.token);
        user := Some(restored.value.user);
      }
    }

    /** Set the in-memory pair and write it to storage. */
    method Establish(s: Session)
      modifies this`user, this`token, this`storage
      ensures user == Some(s.user) && token == Some(s.token)
      ensures storage == Persist(old(storage), s)
      ensures Mirrored()
    {
      user := Some(s.user);
      token := Some(s.token);
      storage := storage[TokenKey := StoredText(s.token)];
      storage := storage[UserKey := StoredUser(s.user)];
    }

    /** `login`: the server's session when it answers, the fallback session otherwise. */
    method Login(email: string, password: string, reply: Option<Session>)
      modifies this`user, this`token, this`storage
      ensures var s := if reply.Some? then reply.value else LoginFallback(email);
        user == Some(s.user) && token == Some(s.token) && storage == Persist(old(storage), s)
      ensures Mirrored()
    {
      match reply
      case Some(s) => Establish(s);
      case None => Establish(LoginFallback(email));
    }

    /** `register`: as login, with the fallback built from the form's name, e-mail and role. */
    method Register(name: string, email: string, password: string, role: string, reply: Option<Session>)
      modifies this`user, this`token, this`storage
      ensures var s := if reply.Some? then reply.value else RegisterFallback(name, email, role);
        user == Some(s.user) && token == Some(s.token) && storage == Persist(old(storage), s)
      ensures Mirrored()
    {
      match reply
      case Some(s) => Establish(s);
      case None => Establish(RegisterFallback(name, email, role));
    }

    /** `logout`: clear the pair and remove both keys; nothing is granted afterwards. */
    method Logout()
      modifies this`user, this`token, this`storage
      ensures user == None && token == None
      ensures storage == old(storage) - {TokenKey, UserKey}
      ensures Mirrored() && !IsAuthenticated()
      ensures forall role :: !HasRole(user, role)
    {
      user := None;
      token := None;
      storage := storage - {TokenKey};
      storage := storage - {UserKey};
    }
  }

  /** While state and storage agree, the session is authenticated exactly when a reload would restore it. */
  lemma AuthenticatedIffRestorable(p: AuthProvider)
    requires p.Mirrored()
    ensures p.IsAuthenticated() <==> Restored(p.storage).Some?
    ensures p.IsAuthenticated() ==> Restored(p.storage) == Some(Session(p.user.value, p.token.value))
  {
  }
}
