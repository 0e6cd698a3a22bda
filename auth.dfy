/** Credential sign-in (`src/lib/auth.ts`): the `authorize` function of the credentials
    provider, which looks a username up in the `users` object of the store and checks the
    password, and the `jwt` and `session` callbacks, which carry the user's id from the
    sign-in into the token and from the token into every session. */
module Auth {
  import opened Wrappers
  import opened JsValues
  import opened KvStore

  datatype LoginCredentials = LoginCredentials(username: string, password: string)

  /** `loginSchema.safeParse(credentials)`: an object whose `username` and `password`
      are both non-empty strings. */
  function ParseLogin(credentials: Option<Json>): (r: Option<LoginCredentials>)
    ensures r.Some? <==>
      && (exists u :: Prop(credentials, "username") == Some(JStr(u)) && u != "")
      && (exists p :: Prop(credentials, "password") == Some(JStr(p)) && p != "")
    ensures r.Some? ==>
      && Prop(credentials, "username") == Some(JStr(r.value.username))
      && Prop(credentials, "password") == Some(JStr(r.value.password))
  {
    match (Prop(credentials, "username"), Prop(credentials, "password"))
    case (Some(JStr(u)), Some(JStr(p))) => if u != "" && p != "" then Some(LoginCredentials(u, p)) else None
    case _ => None
  }

  /** `users[id]` for a key `id` of the users object. */
  function UserAt(users: Members, id: string): Option<Json> {
    Lookup(users, id)
  }

  /** `users[id].username` throws a TypeError when `users[id]` is `null` or `undefined`. */
  predicate Throws(user: Option<Json>) {
    user.None? || user.value.JNull?
  }

  /** `users[id].username === username`. */
  predicate NameMatches(user: Option<Json>, username: string) {
    Prop(user, "username") == Some(JStr(username))
  }

  /** How `Object.keys(users).find(...)` ends: the index of the first key whose user
      has the username, no such key, or the TypeError of a `null` user met first. */
  datatype Search = MatchAt(index: nat) | NoMatch | Threw

  /** The scan of `find` over `keys`, in order. */
  function Find(keys: seq<string>, users: Members, username: string): (r: Search)
    ensures r.MatchAt? ==> FirstMatchAt(keys, users, username, r.index)
    ensures r.NoMatch? <==>
      forall j :: 0 <= j < |keys| ==>
        !Throws(UserAt(users, keys[j])) && !NameMatches(UserAt(users, keys[j]), username)
    ensures r.Threw? ==>
      exists i :: 0 <= i < |keys| && Throws(UserAt(users, keys[i]))
  {
    if keys == [] then NoMatch
    else
      var user := UserAt(users, keys[0]);
      if Throws(user) then Threw
      else if NameMatches(user, username) then MatchAt(0)
      else
        var rest := Find(keys[1..], users, username);
        assert forall j :: 0 < j < |keys| ==> keys[j] == keys[1..][j - 1];
        match rest
        case MatchAt(i) => MatchAt(i + 1)
        case NoMatch => NoMatch
        case Threw => Threw
  }

  /** The names of the properties, in the order they were added. */
  function Names(ms: Members): (r: seq<string>)
    ensures |r| == |ms| && forall i :: 0 <= i < |ms| ==> r[i] == ms[i].0
  {
    if ms == [] then [] else [ms[0].0] + Names(ms[1..])
  }

  /** The number a string of decimal digits writes. */
  function DecimalValue(s: string): int {
    if s == [] then 0 else DecimalValue(s[..|s| - 1]) * 10 + (s[|s| - 1] as int - '0' as int)
  }

  /** An array index as a property name: decimal digits without a leading zero ("0"
      itself aside) that write a number below 2^32 - 1. */
  predicate IsIndexName(s: string) {
    && |s| >= 1
    && (forall k :: 0 <= k < |s| ==> '0' <= s[k] <= '9')
    && (s[0] == '0' ==> |s| == 1)
    && DecimalValue(s) < 0xFFFF_FFFF
  }

  /** The index names among the properties, in the order they were added. */
  function IndexNames(ms: Members): (r: seq<string>)
    ensures forall i :: 0 <= i < |r| ==> IsIndexName(r[i])
  {
    if ms == [] then []
    else if IsIndexName(ms[0].0) then [ms[0].0] + IndexNames(ms[1..])
    else IndexNames(ms[1..])
  }

  /** The other names, in the order they were added. */
  function OtherNames(ms: Members): (r: seq<string>)
    ensures forall i :: 0 <= i < |r| ==> !IsIndexName(r[i])
  {
    if ms == [] then []
    else if IsIndexName(ms[0].0) then OtherNames(ms[1..])
    else [ms[0].0] + OtherNames(ms[1..])
  }

  /** `s` in ascending order of `key`. */
  predicate SortedBy(s: seq<string>, key: string -> int) {
    forall i, j :: 0 <= i < j < |s| ==> key(s[i]) <= key(s[j])
  }

  /** Every name in `s` has a key of at least `v`. */
  predicate AllAtLeast(s: seq<string>, key: string -> int, v: int) {
    forall i :: 0 <= i < |s| ==> v <= key(s[i])
  }

  /** `x` placed before the first name of `s` whose key is no smaller. */
  function InsertBy(x: string, s: seq<string>, key: string -> int): (r: seq<string>)
    ensures multiset(r) == multiset(s) + multiset{x}
  {
    if s == [] then [x]
    else if key(x) <= key(s[0]) then [x] + s
    else
      assert s == [s[0]] + s[1..];
      [s[0]] + InsertBy(x, s[1..], key)
  }

  lemma {:induction false} InsertKeepsBound(x: string, s: seq<string>, key: string -> int, v: int)
    requires AllAtLeast(s, key, v) && v <= key(x)
    ensures AllAtLeast(InsertBy(x, s, key), key, v)
  {
    var r := InsertBy(x, s, key);
    if s != [] && key(x) > key(s[0]) {
      var rest := InsertBy(x, s[1..], key);
      assert r == [s[0]] + rest;
      InsertKeepsBound(x, s[1..], key, v);
      forall i | 0 <= i < |r| ensures v <= key(r[i]) {
        if i > 0 { assert r[i] == rest[i - 1]; }
      }
    }
  }

  /** A name no greater than every name of a sorted sequence can go in front of it. */
  lemma PrependSorted(x: string, s: seq<string>, key: string -> int)
    requires SortedBy(s, key) && AllAtLeast(s, key, key(x))
    ensures SortedBy([x] + s, key)
  {
    var r := [x] + s;
    forall i, j | 0 <= i < j < |r| ensures key(r[i]) <= key(r[j]) {
      assert r[j] == s[j - 1];
      if i > 0 { assert r[i] == s[i - 1]; }
    }
  }

  lemma {:induction false} InsertSorted(x: string, s: seq<string>, key: string -> int)
    requires SortedBy(s, key)
    ensures SortedBy(InsertBy(x, s, key), key)
  {
    if s == [] {
      assert InsertBy(x, s, key) == [x];
    } else if key(x) <= key(s[0]) {
      assert AllAtLeast(s, key, key(x)) by {
        forall i | 0 <= i < |s| ensures key(x) <= key(s[i]) {
          if i > 0 { assert key(s[0]) <= key(s[i]); }
        }
      }
      PrependSorted(x, s, key);
    } else {
      assert AllAtLeast(s[1..], key, key(s[0])) by {
        forall i | 0 <= i < |s[1..]| ensures key(s[0]) <= key(s[1..][i]) {
          assert s[1..][i] == s[i + 1];
        }
      }
      InsertSorted(x, s[1..], key);
      InsertKeepsBound(x, s[1..], key, key(s[0]));
      PrependSorted(s[0], InsertBy(x, s[1..], key), key);
    }
  }

  /** The names in ascending order of `key` (an insertion sort). */
  function SortBy(s: seq<string>, key: string -> int): (r: seq<string>)
    ensures SortedBy(r, key) && multiset(r) == multiset(s)
  {
    if s == [] then []
    else
      assert s == [s[0]] + s[1..];
      InsertSorted(s[0], SortBy(s[1..], key), key);
      InsertBy(s[0], SortBy(s[1..], key), key)
  }

  lemma {:induction false} NamesSplit(ms: Members)
    ensures multiset(IndexNames(ms)) + multiset(OtherNames(ms)) == multiset(Names(ms))
  {
    if ms != [] {
      NamesSplit(ms[1..]);
    }
  }

  /** `Object.keys(x)`: every own property name once per binding, the array-index names
      first in ascending numeric order, then the other names in the order they were
      added. */
  function Keys(users: Members): seq<string> {
    SortBy(IndexNames(users), DecimalValue) + OtherNames(users)
  }

  /** The keys are the property names rearranged: the `p` index names come first, in
      ascending numeric order, and the other names follow in the order they were added. */
  lemma KeysOrder(users: Members)
    ensures var r, p := Keys(users), |IndexNames(users)|;
      && multiset(r) == multiset(Names(users)) && |r| == |users|
      && p <= |r|
      && (forall i :: 0 <= i < p ==> IsIndexName(r[i]))
      && SortedBy(r[..p], DecimalValue)
      && r[p..] == OtherNames(users)
  {
    NamesSplit(users);
    var names, sorted := IndexNames(users), SortBy(IndexNames(users), DecimalValue);
    var r := Keys(users);
    assert |sorted| == |multiset(sorted)| == |names|;
    assert |r| == |multiset(r)|;
    assert r[..|names|] == sorted;
    forall i | 0 <= i < |names| ensures IsIndexName(r[i]) {
      assert r[i] == sorted[i] && sorted[i] in multiset(names);
      var j :| 0 <= j < |names| && names[j] == sorted[i];
    }
  }

  /** `await kv.get('users') || {}`: the stored value when it is truthy, else an empty
      object; None is the WRONGTYPE exception. */
  function UsersObject(m: Snapshot): (r: Option<Json>)
    ensures r.None? <==> Get(m, "users").WrongType?
    ensures Get(m, "users").Found? && Truthy(Get(m, "users").value) ==> r == Some(Get(m, "users").value)
    ensures Get(m, "users").Missing? ==> r == Some(JObj([]))
  {
    match Get(m, "users")
    case WrongType => None
    case Missing => Some(JObj([]))
    case Found(v) => Some(if Truthy(v) then v else JObj([]))
  }

  /** The user object `authorize` returns on success. */
  datatype LoginUser = LoginUser(id: string, name: string, email: Option<Json>)

  /** `await bcrypt.compare(password, hash)`, with `compare` the comparison of two
      strings. bcryptjs rejects a hash that is not a string; the rejection ends in the
      catch, which refuses the sign-in, so such a hash never matches. */
  predicate PasswordAccepted(compare: (string, string) -> bool, password: string, hash: Option<Json>) {
    hash.Some? && hash.value.JStr? && compare(password, hash.value.s)
  }

  /** `authorize(credentials)` against the snapshot `m`. None is the `null` that refuses
      the sign-in. */
  function Authorize(m: Snapshot, credentials: Option<Json>, compare: (string, string) -> bool): (r: Option<LoginUser>)
    ensures ParseLogin(credentials).None? ==> r.None?
    ensures Get(m, "users").WrongType? ==> r.None?
    ensures r.Some? ==>
      && ParseLogin(credentials).Some? && UsersObject(m).Some?
      && var c := ParseLogin(credentials).value;
      && var users := OwnEntries(UsersObject(m));
      && var s := Find(Keys(users), users, c.username);
      && s.MatchAt? && r.value.id == Keys(users)[s.index] && r.value.id != ""
      && r.value.name == c.username
      && Prop(UserAt(users, r.value.id), "password_hash").Some?
      && Prop(UserAt(users, r.value.id), "password_hash").value.JStr?
      && PasswordAccepted(compare, c.password, Prop(UserAt(users, r.value.id), "password_hash"))
      && r.value.email == Prop(UserAt(users, r.value.id), "email")
  {
    match ParseLogin(credentials)
    case None => None
    case Some(c) =>
      match UsersObject(m)
      case None => None
      case Some(u) =>
        var users := OwnEntries(Some(u));
        var keys := Keys(users);
        match Find(keys, users, c.username)
        case NoMatch => None
        case Threw => None
        case MatchAt(i) =>
          var id := keys[i];
          var user := UserAt(users, id);
          if id == "" then None
          else if !PasswordAccepted(compare, c.password, Prop(user, "password_hash")) then None
          else
            assert Prop(user, "username") == Some(JStr(c.username));
            Some(LoginUser(id, c.username, Prop(user, "email")))
  }

  /** `keys[i]` is the key `find` stops at: its user has the username, and every
      earlier user is neither `null` nor a match. */
  predicate FirstMatchAt(keys: seq<string>, users: Members, username: string, i: int) {
    && 0 <= i < |keys|
    && NameMatches(UserAt(users, keys[i]), username)
    && forall j :: 0 <= j < i ==> !Throws(UserAt(users, keys[j])) && !NameMatches(UserAt(users, keys[j]), username)
  }

  /** `find` stops exactly at the first match. */
  lemma FindStopsAtFirstMatch(keys: seq<string>, users: Members, username: string, i: nat)
    ensures Find(keys, users, username) == MatchAt(i) <==> FirstMatchAt(keys, users, username, i)
  {
    if FirstMatchAt(keys, users, username, i) {
      FindThrowsBeforeMatch(keys, users, username, i);
    }
  }

  /** `find` cannot throw when a match comes before every `null` user. */
  lemma {:induction false} FindThrowsBeforeMatch(keys: seq<string>, users: Members, username: string, i: nat)
    requires FirstMatchAt(keys, users, username, i)
    ensures !Find(keys, users, username).Threw?
  {
    if i > 0 {
      assert !Throws(UserAt(users, keys[0])) && !NameMatches(UserAt(users, keys[0]), username);
      assert forall j :: 0 < j < |keys| ==> keys[j] == keys[1..][j - 1];
      FindThrowsBeforeMatch(keys[1..], users, username, i - 1);
    }
  }

  /** A sign-in succeeds exactly for the first key, in key order, whose user has the
      username, provided no earlier user is `null`, the key is not "" (falsy) and the
      password matches that user's hash; no user with that name means no sign-in. */
  lemma AuthorizeFirstMatch(m: Snapshot, credentials: Option<Json>, compare: (string, string) -> bool)
    requires ParseLogin(credentials).Some? && UsersObject(m).Some?
    ensures var c := ParseLogin(credentials).value;
      var users := OwnEntries(UsersObject(m));
      var keys := Keys(users);
      && (Authorize(m, credentials, compare).Some? <==>
            exists i :: FirstMatchAt(keys, users, c.username, i) && keys[i] != ""
                        && PasswordAccepted(compare, c.password, Prop(UserAt(users, keys[i]), "password_hash")))
      && ((forall j :: 0 <= j < |keys| ==> !NameMatches(UserAt(users, keys[j]), c.username)) ==>
            Authorize(m, credentials, compare).None?)
  {
    var c := ParseLogin(credentials).value;
    var users := OwnEntries(UsersObject(m));
    var keys := Keys(users);
    var s := Find(keys, users, c.username);
    if s.MatchAt? {
      FindStopsAtFirstMatch(keys, users, c.username, s.index);
    }
    if exists i :: FirstMatchAt(keys, users, c.username, i) && keys[i] != ""
                   && PasswordAccepted(compare, c.password, Prop(UserAt(users, keys[i]), "password_hash")) {
      var i :| FirstMatchAt(keys, users, c.username, i) && keys[i] != ""
               && PasswordAccepted(compare, c.password, Prop(UserAt(users, keys[i]), "password_hash"));
      FindStopsAtFirstMatch(keys, users, c.username, i);
    }
  }

  lemma IndexNameListedFirst(user: Json)
    ensures Keys([("b", user), ("1", user)]) == ["1", "b"]
  {
    var users := [("b", user), ("1", user)];
    assert users[1..] == [("1", user)] && users[1..][1..] == [];
    assert DecimalValue("1") == 1;
    assert IsIndexName("1") && !IsIndexName("b");
    assert IndexNames(users[1..][1..]) == [] && OtherNames(users[1..][1..]) == [];
    assert IndexNames(users[1..]) == ["1"] && OtherNames(users[1..]) == [];
    assert IndexNames(users) == ["1"];
    assert OtherNames(users) == ["b"];
  }

  /** Index names come first whatever the order they were added in: in the users object
      `{"b": user, "1": user}` the keys are "1" then "b", so when that user's
      username and password are given, the sign-in is as "1". */
  lemma IndexNameSignsInFirst(m: Snapshot, credentials: Option<Json>, compare: (string, string) -> bool, user: Json)
    requires Get(m, "users") == Found(JObj([("b", user), ("1", user)]))
    requires ParseLogin(credentials).Some?
    requires NameMatches(Some(user), ParseLogin(credentials).value.username)
    requires PasswordAccepted(compare, ParseLogin(credentials).value.password, Prop(Some(user), "password_hash"))
    ensures Keys([("b", user), ("1", user)]) == ["1", "b"]
    ensures Authorize(m, credentials, compare).Some? && Authorize(m, credentials, compare).value.id == "1"
  {
    var users := [("b", user), ("1", user)];
    IndexNameListedFirst(user);
    var c := ParseLogin(credentials).value;
    assert UsersObject(m) == Some(JObj(users)) && OwnEntries(UsersObject(m)) == users;
    LookupAt(users, 1);
    assert user.JObj?;
    assert Find(["1", "b"], users, c.username) == MatchAt(0);
  }

  /** The JWT a session is built from; `claims` are its fields. */
  class Token {
    var claims: Members

    constructor(claims: Members)
      ensures this.claims == claims
    {
      this.claims := claims;
    }
  }

  /** `session.user`: the fields the client sees. */
  class SessionUser {
    var fields: Members

    constructor(fields: Members)
      ensures this.fields == fields
    {
      this.fields := fields;
    }
  }

  /** The session object the `session` callback receives; `user` may be absent. */
  class SessionObject {
    var user: SessionUser?

    constructor(user: SessionUser?)
      ensures this.user == user
    {
      this.user := user;
    }
  }

  /** The `jwt` callback: on sign-in (a user present) `token.id` is set to the user's id;
      otherwise the token is returned untouched. */
  method Jwt(token: Token, user: Option<LoginUser>) returns (r: Token)
    modifies token
    ensures r == token
    ensures user.Some? ==> token.claims == Assign(old(token.claims), "id", JStr(user.value.id))
    ensures user.Some? ==> Lookup(token.claims, "id") == Some(JStr(user.value.id))
    ensures forall k :: k != "id" ==> Lookup(token.claims, k) == Lookup(old(token.claims), k)
    ensures user.None? ==> token.claims == old(token.claims)
  {
    if user.Some? {
      token.claims := Assign(token.claims, "id", JStr(user.value.id));
    }
    r := token;
  }

  /** The `session` callback: when the session has a user, `session.user.id` becomes
      `token.id` (absent when the token has none); nothing else changes. */
  method SessionCallback(session: SessionObject, token: Token) returns (r: SessionObject)
    modifies session.user
    ensures r == session && session.user == old(session.user)
    ensures session.user != null ==>
      && session.user.fields == Override(old(session.user.fields), "id", Lookup(token.claims, "id"))
      && Lookup(session.user.fields, "id") == Lookup(token.claims, "id")
      && forall k :: k != "id" ==> Lookup(session.user.fields, k) == Lookup(old(session.user.fields), k)
  {
    if session.user != null {
      session.user.fields := Override(session.user.fields, "id", Lookup(token.claims, "id"));
    }
    r := session;
  }

  /** A sign-in followed by a session read: the id `authorize` returned reaches
      `session.user.id`, and no other field of the token or the session user changes. */
  method SignIn(token: Token, session: SessionObject, user: LoginUser)
    requires session.user != null
    modifies token, session.user
    ensures Lookup(session.user.fields, "id") == Some(JStr(user.id))
    ensures forall k :: k != "id" ==> Lookup(token.claims, k) == Lookup(old(token.claims), k)
    ensures forall k :: k != "id" ==> Lookup(session.user.fields, k) == Lookup(old(session.user.fields), k)
  {
    var t := Jwt(token, Some(user));
    var s := SessionCallback(session, t);
  }
}
