/** Sign-up (`/api/auth/signup`, POST): field checks, an email pattern check, a
    duplicate lookup, then three writes: the user record, the email-to-id mapping and
    the verification token. The mailer's failures are swallowed and do not affect the
    answer, so it is not part of this model. */
module SignupRoute {
  import opened Wrappers
  import opened JsValues
  import opened Encoding
  import opened KvStore
  import opened Http
  import opened Accounts

  const FieldsRequired := "名前、メールアドレス、パスワードは必須です"
  const PasswordTooShort := "パスワードは8文字以上である必要があります"
  const EmailInvalid := "有効なメールアドレスを入力してください"
  const AlreadyRegistered := "このメールアドレスは既に登録されています"
  const StoreFailed := "ユーザー登録中にエラーが発生しました。しばらくしてからもう一度お試しください。"
  const SignupFailed := "登録処理中にエラーが発生しました。しばらくしてからもう一度お試しください。"
  const Registered := "登録が完了しました。確認メールをご確認ください。"

  // ---------------------------------------------------------------------------
  // The email pattern /^[^\s@]+@[^\s@]+\.[^\s@]+$/

  /** A non-empty run of characters matched by `[^\s@]+`. */
  predicate Plain(t: string) {
    |t| > 0 && forall k :: 0 <= k < |t| ==> !IsWhitespace(t[k]) && t[k] != '@'
  }

  /** The language of the pattern, read off it: three plain runs joined by '@' and '.'. */
  ghost predicate MatchesEmailPattern(s: string) {
    exists a, b, c :: Plain(a) && Plain(b) && Plain(c) && s == a + "@" + b + "." + c
  }

  /** The same set of strings, stated by positions: no whitespace, exactly one '@' with
      something before it, and after it a '.' with something on both sides. */
  predicate EmailShaped(s: string) {
    && (forall k :: 0 <= k < |s| ==> !IsWhitespace(s[k]))
    && exists i :: 0 < i < |s| && s[i] == '@'
         && (forall k :: 0 <= k < |s| && s[k] == '@' ==> k == i)
         && exists j :: i + 1 < j < |s| - 1 && s[j] == '.'
  }

  lemma EmailShapedMatches(s: string, i: int, j: int)
    requires forall k :: 0 <= k < |s| ==> !IsWhitespace(s[k])
    requires 0 < i < |s| && s[i] == '@' && (forall k :: 0 <= k < |s| && s[k] == '@' ==> k == i)
    requires i + 1 < j < |s| - 1 && s[j] == '.'
    ensures MatchesEmailPattern(s)
  {
    var a, b, c := s[..i], s[i + 1..j], s[j + 1..];
    assert forall k :: 0 <= k < |a| ==> a[k] == s[k];
    assert forall k :: 0 <= k < |b| ==> b[k] == s[i + 1 + k];
    assert forall k :: 0 <= k < |c| ==> c[k] == s[j + 1 + k];
    assert Plain(a) && Plain(b) && Plain(c);
    assert s == a + "@" + b + "." + c;
  }

  lemma PatternShaped(a: string, b: string, c: string)
    requires Plain(a) && Plain(b) && Plain(c)
    ensures EmailShaped(a + "@" + b + "." + c)
  {
    var s := a + "@" + b + "." + c;
    var i, j := |a|, |a| + 1 + |b|;
    assert forall k :: 0 <= k < |a| ==> s[k] == a[k];
    assert forall k :: 0 <= k < |b| ==> s[i + 1 + k] == b[k];
    assert forall k :: 0 <= k < |c| ==> s[j + 1 + k] == c[k];
    assert s[i] == '@' && s[j] == '.';
    assert forall k :: 0 <= k < |s| ==> !IsWhitespace(s[k]) && (s[k] == '@' ==> k == i) by {
      forall k | 0 <= k < |s| ensures !IsWhitespace(s[k]) && (s[k] == '@' ==> k == i) {
        if k < i { assert s[k] == a[k]; }
        else if i < k < j { assert s[k] == b[k - i - 1]; }
        else if j < k { assert s[k] == c[k - j - 1]; }
      }
    }
  }

  /** The positional statement is exactly the pattern's language. */
  lemma EmailShapedIff(s: string)
    ensures EmailShaped(s) <==> MatchesEmailPattern(s)
  {
    if EmailShaped(s) {
      var i :| 0 < i < |s| && s[i] == '@' && (forall k :: 0 <= k < |s| && s[k] == '@' ==> k == i)
               && exists j :: i + 1 < j < |s| - 1 && s[j] == '.';
      var j :| i + 1 < j < |s| - 1 && s[j] == '.';
      EmailShapedMatches(s, i, j);
    }
    if MatchesEmailPattern(s) {
      var a, b, c :| Plain(a) && Plain(b) && Plain(c) && s == a + "@" + b + "." + c;
      PatternShaped(a, b, c);
    }
  }

  // ---------------------------------------------------------------------------
  // Checks

  /** The request once it has passed the checks that precede the store. */
  datatype Request = Request(name: Json, email: Json, password: Json)

  datatype Checked = Rejected(response: Response) | Passed(request: Request)

  /** The checks in order: `name`, `email` and `password` all truthy; `password.length`
      not below 8; `String(email)` of the pattern's shape. `body` None is a body that is
      not JSON, and `null` cannot be destructured: both raise, giving 500. */
  function Check(body: Option<Json>): (r: Checked)
    ensures body.None? || body.value.JNull? ==> r == Rejected(ErrorResponse(500, SignupFailed))
    ensures body.Some? && !body.value.JNull? ==>
      var name, email, password := Prop(body, "name"), Prop(body, "email"), Prop(body, "password");
      && (!TruthyOpt(name) || !TruthyOpt(email) || !TruthyOpt(password) ==>
            r == Rejected(ErrorResponse(400, FieldsRequired)))
      && (TruthyOpt(name) && TruthyOpt(email) && TruthyOpt(password) ==>
            && (Below(LengthOf(password.value), 8) ==> r == Rejected(ErrorResponse(400, PasswordTooShort)))
            && (!Below(LengthOf(password.value), 8) && !EmailShaped(Text(email.value)) ==>
                  r == Rejected(ErrorResponse(400, EmailInvalid)))
            && (!Below(LengthOf(password.value), 8) && EmailShaped(Text(email.value)) ==>
                  r == Passed(Request(name.value, email.value, password.value))))
  {
    if body.None? || body.value.JNull? then Rejected(ErrorResponse(500, SignupFailed))
    else
      var name, email, password := Prop(body, "name"), Prop(body, "email"), Prop(body, "password");
      if !TruthyOpt(name) || !TruthyOpt(email) || !TruthyOpt(password) then Rejected(ErrorResponse(400, FieldsRequired))
      else if Below(LengthOf(password.value), 8) then Rejected(ErrorResponse(400, PasswordTooShort))
      else if !EmailShaped(Text(email.value)) then Rejected(ErrorResponse(400, EmailInvalid))
      else Passed(Request(name.value, email.value, password.value))
  }

  /** A string password is refused exactly when it has fewer than 8 characters. */
  lemma PasswordLengthBoundary(body: Json, password: string)
    requires body.JObj? && TruthyOpt(Prop(Some(body), "name")) && TruthyOpt(Prop(Some(body), "email"))
    requires Prop(Some(body), "password") == Some(JStr(password)) && password != ""
    ensures Check(Some(body)) == Rejected(ErrorResponse(400, PasswordTooShort)) <==> |password| < 8
  {
  }

  // ---------------------------------------------------------------------------
  // Writes

  /** The user fields, in the order of the object literal. */
  function UserFields(userId: string, req: Request, hashed: string, now: int): Members {
    [("id", JStr(userId)), ("name", req.name), ("email", req.email), ("password", JStr(hashed)),
     ("emailVerified", JBool(false)), ("createdAt", JNum(now))]
  }

  function UserHash(userId: string, req: Request, hashed: string, now: int): (f: map<string, Json>)
    ensures f.Keys == {"id", "name", "email", "password", "emailVerified", "createdAt"}
    ensures f["id"] == JStr(userId) && f["email"] == req.email && f["emailVerified"] == JBool(false)
  {
    map["id" := JStr(userId), "name" := req.name, "email" := req.email, "password" := JStr(hashed),
        "emailVerified" := JBool(false), "createdAt" := JNum(now)]
  }

  /** Which commands the handler uses for the duplicate lookup and the user record: as
      written, `kv.hgetall` and `kv.hset`; consistent with how the mapping is written
      (`kv.set`) and how verification reads the user (`kv.get`), `kv.get` and `kv.set`. */
  datatype Commands = AsWritten | Consistent

  /** What the duplicate lookup decides: an existing registration (409), or go on. A
      store error is caught and treated as no registration. */
  predicate Duplicate(cmds: Commands, m: Snapshot, email: string) {
    match cmds
    case AsWritten => HGetAll(m, EmailKey(email)).Found?
    case Consistent => Get(m, EmailKey(email)).Found? && Truthy(Get(m, EmailKey(email)).value)
  }

  /** The user-record write, and whether the store accepts it (`hset` raises on a key
      that holds a string). */
  function UserWrite(cmds: Commands, userId: string, req: Request, hashed: string, now: int): Write {
    match cmds
    case AsWritten => HashSet(UserKey(userId), UserHash(userId, req, hashed, now))
    case Consistent => SetValue(UserKey(userId), JObj(UserFields(userId, req, hashed, now)))
  }

  predicate UserWriteFails(cmds: Commands, m: Snapshot, userId: string) {
    cmds.AsWritten? && UserKey(userId) in m && m[UserKey(userId)].Str?
  }

  /** The three writes of an accepted sign-up, in order: the user record, the mapping
      from the email to the new id, and the token that verifies it for 24 hours. A
      failing user write raises before anything is stored. */
  function Persist(cmds: Commands, m: Snapshot, userId: string, token: string, req: Request,
                   hashed: string, now: int): (o: Outcome)
    ensures UserWriteFails(cmds, m, userId) ==> o == Reject(500, StoreFailed)
    ensures !UserWriteFails(cmds, m, userId) ==>
      && o.writes == [UserWrite(cmds, userId, req, hashed, now),
                      SetValue(EmailKey(Text(req.email)), JStr(userId)),
                      SetValue(VerificationKey(token), TokenRecord(userId, req.email, now + TokenLifetime))]
      && o.response == Response(201, JObj([("message", JStr(Registered)), ("userId", JStr(userId))]))
  {
    if UserWriteFails(cmds, m, userId) then Reject(500, StoreFailed)
    else
      Outcome(Response(201, JObj([("message", JStr(Registered)), ("userId", JStr(userId))])),
              [UserWrite(cmds, userId, req, hashed, now),
               SetValue(EmailKey(Text(req.email)), JStr(userId)),
               SetValue(VerificationKey(token), TokenRecord(userId, req.email, now + TokenLifetime))])
  }

  /** The writes of the handler as written: `hset` of the user, then two `set`s. */
  method PersistAsWritten(kv: Store, userId: string, token: string, req: Request, hashed: string, now: int)
    returns (resp: Response)
    modifies kv
    ensures var o := Persist(AsWritten, old(kv.entries), userId, token, req, hashed, now);
            resp == o.response && kv.entries == Apply(old(kv.entries), o.writes) && kv.log == old(kv.log) + o.writes
  {
    ghost var m := kv.entries;
    ghost var w0 := HashSet(UserKey(userId), UserHash(userId, req, hashed, now));
    ghost var w1 := SetValue(EmailKey(Text(req.email)), JStr(userId));
    ghost var w2 := SetValue(VerificationKey(token), TokenRecord(userId, req.email, now + TokenLifetime));
    var ok := kv.HSet(UserKey(userId), UserHash(userId, req, hashed, now));
    if !ok {
      return ErrorResponse(500, StoreFailed);
    }
    assert Persist(AsWritten, m, userId, token, req, hashed, now).writes == [w0, w1, w2];
    kv.Set(EmailKey(Text(req.email)), JStr(userId));
    kv.Set(VerificationKey(token), TokenRecord(userId, req.email, now + TokenLifetime));
    ApplyThree(m, w0, w1, w2);
    assert old(kv.log) + [w0] + [w1] + [w2] == old(kv.log) + [w0, w1, w2];
    resp := Response(201, JObj([("message", JStr(Registered)), ("userId", JStr(userId))]));
  }

  /** POST `/api/auth/signup` against `m` at time `now`, with `bcrypt(password)` the hash
      `bcrypt.hash(password, 10)` gives, `uuidBytes` those of `crypto.randomUUID()` and
      `tokenBytes` the 32 bytes of the verification token. */
  function SignupWith(cmds: Commands, m: Snapshot, body: Option<Json>, bcrypt: string -> string,
                      uuidBytes: seq<byte>, tokenBytes: seq<byte>, now: int): (o: Outcome)
    requires |uuidBytes| == 16 && |tokenBytes| == 32
    ensures Check(body).Rejected? ==> o == Outcome(Check(body).response, [])
    ensures Check(body).Passed? && Duplicate(cmds, m, Text(Check(body).request.email)) ==>
              o == Reject(409, AlreadyRegistered)
    ensures Check(body).Passed? && !Duplicate(cmds, m, Text(Check(body).request.email)) ==>
      var req := Check(body).request;
      && (!req.password.JStr? ==> o == Reject(500, SignupFailed))
      && (req.password.JStr? ==>
            o == Persist(cmds, m, Uuid(uuidBytes), Hex(tokenBytes), req, bcrypt(req.password.s), now))
    ensures o.writes == [] || |o.writes| == 3
    ensures o.writes != [] ==>
      && Check(body).Passed? && !Duplicate(cmds, m, Text(Check(body).request.email))
      && var req := Check(body).request;
      && req.password.JStr? && !UserWriteFails(cmds, m, Uuid(uuidBytes))
      && var uid, token := Uuid(uuidBytes), Hex(tokenBytes);
      && o.writes == [UserWrite(cmds, uid, req, bcrypt(req.password.s), now),
                      SetValue(EmailKey(Text(req.email)), JStr(uid)),
                      SetValue(VerificationKey(token), TokenRecord(uid, req.email, now + TokenLifetime))]
      && o.response == Response(201, JObj([("message", JStr(Registered)), ("userId", JStr(uid))]))
  {
    match Check(body)
    case Rejected(resp) => Outcome(resp, [])
    case Passed(req) =>
      if Duplicate(cmds, m, Text(req.email)) then Reject(409, AlreadyRegistered)
      else if !req.password.JStr? then Reject(500, SignupFailed)
      else Persist(cmds, m, Uuid(uuidBytes), Hex(tokenBytes), req, bcrypt(req.password.s), now)
  }

  /** The handler as written, step by step. */
  method Signup(kv: Store, body: Option<Json>, bcrypt: string -> string,
                uuidBytes: seq<byte>, tokenBytes: seq<byte>, now: int) returns (resp: Response)
    requires |uuidBytes| == 16 && |tokenBytes| == 32
    modifies kv
    ensures var o := SignupWith(AsWritten, old(kv.entries), body, bcrypt, uuidBytes, tokenBytes, now);
            resp == o.response && kv.entries == Apply(old(kv.entries), o.writes) && kv.log == old(kv.log) + o.writes
  {
    var checked := Check(body);
    if checked.Rejected? {
      return checked.response;
    }
    var req := checked.request;
    var existing := HGetAll(kv.entries, EmailKey(Text(req.email)));
    if existing.Found? {
      return ErrorResponse(409, AlreadyRegistered);
    }
    if !req.password.JStr? {
      return ErrorResponse(500, SignupFailed);
    }
    var hashed := bcrypt(req.password.s);
    var userId := Uuid(uuidBytes);
    var token := Hex(tokenBytes);
    resp := PersistAsWritten(kv, userId, token, req, hashed, now);
  }
}
