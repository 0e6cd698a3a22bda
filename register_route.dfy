/** Registration (`/api/auth/register`, POST): schema validation, a duplicate lookup on
    the email mapping, then three `kv.set` writes: the user record with its salted
    password hash, the mapping, and the verification token. The result of sending the
    verification mail is reported, not acted on. */
module RegisterRoute {
  import opened Wrappers
  import opened JsValues
  import opened Encoding
  import opened KvStore
  import opened Http
  import opened Accounts

  const InvalidInput := "入力値が不正です"
  const AlreadyRegistered := "このメールアドレスは既に登録されています"
  const RegisterFailed := "登録中にエラーが発生しました"
  const Registered := "登録が完了しました。確認メールを送信しました。"

  datatype Registration = Registration(name: string, email: string, password: string)

  /** `registerSchema.safeParse(body)`: a non-array object whose `name` is a non-empty
      string, whose `email` is a string zod's `.email()` accepts (the abstract `isEmail`)
      and whose `password` is a string of at least 8 characters. Other members are
      stripped. */
  function ParseRegistration(body: Json, isEmail: string -> bool): (r: Option<Registration>)
    ensures r.Some? <==>
      && body.JObj?
      && (exists name :: Prop(Some(body), "name") == Some(JStr(name)) && |name| >= 1)
      && (exists email :: Prop(Some(body), "email") == Some(JStr(email)) && isEmail(email))
      && (exists pw :: Prop(Some(body), "password") == Some(JStr(pw)) && |pw| >= 8)
    ensures r.Some? ==>
      && Prop(Some(body), "name") == Some(JStr(r.value.name))
      && Prop(Some(body), "email") == Some(JStr(r.value.email))
      && Prop(Some(body), "password") == Some(JStr(r.value.password))
  {
    match (Prop(Some(body), "name"), Prop(Some(body), "email"), Prop(Some(body), "password"))
    case (Some(JStr(name)), Some(JStr(email)), Some(JStr(pw))) =>
      if |name| >= 1 && isEmail(email) && |pw| >= 8 then Some(Registration(name, email, pw)) else None
    case _ => None
  }

  /** `{id, name, email, password: {hash, salt}, emailVerified: false, createdAt}`. */
  function UserRecord(userId: string, reg: Registration, hash: string, salt: string, now: int): Json {
    JObj(UserMembers(userId, reg, hash, salt, now))
  }

  function UserMembers(userId: string, reg: Registration, hash: string, salt: string, now: int): Members {
    IdentityMembers(userId, reg) + StateMembers(hash, salt, now)
  }

  function IdentityMembers(userId: string, reg: Registration): Members {
    [("id", JStr(userId)), ("name", JStr(reg.name)), ("email", JStr(reg.email))]
  }

  function StateMembers(hash: string, salt: string, now: int): Members {
    [("password", PasswordRecord(hash, salt)), ("emailVerified", JBool(false)), ("createdAt", JNum(now))]
  }

  /** The user record holds the new id and the registration's name and email. */
  lemma UserRecordIdentity(userId: string, reg: Registration, hash: string, salt: string, now: int)
    ensures var rec := UserRecord(userId, reg, hash, salt, now);
      && Prop(Some(rec), "id") == Some(JStr(userId))
      && Prop(Some(rec), "name") == Some(JStr(reg.name))
      && Prop(Some(rec), "email") == Some(JStr(reg.email))
  {
    var front := IdentityMembers(userId, reg);
    var back := StateMembers(hash, salt, now);
    LookupAt(front, 0); LookupAt(front, 1); LookupAt(front, 2);
    LookupConcat(front, back, "id");
    LookupConcat(front, back, "name");
    LookupConcat(front, back, "email");
  }

  /** The user record keeps the password only as the salted hash and its salt, and
      starts unverified at the creation time. */
  lemma UserRecordState(userId: string, reg: Registration, hash: string, salt: string, now: int)
    ensures var rec := UserRecord(userId, reg, hash, salt, now);
      && Prop(Prop(Some(rec), "password"), "hash") == Some(JStr(hash))
      && Prop(Prop(Some(rec), "password"), "salt") == Some(JStr(salt))
      && Prop(Some(rec), "emailVerified") == Some(JBool(false))
      && Prop(Some(rec), "createdAt") == Some(JNum(now))
  {
    var front := IdentityMembers(userId, reg);
    var back := StateMembers(hash, salt, now);
    assert !HasKey(front, "password") && !HasKey(front, "emailVerified") && !HasKey(front, "createdAt");
    LookupAfter(front, back, 0);
    LookupAfter(front, back, 1);
    LookupAfter(front, back, 2);
  }

  /** `{hash, salt}`. */
  function PasswordRecord(hash: string, salt: string): (rec: Json)
    ensures Prop(Some(rec), "hash") == Some(JStr(hash))
    ensures Prop(Some(rec), "salt") == Some(JStr(salt))
  {
    var ms := [("hash", JStr(hash)), ("salt", JStr(salt))];
    LookupAt(ms, 0); LookupAt(ms, 1);
    JObj(ms)
  }

  /** The three writes of an accepted registration, in order. */
  function RegisterWrites(reg: Registration, pbkdf2: (string, string) -> string,
                          saltBytes: seq<byte>, idBytes: seq<byte>, tokenBytes: seq<byte>, now: int): seq<Write>
  {
    var salt := Hex(saltBytes);
    var userId := Hex(idBytes);
    [SetValue(UserKey(userId), UserRecord(userId, reg, pbkdf2(reg.password, salt), salt, now)),
     SetValue(EmailKey(reg.email), JStr(userId)),
     SetValue(VerificationKey(Hex(tokenBytes)), TokenRecord(userId, JStr(reg.email), now + TokenLifetime))]
  }

  /** POST `/api/auth/register` against `m` at time `now`. `body` None is a body that is
      not JSON (500). `pbkdf2(password, salt)` is the hex of the 64-byte key
      `pbkdf2Sync` derives; the three byte strings are the salt, the id and the token
      `randomBytes` returns; `mailSent` is what the mail sender reports. */
  function RegisterOutcome(m: Snapshot, body: Option<Json>, isEmail: string -> bool,
                           pbkdf2: (string, string) -> string, saltBytes: seq<byte>,
                           idBytes: seq<byte>, tokenBytes: seq<byte>, now: int, mailSent: bool): (o: Outcome)
    requires |saltBytes| == 16 && |idBytes| == 16 && |tokenBytes| == 32
    ensures body.None? ==> o == Reject(500, RegisterFailed)
    ensures body.Some? && ParseRegistration(body.value, isEmail).None? ==> o.writes == [] && o.response.status == 400
    ensures body.Some? && ParseRegistration(body.value, isEmail).Some? ==>
      var reg := ParseRegistration(body.value, isEmail).value;
      var dup := Get(m, EmailKey(reg.email));
      && (dup.WrongType? ==> o == Reject(500, RegisterFailed))
      && (dup.Found? && Truthy(dup.value) ==> o == Reject(409, AlreadyRegistered))
      && (dup.Missing? || (dup.Found? && !Truthy(dup.value)) ==>
            && o.writes == RegisterWrites(reg, pbkdf2, saltBytes, idBytes, tokenBytes, now)
            && o.response == Response(200, JObj([("success", JBool(true)), ("userId", JStr(Hex(idBytes))),
                                                 ("emailSent", JBool(mailSent)), ("message", JStr(Registered))])))
  {
    if body.None? then Reject(500, RegisterFailed)
    else match ParseRegistration(body.value, isEmail)
      case None => Outcome(Response(400, JObj([("error", JStr(InvalidInput))])), [])
      case Some(reg) =>
        match Get(m, EmailKey(reg.email))
        case WrongType => Reject(500, RegisterFailed)
        case Found(v) =>
          if Truthy(v) then Reject(409, AlreadyRegistered)
          else Accepted(reg, pbkdf2, saltBytes, idBytes, tokenBytes, now, mailSent)
        case Missing => Accepted(reg, pbkdf2, saltBytes, idBytes, tokenBytes, now, mailSent)
  }

  function Accepted(reg: Registration, pbkdf2: (string, string) -> string, saltBytes: seq<byte>,
                    idBytes: seq<byte>, tokenBytes: seq<byte>, now: int, mailSent: bool): Outcome
  {
    Outcome(Response(200, JObj([("success", JBool(true)), ("userId", JStr(Hex(idBytes))),
                                ("emailSent", JBool(mailSent)), ("message", JStr(Registered))])),
            RegisterWrites(reg, pbkdf2, saltBytes, idBytes, tokenBytes, now))
  }

  /** What an accepted registration stores: a user record under a 32-digit hex id with
      `emailVerified = false` and the password salted and hashed, never in clear; the
      mapping from the email to that id; and a 64-digit hex token whose record names the
      same id and email and expires 24 hours on. */
  lemma AcceptedWrites(reg: Registration, pbkdf2: (string, string) -> string, saltBytes: seq<byte>,
                       idBytes: seq<byte>, tokenBytes: seq<byte>, now: int)
    requires |saltBytes| == 16 && |idBytes| == 16 && |tokenBytes| == 32
    ensures var ws := RegisterWrites(reg, pbkdf2, saltBytes, idBytes, tokenBytes, now);
      var id, token := Hex(idBytes), Hex(tokenBytes);
      && |id| == 32 && IsHex(id) && |token| == 64 && IsHex(token)
      && |ws| == 3 && ws[0].SetValue? && ws[1].SetValue? && ws[2].SetValue? && ws[0].value.JObj?
      && ws[0].key == UserKey(id) && ws[1].key == EmailKey(reg.email) && ws[2].key == VerificationKey(token)
      && Prop(Some(ws[0].value), "id") == Some(JStr(id))
      && Prop(Some(ws[0].value), "email") == Some(JStr(reg.email))
      && Prop(Some(ws[0].value), "emailVerified") == Some(JBool(false))
      && Prop(Prop(Some(ws[0].value), "password"), "hash") == Some(JStr(pbkdf2(reg.password, Hex(saltBytes))))
      && Prop(Prop(Some(ws[0].value), "password"), "salt") == Some(JStr(Hex(saltBytes)))
      && ws[1].value == JStr(id)
      && Prop(Some(ws[2].value), "userId") == Some(JStr(id))
      && Prop(Some(ws[2].value), "email") == Some(JStr(reg.email))
      && Prop(Some(ws[2].value), "expires") == Some(JNum(now + 86400000))
  {
    var salt := Hex(saltBytes);
    UserRecordIdentity(Hex(idBytes), reg, pbkdf2(reg.password, salt), salt, now);
    UserRecordState(Hex(idBytes), reg, pbkdf2(reg.password, salt), salt, now);
  }

  /** The three `kv.set` calls of an accepted registration. */
  method PersistRegistration(kv: Store, reg: Registration, pbkdf2: (string, string) -> string,
                             saltBytes: seq<byte>, idBytes: seq<byte>, tokenBytes: seq<byte>, now: int)
    modifies kv
    ensures var ws := RegisterWrites(reg, pbkdf2, saltBytes, idBytes, tokenBytes, now);
            kv.entries == Apply(old(kv.entries), ws) && kv.log == old(kv.log) + ws
  {
    var salt := Hex(saltBytes);
    var userId := Hex(idBytes);
    var record := UserRecord(userId, reg, pbkdf2(reg.password, salt), salt, now);
    var token := TokenRecord(userId, JStr(reg.email), now + TokenLifetime);
    ghost var m := kv.entries;
    ghost var w0 := SetValue(UserKey(userId), record);
    ghost var w1 := SetValue(EmailKey(reg.email), JStr(userId));
    ghost var w2 := SetValue(VerificationKey(Hex(tokenBytes)), token);
    assert RegisterWrites(reg, pbkdf2, saltBytes, idBytes, tokenBytes, now) == [w0, w1, w2];
    kv.Set(UserKey(userId), record);
    kv.Set(EmailKey(reg.email), JStr(userId));
    kv.Set(VerificationKey(Hex(tokenBytes)), token);
    ApplyThree(m, w0, w1, w2);
    assert old(kv.log) + [w0] + [w1] + [w2] == old(kv.log) + [w0, w1, w2];
  }

  /** The POST handler. */
  method Register(kv: Store, body: Option<Json>, isEmail: string -> bool,
                  pbkdf2: (string, string) -> string, saltBytes: seq<byte>,
                  idBytes: seq<byte>, tokenBytes: seq<byte>, now: int, mailSent: bool) returns (resp: Response)
    requires |saltBytes| == 16 && |idBytes| == 16 && |tokenBytes| == 32
    modifies kv
    ensures var o := RegisterOutcome(old(kv.entries), body, isEmail, pbkdf2, saltBytes, idBytes, tokenBytes, now, mailSent);
            resp == o.response && kv.entries == Apply(old(kv.entries), o.writes) && kv.log == old(kv.log) + o.writes
  {
    if body.None? {
      return ErrorResponse(500, RegisterFailed);
    }
    var parsed := ParseRegistration(body.value, isEmail);
    if parsed.None? {
      return Response(400, JObj([("error", JStr(InvalidInput))]));
    }
    var reg := parsed.value;
    var existing := Get(kv.entries, EmailKey(reg.email));
    if existing.WrongType? {
      return ErrorResponse(500, RegisterFailed);
    }
    if existing.Found? && Truthy(existing.value) {
      return ErrorResponse(409, AlreadyRegistered);
    }
    PersistRegistration(kv, reg, pbkdf2, saltBytes, idBytes, tokenBytes, now);
    var userId := Hex(idBytes);
    resp := Response(200, JObj([("success", JBool(true)), ("userId", JStr(userId)),
                                ("emailSent", JBool(mailSent)), ("message", JStr(Registered))]));
  }
}
