/** The credential route (`/api/api-keys`): GET shows whether a provider key is saved,
    masked, and POST validates, encrypts and saves one under `api_keys:{userId}`. */
module ApiKeysRoute {
  import opened Wrappers
  import opened JsValues
  import opened KvStore
  import opened Http
  import opened Credentials

  const AuthRequired := "認証が必要です"
  const NoUserId := "ユーザーIDが取得できません"
  const InvalidInput := "入力値が不正です"
  const FetchFailed := "APIキーの取得中にエラーが発生しました"
  const SaveFailed := "APIキーの保存中にエラーが発生しました"
  const Stars := "****"

  /** `maskApiKey`: nothing for an empty key, four stars for a key of at most eight
      characters, and otherwise the first four characters, four stars and the last four. */
  function MaskApiKey(key: string): (r: string)
    ensures key == "" <==> r == ""
    ensures 1 <= |key| <= 8 ==> r == Stars
    ensures |key| > 8 ==> |r| == 12 && r == key[..4] + Stars + key[|key| - 4..]
  {
    if key == "" then ""
    else if |key| <= 8 then Stars
    else key[..4] + Stars + key[|key| - 4..]
  }

  /** Two keys are masked alike exactly when both are empty, both have one to eight
      characters, or both are longer and agree on their first four and last four
      characters: nothing else of a key can be read off its mask. */
  lemma MaskEqualIff(a: string, b: string)
    ensures MaskApiKey(a) == MaskApiKey(b) <==>
      || (a == "" && b == "")
      || (1 <= |a| <= 8 && 1 <= |b| <= 8)
      || (|a| > 8 && |b| > 8 && a[..4] == b[..4] && a[|a| - 4..] == b[|b| - 4..])
  {
    var ma, mb := MaskApiKey(a), MaskApiKey(b);
    if |a| > 8 && |b| > 8 && ma == mb {
      assert ma[..4] == a[..4] && mb[..4] == b[..4];
      assert ma[8..] == a[|a| - 4..] && mb[8..] == b[|b| - 4..];
    }
    if |a| > 8 && 1 <= |b| <= 8 { assert |ma| != |mb|; }
    if 1 <= |a| <= 8 && |b| > 8 { assert |ma| != |mb|; }
  }

  /** The masked form of a stored `api_key` value as `maskApiKey` treats it (it is
      handed whatever the record holds). None: `.slice` raises on a value with no such
      method, which the GET handler turns into 500. A falsy value masks to "". */
  function MaskValue(v: Json): (r: Option<string>)
    ensures !Truthy(v) ==> r == Some("")
    ensures v.JStr? ==> r == Some(MaskApiKey(v.s))
    ensures (v.JBool? || v.JNum? || v.JObj?) && Truthy(v) ==> r.None?
  {
    if !Truthy(v) then Some("")
    else match v
      case JStr(s) => Some(MaskApiKey(s))
      case JArr(items) =>
        if |items| <= 8 then Some(Stars)
        else Some(Text(JArr(items[..4])) + Stars + Text(JArr(items[|items| - 4..])))
      case _ => None
  }

  /** GET `/api/api-keys` against the snapshot `m`. It never writes. `api_key_set` is true
      iff the record holds a truthy `api_key`, the mask is taken of that stored (i.e.
      encrypted) value, and `last_verified` defaults to "". */
  function View(m: Snapshot, session: Session): (r: Response)
    ensures r.status == 401 <==> session.NoSession?
    ensures session.SignedIn? && CallerId(session).None? ==> r == ErrorResponse(500, NoUserId)
    ensures CallerId(session).Some? && Get(m, ApiKeysKey(CallerId(session).value)).WrongType? ==>
              r == ErrorResponse(500, FetchFailed)
    ensures CallerId(session).Some? && !Get(m, ApiKeysKey(CallerId(session).value)).WrongType? ==>
      var rec := ValueOf(Get(m, ApiKeysKey(CallerId(session).value)));
      var stored := Or(Prop(Some(rec), "api_key"), JStr(""));
      && (MaskValue(stored).None? ==> r == ErrorResponse(500, FetchFailed))
      && (MaskValue(stored).Some? ==>
            && r.status == 200
            && r.body == JObj([("api_key_set", JBool(TruthyOpt(Prop(Some(rec), "api_key")))),
                               ("masked_api_key", JStr(MaskValue(stored).value)),
                               ("last_verified", Or(Prop(Some(rec), "last_verified"), JStr("")))]))
  {
    if session.NoSession? then ErrorResponse(401, AuthRequired)
    else if CallerId(session).None? then ErrorResponse(500, NoUserId)
    else
      var read := Get(m, ApiKeysKey(CallerId(session).value));
      if read.WrongType? then ErrorResponse(500, FetchFailed)
      else
        var rec := ValueOf(read);
        var stored := Or(Prop(Some(rec), "api_key"), JStr(""));
        match MaskValue(stored)
        case None => ErrorResponse(500, FetchFailed)
        case Some(masked) =>
          Response(200, JObj([("api_key_set", JBool(Truthy(stored))),
                              ("masked_api_key", JStr(masked)),
                              ("last_verified", Or(Prop(Some(rec), "last_verified"), JStr("")))]))
  }

  /** The corrected GET: the same view with the mask taken of the decrypted key, as the
      POST response shows it. */
  function ViewIntended(m: Snapshot, session: Session, cipher: Cipher, envKey: string): (r: Response)
    ensures r.status == 401 <==> session.NoSession?
    ensures CallerId(session).Some? && Get(m, ApiKeysKey(CallerId(session).value)).Found? ==>
      var rec := Get(m, ApiKeysKey(CallerId(session).value)).value;
      var plain := DecryptApiKey(cipher, envKey, Or(Prop(Some(rec), "api_key"), JStr("")), CallerId(session));
      r.status == 200 && r.body.JObj?
      && Lookup(r.body.members, "masked_api_key") == Some(JStr(MaskApiKey(plain)))
  {
    if session.NoSession? then ErrorResponse(401, AuthRequired)
    else if CallerId(session).None? then ErrorResponse(500, NoUserId)
    else
      var read := Get(m, ApiKeysKey(CallerId(session).value));
      if read.WrongType? then ErrorResponse(500, FetchFailed)
      else
        var rec := ValueOf(read);
        var stored := Or(Prop(Some(rec), "api_key"), JStr(""));
        var plain := DecryptApiKey(cipher, envKey, stored, CallerId(session));
        var ms := [("api_key_set", JBool(Truthy(stored))), ("masked_api_key", JStr(MaskApiKey(plain))),
                   ("last_verified", Or(Prop(Some(rec), "last_verified"), JStr("")))];
        LookupAt(ms, 1);
        Response(200, JObj(ms))
  }

  /** What zod's `z.object({ api_key: z.string().min(1) })` accepts: a non-array object
      whose `api_key` is a non-empty string. Other members are stripped. */
  function ParseSaveRequest(body: Json): (r: Option<string>)
    ensures r.Some? <==> body.JObj? && Prop(Some(body), "api_key").Some?
                         && Prop(Some(body), "api_key").value.JStr? && Prop(Some(body), "api_key").value.s != ""
    ensures r.Some? ==> Prop(Some(body), "api_key") == Some(JStr(r.value))
  {
    match Prop(Some(body), "api_key")
    case Some(JStr(s)) => if s != "" then Some(s) else None
    case _ => None
  }

  /** The record a save leaves: the ciphertext and the time of the save, nothing else. */
  function SavedRecord(cipher: Cipher, envKey: string, apiKey: string, userId: string, updatedAt: string): (rec: Json)
    ensures rec.JObj? && |rec.members| == 2
    ensures Prop(Some(rec), "api_key") == Some(JStr(EncryptApiKey(cipher, envKey, apiKey, userId)))
    ensures Prop(Some(rec), "updated_at") == Some(JStr(updatedAt))
    ensures Prop(Some(rec), "last_verified").None? && Prop(Some(rec), "status").None?
  {
    var ms := [("api_key", JStr(EncryptApiKey(cipher, envKey, apiKey, userId))), ("updated_at", JStr(updatedAt))];
    LookupAt(ms, 0);
    LookupAt(ms, 1);
    JObj(ms)
  }

  /** POST `/api/api-keys`. `body` is the parsed request body (None: not JSON, which
      raises and gives 500). Every check precedes the store: the only write is the
      overwrite of the caller's record, and the response masks the plaintext key. */
  function SaveOutcome(session: Session, body: Option<Json>, cipher: Cipher, envKey: string, updatedAt: string): (o: Outcome)
    ensures session.NoSession? ==> o == Reject(401, AuthRequired)
    ensures session.SignedIn? && CallerId(session).None? ==> o == Reject(500, NoUserId)
    ensures CallerId(session).Some? && body.None? ==> o == Reject(500, SaveFailed)
    ensures CallerId(session).Some? && body.Some? && ParseSaveRequest(body.value).None? ==>
              o.writes == [] && o.response.status == 400
    ensures o.writes != [] <==> CallerId(session).Some? && body.Some? && ParseSaveRequest(body.value).Some?
    ensures o.writes != [] ==>
      var uid, key := CallerId(session).value, ParseSaveRequest(body.value).value;
      && o.writes == [SetValue(ApiKeysKey(uid), SavedRecord(cipher, envKey, key, uid, updatedAt))]
      && o.response == Response(200, JObj([("success", JBool(true)), ("masked_api_key", JStr(MaskApiKey(key)))]))
  {
    if session.NoSession? then Reject(401, AuthRequired)
    else if CallerId(session).None? then Reject(500, NoUserId)
    else if body.None? then Reject(500, SaveFailed)
    else match ParseSaveRequest(body.value)
      case None => Reject(400, InvalidInput)
      case Some(key) =>
        var uid := CallerId(session).value;
        Outcome(Response(200, JObj([("success", JBool(true)), ("masked_api_key", JStr(MaskApiKey(key)))])),
                [SetValue(ApiKeysKey(uid), SavedRecord(cipher, envKey, key, uid, updatedAt))])
  }

  /** The POST handler. */
  method Save(kv: Store, session: Session, body: Option<Json>, cipher: Cipher, envKey: string, updatedAt: string)
    returns (resp: Response)
    modifies kv
    ensures var o := SaveOutcome(session, body, cipher, envKey, updatedAt);
            resp == o.response && kv.entries == Apply(old(kv.entries), o.writes) && kv.log == old(kv.log) + o.writes
  {
    if session.NoSession? {
      return ErrorResponse(401, AuthRequired);
    }
    var userId := CallerId(session);
    if userId.None? {
      return ErrorResponse(500, NoUserId);
    }
    if body.None? {
      return ErrorResponse(500, SaveFailed);
    }
    var parsed := ParseSaveRequest(body.value);
    if parsed.None? {
      return ErrorResponse(400, InvalidInput);
    }
    var encrypted := EncryptApiKey(cipher, envKey, parsed.value, userId.value);
    ghost var m := kv.entries;
    kv.Set(ApiKeysKey(userId.value), JObj([("api_key", JStr(encrypted)), ("updated_at", JStr(updatedAt))]));
    ApplyAppend(m, [], SetValue(ApiKeysKey(userId.value), SavedRecord(cipher, envKey, parsed.value, userId.value, updatedAt)));
    resp := Response(200, JObj([("success", JBool(true)), ("masked_api_key", JStr(MaskApiKey(parsed.value)))]));
  }
}
