/** Properties that span more than one request: what a later request sees of the
    writes of an earlier one. */
module Flows {
  import opened Wrappers
  import opened JsValues
  import opened Encoding
  import opened KvStore
  import opened Http
  import opened Credentials
  import opened Accounts
  import AnalyzeRoute
  import ApiKeysRoute
  import ApiKeyTestRoute
  import VerifyEmailRoute
  import SignupRoute
  import RegisterRoute

  // ---------------------------------------------------------------------------
  // Analysis jobs

  /** What polling shows of a job record in the store: its owner sees its phase, and
      every other signed-in caller is refused with 403 whatever the phase. */
  lemma PollStoredJob(m: Snapshot, id: string, rec: Json, owner: string, caller: Session)
    requires id != "" && AnalyzeRoute.JobKey(id) in m && m[AnalyzeRoute.JobKey(id)] == Str(rec)
    requires AnalyzeRoute.IsJobRecord(rec) && AnalyzeRoute.Owner(rec) == Some(JStr(owner))
    requires caller.SignedIn?
    ensures caller.userId != Some(owner) ==>
              AnalyzeRoute.Poll(m, caller, Some(id)) == ErrorResponse(403, AnalyzeRoute.Forbidden)
    ensures caller.userId == Some(owner) ==>
      var p := AnalyzeRoute.PhaseOf(rec).value;
      var status := AnalyzeRoute.Poll(m, caller, Some(id)).status;
      && (p in {AnalyzeRoute.Pending, AnalyzeRoute.Processing} ==> status == 202)
      && (p == AnalyzeRoute.Completed ==> status == 200)
      && (p == AnalyzeRoute.Failed ==> status == 500)
  {
    AnalyzeRoute.ViewOfJob(rec);
  }

  /** Right after an accepted submission the caller's job is pending, and nobody else
      can look at it. */
  lemma SubmitThenPoll(m: Snapshot, session: Session, body: Option<Json>, cipher: Cipher, envKey: string,
                       idBytes: seq<byte>, createdAt: string, other: Session)
    requires |idBytes| == 16
    requires AnalyzeRoute.SubmitOutcome(m, session, body, cipher, envKey, idBytes, createdAt).job.Some?
    requires other.SignedIn?
    ensures var r := AnalyzeRoute.SubmitOutcome(m, session, body, cipher, envKey, idBytes, createdAt);
      var j := r.job.value;
      var m1 := Apply(m, r.outcome.writes);
      && AnalyzeRoute.Poll(m1, session, Some(j.sessionId))
           == Response(202, JObj([("status", JStr("pending")), ("race_name", j.raceName)]))
      && (other.userId != Some(j.userId) ==>
            AnalyzeRoute.Poll(m1, other, Some(j.sessionId)) == ErrorResponse(403, AnalyzeRoute.Forbidden))
  {
    var r := AnalyzeRoute.SubmitOutcome(m, session, body, cipher, envKey, idBytes, createdAt);
    var j := r.job.value;
    var rec := AnalyzeRoute.PendingRecord(j.raceName, j.userId, createdAt);
    var key := AnalyzeRoute.JobKey(j.sessionId);
    assert r.outcome.writes == [SetValue(key, rec)];
    ApplyOne(m, SetValue(key, rec));
    assert session.userId == Some(j.userId);
    PollPending(m[key := Str(rec)], j.sessionId, j.raceName, j.userId, createdAt, session);
    PollPending(m[key := Str(rec)], j.sessionId, j.raceName, j.userId, createdAt, other);
  }

  /** Polling a pending record: its owner is told `pending` and the race name, anyone
      else is refused. */
  lemma PollPending(m: Snapshot, id: string, raceName: Json, owner: string, createdAt: string, caller: Session)
    requires id != "" && caller.SignedIn?
    requires AnalyzeRoute.JobKey(id) in m
    requires m[AnalyzeRoute.JobKey(id)] == Str(AnalyzeRoute.PendingRecord(raceName, owner, createdAt))
    ensures caller.userId == Some(owner) ==>
      AnalyzeRoute.Poll(m, caller, Some(id)) == Response(202, JObj([("status", JStr("pending")), ("race_name", raceName)]))
    ensures caller.userId != Some(owner) ==>
      AnalyzeRoute.Poll(m, caller, Some(id)) == ErrorResponse(403, AnalyzeRoute.Forbidden)
  {
    var rec := AnalyzeRoute.PendingRecord(raceName, owner, createdAt);
    AnalyzeRoute.ViewOfJob(rec);
  }

  /** While the run waits for the provider the owner sees `processing` (202); once it
      has finished the owner sees 200 with the result, or 500 with the error; every other
      caller sees 403 throughout. */
  lemma RunThenPoll(m: Snapshot, job: AnalyzeRoute.Job, reply: AnalyzeRoute.Completion,
                    parse: string -> Option<Json>, startedAt: string, finishedAt: string, caller: Session)
    requires job.sessionId != "" && caller.SignedIn?
    ensures var ws := AnalyzeRoute.RunWrites(job, reply, parse, startedAt, finishedAt);
      var during, after := Apply(m, ws[..1]), Apply(m, ws);
      && (caller.userId == Some(job.userId) ==>
            && AnalyzeRoute.Poll(during, caller, Some(job.sessionId)).status == 202
            && AnalyzeRoute.Poll(after, caller, Some(job.sessionId)).status == (if reply.Answered? then 200 else 500))
      && (caller.userId != Some(job.userId) ==>
            && AnalyzeRoute.Poll(during, caller, Some(job.sessionId)) == ErrorResponse(403, AnalyzeRoute.Forbidden)
            && AnalyzeRoute.Poll(after, caller, Some(job.sessionId)) == ErrorResponse(403, AnalyzeRoute.Forbidden))
  {
    var ws := AnalyzeRoute.RunWrites(job, reply, parse, startedAt, finishedAt);
    AnalyzeRoute.RunKeepsOwnershipAndAdvances(job, reply, parse, startedAt, finishedAt);
    assert ws[..1] == [ws[0]];
    ApplyOne(m, ws[0]);
    ApplyAppend(m, [ws[0]], ws[1]);
    assert [ws[0]] + [ws[1]] == ws;
    PollStoredJob(Apply(m, ws[..1]), job.sessionId, ws[0].value, job.userId, caller);
    PollStoredJob(Apply(m, ws), job.sessionId, ws[1].value, job.userId, caller);
  }

  // ---------------------------------------------------------------------------
  // Credentials

  /** A key saved through POST `/api/api-keys` is the key a later submission decrypts
      and hands to the run, whenever the cipher inverts its own encryption (and, as a
      block cipher does, never encrypts to nothing). */
  lemma SaveThenSubmit(m: Snapshot, session: Session, saveBody: Option<Json>, cipher: Cipher, envKey: string,
                       updatedAt: string, submitBody: Option<Json>, idBytes: seq<byte>, createdAt: string)
    requires |idBytes| == 16
    requires ApiKeysRoute.SaveOutcome(session, saveBody, cipher, envKey, updatedAt).writes != []
    requires var k := KeyMaterial(envKey, CallerId(session)).value;
             var key := ApiKeysRoute.ParseSaveRequest(saveBody.value).value;
             cipher.decrypt(k, cipher.encrypt(k, key)) == Some(key) && cipher.encrypt(k, key) != ""
    requires submitBody.Some? && !submitBody.value.JNull? && TruthyOpt(Prop(submitBody, "race_name"))
    ensures var o := ApiKeysRoute.SaveOutcome(session, saveBody, cipher, envKey, updatedAt);
      var r := AnalyzeRoute.SubmitOutcome(Apply(m, o.writes), session, submitBody, cipher, envKey, idBytes, createdAt);
      && r.job.Some?
      && r.job.value.apiKey == ApiKeysRoute.ParseSaveRequest(saveBody.value).value
      && r.job.value.userId == CallerId(session).value
  {
    var o := ApiKeysRoute.SaveOutcome(session, saveBody, cipher, envKey, updatedAt);
    var uid, key := CallerId(session).value, ApiKeysRoute.ParseSaveRequest(saveBody.value).value;
    ApplyOne(m, o.writes[0]);
    DecryptEncrypted(cipher, envKey, uid, key);
  }

  /** After a save, GET reports a key as set, no verification (`last_verified` is gone,
      so ""), and the mask of the stored ciphertext. */
  lemma SaveThenView(m: Snapshot, session: Session, body: Option<Json>, cipher: Cipher, envKey: string, updatedAt: string)
    requires ApiKeysRoute.SaveOutcome(session, body, cipher, envKey, updatedAt).writes != []
    ensures var o := ApiKeysRoute.SaveOutcome(session, body, cipher, envKey, updatedAt);
      var uid, key := CallerId(session).value, ApiKeysRoute.ParseSaveRequest(body.value).value;
      var encrypted := EncryptApiKey(cipher, envKey, key, uid);
      ApiKeysRoute.View(Apply(m, o.writes), session)
        == Response(200, JObj([("api_key_set", JBool(encrypted != "")),
                               ("masked_api_key", JStr(ApiKeysRoute.MaskApiKey(encrypted))),
                               ("last_verified", JStr(""))]))
  {
    var o := ApiKeysRoute.SaveOutcome(session, body, cipher, envKey, updatedAt);
    ApplyOne(m, o.writes[0]);
  }

  /** The corrected GET shows after a save exactly the mask the save itself returned,
      whenever the cipher inverts its own encryption. */
  lemma SaveThenViewIntended(m: Snapshot, session: Session, body: Option<Json>, cipher: Cipher, envKey: string,
                             updatedAt: string)
    requires ApiKeysRoute.SaveOutcome(session, body, cipher, envKey, updatedAt).writes != []
    requires var k := KeyMaterial(envKey, CallerId(session)).value;
             var key := ApiKeysRoute.ParseSaveRequest(body.value).value;
             cipher.decrypt(k, cipher.encrypt(k, key)) == Some(key)
    ensures var o := ApiKeysRoute.SaveOutcome(session, body, cipher, envKey, updatedAt);
      var v := ApiKeysRoute.ViewIntended(Apply(m, o.writes), session, cipher, envKey);
      && v.status == 200 && v.body.JObj?
      && Lookup(v.body.members, "masked_api_key") == Lookup(o.response.body.members, "masked_api_key")
  {
    var o := ApiKeysRoute.SaveOutcome(session, body, cipher, envKey, updatedAt);
    var uid, key := CallerId(session).value, ApiKeysRoute.ParseSaveRequest(body.value).value;
    ApplyOne(m, o.writes[0]);
    DecryptEncrypted(cipher, envKey, uid, key);
    LookupAt(o.response.body.members, 1);
  }

  /** As written, GET masks the ciphertext: for a hex ciphertext of more than eight
      digits and a key longer than eight characters that starts with a character no hex
      digit is (every `sk-...` key), the mask GET shows after a save is never the mask
      the save returned. */
  lemma SavedMaskIsNotShown(m: Snapshot, session: Session, body: Option<Json>, cipher: Cipher, envKey: string,
                            updatedAt: string)
    requires ApiKeysRoute.SaveOutcome(session, body, cipher, envKey, updatedAt).writes != []
    requires var uid, key := CallerId(session).value, ApiKeysRoute.ParseSaveRequest(body.value).value;
             var encrypted := EncryptApiKey(cipher, envKey, key, uid);
             |key| > 8 && !IsHexChar(key[0]) && |encrypted| > 8 && IsHex(encrypted)
    ensures var o := ApiKeysRoute.SaveOutcome(session, body, cipher, envKey, updatedAt);
      var v := ApiKeysRoute.View(Apply(m, o.writes), session);
      Lookup(v.body.members, "masked_api_key") != Lookup(o.response.body.members, "masked_api_key")
  {
    var o := ApiKeysRoute.SaveOutcome(session, body, cipher, envKey, updatedAt);
    var uid, key := CallerId(session).value, ApiKeysRoute.ParseSaveRequest(body.value).value;
    var encrypted := EncryptApiKey(cipher, envKey, key, uid);
    SaveThenView(m, session, body, cipher, envKey, updatedAt);
    var v := ApiKeysRoute.View(Apply(m, o.writes), session);
    LookupAt(v.body.members, 1);
    LookupAt(o.response.body.members, 1);
    assert ApiKeysRoute.MaskApiKey(encrypted)[0] == encrypted[0];
    assert ApiKeysRoute.MaskApiKey(key)[0] == key[0];
  }

  /** A successful credential test keeps the saved ciphertext and stamps the record, so
      a later submission still finds the same key. */
  lemma TestKeepsKey(m: Snapshot, session: Session, cipher: Cipher, envKey: string,
                     listing: ApiKeyTestRoute.Listing, verifiedAt: string, wrongTypeText: string)
    requires ApiKeyTestRoute.TestOutcome(m, session, cipher, envKey, listing, verifiedAt, wrongTypeText).writes != []
    ensures var o := ApiKeyTestRoute.TestOutcome(m, session, cipher, envKey, listing, verifiedAt, wrongTypeText);
      var key := ApiKeysKey(ApiKeyTestRoute.IdText(session.userId));
      var m1 := Apply(m, o.writes);
      && Get(m1, key).Found?
      && Prop(Some(Get(m1, key).value), "api_key") == Prop(Some(Get(m, key).value), "api_key")
      && Prop(Some(Get(m1, key).value), "last_verified") == Some(JStr(verifiedAt))
      && Prop(Some(Get(m1, key).value), "status") == Some(JStr("active"))
  {
    var o := ApiKeyTestRoute.TestOutcome(m, session, cipher, envKey, listing, verifiedAt, wrongTypeText);
    ApplyOne(m, o.writes[0]);
  }

  // ---------------------------------------------------------------------------
  // Accounts

  /** Verification with a token whose record names `uid`: refused as expired after
      `expires`; up to then a 500 when the user key holds a hash, and a success when it
      holds a user record. */
  lemma VerifyKnownToken(m: Snapshot, token: string, uid: string, email: Json, expires: int, later: int)
    requires token != "" && Get(m, VerificationKey(token)) == Found(TokenRecord(uid, email, expires))
    ensures var v := VerifyEmailRoute.VerifyOutcome(m, Some(token), later);
      && (later > expires ==> v == Reject(400, VerifyEmailRoute.TokenExpired))
      && (later <= expires && UserKey(uid) in m && m[UserKey(uid)].Hash? ==> v == Reject(500, VerifyEmailRoute.VerifyFailed))
      && (later <= expires && Get(m, UserKey(uid)).Found? && Truthy(Get(m, UserKey(uid)).value) ==>
            v.response.status == 200 && v.writes != [])
  {
  }

  /** After an accepted registration the emailed token verifies the new user up to and
      including 24 hours later, and is refused as expired from then on: the token record
      names the user record just written, under keys that no other write of the
      registration touches. */
  lemma RegisterThenVerify(m: Snapshot, reg: RegisterRoute.Registration, pbkdf2: (string, string) -> string,
                           saltBytes: seq<byte>, idBytes: seq<byte>, tokenBytes: seq<byte>, now: int, later: int)
    requires |saltBytes| == 16 && |idBytes| == 16 && |tokenBytes| == 32
    ensures var m1 := Apply(m, RegisterRoute.RegisterWrites(reg, pbkdf2, saltBytes, idBytes, tokenBytes, now));
      var v := VerifyEmailRoute.VerifyOutcome(m1, Some(Hex(tokenBytes)), later);
      && (later <= now + TokenLifetime ==> v.response.status == 200 && v.writes != [])
      && (later > now + TokenLifetime ==> v == Reject(400, VerifyEmailRoute.TokenExpired))
  {
    var ws := RegisterRoute.RegisterWrites(reg, pbkdf2, saltBytes, idBytes, tokenBytes, now);
    var id, token := Hex(idBytes), Hex(tokenBytes);
    RegisterRoute.AcceptedWrites(reg, pbkdf2, saltBytes, idBytes, tokenBytes, now);
    var w0, w1, w2 := ws[0], ws[1], ws[2];
    ApplyThree(m, w0, w1, w2);
    assert ws == [w0, w1, w2];
    HexUserKeyIsNotEmailKey(id, reg.email);
    UserKeyIsNotVerificationKey(id, token);
    var s1 := m[UserKey(id) := Str(w0.value)];
    var s2 := s1[EmailKey(reg.email) := Str(w1.value)];
    var m1 := s2[VerificationKey(token) := Str(w2.value)];
    assert Apply(m, ws) == m1;
    assert m1[UserKey(id)] == Str(w0.value);
    assert Get(m1, VerificationKey(token)) == Found(TokenRecord(id, JStr(reg.email), now + TokenLifetime));
    assert Get(m1, UserKey(id)).Found? && Truthy(Get(m1, UserKey(id)).value);
    VerifyKnownToken(m1, token, id, JStr(reg.email), now + TokenLifetime, later);
    var v := VerifyEmailRoute.VerifyOutcome(m1, Some(token), later);
    assert later <= now + TokenLifetime ==> v.response.status == 200 && v.writes != [];
  }

  /** After a successful verification the user is verified, with every other field of
      the record kept; the token is gone, so using it again is refused with 400. */
  lemma VerifyThenVerifyAgain(m: Snapshot, token: string, now: int, later: int)
    requires VerifyEmailRoute.VerifyOutcome(m, Some(token), now).writes != []
    ensures var o := VerifyEmailRoute.VerifyOutcome(m, Some(token), now);
      var m1 := Apply(m, o.writes);
      var uid := ToText(Prop(Some(Get(m, VerificationKey(token)).value), "userId"));
      && Get(m1, UserKey(uid)).Found?
      && Prop(Some(Get(m1, UserKey(uid)).value), "emailVerified") == Some(JBool(true))
      && Prop(Some(Get(m1, UserKey(uid)).value), "updatedAt") == Some(JNum(now))
      && (forall k :: k != "emailVerified" && k != "updatedAt" ==>
            Prop(Some(Get(m1, UserKey(uid)).value), k) == Lookup(OwnEntries(Some(Get(m, UserKey(uid)).value)), k))
      && VerifyEmailRoute.VerifyOutcome(m1, Some(token), later) == Reject(400, VerifyEmailRoute.TokenUnknown)
  {
    var o := VerifyEmailRoute.VerifyOutcome(m, Some(token), now);
    var uid := ToText(Prop(Some(Get(m, VerificationKey(token)).value), "userId"));
    UserKeyIsNotVerificationKey(uid, token);
    ApplyOne(m, o.writes[0]);
    ApplyAppend(m, [o.writes[0]], o.writes[1]);
    assert [o.writes[0]] + [o.writes[1]] == o.writes;
    VerifyEmailRoute.TokenIsOneShot(m, token, now, later);
  }

  /** A write followed by two `kv.set`s of other keys: the two values are there, and
      the first write's key holds what that write left. */
  lemma AfterThreeWrites(m: Snapshot, w0: Write, k1: string, v1: Json, k2: string, v2: Json)
    requires w0.Key() != k1 && w0.Key() != k2 && k1 != k2
    ensures var m1 := Apply(m, [w0, SetValue(k1, v1), SetValue(k2, v2)]);
      && Get(m1, k1) == Found(v1) && Get(m1, k2) == Found(v2)
      && (w0.Key() in m1 <==> w0.Key() in Step(m, w0))
      && (w0.Key() in m1 ==> m1[w0.Key()] == Step(m, w0)[w0.Key()])
  {
    ApplyThree(m, w0, SetValue(k1, v1), SetValue(k2, v2));
  }

  /** The store after an accepted sign-up, under either choice of commands: the user
      record (a hash as written), the mapping to the new id (a string) and the token. */
  lemma SignupStore(cmds: SignupRoute.Commands, m: Snapshot, body: Option<Json>, bcrypt: string -> string,
                    uuidBytes: seq<byte>, tokenBytes: seq<byte>, now: int)
    requires |uuidBytes| == 16 && |tokenBytes| == 32
    requires SignupRoute.SignupWith(cmds, m, body, bcrypt, uuidBytes, tokenBytes, now).writes != []
    ensures var o := SignupRoute.SignupWith(cmds, m, body, bcrypt, uuidBytes, tokenBytes, now);
      var m1 := Apply(m, o.writes);
      var req := SignupRoute.Check(body).request;
      var uid, token := Uuid(uuidBytes), Hex(tokenBytes);
      && Get(m1, EmailKey(Text(req.email))) == Found(JStr(uid))
      && Get(m1, VerificationKey(token)) == Found(TokenRecord(uid, req.email, now + TokenLifetime))
      && UserKey(uid) in m1
      && m1[UserKey(uid)] == Step(m, SignupRoute.UserWrite(cmds, uid, req, bcrypt(req.password.s), now))[UserKey(uid)]
  {
    var o := SignupRoute.SignupWith(cmds, m, body, bcrypt, uuidBytes, tokenBytes, now);
    var req := SignupRoute.Check(body).request;
    var uid, token := Uuid(uuidBytes), Hex(tokenBytes);
    var w0 := SignupRoute.UserWrite(cmds, uid, req, bcrypt(req.password.s), now);
    assert o.writes == [w0, SetValue(EmailKey(Text(req.email)), JStr(uid)),
                        SetValue(VerificationKey(token), TokenRecord(uid, req.email, now + TokenLifetime))];
    assert w0.Key() == UserKey(uid);
    HexUserKeyIsNotEmailKey(uid, Text(req.email));
    UserKeyIsNotVerificationKey(uid, token);
    EmailKeyIsNotVerificationKey(Text(req.email), token);
    AfterThreeWrites(m, w0, EmailKey(Text(req.email)), JStr(uid), VerificationKey(token),
                     TokenRecord(uid, req.email, now + TokenLifetime));
  }

  /** A sign-up whose email is already mapped to an id: as written it goes on (the
      `hgetall` of the string mapping raises and the raise counts as "no such user"),
      hashes the password and, unless the new user key holds a string, writes the three
      keys and answers 201; with consistent commands it gets 409. */
  lemma SignupAgainstMapping(cmds: SignupRoute.Commands, m: Snapshot, body: Option<Json>, bcrypt: string -> string,
                             uuidBytes: seq<byte>, tokenBytes: seq<byte>, now: int, uid: string)
    requires |uuidBytes| == 16 && |tokenBytes| == 32 && uid != ""
    requires SignupRoute.Check(body).Passed?
    requires Get(m, EmailKey(Text(SignupRoute.Check(body).request.email))) == Found(JStr(uid))
    ensures var o := SignupRoute.SignupWith(cmds, m, body, bcrypt, uuidBytes, tokenBytes, now);
      var req := SignupRoute.Check(body).request;
      && (cmds.AsWritten? ==> o.response.status != 409)
      && (cmds.AsWritten? && !req.password.JStr? ==> o == Reject(500, SignupRoute.SignupFailed))
      && (cmds.AsWritten? && req.password.JStr? && !SignupRoute.UserWriteFails(cmds, m, Uuid(uuidBytes)) ==>
            && o.response.status == 201
            && o.writes == [SignupRoute.UserWrite(cmds, Uuid(uuidBytes), req, bcrypt(req.password.s), now),
                            SetValue(EmailKey(Text(req.email)), JStr(Uuid(uuidBytes))),
                            SetValue(VerificationKey(Hex(tokenBytes)),
                                     TokenRecord(Uuid(uuidBytes), req.email, now + TokenLifetime))])
      && (cmds.Consistent? ==> o == Reject(409, SignupRoute.AlreadyRegistered))
  {
    var email := Text(SignupRoute.Check(body).request.email);
    assert SignupRoute.Duplicate(cmds, m, email) <==> cmds.Consistent?;
  }

  /** As written, a second sign-up with the same email is not refused; with consistent
      commands it gets 409. */
  lemma SignupSecondTime(cmds: SignupRoute.Commands, m: Snapshot, body: Option<Json>, bcrypt: string -> string,
                         uuidBytes: seq<byte>, tokenBytes: seq<byte>, now: int,
                         body2: Option<Json>, uuid2: seq<byte>, token2: seq<byte>, now2: int)
    requires |uuidBytes| == 16 && |tokenBytes| == 32 && |uuid2| == 16 && |token2| == 32
    requires SignupRoute.SignupWith(cmds, m, body, bcrypt, uuidBytes, tokenBytes, now).writes != []
    requires SignupRoute.Check(body2).Passed?
    requires Text(SignupRoute.Check(body2).request.email) == Text(SignupRoute.Check(body).request.email)
    ensures var m1 := Apply(m, SignupRoute.SignupWith(cmds, m, body, bcrypt, uuidBytes, tokenBytes, now).writes);
      var again := SignupRoute.SignupWith(cmds, m1, body2, bcrypt, uuid2, token2, now2);
      && (cmds.AsWritten? ==> again.response.status != 409)
      && (cmds.Consistent? ==> again == Reject(409, SignupRoute.AlreadyRegistered))
  {
    var m1 := Apply(m, SignupRoute.SignupWith(cmds, m, body, bcrypt, uuidBytes, tokenBytes, now).writes);
    SignupStore(cmds, m, body, bcrypt, uuidBytes, tokenBytes, now);
    SignupAgainstMapping(cmds, m1, body2, bcrypt, uuid2, token2, now2, Uuid(uuidBytes));
  }

  /** As written, nobody who signed up can verify: the user record is a hash and
      verification reads it with `get`, which raises (500). With consistent commands the
      token verifies the user within its 24 hours. */
  lemma SignupThenVerify(cmds: SignupRoute.Commands, m: Snapshot, body: Option<Json>, bcrypt: string -> string,
                         uuidBytes: seq<byte>, tokenBytes: seq<byte>, now: int, later: int)
    requires |uuidBytes| == 16 && |tokenBytes| == 32
    requires SignupRoute.SignupWith(cmds, m, body, bcrypt, uuidBytes, tokenBytes, now).writes != []
    requires later <= now + TokenLifetime
    ensures var m1 := Apply(m, SignupRoute.SignupWith(cmds, m, body, bcrypt, uuidBytes, tokenBytes, now).writes);
      var v := VerifyEmailRoute.VerifyOutcome(m1, Some(Hex(tokenBytes)), later);
      && (cmds.AsWritten? ==> v == Reject(500, VerifyEmailRoute.VerifyFailed))
      && (cmds.Consistent? ==> v.response.status == 200 && v.writes != [])
  {
    var o := SignupRoute.SignupWith(cmds, m, body, bcrypt, uuidBytes, tokenBytes, now);
    var m1 := Apply(m, o.writes);
    var req := SignupRoute.Check(body).request;
    var uid, token := Uuid(uuidBytes), Hex(tokenBytes);
    SignupStore(cmds, m, body, bcrypt, uuidBytes, tokenBytes, now);
    VerifyKnownToken(m1, token, uid, req.email, now + TokenLifetime, later);
    var v := VerifyEmailRoute.VerifyOutcome(m1, Some(token), later);
    if cmds.AsWritten? {
      assert m1[UserKey(uid)].Hash?;
      assert v == Reject(500, VerifyEmailRoute.VerifyFailed);
    } else {
      assert m1[UserKey(uid)] == Str(JObj(SignupRoute.UserFields(uid, req, bcrypt(req.password.s), now)));
      assert Get(m1, UserKey(uid)).Found? && Truthy(Get(m1, UserKey(uid)).value);
      assert v.response.status == 200 && v.writes != [];
    }
  }
}
