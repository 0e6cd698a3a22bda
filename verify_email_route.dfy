/** Email verification (`/api/auth/verify-email`, GET): a one-shot token, valid until its
    `expires` time, marks the user it names as verified and is then deleted. */
module VerifyEmailRoute {
  import opened Wrappers
  import opened JsValues
  import opened KvStore
  import opened Http
  import opened Accounts

  const TokenMissing := "確認トークンが見つかりません"
  const TokenUnknown := "無効または期限切れのトークンです"
  const TokenExpired := "トークンの有効期限が切れています"
  const UserNotFound := "ユーザーが見つかりません"
  const Verified := "メールアドレスが確認されました"
  const VerifyFailed := "メールアドレスの確認中にエラーが発生しました"

  /** `verification.expires < Date.now()`. */
  predicate ExpiredAt(expires: Option<Json>, now: int) {
    Below(expires, now)
  }

  /** `{...user, emailVerified: true, updatedAt: now}`. */
  function VerifiedUser(user: Json, now: int): (r: Json)
    ensures r.JObj?
    ensures Prop(Some(r), "emailVerified") == Some(JBool(true))
    ensures Prop(Some(r), "updatedAt") == Some(JNum(now))
    ensures forall k :: k != "emailVerified" && k != "updatedAt" ==> Prop(Some(r), k) == Lookup(OwnEntries(Some(user)), k)
  {
    JObj(Assign(Assign(OwnEntries(Some(user)), "emailVerified", JBool(true)), "updatedAt", JNum(now)))
  }

  /** GET `/api/auth/verify-email?token=...` against the snapshot `m` at time `now` (ms).
      `token` is the query parameter (None: absent). */
  function VerifyOutcome(m: Snapshot, token: Option<string>, now: int): (o: Outcome)
    ensures token.None? || token.value == "" ==> o == Reject(400, TokenMissing)
    ensures token.Some? && token.value != "" ==>
      var read := Get(m, VerificationKey(token.value));
      && (read.WrongType? ==> o == Reject(500, VerifyFailed))
      && (read.Missing? || (read.Found? && !Truthy(read.value)) ==> o == Reject(400, TokenUnknown))
      && (read.Found? && Truthy(read.value) && ExpiredAt(Prop(Some(read.value), "expires"), now) ==>
            o == Reject(400, TokenExpired))
      && (read.Found? && Truthy(read.value) && !ExpiredAt(Prop(Some(read.value), "expires"), now) ==>
            var u := Get(m, UserKey(ToText(Prop(Some(read.value), "userId"))));
            && (u.Missing? || (u.Found? && !Truthy(u.value)) ==> o == Reject(404, UserNotFound))
            && (u.WrongType? ==> o == Reject(500, VerifyFailed))
            && (u.Found? && Truthy(u.value) ==>
                  && o.writes == [SetValue(UserKey(ToText(Prop(Some(read.value), "userId"))), VerifiedUser(u.value, now)),
                                  Delete(VerificationKey(token.value))]
                  && o.response == Response(200, JObj([("success", JBool(true)), ("message", JStr(Verified))]))))
    ensures o.writes != [] ==>
      && token.Some?
      && var v := Get(m, VerificationKey(token.value));
      && v.Found? && Truthy(v.value) && !ExpiredAt(Prop(Some(v.value), "expires"), now)
      && var uid := ToText(Prop(Some(v.value), "userId"));
      && var u := Get(m, UserKey(uid));
      && u.Found? && Truthy(u.value)
      && o.writes == [SetValue(UserKey(uid), VerifiedUser(u.value, now)), Delete(VerificationKey(token.value))]
      && o.response == Response(200, JObj([("success", JBool(true)), ("message", JStr(Verified))]))
  {
    if token.None? || token.value == "" then Reject(400, TokenMissing)
    else match Get(m, VerificationKey(token.value))
      case WrongType => Reject(500, VerifyFailed)
      case Missing => Reject(400, TokenUnknown)
      case Found(v) =>
        if !Truthy(v) then Reject(400, TokenUnknown)
        else if ExpiredAt(Prop(Some(v), "expires"), now) then Reject(400, TokenExpired)
        else
          var uid := ToText(Prop(Some(v), "userId"));
          match Get(m, UserKey(uid))
          case WrongType => Reject(500, VerifyFailed)
          case Missing => Reject(404, UserNotFound)
          case Found(u) =>
            if !Truthy(u) then Reject(404, UserNotFound)
            else Outcome(Response(200, JObj([("success", JBool(true)), ("message", JStr(Verified))])),
                         [SetValue(UserKey(uid), VerifiedUser(u, now)), Delete(VerificationKey(token.value))])
  }

  /** The GET handler. */
  method Verify(kv: Store, token: Option<string>, now: int) returns (resp: Response)
    modifies kv
    ensures var o := VerifyOutcome(old(kv.entries), token, now);
            resp == o.response && kv.entries == Apply(old(kv.entries), o.writes) && kv.log == old(kv.log) + o.writes
  {
    if token.None? || token.value == "" {
      return ErrorResponse(400, TokenMissing);
    }
    var read := Get(kv.entries, VerificationKey(token.value));
    if read.WrongType? {
      return ErrorResponse(500, VerifyFailed);
    }
    var verification := ValueOf(read);
    if !Truthy(verification) {
      return ErrorResponse(400, TokenUnknown);
    }
    if ExpiredAt(Prop(Some(verification), "expires"), now) {
      return ErrorResponse(400, TokenExpired);
    }
    var userId := ToText(Prop(Some(verification), "userId"));
    var userRead := Get(kv.entries, UserKey(userId));
    if userRead.WrongType? {
      return ErrorResponse(500, VerifyFailed);
    }
    var user := ValueOf(userRead);
    if !Truthy(user) {
      return ErrorResponse(404, UserNotFound);
    }
    ghost var m := kv.entries;
    ghost var w1, w2 := SetValue(UserKey(userId), VerifiedUser(user, now)), Delete(VerificationKey(token.value));
    assert VerifyOutcome(m, token, now).writes == [w1, w2];
    kv.Set(UserKey(userId), VerifiedUser(user, now));
    ApplyAppend(m, [], w1);
    kv.Del(VerificationKey(token.value));
    ApplyAppend(m, [w1], w2);
    assert [w1] + [w2] == [w1, w2];
    resp := Response(200, JObj([("success", JBool(true)), ("message", JStr(Verified))]));
  }

  /** A token is accepted up to and including the instant `expires`, and refused with
      nothing written from the next millisecond on. */
  lemma ExpiryBoundary(m: Snapshot, token: string, expires: int, now: int)
    requires token != ""
    requires Get(m, VerificationKey(token)).Found?
    requires Get(m, VerificationKey(token)).value.JObj?
    requires Prop(Some(Get(m, VerificationKey(token)).value), "expires") == Some(JNum(expires))
    ensures now > expires ==> VerifyOutcome(m, Some(token), now) == Reject(400, TokenExpired)
    ensures now <= expires ==> VerifyOutcome(m, Some(token), now).response.status != 400
  {
  }

  /** A token works once: after a successful verification the same token is unknown. */
  lemma {:induction false} TokenIsOneShot(m: Snapshot, token: string, now: int, later: int)
    requires VerifyOutcome(m, Some(token), now).writes != []
    ensures VerifyOutcome(Apply(m, VerifyOutcome(m, Some(token), now).writes), Some(token), later)
            == Reject(400, TokenUnknown)
  {
    var o := VerifyOutcome(m, Some(token), now);
    var uid := ToText(Prop(Some(Get(m, VerificationKey(token)).value), "userId"));
    UserKeyIsNotVerificationKey(uid, token);
    ApplyAppend(m, [], o.writes[0]);
    ApplyAppend(m, [o.writes[0]], o.writes[1]);
    assert [o.writes[0]] + [o.writes[1]] == o.writes;
    assert VerificationKey(token) !in Apply(m, o.writes);
  }
}
