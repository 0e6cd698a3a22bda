/** The credential check (`/api/api-keys/test`, POST): decrypt the saved key, list the
    provider's models with it, and on success stamp the record as verified. */
module ApiKeyTestRoute {
  import opened Wrappers
  import opened JsValues
  import opened KvStore
  import opened Http
  import opened Credentials

  const AuthRequired := "認証が必要です"
  const KeyNotSet := "APIキーが設定されていません"
  const KeyUnreadable := "APIキーの復号化に失敗しました"
  const TestFailedPrefix := "APIキーのテストに失敗しました: "

  /** How `client.models.list()` ended: the ids of the models listed, or an exception
      whose `String(error)` text is given. */
  datatype Listing = Listed(ids: seq<string>) | ListFailed(errorText: string)

  /** `${session.user.id}` in a template literal: an absent id is written "undefined". */
  function IdText(userId: Option<string>): (r: string)
    ensures userId.Some? ==> r == userId.value
    ensures userId.None? ==> r == "undefined"
  {
    userId.GetOr("undefined")
  }

  /** `key in array` for an array of `n` elements, restricted to the array's own
      properties: its indices, written in decimal, and `length`. */
  predicate InArray(key: string, n: nat) {
    key == "length" || exists i :: 0 <= i < n && NatToString(i) == key
  }

  /** The `model` label as written: `'gpt-4o' in ids`, which asks whether "gpt-4o" is an
      index of the array rather than one of its elements. */
  function ModelLabel(ids: seq<string>): string {
    if InArray("gpt-4o", |ids|) then "gpt-4o" else "Available"
  }

  /** "gpt-4o" is no index and not `length`, so the label is "Available" whatever the
      provider lists, even when it lists "gpt-4o" itself. */
  lemma ModelLabelAlwaysAvailable(ids: seq<string>)
    ensures ModelLabel(ids) == "Available"
  {
    forall i | 0 <= i < |ids| ensures NatToString(i) != "gpt-4o" {
      var t := NatToString(i);
      assert '0' <= t[0] <= '9';
    }
  }

  /** The label the check evidently means to report: "gpt-4o" iff the provider lists it. */
  function ModelLabelIntended(ids: seq<string>): (r: string)
    ensures r == "gpt-4o" <==> "gpt-4o" in ids
    ensures r != "gpt-4o" ==> r == "Available"
  {
    if "gpt-4o" in ids then "gpt-4o" else "Available"
  }

  /** The two labels part exactly on the listings that include "gpt-4o". */
  lemma ModelLabelDiffers(ids: seq<string>)
    ensures ModelLabel(ids) != ModelLabelIntended(ids) <==> "gpt-4o" in ids
  {
    ModelLabelAlwaysAvailable(ids);
  }

  /** `{...apiKeys, last_verified, status: 'active'}`: every field of the record kept,
      the two stamps set. */
  function VerifiedRecord(rec: Json, verifiedAt: string): (r: Json)
    ensures r.JObj?
    ensures Prop(Some(r), "last_verified") == Some(JStr(verifiedAt))
    ensures Prop(Some(r), "status") == Some(JStr("active"))
    ensures forall k :: k != "last_verified" && k != "status" ==> Prop(Some(r), k) == Lookup(OwnEntries(Some(rec)), k)
  {
    JObj(Assign(Assign(OwnEntries(Some(rec)), "last_verified", JStr(verifiedAt)), "status", JStr("active")))
  }

  /** POST `/api/api-keys/test` against the snapshot `m`. The record is read under the
      id as the template writes it (an absent id reads `api_keys:undefined`); only a
      listing that succeeds writes, and it rewrites that same record. */
  function TestOutcome(m: Snapshot, session: Session, cipher: Cipher, envKey: string,
                       listing: Listing, verifiedAt: string, wrongTypeText: string): (o: Outcome)
    ensures session.NoSession? ==> o == Reject(401, AuthRequired)
    ensures o.writes != [] ==>
      && session.SignedIn? && listing.Listed?
      && Get(m, ApiKeysKey(IdText(session.userId))).Found?
      && o.writes == [SetValue(ApiKeysKey(IdText(session.userId)),
                               VerifiedRecord(Get(m, ApiKeysKey(IdText(session.userId))).value, verifiedAt))]
      && o.response == Response(200, JObj([("success", JBool(true)), ("model", JStr(ModelLabel(listing.ids)))]))
    ensures session.SignedIn? && Get(m, ApiKeysKey(IdText(session.userId))).WrongType? ==>
      o == Reject(500, TestFailedPrefix + wrongTypeText)
    ensures session.SignedIn? && !Get(m, ApiKeysKey(IdText(session.userId))).WrongType? ==>
      var stored := Or(Prop(Some(ValueOf(Get(m, ApiKeysKey(IdText(session.userId))))), "api_key"), JStr(""));
      && (!Truthy(stored) ==> o == Reject(400, KeyNotSet))
      && (Truthy(stored) && DecryptApiKey(cipher, envKey, stored, session.userId) == "" ==> o == Reject(500, KeyUnreadable))
      && (Truthy(stored) && DecryptApiKey(cipher, envKey, stored, session.userId) != "" ==>
            && (listing.ListFailed? ==> o == Reject(500, TestFailedPrefix + listing.errorText))
            && (listing.Listed? ==> o.writes != [] && o.response.status == 200))
    ensures listing.ListFailed? ==> o.writes == []
  {
    if session.NoSession? then Reject(401, AuthRequired)
    else
      var key := ApiKeysKey(IdText(session.userId));
      var read := Get(m, key);
      if read.WrongType? then Reject(500, TestFailedPrefix + wrongTypeText)
      else
        var rec := ValueOf(read);
        var stored := Or(Prop(Some(rec), "api_key"), JStr(""));
        if !Truthy(stored) then Reject(400, KeyNotSet)
        else if DecryptApiKey(cipher, envKey, stored, session.userId) == "" then Reject(500, KeyUnreadable)
        else match listing
          case ListFailed(text) => Reject(500, TestFailedPrefix + text)
          case Listed(ids) =>
            Outcome(Response(200, JObj([("success", JBool(true)), ("model", JStr(ModelLabel(ids)))])),
                    [SetValue(key, VerifiedRecord(rec, verifiedAt))])
  }

  /** The POST handler. */
  method Test(kv: Store, session: Session, cipher: Cipher, envKey: string,
              listing: Listing, verifiedAt: string, wrongTypeText: string) returns (resp: Response)
    modifies kv
    ensures var o := TestOutcome(old(kv.entries), session, cipher, envKey, listing, verifiedAt, wrongTypeText);
            resp == o.response && kv.entries == Apply(old(kv.entries), o.writes) && kv.log == old(kv.log) + o.writes
  {
    if session.NoSession? {
      return ErrorResponse(401, AuthRequired);
    }
    var key := ApiKeysKey(IdText(session.userId));
    var read := Get(kv.entries, key);
    if read.WrongType? {
      return ErrorResponse(500, TestFailedPrefix + wrongTypeText);
    }
    var rec := ValueOf(read);
    var stored := Or(Prop(Some(rec), "api_key"), JStr(""));
    if !Truthy(stored) {
      return ErrorResponse(400, KeyNotSet);
    }
    var apiKey := DecryptApiKey(cipher, envKey, stored, session.userId);
    if apiKey == "" {
      return ErrorResponse(500, KeyUnreadable);
    }
    match listing {
      case ListFailed(text) =>
        return ErrorResponse(500, TestFailedPrefix + text);
      case Listed(ids) =>
        ghost var m := kv.entries;
        kv.Set(key, VerifiedRecord(rec, verifiedAt));
        ApplyAppend(m, [], SetValue(key, VerifiedRecord(rec, verifiedAt)));
        resp := Response(200, JObj([("success", JBool(true)), ("model", JStr(ModelLabel(ids)))]));
    }
  }
}
