/** The analysis job route (`/api/analyze`): submission (POST), the background run
    (`analyzeRace`) and polling (GET). A job lives in the store under `analysis:{id}`;
    its record moves from `pending` to `processing` to `completed` or `error`. */
module AnalyzeRoute {
  import opened Wrappers
  import opened JsValues
  import opened Encoding
  import opened KvStore
  import opened Http
  import opened Credentials

  const AuthRequired := "認証が必要です"
  const NoUserId := "ユーザーIDが取得できません"
  const RaceNameRequired := "レース名は必須です"
  const KeyNotSet := "APIキーが設定されていません"
  const KeyUnreadable := "APIキーの復号化に失敗しました"
  const SubmitFailed := "分析リクエスト中にエラーが発生しました"
  const ParseFailed := "分析結果のパースに失敗しました"
  const UnknownError := "不明なエラー"
  const SessionIdRequired := "セッションIDは必須です"
  const NotFound := "分析結果が見つかりません"
  const Forbidden := "この分析結果にアクセスする権限がありません"
  const AnalysisFailed := "分析中にエラーが発生しました"
  const FetchFailed := "分析結果の取得中にエラーが発生しました"

  function JobKey(id: string): string {
    "analysis:" + id
  }

  // ---------------------------------------------------------------------------
  // Job records

  datatype Phase = Pending | Processing | Completed | Failed {
    /** The `status` string the record stores (the failure status is 'error'). */
    function Name(): string {
      match this
      case Pending => "pending"
      case Processing => "processing"
      case Completed => "completed"
      case Failed => "error"
    }
    /** Position along pending -> processing -> completed | error. */
    function Rank(): nat {
      match this
      case Pending => 0
      case Processing => 1
      case _ => 2
    }
  }

  /** The phase a record's `status` names, if it names one. */
  function PhaseOf(rec: Json): (p: Option<Phase>)
    ensures p.Some? ==> Prop(Some(rec), "status") == Some(JStr(p.value.Name()))
    ensures p.None? ==> forall q: Phase :: Prop(Some(rec), "status") != Some(JStr(q.Name()))
  {
    match Prop(Some(rec), "status")
    case Some(JStr(s)) =>
      if s == "pending" then Some(Pending)
      else if s == "processing" then Some(Processing)
      else if s == "completed" then Some(Completed)
      else if s == "error" then Some(Failed)
      else None
    case _ => None
  }

  /** A record whose `status` is the name of a phase is in that phase. */
  lemma PhaseOfName(rec: Json, p: Phase)
    requires Prop(Some(rec), "status") == Some(JStr(p.Name()))
    ensures PhaseOf(rec) == Some(p)
  {
    match p
    case Pending =>
    case Processing => assert "processing" != "pending";
    case Completed => assert "completed" != "pending" && "completed" != "processing";
    case Failed => assert "error" != "pending" && "error" != "processing" && "error" != "completed";
  }

  /** The shape every job record has: an owner and a race name, a known status, a
      `result` exactly when completed and an `error` exactly when failed. */
  predicate IsJobRecord(rec: Json) {
    && rec.JObj?
    && Prop(Some(rec), "user_id").Some?
    && Prop(Some(rec), "race_name").Some?
    && PhaseOf(rec).Some?
    && (Prop(Some(rec), "result").Some? <==> PhaseOf(rec) == Some(Completed))
    && (Prop(Some(rec), "error").Some? <==> PhaseOf(rec) == Some(Failed))
  }

  function Owner(rec: Json): Option<Json> {
    Prop(Some(rec), "user_id")
  }

  function RaceNameOf(rec: Json): Option<Json> {
    Prop(Some(rec), "race_name")
  }

  function JobMembers(raceName: Json, userId: string, phase: Phase, payload: Json,
                      stampName: string, stamp: string): Members
  {
    [("race_name", raceName), ("user_id", JStr(userId)), ("status", JStr(phase.Name()))]
    + (if phase == Completed then [("result", payload)]
       else if phase == Failed then [("error", payload)]
       else [])
    + [(stampName, JStr(stamp))]
  }

  lemma JobMembersLookups(raceName: Json, userId: string, phase: Phase, payload: Json,
                          stampName: string, stamp: string)
    requires stampName == "created_at" || stampName == "updated_at"
    ensures var ms := JobMembers(raceName, userId, phase, payload, stampName, stamp);
      && Lookup(ms, "race_name") == Some(raceName)
      && Lookup(ms, "user_id") == Some(JStr(userId))
      && Lookup(ms, "status") == Some(JStr(phase.Name()))
      && Lookup(ms, "result") == (if phase == Completed then Some(payload) else None)
      && Lookup(ms, "error") == (if phase == Failed then Some(payload) else None)
  {
    var ms := JobMembers(raceName, userId, phase, payload, stampName, stamp);
    LookupAt(ms, 0);
    LookupAt(ms, 1);
    LookupAt(ms, 2);
    match phase
    case Completed =>
      assert |ms| == 5;
      LookupAt(ms, 3);
      assert !HasKey(ms, "error");
    case Failed =>
      assert |ms| == 5;
      LookupAt(ms, 3);
      assert !HasKey(ms, "result");
    case _ =>
      assert |ms| == 4;
      assert !HasKey(ms, "result") && !HasKey(ms, "error");
  }

  /** A job record as every write of this route lays it out: `race_name`, `user_id`,
      `status`, then `result` (completed) or `error` (failed), then the time stamp. */
  function JobRecord(raceName: Json, userId: string, phase: Phase, payload: Json,
                     stampName: string, stamp: string): (rec: Json)
    requires stampName == "created_at" || stampName == "updated_at"
    ensures IsJobRecord(rec) && PhaseOf(rec) == Some(phase)
    ensures Owner(rec) == Some(JStr(userId)) && RaceNameOf(rec) == Some(raceName)
    ensures phase == Completed ==> Prop(Some(rec), "result") == Some(payload)
    ensures phase == Failed ==> Prop(Some(rec), "error") == Some(payload)
  {
    var ms := JobMembers(raceName, userId, phase, payload, stampName, stamp);
    JobMembersLookups(raceName, userId, phase, payload, stampName, stamp);
    PhaseOfName(JObj(ms), phase);
    JObj(ms)
  }

  function PendingRecord(raceName: Json, userId: string, createdAt: string): (rec: Json)
    ensures IsJobRecord(rec) && PhaseOf(rec) == Some(Pending)
    ensures Owner(rec) == Some(JStr(userId)) && RaceNameOf(rec) == Some(raceName)
  {
    JobRecord(raceName, userId, Pending, JNull, "created_at", createdAt)
  }

  /** What `analyzeRace` is started with. */
  datatype Job = Job(sessionId: string, raceName: Json, apiKey: string, userId: string)

  // ---------------------------------------------------------------------------
  // POST: submission

  /** What a submission does, and the job it starts when it is accepted. */
  datatype Submitted = Submitted(outcome: Outcome, job: Option<Job>)

  function KeyError(status: int, message: string): Outcome {
    Outcome(Response(status, JObj([("error", JStr(message)), ("type", JStr("api_key_error"))])), [])
  }

  /** POST `/api/analyze` against the store snapshot `m`. `body` is the parsed request
      body (None: not JSON), `idBytes` the 16 bytes `crypto.randomBytes(16)` returns and
      `createdAt` the ISO time of the write. Every rejection writes nothing and starts
      nothing; an acceptance writes one pending record under a fresh 32-digit hex id,
      returns that id, and starts the job for the caller. */
  function SubmitOutcome(m: Snapshot, session: Session, body: Option<Json>, cipher: Cipher,
                         envKey: string, idBytes: seq<byte>, createdAt: string): (r: Submitted)
    requires |idBytes| == 16
    ensures session.NoSession? ==> r.outcome == Reject(401, AuthRequired)
    ensures session.SignedIn? && CallerId(session).None? ==> r.outcome == Reject(500, NoUserId)
    ensures (CallerId(session).Some? && body.Some? && !body.value.JNull?
             && !TruthyOpt(Prop(body, "race_name"))) ==> r.outcome == Reject(400, RaceNameRequired)
    ensures CallerId(session).Some? && (body.None? || body.value.JNull?) ==> r.outcome == Reject(500, SubmitFailed)
    ensures CallerId(session).Some? && body.Some? && !body.value.JNull? && TruthyOpt(Prop(body, "race_name")) ==>
      var userId := CallerId(session).value;
      var read := Get(m, ApiKeysKey(userId));
      && (read.WrongType? ==> r.outcome == Reject(500, SubmitFailed))
      && (!read.WrongType? ==>
            var stored := Or(Prop(Some(ValueOf(read)), "api_key"), JStr(""));
            var apiKey := DecryptApiKey(cipher, envKey, stored, Some(userId));
            && (!Truthy(stored) ==> r.outcome == KeyError(400, KeyNotSet))
            && (Truthy(stored) && apiKey == "" ==> r.outcome == KeyError(500, KeyUnreadable))
            && (Truthy(stored) && apiKey != "" ==>
                  r.job == Some(Job(Hex(idBytes), Prop(body, "race_name").value, apiKey, userId))))
    ensures r.job.None? <==> r.outcome.writes == []
    ensures r.job.None? ==> r.outcome.response.status in {400, 401, 500}
    ensures r.job.Some? ==>
      var j := r.job.value;
      && CallerId(session) == Some(j.userId)
      && Prop(body, "race_name") == Some(j.raceName) && Truthy(j.raceName)
      && j.apiKey != ""
      && j.sessionId == Hex(idBytes) && |j.sessionId| == 32 && IsHex(j.sessionId)
      && r.outcome.writes == [SetValue(JobKey(j.sessionId), PendingRecord(j.raceName, j.userId, createdAt))]
      && r.outcome.response == Response(200, JObj([("success", JBool(true)), ("session_id", JStr(j.sessionId))]))
  {
    if session.NoSession? then Submitted(Reject(401, AuthRequired), None)
    else if CallerId(session).None? then Submitted(Reject(500, NoUserId), None)
    else if body.None? || body.value.JNull? then Submitted(Reject(500, SubmitFailed), None)
    else
      var userId := CallerId(session).value;
      var raceName := Prop(body, "race_name");
      if !TruthyOpt(raceName) then Submitted(Reject(400, RaceNameRequired), None)
      else
        var read := Get(m, ApiKeysKey(userId));
        if read.WrongType? then Submitted(Reject(500, SubmitFailed), None)
        else
          var encrypted := Or(Prop(Some(ValueOf(read)), "api_key"), JStr(""));
          if !Truthy(encrypted) then Submitted(KeyError(400, KeyNotSet), None)
          else
            var apiKey := DecryptApiKey(cipher, envKey, encrypted, Some(userId));
            if apiKey == "" then Submitted(KeyError(500, KeyUnreadable), None)
            else
              var id := Hex(idBytes);
              Submitted(
                Outcome(Response(200, JObj([("success", JBool(true)), ("session_id", JStr(id))])),
                        [SetValue(JobKey(id), PendingRecord(raceName.value, userId, createdAt))]),
                Some(Job(id, raceName.value, apiKey, userId)))
  }

  /** The POST handler: guarded reads, then the single `kv.set` of the pending record.
      The background run it schedules is returned as `job` and run by `Run`. */
  method Submit(kv: Store, session: Session, body: Option<Json>, cipher: Cipher, envKey: string,
                idBytes: seq<byte>, createdAt: string) returns (resp: Response, job: Option<Job>)
    requires |idBytes| == 16
    modifies kv
    ensures var r := SubmitOutcome(old(kv.entries), session, body, cipher, envKey, idBytes, createdAt);
            resp == r.outcome.response && job == r.job
            && kv.entries == Apply(old(kv.entries), r.outcome.writes)
            && kv.log == old(kv.log) + r.outcome.writes
  {
    ghost var r := SubmitOutcome(kv.entries, session, body, cipher, envKey, idBytes, createdAt);
    ghost var m := kv.entries;
    if session.NoSession? {
      return ErrorResponse(401, AuthRequired), None;
    }
    var userId := CallerId(session);
    if userId.None? {
      return ErrorResponse(500, NoUserId), None;
    }
    if body.None? || body.value.JNull? {
      return ErrorResponse(500, SubmitFailed), None;
    }
    var raceName := Prop(body, "race_name");
    if !TruthyOpt(raceName) {
      return ErrorResponse(400, RaceNameRequired), None;
    }
    var read := Get(kv.entries, ApiKeysKey(userId.value));
    if read.WrongType? {
      return ErrorResponse(500, SubmitFailed), None;
    }
    var encrypted := Or(Prop(Some(ValueOf(read)), "api_key"), JStr(""));
    if !Truthy(encrypted) {
      return KeyError(400, KeyNotSet).response, None;
    }
    var apiKey := DecryptApiKey(cipher, envKey, encrypted, userId);
    if apiKey == "" {
      return KeyError(500, KeyUnreadable).response, None;
    }
    var id := Hex(idBytes);
    kv.Set(JobKey(id), PendingRecord(raceName.value, userId.value, createdAt));
    ApplyAppend(m, [], r.outcome.writes[0]);
    resp := Response(200, JObj([("success", JBool(true)), ("session_id", JStr(id))]));
    job := Some(Job(id, raceName.value, apiKey, userId.value));
  }

  // ---------------------------------------------------------------------------
  // analyzeRace: the background run

  /** How the provider call `client.chat.completions.create` ended: with a reply whose
      first choice carries `content` (None: null), or by raising, with the message of
      the `Error` raised (None: something other than an `Error` was thrown). */
  datatype Completion = Answered(content: Option<string>) | Raised(message: Option<string>)

  /** True iff `s[i..j+1]` is a match of `/\{[\s\S]*\}/`: a '{', anything, a later '}'. */
  predicate MatchesAt(s: string, i: int, j: int) {
    0 <= i < j < |s| && s[i] == '{' && s[j] == '}'
  }

  function FirstIndexOf(s: string, c: char): (r: Option<nat>)
    ensures r.Some? ==> r.value < |s| && s[r.value] == c
    ensures r.Some? ==> forall k :: 0 <= k < r.value ==> s[k] != c
    ensures r.None? ==> forall k :: 0 <= k < |s| ==> s[k] != c
  {
    if s == [] then None
    else if s[0] == c then Some(0)
    else
      var r := FirstIndexOf(s[1..], c);
      if r.None? then None else Some(r.value + 1)
  }

  function LastIndexOf(s: string, c: char): (r: Option<nat>)
    ensures r.Some? ==> r.value < |s| && s[r.value] == c
    ensures r.Some? ==> forall k :: r.value < k < |s| ==> s[k] != c
    ensures r.None? ==> forall k :: 0 <= k < |s| ==> s[k] != c
  {
    if s == [] then None
    else if s[|s| - 1] == c then Some(|s| - 1)
    else LastIndexOf(s[..|s| - 1], c)
  }

  /** `text.match(/\{[\s\S]*\}/)?.[0]`. A match exists iff some '{' comes before some '}'.
      The engine takes the leftmost start, and the greedy `[\s\S]*` the longest match
      from there: the text from the first '{' to the last '}'. */
  function ExtractJson(text: string): (r: Option<string>)
    ensures r.Some? <==> exists i, j :: MatchesAt(text, i, j)
    ensures r.Some? ==>
      exists i, j ::
        && MatchesAt(text, i, j) && r.value == text[i..j + 1]
        && (forall i', j' :: MatchesAt(text, i', j') ==> i <= i')
        && (forall j' :: MatchesAt(text, i, j') ==> j' <= j)
  {
    var open, close := FirstIndexOf(text, '{'), LastIndexOf(text, '}');
    if open.Some? && close.Some? && open.value < close.value then
      var i, j := open.value, close.value;
      assert MatchesAt(text, i, j);
      Some(text[i..j + 1])
    else
      assert forall i, j :: !MatchesAt(text, i, j);
      None
  }

  /** The fallback stored when no JSON block is found or it does not parse. */
  function Fallback(text: string): Json {
    JObj([("error", JStr(ParseFailed)), ("raw_text", JStr(text))])
  }

  /** The `result` of a completed job: the parsed JSON block when there is one and
      `JSON.parse` (the abstract `parse`) accepts it, the fallback carrying the whole
      reply text otherwise. */
  function AnalysisResult(text: string, parse: string -> Option<Json>): (r: Json)
    ensures ExtractJson(text).None? ==> r == Fallback(text)
    ensures ExtractJson(text).Some? && parse(ExtractJson(text).value).None? ==> r == Fallback(text)
    ensures ExtractJson(text).Some? && parse(ExtractJson(text).value).Some? ==>
              r == parse(ExtractJson(text).value).value
  {
    match ExtractJson(text)
    case None => Fallback(text)
    case Some(block) =>
      match parse(block)
      case None => Fallback(text)
      case Some(v) => v
  }

  function ProcessingRecord(job: Job, updatedAt: string): (rec: Json)
    ensures IsJobRecord(rec) && PhaseOf(rec) == Some(Processing)
    ensures Owner(rec) == Some(JStr(job.userId)) && RaceNameOf(rec) == Some(job.raceName)
  {
    JobRecord(job.raceName, job.userId, Processing, JNull, "updated_at", updatedAt)
  }

  /** The record the run ends with: `completed` with a result whenever the provider
      answered (an unparsable answer included), `error` with the exception's message
      (or '不明なエラー') and no result when the call raised. */
  function FinalRecord(job: Job, reply: Completion, parse: string -> Option<Json>, updatedAt: string): (rec: Json)
    ensures IsJobRecord(rec)
    ensures Owner(rec) == Some(JStr(job.userId)) && RaceNameOf(rec) == Some(job.raceName)
    ensures reply.Answered? ==> PhaseOf(rec) == Some(Completed)
                                && Prop(Some(rec), "result") == Some(AnalysisResult(reply.content.GetOr(""), parse))
    ensures reply.Raised? ==> PhaseOf(rec) == Some(Failed) && Prop(Some(rec), "result").None?
                              && Prop(Some(rec), "error") == Some(JStr(reply.message.GetOr(UnknownError)))
  {
    match reply
    case Answered(content) =>
      JobRecord(job.raceName, job.userId, Completed, AnalysisResult(content.GetOr(""), parse), "updated_at", updatedAt)
    case Raised(message) =>
      JobRecord(job.raceName, job.userId, Failed, JStr(message.GetOr(UnknownError)), "updated_at", updatedAt)
  }

  /** The writes of one run, in order: the `processing` record, then the final one. */
  function RunWrites(job: Job, reply: Completion, parse: string -> Option<Json>,
                     startedAt: string, finishedAt: string): (ws: seq<Write>)
    ensures |ws| == 2
    ensures ws[0] == SetValue(JobKey(job.sessionId), ProcessingRecord(job, startedAt))
    ensures ws[1] == SetValue(JobKey(job.sessionId), FinalRecord(job, reply, parse, finishedAt))
  {
    [SetValue(JobKey(job.sessionId), ProcessingRecord(job, startedAt)),
     SetValue(JobKey(job.sessionId), FinalRecord(job, reply, parse, finishedAt))]
  }

  /** Every record one run writes names the same owner and race as the job, so the
      ownership check of GET sees the submitter throughout; the statuses written climb
      strictly from `pending` and the last one is terminal. */
  lemma RunKeepsOwnershipAndAdvances(job: Job, reply: Completion, parse: string -> Option<Json>,
                                     startedAt: string, finishedAt: string)
    ensures var ws := RunWrites(job, reply, parse, startedAt, finishedAt);
      && (forall i :: 0 <= i < |ws| ==>
            && ws[i].SetValue? && ws[i].key == JobKey(job.sessionId) && IsJobRecord(ws[i].value)
            && Owner(ws[i].value) == Some(JStr(job.userId)) && RaceNameOf(ws[i].value) == Some(job.raceName))
      && Pending.Rank() < PhaseOf(ws[0].value).value.Rank() < PhaseOf(ws[1].value).value.Rank()
      && PhaseOf(ws[1].value).value in {Completed, Failed}
      && (PhaseOf(ws[1].value) == Some(Completed) <==> reply.Answered?)
  {
    var start, final := ProcessingRecord(job, startedAt), FinalRecord(job, reply, parse, finishedAt);
    assert PhaseOf(start) == Some(Processing);
    assert RunWrites(job, reply, parse, startedAt, finishedAt)
           == [SetValue(JobKey(job.sessionId), start), SetValue(JobKey(job.sessionId), final)];
  }

  /** `analyzeRace`: write `processing`, call the provider (its outcome is `reply`), then
      write the final record. Nothing but the job's key is written. */
  method Run(kv: Store, job: Job, reply: Completion, parse: string -> Option<Json>,
             startedAt: string, finishedAt: string)
    modifies kv
    ensures var ws := RunWrites(job, reply, parse, startedAt, finishedAt);
            kv.entries == Apply(old(kv.entries), ws) && kv.log == old(kv.log) + ws
  {
    ghost var m := kv.entries;
    ghost var w0 := SetValue(JobKey(job.sessionId), ProcessingRecord(job, startedAt));
    ghost var w1 := SetValue(JobKey(job.sessionId), FinalRecord(job, reply, parse, finishedAt));
    kv.Set(JobKey(job.sessionId), ProcessingRecord(job, startedAt));
    var finalRecord: Json;
    match reply {
      case Answered(content) =>
        var text := content.GetOr("");
        var result: Json;
        var block := ExtractJson(text);
        if block.Some? && parse(block.value).Some? {
          result := parse(block.value).value;
        } else {
          result := Fallback(text);
        }
        assert result == AnalysisResult(text, parse);
        finalRecord := JobRecord(job.raceName, job.userId, Completed, result, "updated_at", finishedAt);
      case Raised(message) =>
        finalRecord := JobRecord(job.raceName, job.userId, Failed, JStr(message.GetOr(UnknownError)), "updated_at", finishedAt);
    }
    assert finalRecord == FinalRecord(job, reply, parse, finishedAt);
    kv.Set(JobKey(job.sessionId), finalRecord);
    ApplyTwo(m, w0, w1);
    assert old(kv.log) + [w0] + [w1] == old(kv.log) + [w0, w1];
    assert RunWrites(job, reply, parse, startedAt, finishedAt) == [w0, w1];
  }

  // ---------------------------------------------------------------------------
  // GET: polling

  /** `analysis.user_id !== session.user.id`, negated: both undefined, or the same string. */
  predicate SameOwner(stored: Option<Json>, caller: Option<string>) {
    (stored.None? && caller.None?) || (stored.Some? && caller.Some? && stored.value == JStr(caller.value))
  }

  /** GET `/api/analyze?session_id=...` against the snapshot `m`. `sessionId` is the query
      parameter (None: absent). The ownership check comes before any look at the
      status, so a caller who does not own the record gets 403 whatever its state. */
  function Poll(m: Snapshot, session: Session, sessionId: Option<string>): (r: Response)
    ensures r.status == 401 <==> session.NoSession?
    ensures session.SignedIn? && (sessionId.None? || sessionId.value == "") ==> r == ErrorResponse(400, SessionIdRequired)
    ensures session.SignedIn? && sessionId.Some? && sessionId.value != "" ==>
      var read := Get(m, JobKey(sessionId.value));
      && (read.WrongType? ==> r == ErrorResponse(500, FetchFailed))
      && (read.Missing? || (read.Found? && !Truthy(read.value)) ==> r == ErrorResponse(404, NotFound))
      && (read.Found? && Truthy(read.value) && !SameOwner(Owner(read.value), session.userId) ==>
            r == ErrorResponse(403, Forbidden))
      && (read.Found? && Truthy(read.value) && SameOwner(Owner(read.value), session.userId) ==>
            r == View(read.value))
  {
    if session.NoSession? then ErrorResponse(401, AuthRequired)
    else if sessionId.None? || sessionId.value == "" then ErrorResponse(400, SessionIdRequired)
    else match Get(m, JobKey(sessionId.value))
      case WrongType => ErrorResponse(500, FetchFailed)
      case Missing => ErrorResponse(404, NotFound)
      case Found(rec) =>
        if !Truthy(rec) then ErrorResponse(404, NotFound)
        else if !SameOwner(Owner(rec), session.userId) then ErrorResponse(403, Forbidden)
        else View(rec)
  }

  /** What the owner is shown of a record, by its `status`: 500 with the stored message
      (or a default) for 'error', 202 with only `status` and `race_name` for 'pending'
      and 'processing', and otherwise 200 with the fields of `result`, `race_name` and
      `status` overriding them; a member that is `undefined` is left out of the body. */
  function View(rec: Json): (r: Response)
    ensures r.body.JObj? && r.status in {200, 202, 500}
    ensures var status := Prop(Some(rec), "status");
      && (r.status == 500 <==> status == Some(JStr("error")))
      && (r.status == 202 <==> status == Some(JStr("pending")) || status == Some(JStr("processing")))
    ensures r.status == 500 ==> r.body.members == [("error", Or(Prop(Some(rec), "error"), JStr(AnalysisFailed)))]
    ensures r.status == 202 ==> forall k ::
      Lookup(r.body.members, k) ==
        if k == "status" then Prop(Some(rec), "status")
        else if k == "race_name" then RaceNameOf(rec)
        else None
    ensures r.status == 200 ==> forall k ::
      Lookup(r.body.members, k) ==
        if k == "race_name" then RaceNameOf(rec)
        else if k == "status" then Prop(Some(rec), "status")
        else Lookup(OwnEntries(Prop(Some(rec), "result")), k)
  {
    var status := Prop(Some(rec), "status");
    if status == Some(JStr("error")) then
      Response(500, JObj([("error", Or(Prop(Some(rec), "error"), JStr(AnalysisFailed)))]))
    else if status == Some(JStr("pending")) || status == Some(JStr("processing")) then
      Response(202, JObj(Override(Override([], "status", status), "race_name", RaceNameOf(rec))))
    else
      Response(200, JObj(Override(Override(OwnEntries(Prop(Some(rec), "result")), "race_name", RaceNameOf(rec)), "status", status)))
  }

  /** For a well-formed job record the owner is told exactly its phase: 500 with the
      stored message once it failed, 202 with nothing but `status` and `race_name` while
      it waits or runs, 200 with the result's fields once completed, `race_name` and
      `status` overriding any fields of the same name. */
  lemma ViewOfJob(rec: Json)
    requires IsJobRecord(rec)
    ensures var r := View(rec); var p := PhaseOf(rec).value;
      && (r.status == 500 <==> p == Failed)
      && (p == Failed ==> r.body == JObj([("error", Or(Prop(Some(rec), "error"), JStr(AnalysisFailed)))]))
      && (r.status == 202 <==> p in {Pending, Processing})
      && (p in {Pending, Processing} ==>
            r.body == JObj([("status", JStr(p.Name())), ("race_name", RaceNameOf(rec).value)]))
      && (r.status == 200 <==> p == Completed)
      && (p == Completed ==> r.body.JObj? && forall k ::
            Lookup(r.body.members, k) ==
              if k == "race_name" then RaceNameOf(rec)
              else if k == "status" then Some(JStr("completed"))
              else Lookup(OwnEntries(Prop(Some(rec), "result")), k))
  {
    var p := PhaseOf(rec).value;
    assert Prop(Some(rec), "status") == Some(JStr(p.Name()));
    if p in {Pending, Processing} {
      var first := Assign([], "status", JStr(p.Name()));
      assert first == [("status", JStr(p.Name()))];
      assert Assign(first, "race_name", RaceNameOf(rec).value)
             == [("status", JStr(p.Name())), ("race_name", RaceNameOf(rec).value)];
    }
  }
}
