/**
 * The service orchestrator: one user request goes to the AI teacher (or its fallback), the
 * first chord it names is looked up in the chord table, and when there is a record and a
 * camera frame the CV tracker (or its fallback) places the finger dots. Clocks, the request
 * id and every remote reply are inputs; the state is returned instead of mutated.
 */
module Orchestrator {
  import opened Wrappers
  import opened Registry
  import opened Retry
  import Metrics
  import opened Replies
  import opened Fallback
  import opened ChordCatalogue
  import Health
  import Seqs
  import opened JsValues
  import Text

  datatype Orchestrator = Orchestrator(services: Services, metrics: Metrics.Metrics, chords: ChordTable)

  /** The orchestrator as the server constructs it, before the first health check. */
  function New(chords: ChordTable, aiUrl: Option<string>, cvUrl: Option<string>): (o: Orchestrator)
    ensures o.services.ai.status == Unknown && o.services.cv.status == Unknown
    ensures Metrics.Balanced(o.metrics) && o.metrics.totalRequests == 0
    ensures o.chords == chords
  {
    Orchestrator(InitialServices(aiUrl, cvUrl), Metrics.Initial, chords)
  }

  /** A user's request; `imageData` is the camera frame, if one was sent. */
  datatype Request = Request(question: string, imageData: Option<string>, userId: string, sessionId: string)

  /**
   * Everything the request reads from outside: its id, the clock at the start and at the end,
   * and the scripted outcomes of the attempts at each remote service.
   */
  datatype Environment = Environment(
    requestId: string,
    startTime: int,
    endTime: int,
    aiOutcomes: seq<Outcome<AIResponse>>,
    cvOutcomes: seq<Outcome<CVResponse>>)

  /** The socket events a completed request emits to every client. */
  datatype Broadcast =
    | CoordinatedResponse(requestId: string, aiResponse: string, audioUrl: Option<string>, timestamp: int)
    | ChordHighlight(requestId: string, chord: Entry, arPositions: seq<ArPosition>, sessionId: string)

  datatype Reply =
    | Completed(requestId: string, aiResponse: string, chordData: Option<Entry>,
                arPositions: seq<ArPosition>, audioUrl: Option<string>, processingTime: int)
    | Failed(error: string, message: string, requestId: string, timestamp: int)

  datatype Step = Step(state: Orchestrator, reply: Reply, broadcasts: seq<Broadcast>)

  // ---------------------------------------------------------------------------
  // The stages of a request.
  // ---------------------------------------------------------------------------

  /** `callAIServiceWithFallback`: the live reply, or the question-text fallback. */
  function AskAI(s: Services, question: string, outcomes: seq<Outcome<AIResponse>>): (r: (AIResponse, Services))
    ensures OnlyRetryStateChanged(s.ai, r.1.ai) && r.1.cv == s.cv
    ensures s.ai.status != Healthy ==> r == (FallbackAI(question), s)
    ensures CallWithRetry(s.ai, outcomes).reply.Some? ==> r.0 == CallWithRetry(s.ai, outcomes).reply.value
    ensures CallWithRetry(s.ai, outcomes).reply.None? ==> r.0 == FallbackAI(question)
  {
    var run := CallWithRetry(s.ai, outcomes);
    (if run.reply.Some? then run.reply.value else FallbackAI(question), s.Put(Ai, run.service))
  }

  /** `getChordData` on the first detected chord, normalised; no chords means no lookup. */
  function ChordFor(ai: AIResponse, t: ChordTable): (r: Option<Entry>)
    ensures |ai.detectedChords| == 0 ==> r.None?
    ensures r.Some? ==> (NormaliseKey(ai.detectedChords[0]), r.value) in t
    ensures |ai.detectedChords| > 0 && NormaliseKey(ai.detectedChords[0]) in Keys(t) ==> r.Some?
  {
    if |ai.detectedChords| > 0 then Lookup(t, NormaliseKey(ai.detectedChords[0])) else None
  }

  /**
   * `callCVServiceWithFallback`: the live reply, or the fallback dots, which throw for a stub.
   */
  function AskCV(s: Services, chordData: Entry, outcomes: seq<Outcome<CVResponse>>): (r: (Result<CVResponse, string>, Services))
    ensures OnlyRetryStateChanged(s.cv, r.1.cv) && r.1.ai == s.ai
    ensures r.0.Failure? <==> CallWithRetry(s.cv, outcomes).reply.None? && chordData.Redirect?
    ensures CallWithRetry(s.cv, outcomes).reply.Some? ==> r.0 == Success(CallWithRetry(s.cv, outcomes).reply.value)
    ensures CallWithRetry(s.cv, outcomes).reply.None? ==> r.0 == FallbackCV(chordData)
  {
    var run := CallWithRetry(s.cv, outcomes);
    (if run.reply.Some? then Success(run.reply.value) else FallbackCV(chordData), s.Put(Cv, run.service))
  }

  const RequestFailedError: string := "Request processing failed"
  const RequestFailedMessage: string := "We encountered an issue processing your request. Please try again."

  /** `handleRequestError`: the error reply, carrying only the request id and a timestamp. */
  function HandleRequestError(requestId: string, now: int): (r: Reply)
    ensures r.Failed? && r.requestId == requestId && r.timestamp == now
    ensures r.error == RequestFailedError && r.message == RequestFailedMessage
  {
    Failed(RequestFailedError, RequestFailedMessage, requestId, now)
  }

  /** The events of a completed request: the answer always, the chord highlight when a record was found. */
  function BroadcastsFor(requestId: string, ai: AIResponse, chordData: Option<Entry>,
                         arPositions: seq<ArPosition>, sessionId: string, now: int): (b: seq<Broadcast>)
    ensures |b| == (if chordData.Some? then 2 else 1)
    ensures b[0] == CoordinatedResponse(requestId, ai.response, ai.audioUrl, now)
    ensures chordData.Some? ==> b[1] == ChordHighlight(requestId, chordData.value, arPositions, sessionId)
  {
    [CoordinatedResponse(requestId, ai.response, ai.audioUrl, now)]
      + (if chordData.Some? then [ChordHighlight(requestId, chordData.value, arPositions, sessionId)] else [])
  }

  /**
   * `processUserRequest`. The only way the request can fail is the CV fallback throwing on a
   * stub record; the failure then skips the broadcast and counts as a failed request.
   */
  function ProcessUserRequest(o: Orchestrator, req: Request, env: Environment): (step: Step)
    ensures step.state.chords == o.chords
    ensures step.state.services.ai.status == o.services.ai.status
    ensures step.state.services.cv.status == o.services.cv.status
    ensures OnlyRetryStateChanged(o.services.ai, step.state.services.ai)
    ensures OnlyRetryStateChanged(o.services.cv, step.state.services.cv)
    ensures step.state.metrics.totalRequests == o.metrics.totalRequests + 1
    ensures step.state.metrics.lastMinuteRequests == o.metrics.lastMinuteRequests + [env.startTime]
    ensures step.reply.Completed? ==>
      step.state.metrics == Metrics.RecordSuccess(Metrics.RecordStart(o.metrics, env.startTime), env.endTime - env.startTime)
    ensures step.reply.Failed? ==>
      step.state.metrics == Metrics.RecordFailure(Metrics.RecordStart(o.metrics, env.startTime))
    ensures step.reply.Completed? ==>
      && step.state.metrics.successfulRequests == o.metrics.successfulRequests + 1
      && step.state.metrics.failedRequests == o.metrics.failedRequests
      && step.reply.requestId == env.requestId
      && step.reply.processingTime == env.endTime - env.startTime
      && 1 <= |step.broadcasts| <= 2
      && step.broadcasts[0].CoordinatedResponse?
      && step.broadcasts[0].aiResponse == step.reply.aiResponse
      && (|step.broadcasts| == 2 <==> step.reply.chordData.Some?)
      && (step.reply.chordData.Some? ==>
            step.broadcasts[1] == ChordHighlight(env.requestId, step.reply.chordData.value, step.reply.arPositions, req.sessionId))
    ensures var (ai, s1) := AskAI(o.services, req.question, env.aiOutcomes);
      var chordData := ChordFor(ai, o.chords);
      var consulted := chordData.Some? && Truthy(req.imageData);
      && (step.reply.Failed? <==> consulted && AskCV(s1, chordData.value, env.cvOutcomes).0.Failure?)
      && (step.reply.Completed? ==>
            && step.reply.aiResponse == ai.response
            && step.reply.audioUrl == ai.audioUrl
            && step.reply.chordData == chordData
            && step.reply.arPositions ==
                 (if consulted then AskCV(s1, chordData.value, env.cvOutcomes).0.value.chordPositions else []))
    ensures step.reply.Failed? ==>
      && step.state.metrics.successfulRequests == o.metrics.successfulRequests
      && step.state.metrics.failedRequests == o.metrics.failedRequests + 1
      && step.reply == HandleRequestError(env.requestId, env.endTime)
      && step.broadcasts == []
  {
    var m0 := Metrics.RecordStart(o.metrics, env.startTime);
    var (ai, s1) := AskAI(o.services, req.question, env.aiOutcomes);
    var chordData := ChordFor(ai, o.chords);
    var processingTime := env.endTime - env.startTime;
    if chordData.Some? && Truthy(req.imageData) then
      var (cv, s2) := AskCV(s1, chordData.value, env.cvOutcomes);
      match cv
      case Failure(_) =>
        Step(Orchestrator(s2, Metrics.RecordFailure(m0), o.chords), HandleRequestError(env.requestId, env.endTime), [])
      case Success(reply) =>
        Step(Orchestrator(s2, Metrics.RecordSuccess(m0, processingTime), o.chords),
             Completed(env.requestId, ai.response, chordData, reply.chordPositions, ai.audioUrl, processingTime),
             BroadcastsFor(env.requestId, ai, chordData, reply.chordPositions, req.sessionId, env.endTime))
    else
      Step(Orchestrator(s1, Metrics.RecordSuccess(m0, processingTime), o.chords),
           Completed(env.requestId, ai.response, chordData, [], ai.audioUrl, processingTime),
           BroadcastsFor(env.requestId, ai, chordData, [], req.sessionId, env.endTime))
  }

  // ---------------------------------------------------------------------------
  // Properties of a request.
  // ---------------------------------------------------------------------------

  /** Every request is counted exactly once as a success or a failure. */
  lemma RequestKeepsMetricsBalanced(o: Orchestrator, req: Request, env: Environment)
    requires Metrics.Balanced(o.metrics)
    ensures Metrics.Balanced(ProcessUserRequest(o, req, env).state.metrics)
  {
  }

  /**
   * The CV tracker is consulted only when the AI stage named a chord the table holds and a
   * non-empty frame was sent; otherwise its descriptor is untouched and no dots are returned.
   */
  lemma CVOnlyWithChordAndImage(o: Orchestrator, req: Request, env: Environment)
    requires
      var (ai, _) := AskAI(o.services, req.question, env.aiOutcomes);
      ChordFor(ai, o.chords).None? || !Truthy(req.imageData)
    ensures var step := ProcessUserRequest(o, req, env);
      && step.state.services.cv == o.services.cv
      && step.reply.Completed?
      && step.reply.arPositions == []
  {
  }

  /**
   * A request fails exactly when a frame was sent, the named chord is a stub, and the CV
   * tracker gave no live reply, so that the fallback reads the stub's missing positions.
   */
  lemma FailsOnlyOnStubFallback(o: Orchestrator, req: Request, env: Environment)
    ensures
      var (ai, s1) := AskAI(o.services, req.question, env.aiOutcomes);
      var chordData := ChordFor(ai, o.chords);
      ProcessUserRequest(o, req, env).reply.Failed? <==>
        && Truthy(req.imageData)
        && chordData.Some? && chordData.value.Redirect?
        && CallWithRetry(s1.cv, env.cvOutcomes).reply.None?
  {
  }

  /** With the CV tracker not healthy, a full record's dots are the fallback dots, one per position. */
  lemma CVDownGivesFallbackDots(o: Orchestrator, req: Request, env: Environment, chord: ChordRecord)
    requires o.services.cv.status != Healthy
    requires Truthy(req.imageData)
    requires ChordFor(AskAI(o.services, req.question, env.aiOutcomes).0, o.chords) == Some(Full(chord))
    ensures var step := ProcessUserRequest(o, req, env);
      && step.reply.Completed?
      && |step.reply.arPositions| == |chord.positions|
      && step.state.services.cv == o.services.cv
      && (forall k :: 0 <= k < |chord.positions| ==> step.reply.arPositions[k] == FallbackDot(chord.positions[k]))
  {
  }

  /**
   * With a healthy CV tracker whose every attempt fails, the retrying caller uses up its
   * budget and the request still completes, with one fallback dot per position of a full
   * record and the tracker's retry count left one past `maxRetries`.
   */
  lemma CVExhaustedGivesFallbackDots(o: Orchestrator, req: Request, env: Environment, chord: ChordRecord)
    requires o.services.cv.status == Healthy && o.services.cv.retryCount <= o.services.cv.maxRetries
    requires AllFail(env.cvOutcomes)
    requires Truthy(req.imageData)
    requires ChordFor(AskAI(o.services, req.question, env.aiOutcomes).0, o.chords) == Some(Full(chord))
    ensures var step := ProcessUserRequest(o, req, env);
      && step.reply.Completed?
      && |step.reply.arPositions| == |chord.positions|
      && (forall k :: 0 <= k < |chord.positions| ==> step.reply.arPositions[k] == FallbackDot(chord.positions[k]))
      && step.state.services.cv.retryCount == o.services.cv.maxRetries + 1
      && step.state.services.cv.status == Healthy
  {
    FailingCallExhaustsBudget(o.services.cv, env.cvOutcomes);
  }

  /**
   * A service whose last health probe failed is marked down, so the next request does not try
   * it at all: the retrying caller makes no attempt and the fallback is used at once.
   */
  lemma DownServiceIsSkipped<T>(d: ServiceDescriptor, p: Health.Probe, outcomes: seq<Outcome<T>>)
    requires Health.Throws(p)
    ensures var run := CallWithRetry(Health.CheckDescriptor(d, p).0, outcomes);
      run.attempts == 0 && run.reply.None?
  {
  }

  /**
   * Only a 200 health reply makes a service callable again, and it restores the full retry
   * budget: a call that keeps failing then makes exactly `maxRetries + 1` attempts.
   */
  lemma RecoveryRestoresBudget<T>(d: ServiceDescriptor, p: Health.Probe, outcomes: seq<Outcome<T>>)
    requires p.Responded? && p.httpStatus == 200
    requires AllFail(outcomes)
    ensures CallWithRetry(Health.CheckDescriptor(d, p).0, outcomes).attempts == d.maxRetries + 1
  {
    FailingCallExhaustsBudget(Health.CheckDescriptor(d, p).0, outcomes);
  }

  // ---------------------------------------------------------------------------
  // Worked requests against the reference table.
  // ---------------------------------------------------------------------------

  /** An orchestrator over table `t` with both services down and fresh counters. */
  function BothDown(t: ChordTable): (o: Orchestrator)
    ensures o.services.ai.status == Down && o.services.cv.status == Down
    ensures o.chords == t && o.metrics == Metrics.Initial
  {
    var s := InitialServices(None, None);
    Orchestrator(Services(s.ai.(status := Down), s.cv.(status := Down)), Metrics.Initial, t)
  }

  lemma TableHasD()
    ensures Lookup(Table, NormaliseKey("d")) == Some(Full(ChordD))
  {
    NormaliseD();
    TableKeysDistinct();
    LookupDistinct(Table, 4);
  }

  lemma NormaliseD()
    ensures NormaliseKey("d") == "d"
  {
  }

  lemma TableHasBm()
    ensures Lookup(Table, NormaliseKey("Bm")) == Some(Full(ChordBm))
  {
    NormaliseBm();
    TableKeysDistinct();
    LookupDistinct(Table, 18);
  }

  lemma NormaliseBm()
    ensures NormaliseKey("Bm") == "bm"
  {
  }

  lemma TableHasAMajorStub()
    ensures Lookup(Table, NormaliseKey("Amajor")) == Some(Redirect("a"))
  {
    NormaliseAMajorStub();
    TableKeysDistinct();
    LookupDistinct(Table, 1);
  }

  lemma NormaliseAMajorStub()
    ensures NormaliseKey("Amajor") == "amajor"
  {
    assert Text.ToLower("Amajor") == "amajor";
    Seqs.FilterKeepsAll(Text.NotSpace, "amajor");
  }

  /**
   * With the AI teacher down, the fallback's match in the question decides the record: it is
   * the table entry under the normalised match.
   */
  lemma AIDownUsesQuestionMatch(o: Orchestrator, req: Request, env: Environment, name: string)
    requires o.services.ai.status != Healthy
    requires ChordMention(req.question) == Some(name)
    ensures var step := ProcessUserRequest(o, req, env);
      step.reply.Completed? ==>
        && step.reply.aiResponse == HowToPlayText(name)
        && step.reply.chordData == Lookup(o.chords, NormaliseKey(name))
  {
    AIDownLooksUpMatch(o.services, o.chords, req.question, env.aiOutcomes, name);
    var ai := AskAI(o.services, req.question, env.aiOutcomes).0;
    assert ai.response == HowToPlayText(name);
    assert ChordFor(ai, o.chords) == Lookup(o.chords, NormaliseKey(name));
  }

  /** With the AI teacher down, the record looked up is the one under the normalised match. */
  lemma AIDownLooksUpMatch(s: Services, t: ChordTable, question: string, outcomes: seq<Outcome<AIResponse>>, name: string)
    requires s.ai.status != Healthy
    requires ChordMention(question) == Some(name)
    ensures AskAI(s, question, outcomes).0 == FallbackAI(question)
    ensures ChordFor(AskAI(s, question, outcomes).0, t) == Lookup(t, NormaliseKey(name))
  {
    FallbackNamesMatch(question, name);
  }

  /** The B minor question over any table whose key "d" holds a full record. */
  lemma BMinorQuestionOver(t: ChordTable, env: Environment, req: Request, chord: ChordRecord)
    requires req.question == "How do I play B minor?" && req.imageData == None
    requires Lookup(t, NormaliseKey("d")) == Some(Full(chord))
    ensures var step := ProcessUserRequest(BothDown(t), req, env);
      && step.reply.Completed?
      && step.reply.chordData == Some(Full(chord))
      && step.reply.aiResponse == HowToPlayText("d")
  {
    var o := BothDown(t);
    MentionInBMinorQuestion(req.question);
    AIDownLooksUpMatch(o.services, t, req.question, env.aiOutcomes, "d");
  }

  /**
   * With the AI teacher down, "How do I play B minor?" is answered from the fallback pattern,
   * whose leftmost match is the "d" of "do": the reply carries the D major record.
   */
  lemma QuestionAboutBMinorYieldsDMajor(env: Environment)
    ensures var step := ProcessUserRequest(BothDown(Table), Request("How do I play B minor?", None, "u", "s"), env);
      && step.reply.Completed?
      && step.reply.chordData == Some(Full(ChordD))
      && step.reply.aiResponse == HowToPlayText("d")
  {
    TableHasD();
    BMinorQuestionOver(Table, env, Request("How do I play B minor?", None, "u", "s"), ChordD);
  }

  /** With both services down, a question naming a chord that has a full record, asked with a frame, gets one fallback dot per position. */
  lemma BmOver(t: ChordTable, env: Environment, req: Request, name: string, chord: ChordRecord)
    requires ChordMention(req.question) == Some(name) && Truthy(req.imageData)
    requires Lookup(t, NormaliseKey(name)) == Some(Full(chord))
    ensures var step := ProcessUserRequest(BothDown(t), req, env);
      && step.reply.Completed?
      && step.reply.chordData == Some(Full(chord))
      && |step.reply.arPositions| == |chord.positions|
      && forall k :: 0 <= k < |chord.positions| ==> step.reply.arPositions[k] == FallbackDot(chord.positions[k])
  {
    var o := BothDown(t);
    AIDownLooksUpMatch(o.services, t, req.question, env.aiOutcomes, name);
    CVDownGivesFallbackDots(o, req, env, chord);
  }

  lemma BmFirstDot()
    ensures |ChordBm.positions| == 6
    ensures FallbackDot(ChordBm.positions[0]) == ArPosition(270, 180, 1, 1, 2, 0.5, true)
  {
  }

  /** "Bm?" matches the pattern as "Bm"; with both services down the dots are the six fallback dots. */
  lemma BmWithBothServicesDown(env: Environment)
    ensures var step := ProcessUserRequest(BothDown(Table), Request("Bm?", Some("frame"), "u", "s"), env);
      && step.reply.Completed?
      && step.reply.chordData == Some(Full(ChordBm))
      && |step.reply.arPositions| == 6
      && step.reply.arPositions[0] == ArPosition(270, 180, 1, 1, 2, 0.5, true)
  {
    TableHasBm();
    MentionOfBm("Bm?");
    BmOver(Table, env, Request("Bm?", Some("frame"), "u", "s"), "Bm", ChordBm);
    BmFirstDot();
  }

  /** The orchestrator over `t` with the AI teacher healthy and the CV tracker down. */
  function OnlyAIUp(t: ChordTable): (o: Orchestrator)
    ensures o.services.ai.status == Healthy && o.services.cv.status == Down
    ensures o.chords == t && o.metrics == Metrics.Initial
  {
    var o := BothDown(t);
    o.(services := o.services.(ai := o.services.ai.(status := Healthy)))
  }

  /**
   * A live answer naming a stub, with a frame sent and the CV tracker down, makes the request
   * fail: the fallback dots read the stub's missing positions.
   */
  lemma LiveStubAnswerFails(o: Orchestrator, req: Request, env: Environment, target: string)
    requires o.services.ai.status == Healthy && o.services.cv.status != Healthy
    requires Retry.Next(env.aiOutcomes).Ok?
    requires ChordFor(Retry.Next(env.aiOutcomes).value, o.chords) == Some(Redirect(target))
    requires Truthy(req.imageData)
    ensures var step := ProcessUserRequest(o, req, env);
      && step.reply.Failed?
      && step.state.metrics.failedRequests == o.metrics.failedRequests + 1
  {
    Retry.FirstReplyIsUsed(o.services.ai, env.aiOutcomes);
  }

  lemma AMajorAnswerNamesStub(answer: string, reply: AIResponse)
    requires reply == AIResponse(answer, ["Amajor"], None, false)
    ensures ChordFor(reply, Table) == Some(Redirect("a"))
  {
    TableHasAMajorStub();
  }

  /** A healthy AI teacher naming "Amajor" while the CV tracker is down makes the request fail. */
  lemma AMajorWithCVDownFails(env: Environment, answer: string)
    requires env.aiOutcomes == [Ok(AIResponse(answer, ["Amajor"], None, false), 40)]
    ensures var step := ProcessUserRequest(OnlyAIUp(Table), Request("Amajor please", Some("frame"), "u", "s"), env);
      && step.reply.Failed?
      && step.state.metrics.failedRequests == 1
  {
    AMajorAnswerNamesStub(answer, Retry.Next(env.aiOutcomes).value);
    LiveStubAnswerFails(OnlyAIUp(Table), Request("Amajor please", Some("frame"), "u", "s"), env, "a");
  }

  // ---------------------------------------------------------------------------
  // System status.
  // ---------------------------------------------------------------------------

  datatype SystemStatus = SystemStatus(
    overall: Overall,
    services: Services,
    metrics: Metrics.Metrics,
    totalChords: nat,
    difficulties: seq<Option<string>>)

  /** The `difficulty` of every table value, in key order; `None` for a stub. */
  function Difficulties(t: ChordTable): (ds: seq<Option<string>>)
    ensures |ds| == |t|
    ensures forall i :: 0 <= i < |t| ==> ds[i] == t[i].1.Difficulty()
  {
    seq(|t|, i requires 0 <= i < |t| => t[i].1.Difficulty())
  }

  /**
   * `getSystemStatus`: the overall health word, the registry, the counters, the table's size,
   * and each distinct difficulty once, in order of first appearance.
   */
  function GetSystemStatus(o: Orchestrator): (r: SystemStatus)
    ensures r.overall == OverallStatus(o.services)
    ensures r.totalChords == |o.chords|
    ensures forall i :: 0 <= i < |o.chords| ==> o.chords[i].1.Difficulty() in r.difficulties
    ensures forall k :: 0 <= k < |r.difficulties| ==>
      exists i :: 0 <= i < |o.chords| && o.chords[i].1.Difficulty() == r.difficulties[k]
    ensures forall j, k :: 0 <= j < k < |r.difficulties| ==> r.difficulties[j] != r.difficulties[k]
    ensures r.difficulties == Seqs.Distinct(Difficulties(o.chords))
    ensures r.services == o.services && r.metrics == o.metrics
  {
    var ds := Difficulties(o.chords);
    var distinct := Seqs.Distinct(ds);
    assert forall k :: 0 <= k < |distinct| ==> ds[Seqs.IndexOf(ds, distinct[k])] == distinct[k];
    SystemStatus(OverallStatus(o.services), o.services, o.metrics, |o.chords|, distinct)
  }

  /**
   * A request leaves the table part of the status alone and shows up in the counters: one
   * more request, still balanced when it was before.
   */
  lemma StatusAfterRequest(o: Orchestrator, req: Request, env: Environment)
    requires Metrics.Balanced(o.metrics)
    ensures var (before, after) := (GetSystemStatus(o), GetSystemStatus(ProcessUserRequest(o, req, env).state));
      && after.totalChords == before.totalChords
      && after.difficulties == before.difficulties
      && after.overall == before.overall
      && after.metrics.totalRequests == before.metrics.totalRequests + 1
      && Metrics.Balanced(after.metrics)
  {
    RequestKeepsMetricsBalanced(o, req, env);
  }
}
