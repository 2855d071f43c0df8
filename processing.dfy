/** `MeetingProcessingService` (src/services/meetingProcessingService.ts): the
    background run that moves a meeting through transcription and analysis
    by a fixed sequence of `updateMeeting` calls, turning any failure into
    two `failed` writes.

    The collaborators are inputs. The transcription step's result (or what it
    threw) is `TranscriptionAttempt`; the two enrichment tasks' settled
    outcomes are `Outcome`s; and `faults[i]` is what the database throws on
    the i-th `updateMeeting` call of the run, if anything. The pure function
    `Plan` is the run's specification and the methods are proved against it. */
module Processing {
  import opened Prelude
  import opened Js
  import opened ErrorHandler
  import opened MeetingStore

  const Queued := "queued"
  const Transcribing := "transcribing"
  const Analyzing := "analyzing"
  const Completed := "completed"
  const Failed := "failed"

  /** What the transcription collaborators produced: the transcript and its
      duration, or the value they threw. */
  datatype TranscriptionAttempt = Transcribed(transcript: string, duration: int) | TranscriptionThrew(error: JsValue)

  /** One enrichment sub-task started by `processAIAnalysis`. */
  datatype EnrichmentCall = ActionItemsTask(meetingId: string, transcript: string, userId: string)
                          | SummaryTask(meetingId: string, transcript: string, userId: string)

  function StatusPatch(status: string): MeetingPatch
  {
    MeetingPatch(None, None, None, None, None, Some(status))
  }

  /** `updateProcessingStatus(meetingId, status)` always passes `''` as owner. */
  function StatusRequest(meetingId: string, status: string): UpdateRequest
  {
    UpdateRequest(meetingId, "", StatusPatch(status))
  }

  /** `Promise.allSettled` in `processAIAnalysis` never rejects, whatever its
      two tasks settle with. */
  function AllSettled(actionItems: Outcome<()>, summary: Outcome<()>): (r: Outcome<(Outcome<()>, Outcome<()>)>)
    ensures r == Resolved((actionItems, summary))
  {
    Resolved((actionItems, summary))
  }

  /** The error thrown by `error.message` when `error` is null or undefined. */
  function PropertyReadError(error: JsValue): JsValue
    requires IsNullish(error)
  {
    ErrorInstance("Cannot read properties of " + ToJsString(error) + " (reading 'message')")
  }

  /** `throw new Error(prefix + (error.message || 'Unknown error'))` inside a
      catch block; reading `message` of null or undefined throws a
      `TypeError` instead. */
  function Rethrown(prefix: string, error: JsValue): (e: JsValue)
    ensures e.ErrorInstance?
    ensures !IsNullish(error) && Truthy(GetProperty(error, "message")) ==>
      e.message == prefix + ToJsString(GetProperty(error, "message"))
    ensures !IsNullish(error) && !Truthy(GetProperty(error, "message")) ==> e.message == prefix + "Unknown error"
    ensures IsNullish(error) ==> e == PropertyReadError(error)
  {
    if IsNullish(error) then PropertyReadError(error)
    else
      var m := GetProperty(error, "message");
      ErrorInstance(prefix + if Truthy(m) then ToJsString(m) else "Unknown error")
  }

  const TranscriptionFailed := "Transcription failed: "
  const AnalysisFailed := "AI analysis failed: "

  /** An `Error` keeps its message under either prefix. */
  lemma RethrownKeepsMessage(prefix: string, message: string)
    requires message != ""
    ensures Rethrown(prefix, ErrorInstance(message)) == ErrorInstance(prefix + message)
  {
  }

  /** The table after one `updateMeeting` call that threw `fault` or not. */
  function Applied(rows: seq<Meeting>, req: UpdateRequest, fault: Option<JsValue>): seq<Meeting>
  {
    if fault.Some? then rows
    else match FindOwned(rows, req.meetingId, req.userId)
      case None => rows
      case Some(k) => rows[k := ApplyPatch(rows[k], req.patch)]
  }

  /** The fault of the run's `i`-th write. */
  function FaultAt(faults: seq<Option<JsValue>>, i: nat): Option<JsValue>
  {
    if i < |faults| then faults[i] else None
  }

  /** The table after the run's writes `reqs`, in order. */
  function Replay(rows: seq<Meeting>, reqs: seq<UpdateRequest>, faults: seq<Option<JsValue>>): seq<Meeting>
  {
    if |reqs| == 0 then rows
    else Applied(Replay(rows, reqs[..|reqs| - 1], faults), reqs[|reqs| - 1], FaultAt(faults, |reqs| - 1))
  }

  /** What a run has done so far: the `updateMeeting` calls requested and
      the enrichment tasks started. */
  datatype Trace = Trace(requests: seq<UpdateRequest>, enrichments: seq<EnrichmentCall>)

  /** The fault of the next write of the run. */
  function NextFault(t: Trace, faults: seq<Option<JsValue>>): Option<JsValue>
  {
    FaultAt(faults, |t.requests|)
  }

  /** One `updateMeeting` call. */
  function Write(t: Trace, req: UpdateRequest, faults: seq<Option<JsValue>>): Trace
  {
    t.(requests := t.requests + [req])
  }

  /** The result of a step that returns a `T` or throws. */
  datatype Step<T> = Step(trace: Trace, result: Result<T, JsValue>)

  /** `updateProcessingStatus(meetingId, status)` */
  function StatusStep(t: Trace, meetingId: string, status: string, faults: seq<Option<JsValue>>): (s: Step<()>)
    ensures s.trace.requests == t.requests + [StatusRequest(meetingId, status)]
    ensures s.trace.enrichments == t.enrichments
    ensures s.result.Err? <==> NextFault(t, faults).Some?
    ensures s.result.Err? ==> s.result.error == NextFault(t, faults).value
  {
    var fault := NextFault(t, faults);
    Step(Write(t, StatusRequest(meetingId, status), faults), if fault.Some? then Err(fault.value) else Ok(()))
  }

  /** `processTranscription(meetingId, signedUrl)`: the transcript, after the
      duration-and-completed write; any error rethrown with the
      transcription prefix. */
  function TranscriptionStep(t: Trace, meetingId: string, attempt: TranscriptionAttempt, faults: seq<Option<JsValue>>): (s: Step<string>)
    ensures s.trace.enrichments == t.enrichments
    ensures attempt.TranscriptionThrew? ==> s == Step(t, Err(Rethrown(TranscriptionFailed, attempt.error)))
    ensures attempt.Transcribed? ==>
      s.trace.requests == t.requests
        + [UpdateRequest(meetingId, "", MeetingPatch(None, Some(attempt.duration), None, None, None, Some(Completed)))]
      && (s.result.Ok? <==> NextFault(t, faults).None?)
      && (s.result.Ok? ==> s.result.value == attempt.transcript)
  {
    match attempt
    case TranscriptionThrew(e) => Step(t, Err(Rethrown(TranscriptionFailed, e)))
    case Transcribed(transcript, duration) =>
      var fault := NextFault(t, faults);
      var t1 := Write(t, UpdateRequest(meetingId, "", MeetingPatch(None, Some(duration), None, None, None, Some(Completed))), faults);
      if fault.Some? then Step(t1, Err(Rethrown(TranscriptionFailed, fault.value))) else Step(t1, Ok(transcript))
  }

  /** `processAIAnalysis(meetingId, transcript, userId)`: the analyzing write,
      both enrichment tasks (whose outcomes are absorbed), then the completed
      write with the real owner; any error rethrown with the analysis
      prefix. */
  function AnalysisStep(t: Trace, meetingId: string, transcript: string, userId: string, faults: seq<Option<JsValue>>): (s: Step<()>)
    ensures NextFault(t, faults).Some? ==>
      s.trace.requests == t.requests + [StatusRequest(meetingId, Analyzing)] && s.trace.enrichments == t.enrichments
      && s.result.Err?
    ensures NextFault(t, faults).None? ==>
      s.trace.requests == t.requests + [StatusRequest(meetingId, Analyzing), UpdateRequest(meetingId, userId, StatusPatch(Completed))]
      && s.trace.enrichments == t.enrichments
        + [ActionItemsTask(meetingId, transcript, userId), SummaryTask(meetingId, transcript, userId)]
    ensures NextFault(t, faults).Some? ==> s.result == Err(Rethrown(AnalysisFailed, NextFault(t, faults).value))
    ensures NextFault(t, faults).None? ==>
      s.result == if FaultAt(faults, |t.requests| + 1).Some?
                  then Err(Rethrown(AnalysisFailed, FaultAt(faults, |t.requests| + 1).value)) else Ok(())
  {
    var s := StatusStep(t, meetingId, Analyzing, faults);
    if s.result.Err? then Step(s.trace, Err(Rethrown(AnalysisFailed, s.result.error)))
    else
      var t1 := s.trace.(enrichments := s.trace.enrichments
        + [ActionItemsTask(meetingId, transcript, userId), SummaryTask(meetingId, transcript, userId)]);
      var fault := NextFault(t1, faults);
      var t2 := Write(t1, UpdateRequest(meetingId, userId, StatusPatch(Completed)), faults);
      if fault.Some? then Step(t2, Err(Rethrown(AnalysisFailed, fault.value))) else Step(t2, Ok(()))
  }

  /** `handleProcessingError(meetingId, error)`: two failed writes; the run
      rejects only if one of them throws. */
  function HandlerStep(t: Trace, meetingId: string, faults: seq<Option<JsValue>>): (s: Step<()>)
    ensures s.trace.enrichments == t.enrichments
    ensures NextFault(t, faults).Some? ==>
      s == Step(Write(t, StatusRequest(meetingId, Failed), faults), Err(NextFault(t, faults).value))
    ensures NextFault(t, faults).None? ==>
      s.trace.requests == t.requests + [StatusRequest(meetingId, Failed), StatusRequest(meetingId, Failed)]
  {
    var s1 := StatusStep(t, meetingId, Failed, faults);
    if s1.result.Err? then s1
    else StatusStep(s1.trace, meetingId, Failed, faults)
  }

  /** The whole run: its trace, the error its catch block received (if any)
      and how its promise settles. */
  datatype Run = Run(trace: Trace, caught: Option<JsValue>, outcome: Result<(), JsValue>)

  function Recover(t: Trace, meetingId: string, error: JsValue, faults: seq<Option<JsValue>>): Run
  {
    var h := HandlerStep(t, meetingId, faults);
    Run(h.trace, Some(error), h.result)
  }

  /** `processMeetingInBackground(meetingId, signedUrl, userId)`. */
  function Plan(meetingId: string, userId: string, attempt: TranscriptionAttempt,
                faults: seq<Option<JsValue>>): Run
  {
    var s1 := StatusStep(Trace([], []), meetingId, Transcribing, faults);
    if s1.result.Err? then Recover(s1.trace, meetingId, s1.result.error, faults)
    else
      var s2 := TranscriptionStep(s1.trace, meetingId, attempt, faults);
      if s2.result.Err? then Recover(s2.trace, meetingId, s2.result.error, faults)
      else
        var s3 := StatusStep(s2.trace, meetingId, Analyzing, faults);
        if s3.result.Err? then Recover(s3.trace, meetingId, s3.result.error, faults)
        else
          var s4 := AnalysisStep(s3.trace, meetingId, s2.result.value, userId, faults);
          if s4.result.Err? then Recover(s4.trace, meetingId, s4.result.error, faults)
          else
            var s5 := StatusStep(s4.trace, meetingId, Completed, faults);
            if s5.result.Err? then Recover(s5.trace, meetingId, s5.result.error, faults)
            else Run(s5.trace, None, Ok(()))
  }

  /** No write of the first `n` throws. */
  predicate CleanWrites(faults: seq<Option<JsValue>>, n: nat)
  {
    forall i :: 0 <= i < n && i < |faults| ==> faults[i].None?
  }

  /** When every step succeeds the run requests, in order: transcribing,
      completed with the duration, analyzing twice, completed for the real
      owner, and completed; both enrichment tasks get the transcript. */
  lemma {:induction false} AllSuccessTrace(meetingId: string, userId: string,
                                           transcript: string, duration: int, faults: seq<Option<JsValue>>)
    requires CleanWrites(faults, 6)
    ensures var run := Plan(meetingId, userId, Transcribed(transcript, duration), faults);
      run.outcome == Ok(()) && run.caught.None?
      && run.trace.requests == [
        StatusRequest(meetingId, Transcribing),
        UpdateRequest(meetingId, "", MeetingPatch(None, Some(duration), None, None, None, Some(Completed))),
        StatusRequest(meetingId, Analyzing),
        StatusRequest(meetingId, Analyzing),
        UpdateRequest(meetingId, userId, StatusPatch(Completed)),
        StatusRequest(meetingId, Completed)]
      && run.trace.enrichments == [ActionItemsTask(meetingId, transcript, userId), SummaryTask(meetingId, transcript, userId)]
  {
    var t0 := Trace([], []);
    var s1 := StatusStep(t0, meetingId, Transcribing, faults);
    assert |s1.trace.requests| == 1 && s1.result.Ok?;
    var s2 := TranscriptionStep(s1.trace, meetingId, Transcribed(transcript, duration), faults);
    assert |s2.trace.requests| == 2 && s2.result == Ok(transcript);
    var s3 := StatusStep(s2.trace, meetingId, Analyzing, faults);
    assert |s3.trace.requests| == 3 && s3.result.Ok?;
    var s4 := AnalysisStep(s3.trace, meetingId, transcript, userId, faults);
    assert |s4.trace.requests| == 5 && s4.result.Ok?;
  }

  /** If the transcription throws, nothing after it runs: the handler
      requests failed twice after the transcribing write, and receives the
      error with the transcription prefix. */
  lemma TranscriptionFailureTrace(meetingId: string, userId: string, error: JsValue,
                                  faults: seq<Option<JsValue>>)
    requires CleanWrites(faults, 3)
    ensures var run := Plan(meetingId, userId, TranscriptionThrew(error), faults);
      run.outcome == Ok(()) && run.caught == Some(Rethrown(TranscriptionFailed, error))
      && run.trace.requests == [StatusRequest(meetingId, Transcribing), StatusRequest(meetingId, Failed), StatusRequest(meetingId, Failed)]
      && run.trace.enrichments == []
  {
  }

  /** If the analyzing write inside `processAIAnalysis` throws, no
      enrichment task starts and the catch block receives the error with the
      analysis prefix. */
  lemma AnalysisFailureTrace(meetingId: string, userId: string, transcript: string, duration: int,
                             error: JsValue, faults: seq<Option<JsValue>>)
    requires CleanWrites(faults, 3) && |faults| > 3 && faults[3] == Some(error)
    ensures var run := Plan(meetingId, userId, Transcribed(transcript, duration), faults);
      run.caught == Some(Rethrown(AnalysisFailed, error)) && run.trace.enrichments == []
  {
    var s1 := StatusStep(Trace([], []), meetingId, Transcribing, faults);
    var s2 := TranscriptionStep(s1.trace, meetingId, Transcribed(transcript, duration), faults);
    var s3 := StatusStep(s2.trace, meetingId, Analyzing, faults);
    assert |s3.trace.requests| == 3 && s3.result.Ok?;
  }

  /** Whatever fails, the catch block writes failed (twice unless the first
      throws) and starts nothing else; the run rejects only with the error of
      one of those two writes. */
  lemma {:induction false} FailureHandling(meetingId: string, userId: string,
                                           attempt: TranscriptionAttempt, faults: seq<Option<JsValue>>)
    ensures var run := Plan(meetingId, userId, attempt, faults);
      var n := |run.trace.requests|;
      (run.caught.Some? ==> (n >= 2 && run.trace.requests[n - 1] == StatusRequest(meetingId, Failed)
        && (run.outcome.Ok? ==> run.trace.requests[n - 2] == StatusRequest(meetingId, Failed))))
      && (run.outcome.Err? ==> run.caught.Some? && n - 1 < |faults| && faults[n - 1] == Some(run.outcome.error))
  {
    var s1 := StatusStep(Trace([], []), meetingId, Transcribing, faults);
    if s1.result.Err? {
      RecoverEndsFailed(s1.trace, meetingId, s1.result.error, faults);
    } else {
      var s2 := TranscriptionStep(s1.trace, meetingId, attempt, faults);
      if s2.result.Err? {
        RecoverEndsFailed(s2.trace, meetingId, s2.result.error, faults);
      } else {
        var s3 := StatusStep(s2.trace, meetingId, Analyzing, faults);
        if s3.result.Err? {
          RecoverEndsFailed(s3.trace, meetingId, s3.result.error, faults);
        } else {
          var s4 := AnalysisStep(s3.trace, meetingId, s2.result.value, userId, faults);
          if s4.result.Err? {
            RecoverEndsFailed(s4.trace, meetingId, s4.result.error, faults);
          } else {
            var s5 := StatusStep(s4.trace, meetingId, Completed, faults);
            if s5.result.Err? {
              RecoverEndsFailed(s5.trace, meetingId, s5.result.error, faults);
            }
          }
        }
      }
    }
  }

  /** The catch block appends one or two failed writes to the trace and
      rejects only with the fault of its last write. */
  lemma RecoverEndsFailed(t: Trace, meetingId: string, error: JsValue, faults: seq<Option<JsValue>>)
    requires |t.requests| >= 1
    ensures var run := Recover(t, meetingId, error, faults);
      var n := |run.trace.requests|;
      run.caught == Some(error) && n >= 2 && run.trace.requests[n - 1] == StatusRequest(meetingId, Failed)
      && run.trace.enrichments == t.enrichments
      && (run.outcome.Ok? ==> run.trace.requests[n - 2] == StatusRequest(meetingId, Failed))
      && (run.outcome.Err? ==> n - 1 < |faults| && faults[n - 1] == Some(run.outcome.error))
  {
  }

  /** No live row has id `meetingId` and owner `owner`. */
  predicate NoOwnedRow(rows: seq<Meeting>, meetingId: string, owner: string)
  {
    forall k :: 0 <= k < |rows| ==> !OwnedAt(rows, k, meetingId, owner)
  }

  /** A write keeps every row's id, owner and deletion flag. */
  lemma AppliedKeepsOwnership(rows: seq<Meeting>, req: UpdateRequest, fault: Option<JsValue>, meetingId: string, owner: string)
    ensures |Applied(rows, req, fault)| == |rows|
    ensures forall k :: OwnedAt(Applied(rows, req, fault), k, meetingId, owner) <==> OwnedAt(rows, k, meetingId, owner)
  {
  }

  lemma ReplayStep(rows: seq<Meeting>, reqs: seq<UpdateRequest>, req: UpdateRequest, faults: seq<Option<JsValue>>)
    ensures Replay(rows, reqs + [req], faults) == Applied(Replay(rows, reqs, faults), req, FaultAt(faults, |reqs|))
  {
    assert (reqs + [req])[..|reqs|] == reqs;
  }

  /** Writes that pass `''` as owner change nothing unless the meeting's
      owner is `''`. */
  lemma {:induction false} OwnerlessWritesChangeNothing(rows: seq<Meeting>, meetingId: string, reqs: seq<UpdateRequest>,
                                                        faults: seq<Option<JsValue>>)
    requires NoOwnedRow(rows, meetingId, "")
    requires forall i :: 0 <= i < |reqs| ==> reqs[i].meetingId == meetingId && reqs[i].userId == ""
    ensures Replay(rows, reqs, faults) == rows
  {
    if |reqs| > 0 {
      OwnerlessWritesChangeNothing(rows, meetingId, reqs[..|reqs| - 1], faults);
    }
  }

  /** For a meeting whose owner is not `''`, a successful run changes the
      table only by the one write that names the owner: the status becomes
      completed. */
  lemma SuccessfulRunTable(rows: seq<Meeting>, meetingId: string, userId: string, transcript: string, duration: int,
                           faults: seq<Option<JsValue>>)
    requires CleanWrites(faults, 6) && NoOwnedRow(rows, meetingId, "")
    ensures Replay(rows, Plan(meetingId, userId, Transcribed(transcript, duration), faults).trace.requests, faults)
         == Applied(rows, UpdateRequest(meetingId, userId, StatusPatch(Completed)), None)
  {
    AllSuccessTrace(meetingId, userId, transcript, duration, faults);
    SuccessWritesTable(rows, meetingId, userId, duration, faults);
  }

  lemma SuccessWritesTable(rows: seq<Meeting>, meetingId: string, userId: string, duration: int,
                           faults: seq<Option<JsValue>>)
    requires NoOwnedRow(rows, meetingId, "")
    ensures Replay(rows, [
        StatusRequest(meetingId, Transcribing),
        UpdateRequest(meetingId, "", MeetingPatch(None, Some(duration), None, None, None, Some(Completed))),
        StatusRequest(meetingId, Analyzing),
        StatusRequest(meetingId, Analyzing),
        UpdateRequest(meetingId, userId, StatusPatch(Completed)),
        StatusRequest(meetingId, Completed)], faults)
      == Applied(rows, UpdateRequest(meetingId, userId, StatusPatch(Completed)), FaultAt(faults, 4))
  {
    var first := [
        StatusRequest(meetingId, Transcribing),
        UpdateRequest(meetingId, "", MeetingPatch(None, Some(duration), None, None, None, Some(Completed))),
        StatusRequest(meetingId, Analyzing),
        StatusRequest(meetingId, Analyzing)];
    OwnerlessWritesChangeNothing(rows, meetingId, first, faults);
    var owned := UpdateRequest(meetingId, userId, StatusPatch(Completed));
    ReplayStep(rows, first, owned, faults);
    var after := Applied(rows, owned, FaultAt(faults, 4));
    AppliedKeepsOwnership(rows, owned, FaultAt(faults, 4), meetingId, "");
    ReplayStep(rows, first + [owned], StatusRequest(meetingId, Completed), faults);
    assert first + [owned] + [StatusRequest(meetingId, Completed)] == [
        StatusRequest(meetingId, Transcribing),
        UpdateRequest(meetingId, "", MeetingPatch(None, Some(duration), None, None, None, Some(Completed))),
        StatusRequest(meetingId, Analyzing),
        StatusRequest(meetingId, Analyzing),
        UpdateRequest(meetingId, userId, StatusPatch(Completed)),
        StatusRequest(meetingId, Completed)];
  }

  /** As shipped, `processTranscriptionResults` is not a method of the
      transcription service, so the transcription step always throws: the run
      requests transcribing, failed, failed, and leaves a meeting whose owner
      is not `''` untouched. */
  lemma ShippedRunFails(rows: seq<Meeting>, meetingId: string, userId: string, error: JsValue, faults: seq<Option<JsValue>>)
    requires CleanWrites(faults, 3) && NoOwnedRow(rows, meetingId, "")
    ensures var run := Plan(meetingId, userId, TranscriptionThrew(error), faults);
      run.trace.requests == [StatusRequest(meetingId, Transcribing), StatusRequest(meetingId, Failed), StatusRequest(meetingId, Failed)]
      && run.outcome == Ok(())
      && Replay(rows, run.trace.requests, faults) == rows
  {
    TranscriptionFailureTrace(meetingId, userId, error, faults);
    var reqs := Plan(meetingId, userId, TranscriptionThrew(error), faults).trace.requests;
    OwnerlessWritesChangeNothing(rows, meetingId, reqs, faults);
  }

  /** The run holds a `MeetingService` whose ghost log records every
      `updateMeeting` call; `enrichments` records the enrichment tasks
      started. */
  class MeetingProcessingService {
    const meetingService: MeetingService
    ghost var enrichments: seq<EnrichmentCall>

    constructor(meetingService: MeetingService)
      ensures this.meetingService == meetingService && enrichments == []
    {
      this.meetingService := meetingService;
      enrichments := [];
    }

    /** The state after the run-so-far `t`, begun from table `start`, log
        `base` and enrichment log `baseE`. */
    ghost predicate Tracks(start: seq<Meeting>, base: seq<UpdateRequest>, baseE: seq<EnrichmentCall>, t: Trace,
                           faults: seq<Option<JsValue>>)
      reads this, meetingService
    {
      meetingService.Valid()
      && meetingService.rows == Replay(start, t.requests, faults)
      && meetingService.requests == base + t.requests
      && enrichments == baseE + t.enrichments
    }

    /** `updateProcessingStatus(meetingId, status)`, the run's `w`-th write. */
    method UpdateProcessingStatus(meetingId: string, status: string, faults: seq<Option<JsValue>>, w: nat,
                                  ghost start: seq<Meeting>, ghost base: seq<UpdateRequest>,
                                  ghost baseE: seq<EnrichmentCall>, ghost t: Trace)
      returns (r: Result<(), JsValue>, w': nat)
      requires Tracks(start, base, baseE, t, faults) && w == |t.requests|
      modifies meetingService
      ensures Tracks(start, base, baseE, StatusStep(t, meetingId, status, faults).trace, faults)
      ensures r == StatusStep(t, meetingId, status, faults).result
      ensures w' == |StatusStep(t, meetingId, status, faults).trace.requests|
    {
      ReplayStep(start, t.requests, StatusRequest(meetingId, status), faults);
      var fault := FaultAt(faults, w);
      var u := meetingService.UpdateMeeting(meetingId, "", StatusPatch(status), fault);
      w' := w + 1;
      if u.Err? {
        return Err(u.error), w';
      }
      r := Ok(());
    }

    /** `processTranscription(meetingId, signedUrl)`; the collaborators'
        result is `attempt`. */
    method ProcessTranscription(meetingId: string, signedUrl: string, attempt: TranscriptionAttempt,
                                faults: seq<Option<JsValue>>, w: nat,
                                ghost start: seq<Meeting>, ghost base: seq<UpdateRequest>,
                                ghost baseE: seq<EnrichmentCall>, ghost t: Trace)
      returns (r: Result<string, JsValue>, w': nat)
      requires Tracks(start, base, baseE, t, faults) && w == |t.requests|
      modifies meetingService
      ensures Tracks(start, base, baseE, TranscriptionStep(t, meetingId, attempt, faults).trace, faults)
      ensures r == TranscriptionStep(t, meetingId, attempt, faults).result
      ensures w' == |TranscriptionStep(t, meetingId, attempt, faults).trace.requests|
    {
      if attempt.TranscriptionThrew? {
        return Err(Rethrown(TranscriptionFailed, attempt.error)), w;
      }
      var patch := MeetingPatch(None, Some(attempt.duration), None, None, None, Some(Completed));
      ReplayStep(start, t.requests, UpdateRequest(meetingId, "", patch), faults);
      var fault := FaultAt(faults, w);
      var u := meetingService.UpdateMeeting(meetingId, "", patch, fault);
      w' := w + 1;
      if u.Err? {
        return Err(Rethrown(TranscriptionFailed, u.error)), w';
      }
      r := Ok(attempt.transcript);
    }

    /** `processAIAnalysis(meetingId, transcript, userId)`; the two tasks
        settle with `actionItems` and `summary`. */
    method ProcessAIAnalysis(meetingId: string, transcript: string, userId: string,
                             actionItems: Outcome<()>, summary: Outcome<()>,
                             faults: seq<Option<JsValue>>, w: nat,
                             ghost start: seq<Meeting>, ghost base: seq<UpdateRequest>,
                             ghost baseE: seq<EnrichmentCall>, ghost t: Trace)
      returns (r: Result<(), JsValue>, w': nat)
      requires Tracks(start, base, baseE, t, faults) && w == |t.requests|
      modifies this, meetingService
      ensures Tracks(start, base, baseE, AnalysisStep(t, meetingId, transcript, userId, faults).trace, faults)
      ensures r == AnalysisStep(t, meetingId, transcript, userId, faults).result
      ensures w' == |AnalysisStep(t, meetingId, transcript, userId, faults).trace.requests|
    {
      var s := StatusStep(t, meetingId, Analyzing, faults);
      var analyzing, w1 := UpdateProcessingStatus(meetingId, Analyzing, faults, w, start, base, baseE, t);
      if analyzing.Err? {
        return Err(Rethrown(AnalysisFailed, analyzing.error)), w1;
      }
      var tasks := [ActionItemsTask(meetingId, transcript, userId), SummaryTask(meetingId, transcript, userId)];
      enrichments := enrichments + tasks;
      // `Promise.allSettled` never rejects, and its outcomes are not read.
      assert AllSettled(actionItems, summary).Resolved?;
      ghost var t1 := s.trace.(enrichments := s.trace.enrichments + tasks);
      assert baseE + s.trace.enrichments + tasks == baseE + t1.enrichments;
      assert Tracks(start, base, baseE, t1, faults);
      var owned := UpdateRequest(meetingId, userId, StatusPatch(Completed));
      ReplayStep(start, t1.requests, owned, faults);
      assert w1 == |t1.requests| && NextFault(t, faults).None?;
      var fault := FaultAt(faults, w1);
      var u := meetingService.UpdateMeeting(meetingId, userId, StatusPatch(Completed), fault);
      w' := w1 + 1;
      assert Tracks(start, base, baseE, Write(t1, owned, faults), faults);
      if u.Err? {
        return Err(Rethrown(AnalysisFailed, u.error)), w';
      }
      r := Ok(());
    }

    /** `handleProcessingError(meetingId, error)` */
    method HandleProcessingError(meetingId: string, error: JsValue, faults: seq<Option<JsValue>>, w: nat,
                                 ghost start: seq<Meeting>, ghost base: seq<UpdateRequest>,
                                 ghost baseE: seq<EnrichmentCall>, ghost t: Trace)
      returns (r: Result<(), JsValue>)
      requires Tracks(start, base, baseE, t, faults) && w == |t.requests|
      modifies meetingService
      ensures Tracks(start, base, baseE, HandlerStep(t, meetingId, faults).trace, faults)
      ensures r == HandlerStep(t, meetingId, faults).result
    {
      var first, w1 := UpdateProcessingStatus(meetingId, Failed, faults, w, start, base, baseE, t);
      if first.Err? {
        return first;
      }
      var t1 := StatusStep(t, meetingId, Failed, faults).trace;
      var second, w2 := UpdateProcessingStatus(meetingId, Failed, faults, w1, start, base, baseE, t1);
      r := second;
    }

    /** `processMeetingInBackground(meetingId, signedUrl, userId)` */
    method ProcessMeetingInBackground(meetingId: string, signedUrl: string, userId: string,
                                      attempt: TranscriptionAttempt, actionItems: Outcome<()>, summary: Outcome<()>,
                                      faults: seq<Option<JsValue>>)
      returns (outcome: Result<(), JsValue>)
      requires meetingService.Valid()
      modifies this, meetingService
      ensures meetingService.Valid()
      ensures var run := Plan(meetingId, userId, attempt, faults);
        outcome == run.outcome
        && meetingService.requests == old(meetingService.requests) + run.trace.requests
        && meetingService.rows == Replay(old(meetingService.rows), run.trace.requests, faults)
        && enrichments == old(enrichments) + run.trace.enrichments
    {
      ghost var start := meetingService.rows;
      ghost var base := meetingService.requests;
      ghost var baseE := enrichments;
      ghost var t0 := Trace([], []);
      assert base + [] == base && baseE + [] == baseE;
      var s1, w1 := UpdateProcessingStatus(meetingId, Transcribing, faults, 0, start, base, baseE, t0);
      ghost var t1 := StatusStep(t0, meetingId, Transcribing, faults).trace;
      if s1.Err? {
        outcome := HandleProcessingError(meetingId, s1.error, faults, w1, start, base, baseE, t1);
        return;
      }
      var s2, w2 := ProcessTranscription(meetingId, signedUrl, attempt, faults, w1, start, base, baseE, t1);
      ghost var t2 := TranscriptionStep(t1, meetingId, attempt, faults).trace;
      if s2.Err? {
        outcome := HandleProcessingError(meetingId, s2.error, faults, w2, start, base, baseE, t2);
        return;
      }
      var transcript := s2.value;
      var s3, w3 := UpdateProcessingStatus(meetingId, Analyzing, faults, w2, start, base, baseE, t2);
      ghost var t3 := StatusStep(t2, meetingId, Analyzing, faults).trace;
      if s3.Err? {
        outcome := HandleProcessingError(meetingId, s3.error, faults, w3, start, base, baseE, t3);
        return;
      }
      var s4, w4 := ProcessAIAnalysis(meetingId, transcript, userId, actionItems, summary, faults, w3, start, base, baseE, t3);
      ghost var t4 := AnalysisStep(t3, meetingId, transcript, userId, faults).trace;
      if s4.Err? {
        outcome := HandleProcessingError(meetingId, s4.error, faults, w4, start, base, baseE, t4);
        return;
      }
      var s5, w5 := UpdateProcessingStatus(meetingId, Completed, faults, w4, start, base, baseE, t4);
      ghost var t5 := StatusStep(t4, meetingId, Completed, faults).trace;
      if s5.Err? {
        outcome := HandleProcessingError(meetingId, s5.error, faults, w5, start, base, baseE, t5);
        return;
      }
      outcome := Ok(());
    }
  }
}
