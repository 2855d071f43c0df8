/** `WebhookController` (src/controllers/webhookController.ts): a finished
    Deepgram transcription is turned into one transcription row, one chat
    segment per utterance and keyword-selected action items, and the
    meeting is then marked completed. The three repositories are the tables
    of `TranscriptStore`; the meeting table is a `MeetingService`. */
module Webhook {
  import opened Prelude
  import opened Js
  import opened Http
  import MeetingStore

  /** One sentence of `paragraphs.sentences`; `speaker` is absent when the
      provider did not diarize. */
  datatype Utterance = Utterance(speaker: Option<int>, text: string, start: real, end: real, confidence: real)

  /** `channels[i].alternatives[j]`; `sentences` is `None` when
      `paragraphs` or its `sentences` is missing. */
  datatype Alternative = Alternative(transcript: string, confidence: real, sentences: Option<seq<Utterance>>)

  datatype Channel = Channel(alternatives: seq<Alternative>)

  /** The `results` object; `summaryShort` is `results.summary?.short`. */
  datatype Results = Results(channels: seq<Channel>, summaryShort: Option<string>)

  /** The request body: `results` (absent allowed) and `metadata?.meeting_id`. */
  datatype WebhookBody = WebhookBody(results: Option<Results>, meetingId: Option<string>)

  datatype TranscriptionRow = TranscriptionRow(
    meetingId: string, status: string, fullText: string, confidence: int,
    language: string, wordCount: nat, summary: Option<string>)

  datatype ChatSegmentRow = ChatSegmentRow(
    transcriptionId: string, speakerNumber: int, text: string,
    startTime: int, endTime: int, confidence: int)

  datatype KeywordItemRow = KeywordItemRow(
    meetingId: string, speakerNumber: int, description: string, priority: string, status: string)

  /** `channels[0].alternatives[0]`, or `None` where reading it throws (no
      results, no channel, no alternative). */
  function PrimaryAlternative(results: Option<Results>): (r: Option<Alternative>)
    ensures r.Some? <==> results.Some? && |results.value.channels| > 0 && |results.value.channels[0].alternatives| > 0
    ensures r.Some? ==> r.value == results.value.channels[0].alternatives[0]
  {
    if results.None? || |results.value.channels| == 0 || |results.value.channels[0].alternatives| == 0 then None
    else Some(results.value.channels[0].alternatives[0])
  }

  /** `paragraphs?.sentences || []` */
  function UtterancesOf(alt: Alternative): seq<Utterance>
  {
    if alt.sentences.Some? then alt.sentences.value else []
  }

  /** `fullText.split(' ').length`: one more than the number of spaces, so
      the empty text counts one word. */
  function WordCount(text: string): (n: nat)
    ensures n >= 1
  {
    Count(text, IsSpace) + 1
  }

  predicate IsSpace(c: char)
  {
    c == ' '
  }

  lemma EmptyTextCountsOneWord()
    ensures WordCount("") == 1
  {
  }

  /** Words joined by single spaces are counted exactly. */
  lemma {:induction false} WordCountOfJoin(words: seq<string>)
    requires |words| > 0
    requires forall i :: 0 <= i < |words| ==> ' ' !in words[i]
    ensures WordCount(Join(words, " ")) == |words|
  {
    NoSpaceNoCount(words[0]);
    if |words| > 1 {
      WordCountOfJoin(words[1..]);
      var rest := Join(words[1..], " ");
      assert Join(words, " ") == (words[0] + " ") + rest;
      FilterConcat(words[0] + " ", rest, IsSpace);
      FilterConcat(words[0], " ", IsSpace);
      assert Filter(" ", IsSpace) == " " by {
        assert " "[1..] == [];
      }
    }
  }

  lemma NoSpaceNoCount(w: string)
    requires ' ' !in w
    ensures Filter(w, IsSpace) == []
  {
    assert forall i :: 0 <= i < |w| ==> w[i] in w;
    FilterNone(w, IsSpace);
  }

  /** The row saved to the transcription repository. */
  function TranscriptionRecord(meetingId: string, alt: Alternative, summaryShort: Option<string>): (row: TranscriptionRow)
    ensures row.meetingId == meetingId && row.fullText == alt.transcript
    ensures row.status == "completed" && row.language == "en"
    ensures row.wordCount == Count(alt.transcript, IsSpace) + 1
    ensures alt.confidence * 100.0 - 0.5 < row.confidence as real <= alt.confidence * 100.0 + 0.5
    ensures row.summary == KeepTruthy(summaryShort)
  {
    TranscriptionRow(meetingId, "completed", alt.transcript, MathRound(alt.confidence * 100.0),
      "en", WordCount(alt.transcript), KeepTruthy(summaryShort))
  }

  /** `utterance.speaker || 0` */
  function SpeakerOrZero(speaker: Option<int>): (n: int)
    ensures speaker.Some? ==> n == speaker.value
    ensures speaker.None? ==> n == 0
  {
    if speaker.Some? then speaker.value else 0
  }

  /** The segments built from the utterances: one per utterance, in order,
      each referencing the saved transcription, times in milliseconds and
      confidence in percent. */
  function ChatSegments(transcriptionId: string, utterances: seq<Utterance>): (r: seq<ChatSegmentRow>)
    ensures |r| == |utterances|
    ensures forall i :: 0 <= i < |r| ==>
      r[i].transcriptionId == transcriptionId && r[i].text == utterances[i].text
      && r[i].speakerNumber == SpeakerOrZero(utterances[i].speaker)
      && r[i].startTime == MathRound(utterances[i].start * 1000.0)
      && r[i].endTime == MathRound(utterances[i].end * 1000.0)
      && r[i].confidence == MathRound(utterances[i].confidence * 100.0)
  {
    seq(|utterances|, i requires 0 <= i < |utterances| =>
      var u := utterances[i];
      ChatSegmentRow(transcriptionId, SpeakerOrZero(u.speaker), u.text,
        MathRound(u.start * 1000.0), MathRound(u.end * 1000.0), MathRound(u.confidence * 100.0)))
  }

  const ActionKeywords := ["action item", "todo", "task", "follow up", "next steps", "assign",
                           "deadline", "need to", "should", "must", "will do", "going to", "plan to"]

  /** `actionKeywords.some((keyword) => text.includes(keyword))` on the
      lower-cased text. */
  predicate HasActionKeyword(text: string)
  {
    var lower := LowerAscii(text);
    exists i :: 0 <= i < |ActionKeywords| && Contains(lower, ActionKeywords[i])
  }

  predicate IsActionUtterance(u: Utterance)
  {
    HasActionKeyword(u.text)
  }

  /** `determinePriority(text)`: high on urgent, asap or critical; else
      medium on important or priority; else low. */
  function DeterminePriority(text: string): (p: string)
    ensures var lower := LowerAscii(text);
      var high := Contains(lower, "urgent") || Contains(lower, "asap") || Contains(lower, "critical");
      var medium := Contains(lower, "important") || Contains(lower, "priority");
      (p == "high" <==> high) && (p == "medium" <==> !high && medium) && (p == "low" <==> !high && !medium)
  {
    var lower := LowerAscii(text);
    if Contains(lower, "urgent") || Contains(lower, "asap") || Contains(lower, "critical") then "high"
    else if Contains(lower, "important") || Contains(lower, "priority") then "medium"
    else "low"
  }

  /** The row pushed for one selected utterance. */
  function ItemFor(meetingId: string, u: Utterance): KeywordItemRow
  {
    KeywordItemRow(meetingId, SpeakerOrZero(u.speaker), u.text, DeterminePriority(u.text), "pending")
  }

  function ItemsFor(meetingId: string, us: seq<Utterance>): (r: seq<KeywordItemRow>)
    ensures |r| == |us|
    ensures forall i :: 0 <= i < |us| ==> r[i] == ItemFor(meetingId, us[i])
  {
    seq(|us|, i requires 0 <= i < |us| => ItemFor(meetingId, us[i]))
  }

  /** The action items of a transcript: the selected utterances, in order. */
  function KeywordItems(meetingId: string, us: seq<Utterance>): seq<KeywordItemRow>
  {
    ItemsFor(meetingId, Filter(us, IsActionUtterance))
  }

  /** `extractActionItems`' `forEach` loop. */
  method ExtractActionItems(meetingId: string, utterances: seq<Utterance>) returns (items: seq<KeywordItemRow>)
    ensures items == KeywordItems(meetingId, utterances)
  {
    items := [];
    var i := 0;
    while i < |utterances|
      invariant 0 <= i <= |utterances|
      invariant items == KeywordItems(meetingId, utterances[..i])
    {
      var u := utterances[i];
      if IsActionUtterance(u) {
        items := items + [ItemFor(meetingId, u)];
      }
      assert items == KeywordItems(meetingId, utterances[..i + 1]) by {
        ItemsStep(meetingId, utterances, i);
      }
      i := i + 1;
    }
    assert utterances[..i] == utterances;
  }

  /** One more utterance adds its item exactly when it is selected. */
  lemma ItemsStep(meetingId: string, us: seq<Utterance>, i: nat)
    requires i < |us|
    ensures KeywordItems(meetingId, us[..i + 1])
      == KeywordItems(meetingId, us[..i]) + if IsActionUtterance(us[i]) then [ItemFor(meetingId, us[i])] else []
  {
    assert us[..i + 1] == us[..i] + [us[i]];
    FilterAppend(us[..i], us[i], IsActionUtterance);
    var a := Filter(us[..i], IsActionUtterance);
    var b := if IsActionUtterance(us[i]) then [us[i]] else [];
    ItemsForAppend(meetingId, a, b);
    assert ItemsFor(meetingId, b) == if IsActionUtterance(us[i]) then [ItemFor(meetingId, us[i])] else [];
  }

  lemma ItemsForAppend(meetingId: string, a: seq<Utterance>, b: seq<Utterance>)
    ensures ItemsFor(meetingId, a + b) == ItemsFor(meetingId, a) + ItemsFor(meetingId, b)
  {
  }

  /** An utterance yields an item iff its lower-cased text contains a
      keyword; each item keeps the utterance's original text, its speaker
      (or 0) and is pending; items keep utterance order. */
  lemma {:induction false} KeywordItemsSelect(meetingId: string, us: seq<Utterance>)
    ensures forall u :: u in us && HasActionKeyword(u.text) ==> ItemFor(meetingId, u) in KeywordItems(meetingId, us)
    ensures forall r :: r in KeywordItems(meetingId, us) ==>
      exists u :: u in us && HasActionKeyword(u.text) && r == ItemFor(meetingId, u)
    ensures forall r :: r in KeywordItems(meetingId, us) ==> r.status == "pending" && r.meetingId == meetingId
    ensures Subsequence(Filter(us, IsActionUtterance), us)
  {
    SelectedBecomeItems(meetingId, us);
    ItemsComeFromSelected(meetingId, us);
  }

  lemma SelectedBecomeItems(meetingId: string, us: seq<Utterance>)
    ensures forall u :: u in us && HasActionKeyword(u.text) ==> ItemFor(meetingId, u) in KeywordItems(meetingId, us)
  {
    var picked := Filter(us, IsActionUtterance);
    var items := KeywordItems(meetingId, us);
    forall u | u in us && HasActionKeyword(u.text) ensures ItemFor(meetingId, u) in items {
      var j :| 0 <= j < |picked| && picked[j] == u;
      assert items[j] == ItemFor(meetingId, u);
    }
  }

  lemma ItemsComeFromSelected(meetingId: string, us: seq<Utterance>)
    ensures forall r :: r in KeywordItems(meetingId, us) ==>
      exists u :: u in us && HasActionKeyword(u.text) && r == ItemFor(meetingId, u)
  {
    var picked := Filter(us, IsActionUtterance);
    var items := KeywordItems(meetingId, us);
    forall r | r in items ensures exists u :: u in us && HasActionKeyword(u.text) && r == ItemFor(meetingId, u) {
      var j :| 0 <= j < |items| && items[j] == r;
      assert picked[j] in picked;
    }
  }

  /** Nothing is selected when no utterance has a keyword. */
  lemma NoKeywordNoItems(meetingId: string, us: seq<Utterance>)
    requires forall i :: 0 <= i < |us| ==> !HasActionKeyword(us[i].text)
    ensures KeywordItems(meetingId, us) == []
  {
    FilterNone(us, IsActionUtterance);
  }

  /** Matching ignores ASCII case: an utterance in capitals is selected like
      its lower-case spelling. */
  lemma KeywordMatchIgnoresCase(a: string, b: string)
    requires LowerAscii(a) == LowerAscii(b)
    ensures HasActionKeyword(a) <==> HasActionKeyword(b)
    ensures DeterminePriority(a) == DeterminePriority(b)
  {
  }

  /** What the repositories were asked to do that throws. */
  datatype SaveFaults = SaveFaults(transcription: bool, segments: bool, actionItems: bool)

  /** The rows one run of `processTranscriptionResults` appends to each
      table, and whether it returned normally. */
  datatype Ingestion = Ingestion(
    transcriptions: seq<TranscriptionRow>, segments: seq<ChatSegmentRow>,
    items: seq<KeywordItemRow>, completed: bool)

  /** `processTranscriptionResults(meetingId, results)`: reading the first
      alternative throws before any write; then the transcription is saved,
      the segments only when there are utterances, and the action items only
      when some were selected; a save that throws ends the run. */
  function Ingest(meetingId: string, results: Option<Results>, transcriptionId: string, faults: SaveFaults): (g: Ingestion)
    ensures PrimaryAlternative(results).None? ==> g == Ingestion([], [], [], false)
    ensures |g.transcriptions| <= 1 && (g.segments != [] || g.items != [] || g.completed ==> |g.transcriptions| == 1)
    ensures g.completed ==>
      g.transcriptions == [TranscriptionRecord(meetingId, PrimaryAlternative(results).value, results.value.summaryShort)]
    ensures PrimaryAlternative(results).Some? && !faults.transcription ==>
      g.transcriptions == [TranscriptionRecord(meetingId, PrimaryAlternative(results).value, results.value.summaryShort)]
    ensures faults.transcription ==> g == Ingestion([], [], [], false)
    ensures (PrimaryAlternative(results).Some? && !faults.transcription
             && (UtterancesOf(PrimaryAlternative(results).value) == [] || !faults.segments)) ==>
      g.segments == ChatSegments(transcriptionId, UtterancesOf(PrimaryAlternative(results).value))
    ensures PrimaryAlternative(results).Some? && UtterancesOf(PrimaryAlternative(results).value) != [] && faults.segments ==>
      g.segments == [] && g.items == []
    ensures !g.completed ==> g.items == []
    ensures g.completed ==> g.segments == ChatSegments(transcriptionId, UtterancesOf(PrimaryAlternative(results).value))
    ensures g.completed ==> g.items == KeywordItems(meetingId, UtterancesOf(PrimaryAlternative(results).value))
    ensures g.completed <==> (PrimaryAlternative(results).Some? && !faults.transcription
      && (|UtterancesOf(PrimaryAlternative(results).value)| > 0 ==> !faults.segments)
      && (|KeywordItems(meetingId, UtterancesOf(PrimaryAlternative(results).value))| > 0 ==> !faults.actionItems))
  {
    match PrimaryAlternative(results)
    case None => Ingestion([], [], [], false)
    case Some(alt) =>
      if faults.transcription then Ingestion([], [], [], false)
      else
        var row := TranscriptionRecord(meetingId, alt, results.value.summaryShort);
        var us := UtterancesOf(alt);
        if |us| > 0 && faults.segments then Ingestion([row], [], [], false)
        else
          var segments := ChatSegments(transcriptionId, us);
          var items := KeywordItems(meetingId, us);
          if |items| > 0 && faults.actionItems then Ingestion([row], segments, [], false)
          else Ingestion([row], segments, items, true)
  }

  /** A transcript without utterances saves no segment and no action item. */
  lemma NoUtterancesNoSegments(meetingId: string, results: Option<Results>, transcriptionId: string, faults: SaveFaults)
    requires PrimaryAlternative(results).Some? && UtterancesOf(PrimaryAlternative(results).value) == []
    ensures Ingest(meetingId, results, transcriptionId, faults).segments == []
    ensures Ingest(meetingId, results, transcriptionId, faults).items == []
  {
    assert Filter([], IsActionUtterance) == [];
  }

  datatype WebhookReply = Processed(statusCode: int, message: string) | Failed(reply: Reply)

  const MissingMeetingId := Reply(400, "INVALID_WEBHOOK", "Missing meeting_id in metadata")
  const WebhookError := Reply(500, "WEBHOOK_ERROR", "Failed to process webhook")
  const ProcessedReply := Processed(200, "Webhook processed successfully")

  /** The transcription, chat-segment and action-item repositories. */
  class TranscriptStore {
    var transcriptions: seq<TranscriptionRow>
    var segments: seq<ChatSegmentRow>
    var actionItems: seq<KeywordItemRow>

    constructor()
      ensures transcriptions == [] && segments == [] && actionItems == []
    {
      transcriptions := [];
      segments := [];
      actionItems := [];
    }

    /** `processTranscriptionResults(meetingId, results)`; `transcriptionId`
        is the id the repository gives the saved transcription. */
    method ProcessTranscriptionResults(meetingId: string, results: Option<Results>, transcriptionId: string, faults: SaveFaults)
      returns (completed: bool)
      modifies this
      ensures var g := Ingest(meetingId, results, transcriptionId, faults);
        completed == g.completed
        && transcriptions == old(transcriptions) + g.transcriptions
        && segments == old(segments) + g.segments
        && actionItems == old(actionItems) + g.items
    {
      var alt := PrimaryAlternative(results);
      if alt.None? {
        return false;
      }
      var utterances := UtterancesOf(alt.value);
      if faults.transcription {
        return false;
      }
      transcriptions := transcriptions + [TranscriptionRecord(meetingId, alt.value, results.value.summaryShort)];
      if |utterances| > 0 {
        if faults.segments {
          return false;
        }
        segments := segments + ChatSegments(transcriptionId, utterances);
      } else {
        assert ChatSegments(transcriptionId, utterances) == [];
      }
      var items := ExtractActionItems(meetingId, utterances);
      if |items| > 0 {
        if faults.actionItems {
          return false;
        }
        actionItems := actionItems + items;
      }
      completed := true;
    }

    /** `handleTranscriptionWebhook`: a falsy meeting id is answered 400 with
        nothing written; otherwise the results are ingested and the meeting
        is set to completed, in that order, and any throw is answered 500. */
    method HandleTranscriptionWebhook(body: WebhookBody, transcriptionId: string, faults: SaveFaults,
                                      statusFault: Option<JsValue>, meetings: MeetingStore.MeetingService)
      returns (reply: WebhookReply)
      requires meetings.Valid()
      modifies this, meetings
      ensures meetings.Valid() && meetings.requests == old(meetings.requests)
      ensures body.meetingId.None? || body.meetingId.value == "" ==>
        reply == Failed(MissingMeetingId)
        && transcriptions == old(transcriptions) && segments == old(segments) && actionItems == old(actionItems)
        && meetings.rows == old(meetings.rows)
      ensures body.meetingId.Some? && body.meetingId.value != "" ==>
        var g := Ingest(body.meetingId.value, body.results, transcriptionId, faults);
        transcriptions == old(transcriptions) + g.transcriptions
        && segments == old(segments) + g.segments
        && actionItems == old(actionItems) + g.items
        && (if g.completed && statusFault.None?
            then reply == ProcessedReply
                 && meetings.rows == MeetingStore.WithStatus(old(meetings.rows), body.meetingId.value, "completed")
            else reply == Failed(WebhookError) && meetings.rows == old(meetings.rows))
    {
      if body.meetingId.None? || body.meetingId.value == "" {
        return Failed(MissingMeetingId);
      }
      var meetingId := body.meetingId.value;
      var completed := ProcessTranscriptionResults(meetingId, body.results, transcriptionId, faults);
      if !completed {
        return Failed(WebhookError);
      }
      var written := meetings.SetStatusById(meetingId, "completed", statusFault);
      if written.Err? {
        return Failed(WebhookError);
      }
      reply := ProcessedReply;
    }
  }
}
