/** The response handling of `OpenAIService` (src/services/openAIService.ts):
    configuration merge, prompt substitution, cleaning of fenced replies,
    the mapping of extracted items to rows, and the error contracts of the
    three public operations. The chat-completion endpoint and `JSON.parse`
    are oracles. */
module OpenAI {
  import opened Prelude
  import opened Js

  datatype OpenAIConfig = OpenAIConfig(model: string, temperature: real, maxTokens: int)

  /** `Partial<OpenAIConfig>`; `None` is an absent key. */
  datatype PartialConfig = PartialConfig(model: Option<string>, temperature: Option<real>, maxTokens: Option<int>)

  const DefaultConfig := OpenAIConfig("gpt-3.5-turbo", 0.3, 1000)
  const NoOverrides := PartialConfig(None, None, None)

  /** `{ ...this.config, ...customConfig }` */
  function MergeConfig(base: OpenAIConfig, custom: PartialConfig): (c: OpenAIConfig)
    ensures c.model == (if custom.model.Some? then custom.model.value else base.model)
    ensures c.temperature == (if custom.temperature.Some? then custom.temperature.value else base.temperature)
    ensures c.maxTokens == (if custom.maxTokens.Some? then custom.maxTokens.value else base.maxTokens)
  {
    OpenAIConfig(
      if custom.model.Some? then custom.model.value else base.model,
      if custom.temperature.Some? then custom.temperature.value else base.temperature,
      if custom.maxTokens.Some? then custom.maxTokens.value else base.maxTokens)
  }

  /** Merging nothing keeps the base; merging twice is merging once. */
  lemma MergeLaws(base: OpenAIConfig, custom: PartialConfig)
    ensures MergeConfig(base, NoOverrides) == base
    ensures MergeConfig(MergeConfig(base, custom), custom) == MergeConfig(base, custom)
  {
  }

  const Placeholder := "{transcript}"

  datatype PromptType = ActionItemsPrompt | SummaryPrompt

  function PromptName(p: PromptType): string
  {
    match p
    case ActionItemsPrompt => "actionItems"
    case SummaryPrompt => "summary"
  }

  /** A prompt template; the user text is `userBefore + "{transcript}" + userAfter`. */
  datatype PromptTemplate = PromptTemplate(system: string, userBefore: string, userAfter: string)

  function UserTemplate(t: PromptTemplate): string
  {
    t.userBefore + Placeholder + t.userAfter
  }

  const ActionItemsTemplate := PromptTemplate(
    "You are an expert at analyzing meeting transcripts and extracting actionable items. Be concise and practical.",
    "Analyze the following meeting transcript and extract action items. \nFor each action item, provide:\n"
    + "- A clear, actionable description\n- Priority level (high, medium, low) based on urgency and importance\n"
    + "- Speaker identification if mentioned\n\nTranscript:\n",
    "\n\nReturn the action items in JSON format:\n{\n  \"actionItems\": [\n    {\n"
    + "      \"description\": \"Clear action item description\",\n      \"priority\": \"high|medium|low\",\n"
    + "      \"speaker\": \"Speaker name or number if mentioned\",\n      \"assignee\": \"Person assigned if mentioned\"\n"
    + "    }\n  ]\n}")

  const SummaryTemplate := PromptTemplate(
    "You are an expert at summarizing meeting content. Be concise and highlight key points.",
    "Create a concise summary of the following meeting transcript. \n"
    + "Focus on key decisions, main topics discussed, and important outcomes.\nKeep it under 200 words.\n\nTranscript:\n",
    "")

  const TopicsTemplate := PromptTemplate(
    "You are an expert at identifying key topics from meeting transcripts.",
    "Extract the main topics discussed in this meeting transcript. \n"
    + "Return only the topic names as a JSON array of strings.\n\nTranscript:\n",
    "\n\nReturn format:\n{\n  \"topics\": [\"topic1\", \"topic2\", \"topic3\"]\n}")

  function Template(p: PromptType): PromptTemplate
  {
    match p
    case ActionItemsPrompt => ActionItemsTemplate
    case SummaryPrompt => SummaryTemplate
  }

  predicate NoBrace(s: string)
  {
    '{' !in s
  }

  /** `template.replace('{transcript}', transcript)` replaces the first
      placeholder only: text after it, later placeholders included, is kept
      as written, and placeholders inside the transcript are not expanded. */
  lemma {:induction false} SubstituteFirstPlaceholder(before: string, after: string, transcript: string)
    requires NoBrace(before)
    ensures ReplaceFirst(before + Placeholder + after, Placeholder, transcript) == before + transcript + after
  {
    var s := before + Placeholder + after;
    assert s[|before|..|before| + |Placeholder|] == Placeholder;
    assert OccursAt(s, Placeholder, |before|);
    forall k | 0 <= k < |before| ensures !OccursAt(s, Placeholder, k) {
      assert s[k] == before[k] && before[k] in before;
    }
    var found := FindFrom(s, Placeholder, 0);
    assert found == Some(|before|);
    assert s[..|before|] == before;
    assert s[|before| + |Placeholder|..] == after;
  }

  /** The user message sent for a prompt: the template with the transcript
      in place of its placeholder. None of the three templates has a brace
      before its placeholder. */
  lemma UserMessageOf(p: PromptType, transcript: string)
    requires NoBrace(Template(p).userBefore)
    ensures ReplaceFirst(UserTemplate(Template(p)), Placeholder, transcript)
      == Template(p).userBefore + transcript + Template(p).userAfter
  {
    SubstituteFirstPlaceholder(Template(p).userBefore, Template(p).userAfter, transcript);
  }

  datatype Message = Message(role: string, content: string)

  datatype ChatRequest = ChatRequest(model: string, messages: seq<Message>, temperature: real, maxTokens: int)

  /** A thrown API error: its HTTP status, if any, and its message. */
  datatype OpenAIFailure = OpenAIFailure(status: Option<int>, message: string)

  /** What `chat.completions.create` did: threw, or resolved with the
      content of the first choice (`None` when there is no choice, message
      or content). */
  datatype CompletionReply = Threw(failure: OpenAIFailure) | Completed(content: Option<string>)

  /** The request `makeOpenAICall(promptType, transcript, customConfig)` sends. */
  function RequestFor(p: PromptType, transcript: string, custom: PartialConfig): ChatRequest
  {
    var config := MergeConfig(DefaultConfig, custom);
    var prompt := Template(p);
    ChatRequest(config.model,
      [Message("system", prompt.system), Message("user", ReplaceFirst(UserTemplate(prompt), Placeholder, transcript))],
      config.temperature, config.maxTokens)
  }

  /** Content that is present and not empty. */
  predicate HasContent(reply: CompletionReply)
  {
    reply.Completed? && reply.content.Some? && reply.content.value != ""
  }

  function NoResponse(name: string): OpenAIFailure
  {
    OpenAIFailure(None, "No response from OpenAI for " + name)
  }

  /** `makeOpenAICall`: the cleaned content, or the error (the API's own, or
      the missing-content one), rethrown unchanged after logging. */
  function MakeOpenAICall(p: PromptType, transcript: string, custom: PartialConfig,
                          complete: ChatRequest -> CompletionReply): (r: Result<string, OpenAIFailure>)
    ensures r.Ok? <==> HasContent(complete(RequestFor(p, transcript, custom)))
    ensures r.Ok? ==> r.value == CleanResponseContent(complete(RequestFor(p, transcript, custom)).content.value)
    ensures complete(RequestFor(p, transcript, custom)).Threw? ==> r == Err(complete(RequestFor(p, transcript, custom)).failure)
    ensures complete(RequestFor(p, transcript, custom)).Completed? && !HasContent(complete(RequestFor(p, transcript, custom)))
      ==> r == Err(NoResponse(PromptName(p)))
  {
    match complete(RequestFor(p, transcript, custom))
    case Threw(failure) => Err(failure)
    case Completed(content) =>
      if content.None? || content.value == "" then Err(NoResponse(PromptName(p)))
      else Ok(CleanResponseContent(content.value))
  }

  const Fence := "```"
  const JsonFence := "```json"

  // The first regex replace of the fence and any whitespace after it, on
  // text that starts with the fence.
  function StripOpening(c: string, fence: string): (r: string)
    requires StartsWith(c, fence)
    ensures EndsWith(c, r)
    ensures exists k :: |fence| <= k <= |c| && r == c[k..]
              && forall i :: |fence| <= i < k ==> IsWhitespace(c[i])
    ensures r == [] || !IsWhitespace(r[0])
  {
    var rest := c[|fence|..];
    assert c[|c| - |TrimStart(rest)|..] == TrimStart(rest);
    TrimStart(rest)
  }

  // The second regex replace: a fence that ends the text goes, with the
  // whitespace before it; otherwise nothing changes.
  function StripClosing(c: string): (r: string)
    ensures !EndsWith(c, Fence) ==> r == c
    ensures EndsWith(c, Fence) ==> StartsWith(c, r) && (r == [] || !IsWhitespace(r[|r| - 1]))
    ensures EndsWith(c, Fence) ==>
              |r| <= |c| - |Fence| && forall i :: |r| <= i < |c| - |Fence| ==> IsWhitespace(c[i])
  {
    if EndsWith(c, Fence) then TrimEnd(c[..|c| - |Fence|]) else c
  }

  /** `cleanResponseContent(content)` */
  function CleanResponseContent(content: string): (r: string)
    ensures !StartsWith(Trim(content), Fence) ==> r == Trim(content)
    ensures StartsWith(Trim(content), JsonFence) ==> r == StripClosing(StripOpening(Trim(content), JsonFence))
    ensures StartsWith(Trim(content), Fence) && !StartsWith(Trim(content), JsonFence) ==>
      r == StripClosing(StripOpening(Trim(content), Fence))
  {
    var c := Trim(content);
    if StartsWith(c, JsonFence) then StripClosing(StripOpening(c, JsonFence))
    else if StartsWith(c, Fence) then StripClosing(StripOpening(c, Fence))
    else c
  }

  /** The text without whitespace at either end. */
  predicate Tight(x: string)
  {
    x == [] || (!IsWhitespace(x[0]) && !IsWhitespace(x[|x| - 1]))
  }

  /** A reply fenced as a JSON block comes back as the block's text. */
  lemma CleanJsonBlock(x: string)
    requires Tight(x)
    ensures CleanResponseContent(JsonFence + "\n" + x + "\n" + Fence) == x
  {
    var s := JsonFence + "\n" + x + "\n" + Fence;
    BlockIsTrimmed(JsonFence, x);
    assert StartsWith(s, JsonFence);
    FencedBody(JsonFence, x);
  }

  /** A reply in a bare fenced block whose text does not start with "json"
      comes back as the block's text. */
  lemma CleanBareBlock(x: string)
    requires Tight(x) && !StartsWith(x, "json")
    ensures CleanResponseContent(Fence + "\n" + x + "\n" + Fence) == x
  {
    var s := Fence + "\n" + x + "\n" + Fence;
    BlockIsTrimmed(Fence, x);
    assert s[3] == '\n';
    assert !StartsWith(s, JsonFence);
    assert StartsWith(s, Fence);
    FencedBody(Fence, x);
  }

  lemma BlockIsTrimmed(open: string, x: string)
    requires open == JsonFence || open == Fence
    ensures Trim(open + "\n" + x + "\n" + Fence) == open + "\n" + x + "\n" + Fence
  {
    var s := open + "\n" + x + "\n" + Fence;
    assert s[0] == '`' && s[|s| - 1] == '`';
    TrimOfTrimmed(s);
  }

  lemma FencedBody(open: string, x: string)
    requires open == JsonFence || open == Fence
    requires Tight(x)
    ensures StartsWith(open + "\n" + x + "\n" + Fence, open)
    ensures StripClosing(StripOpening(open + "\n" + x + "\n" + Fence, open)) == x
  {
    var s := open + "\n" + x + "\n" + Fence;
    assert StartsWith(s, open);
    assert s[|open|..] == "\n" + x + "\n" + Fence;
    if x == [] {
      EmptyBlock();
    } else {
      OpeningOfBlock(x);
      ClosingOfBlock(x);
    }
  }

  lemma EmptyBlock()
    ensures StripClosing(TrimStart("\n" + "" + "\n" + Fence)) == ""
  {
    var b := "\n" + "" + "\n" + Fence;
    assert b[1..][1..] == Fence;
    assert LeadingWs(b[1..][1..]) == 0;
    assert TrimStart(b) == Fence;
  }

  /** The opening strip removes exactly the line break after the fence. */
  lemma OpeningOfBlock(x: string)
    requires Tight(x) && x != []
    ensures TrimStart("\n" + x + "\n" + Fence) == x + "\n" + Fence
  {
    var b := "\n" + x + "\n" + Fence;
    assert b[1..] == x + "\n" + Fence;
    assert b[1..][0] == x[0];
    assert LeadingWs(b[1..]) == 0;
  }

  /** The closing strip removes the fence and the line break before it. */
  lemma ClosingOfBlock(x: string)
    requires Tight(x)
    ensures StripClosing(x + "\n" + Fence) == x
  {
    var c := x + "\n" + Fence;
    assert EndsWith(c, Fence);
    var inner := c[..|c| - |Fence|];
    assert inner == x + "\n";
    assert inner[..|inner| - 1] == x;
    assert TrailingWsStart(inner) == TrailingWsStart(x);
    if x != [] {
      assert !IsWhitespace(x[|x| - 1]);
    }
    assert TrailingWsStart(x) == |x|;
  }

  /** Text that does not open with a fence only loses its surrounding
      whitespace. */
  lemma UnfencedIsTrimmed(content: string)
    requires !StartsWith(Trim(content), Fence)
    ensures CleanResponseContent(content) == Trim(content)
  {
  }

  /** An action item as the model returns it. */
  datatype ActionItemData = ActionItemData(description: string, priority: string, speaker: Option<string>, assignee: Option<string>)

  /** The object handed to the repository for one item. */
  datatype ActionItemRow = ActionItemRow(meetingId: string, description: string, priority: string, status: string, assignee: Option<string>)

  /** The `map` in `saveActionItems(meetingId, actionItems)`: one pending row
      per item, in order, carrying the meeting id, the description and the
      priority; the speaker is dropped and an empty assignee is left out. */
  function ToRows(meetingId: string, items: seq<ActionItemData>): (rows: seq<ActionItemRow>)
    ensures |rows| == |items|
    ensures forall i :: 0 <= i < |items| ==>
      rows[i].meetingId == meetingId && rows[i].status == "pending"
      && rows[i].description == items[i].description && rows[i].priority == items[i].priority
      && rows[i].assignee == KeepTruthy(items[i].assignee)
  {
    seq(|items|, i requires 0 <= i < |items| =>
      ActionItemRow(meetingId, items[i].description, items[i].priority, "pending", KeepTruthy(items[i].assignee)))
  }

  /** Rows of a concatenation are the concatenated rows. */
  lemma ToRowsAppend(meetingId: string, a: seq<ActionItemData>, b: seq<ActionItemData>)
    ensures ToRows(meetingId, a + b) == ToRows(meetingId, a) + ToRows(meetingId, b)
  {
  }

  /** What `JSON.parse` of the cleaned reply gave for the action items: it
      threw, or produced an object whose `actionItems` key is absent or holds
      this list. */
  datatype ItemsParse = ItemsUnparsable | ItemsParsed(actionItems: Option<seq<ActionItemData>>)

  /** `extractActionItems(meetingId, transcript)` never throws: it returns
      the rows saved, which is nothing when the call, the parse or the save
      fails, or when the list is missing or empty. `saveFails` says whether
      the repository throws. */
  function ExtractActionItems(meetingId: string, transcript: string, complete: ChatRequest -> CompletionReply,
                              parse: string -> ItemsParse, saveFails: bool): (saved: seq<ActionItemRow>)
    ensures saved != [] ==>
      var reply := MakeOpenAICall(ActionItemsPrompt, transcript, NoOverrides, complete);
      reply.Ok? && parse(reply.value).ItemsParsed? && parse(reply.value).actionItems.Some?
      && saved == ToRows(meetingId, parse(reply.value).actionItems.value) && !saveFails
    ensures MakeOpenAICall(ActionItemsPrompt, transcript, NoOverrides, complete).Err? ==> saved == []
    ensures saveFails ==> saved == []
  {
    match MakeOpenAICall(ActionItemsPrompt, transcript, NoOverrides, complete)
    case Err(_) => []
    case Ok(response) =>
      match parse(response)
      case ItemsUnparsable => []
      case ItemsParsed(items) =>
        if items.None? || |items.value| == 0 || saveFails then []
        else ToRows(meetingId, items.value)
  }

  /** A successful run saves exactly one row per parsed item. */
  lemma ExtractSavesEveryItem(meetingId: string, transcript: string, complete: ChatRequest -> CompletionReply,
                              parse: string -> ItemsParse, items: seq<ActionItemData>)
    requires MakeOpenAICall(ActionItemsPrompt, transcript, NoOverrides, complete).Ok?
    requires parse(MakeOpenAICall(ActionItemsPrompt, transcript, NoOverrides, complete).value) == ItemsParsed(Some(items))
    ensures ExtractActionItems(meetingId, transcript, complete, parse, false) == ToRows(meetingId, items)
  {
  }

  /** The summary request: the default model and temperature, 300 tokens. */
  function SummaryConfig(): (c: OpenAIConfig)
    ensures c == OpenAIConfig("gpt-3.5-turbo", 0.3, 300)
  {
    MergeConfig(DefaultConfig, PartialConfig(None, None, Some(300)))
  }

  /** `generateSummary(transcript)`: the cleaned summary, or null on any
      failure (a 429 included). */
  function GenerateSummary(transcript: string, complete: ChatRequest -> CompletionReply): (r: Option<string>)
    ensures var request := RequestFor(SummaryPrompt, transcript, PartialConfig(None, None, Some(300)));
      request.maxTokens == 300 && request.model == DefaultConfig.model && request.temperature == DefaultConfig.temperature
      && (r.Some? <==> HasContent(complete(request)))
      && (r.Some? ==> r.value == CleanResponseContent(complete(request).content.value))
  {
    match MakeOpenAICall(SummaryPrompt, transcript, PartialConfig(None, None, Some(300)), complete)
    case Ok(summary) => Some(summary)
    case Err(_) => None
  }

  /** What `JSON.parse` of the cleaned topics reply gave. */
  datatype TopicsParse = TopicsUnparsable | TopicsParsed(topics: Option<seq<string>>)

  /** The value `extractTopics` resolves to: the list, `undefined` when the
      parsed object has no `topics` key, or `null`. */
  datatype TopicsResult = Topics(topics: seq<string>) | TopicsUndefined | TopicsNull

  /** The request of `extractTopics`: its own template, the default model
      and temperature, 200 tokens. */
  function TopicsRequest(transcript: string): ChatRequest
  {
    ChatRequest(DefaultConfig.model,
      [Message("system", TopicsTemplate.system), Message("user", ReplaceFirst(UserTemplate(TopicsTemplate), Placeholder, transcript))],
      DefaultConfig.temperature, 200)
  }

  /** `extractTopics(transcript)`: never throws; null on any failure. */
  function ExtractTopics(transcript: string, complete: ChatRequest -> CompletionReply,
                         parse: string -> TopicsParse): (r: TopicsResult)
    ensures !HasContent(complete(TopicsRequest(transcript))) ==> r == TopicsNull
    ensures r.Topics? ==> (HasContent(complete(TopicsRequest(transcript)))
      && parse(CleanResponseContent(complete(TopicsRequest(transcript)).content.value)) == TopicsParsed(Some(r.topics)))
    ensures HasContent(complete(TopicsRequest(transcript))) ==>
      var parsed := parse(CleanResponseContent(complete(TopicsRequest(transcript)).content.value));
      (parsed.TopicsUnparsable? ==> r == TopicsNull)
      && (parsed == TopicsParsed(None) ==> r == TopicsUndefined)
      && (parsed.TopicsParsed? && parsed.topics.Some? ==> r == Topics(parsed.topics.value))
  {
    var reply := complete(TopicsRequest(transcript));
    if !HasContent(reply) then TopicsNull
    else
      match parse(CleanResponseContent(reply.content.value))
      case TopicsUnparsable => TopicsNull
      case TopicsParsed(topics) =>
        if topics.Some? then Topics(topics.value) else TopicsUndefined
  }

  /** A rate-limited call (status 429) yields null, like any other failure. */
  lemma RateLimitGivesNull(transcript: string, complete: ChatRequest -> CompletionReply, parse: string -> TopicsParse)
    requires complete(RequestFor(SummaryPrompt, transcript, PartialConfig(None, None, Some(300)))).Threw?
    requires complete(TopicsRequest(transcript)).Threw?
    ensures GenerateSummary(transcript, complete).None?
    ensures ExtractTopics(transcript, complete, parse) == TopicsNull
  {
  }
}
