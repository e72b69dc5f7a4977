/** The state transitions of the application script: filling in the session
    defaults, one consultation turn with the chat model, the development
    shortcut that installs a sample plan, generating the visual assets, and
    laying the image gallery out in rows. The widgets are gone; what remains is
    their effect on the session. The chat model is a parameter that maps the
    history it is sent to what it does. */
module App {
  import opened Base
  import opened Strings
  import opened Dicts
  import opened Session
  import opened ImageGenerator

  /* ---------------- Initialisation ---------------- */

  const AssistantRole: string := "assistant"

  const Greeting: string :=
    "Hello. I am your Professional Consultant. I acknowledge the strict 60-page minimum requirement. "
    + "Let's begin Meeting 1. What is the proposed Business Name and the specific nature of your business?"

  /** The transcript a new session starts with. */
  const Welcome: seq<ChatMessage> := [ChatMessage(AssistantRole, Greeting)]

  /** The session after the initialisation block that runs on every rerun:
      each of its four keys that is missing gets its default, and nothing
      already present changes. */
  function InitSpec(v: Snapshot): (r: Snapshot)
    ensures v.planGenerated.Some? ==> r.planGenerated == v.planGenerated
    ensures v.planGenerated.None? ==> r.planGenerated == Some(false)
    ensures v.planText.Some? ==> r.planText == v.planText
    ensures v.planText.None? ==> r.planText == Some("")
    ensures v.images.Some? ==> r.images == v.images
    ensures v.images.None? ==> r.images == Some([])
    ensures v.messages.Some? ==> r.messages == v.messages
    ensures v.messages.None? ==> r.messages == Some(Welcome)
    ensures r.selectedModel == v.selectedModel && r.visualStyle == v.visualStyle
  {
    v.(planGenerated := Some(v.planGenerated.GetOr(false)),
       planText := Some(v.planText.GetOr("")),
       images := Some(v.images.GetOr([])),
       messages := Some(v.messages.GetOr(Welcome)))
  }

  method InitializeSession(state: SessionState)
    modifies state
    ensures state.View() == InitSpec(old(state.View()))
  {
    if state.planGenerated.None? {
      state.planGenerated := Some(false);
    }
    if state.planText.None? {
      state.planText := Some("");
    }
    if state.images.None? {
      state.images := Some([]);
    }
    if state.messages.None? {
      state.messages := Some(Welcome);
    }
  }

  /** Initialising an initialised session changes nothing, and a new session
      starts with the greeting, no plan and no images. */
  lemma InitIdempotent(v: Snapshot)
    ensures InitSpec(InitSpec(v)) == InitSpec(v)
    ensures InitSpec(Fresh) == Snapshot(Some(Welcome), Some(false), Some(""), Some([]), None, None)
  {
  }

  /* ---------------- The history sent to the chat model ---------------- */

  /** How many of the latest messages the chat model is sent. */
  const HistoryLimit: nat := 10

  const ModelRole: string := "model"

  /** One entry of the history passed to the chat model. */
  datatype Content = Content(role: string, parts: seq<string>)

  /** `messages[-10:]`: the latest ten messages, or all when there are fewer. */
  function Window(messages: seq<ChatMessage>): (w: seq<ChatMessage>)
    ensures |w| == if |messages| < HistoryLimit then |messages| else HistoryLimit
    ensures w == messages[|messages| - |w|..]
  {
    if |messages| <= HistoryLimit then messages else messages[|messages| - HistoryLimit..]
  }

  /** The chat model knows the roles "user" and "model": every message not
      from the user is sent as the model's. */
  function RoleFor(role: string): (r: string)
    ensures r == UserRole || r == ModelRole
    ensures r == UserRole <==> role == UserRole
  {
    if role == UserRole then UserRole else ModelRole
  }

  function Entry(m: ChatMessage): Content {
    Content(RoleFor(m.role), [m.content])
  }

  /** The history for a transcript: its window, message by message. */
  function History(messages: seq<ChatMessage>): (h: seq<Content>)
    ensures |h| == |Window(messages)|
    ensures forall i | 0 <= i < |h| :: h[i] == Entry(Window(messages)[i])
  {
    var w := Window(messages);
    seq(|w|, i requires 0 <= i < |w| => Entry(w[i]))
  }

  /** Messages older than the latest ten never reach the chat model. */
  lemma OlderMessagesIgnored(older: seq<ChatMessage>, recent: seq<ChatMessage>)
    requires |recent| >= HistoryLimit
    ensures History(older + recent) == History(recent)
  {
    var all := older + recent;
    assert Window(all) == Window(recent) by {
      assert all[|all| - HistoryLimit..] == recent[|recent| - HistoryLimit..];
    }
  }

  /** The prompt just added is the last entry of the history, as the user's. */
  lemma HistoryEndsWithPrompt(messages: seq<ChatMessage>, prompt: string)
    ensures var h := History(messages + [ChatMessage(UserRole, prompt)]);
      |h| > 0 && h[|h| - 1] == Content(UserRole, [prompt])
  {
    var all := messages + [ChatMessage(UserRole, prompt)];
    var w := Window(all);
    assert w[|w| - 1] == all[|all| - 1];
  }

  /** The loop that builds `chat_history`: the latest ten messages (all of
      them when there are fewer), in order, each under the role the chat model
      knows it by. */
  method BuildHistory(messages: seq<ChatMessage>) returns (chatHistory: seq<Content>)
    ensures |chatHistory| == if |messages| < HistoryLimit then |messages| else HistoryLimit
    ensures forall i | 0 <= i < |chatHistory| ::
      chatHistory[i] == Content(RoleFor(messages[|messages| - |chatHistory| + i].role),
                                [messages[|messages| - |chatHistory| + i].content])
    ensures chatHistory == History(messages)
  {
    var window := if |messages| <= HistoryLimit then messages else messages[|messages| - HistoryLimit..];
    chatHistory := [];
    for i := 0 to |window|
      invariant |chatHistory| == i
      invariant forall k | 0 <= k < i :: chatHistory[k] == Entry(window[k])
    {
      var msg := window[i];
      var role := if msg.role == UserRole then UserRole else ModelRole;
      chatHistory := chatHistory + [Content(role, [msg.content])];
    }
  }

  /* ---------------- One consultation turn ---------------- */

  const PlanMarker: string := "BUSINESS PLAN GENERATED"
  const MissingKeyReply: string := "Please provide an API Key to chat."
  const ErrorReplyStart: string := "I encountered an error: "

  /** What the chat model does with one history: the text chunks it streams,
      then `Some(str(e))` if something raised (configuring the library,
      sending the request or reading the stream) before the turn completed. */
  datatype ChatCall = ChatCall(chunks: seq<string>, raised: Option<string>)

  /** The streamed chunks joined in order. */
  function Concat(chunks: seq<string>): (text: string)
    decreases |chunks|
  {
    if |chunks| == 0 then "" else Concat(chunks[..|chunks| - 1]) + chunks[|chunks| - 1]
  }

  /** Joining is compositional: the text of two runs of chunks is the text of
      the first followed by the text of the second. */
  lemma {:induction false} ConcatAppend(a: seq<string>, b: seq<string>)
    ensures Concat(a + b) == Concat(a) + Concat(b)
    decreases |b|
  {
    if |b| > 0 {
      var b' := b[..|b| - 1];
      assert (a + b)[..|a + b| - 1] == a + b';
      assert (a + b)[|a + b| - 1] == b[|b| - 1];
      ConcatAppend(a, b');
      assert Concat(a + b) == Concat(a + b') + b[|b| - 1];
    } else {
      assert a + b == a;
    }
  }

  /** The streaming loop: every chunk with text is added to the response. */
  method CollectStream(chunks: seq<string>) returns (fullResponse: string)
    ensures fullResponse == Concat(chunks)
  {
    fullResponse := "";
    for i := 0 to |chunks|
      invariant fullResponse == Concat(chunks[..i])
    {
      assert chunks[..i + 1][..i] == chunks[..i];
      if chunks[i] != "" {
        fullResponse := fullResponse + chunks[i];
      }
    }
    assert chunks[..|chunks|] == chunks;
  }

  /** The assistant's reply in a turn. */
  function Reply(apiKey: string, call: ChatCall): string {
    if apiKey == "" then MissingKeyReply
    else match call.raised
      case Some(e) => ErrorReplyStart + e
      case None => Concat(call.chunks)
  }

  /** The turn completed and its response announces a finished plan. */
  predicate Triggered(apiKey: string, call: ChatCall) {
    apiKey != "" && call.raised.None? && Contains(Concat(call.chunks), PlanMarker)
  }

  /** The session after the user submits `prompt`. An empty submission does
      nothing. Otherwise the user's message and then the assistant's reply are
      appended, and the plan flag and text are set when the response
      announces a plan; nothing else changes. */
  function TurnSpec(v: Snapshot, prompt: string, apiKey: string, chat: seq<Content> -> ChatCall): (r: Snapshot)
    requires v.messages.Some?
    ensures prompt == "" ==> r == v
    ensures prompt != "" ==>
      var call := chat(History(v.messages.value + [ChatMessage(UserRole, prompt)]));
      && r.messages == Some(v.messages.value + [ChatMessage(UserRole, prompt), ChatMessage(AssistantRole, Reply(apiKey, call))])
      && r.planGenerated == (if Triggered(apiKey, call) then Some(true) else v.planGenerated)
      && r.planText == (if Triggered(apiKey, call) then Some(Concat(call.chunks)) else v.planText)
    ensures r.images == v.images && r.selectedModel == v.selectedModel && r.visualStyle == v.visualStyle
  {
    if prompt == "" then v
    else
      var asked := v.messages.value + [ChatMessage(UserRole, prompt)];
      var call := chat(History(asked));
      var reply := Reply(apiKey, call);
      var flagged := if Triggered(apiKey, call) then v.(planGenerated := Some(true), planText := Some(reply)) else v;
      assert asked + [ChatMessage(AssistantRole, reply)] ==
             v.messages.value + [ChatMessage(UserRole, prompt), ChatMessage(AssistantRole, reply)];
      flagged.(messages := Some(asked + [ChatMessage(AssistantRole, reply)]))
  }

  /** The handling of one submitted prompt. */
  method HandleChatInput(state: SessionState, prompt: string, apiKey: string, chat: seq<Content> -> ChatCall)
    requires state.messages.Some?
    modifies state
    ensures state.View() == TurnSpec(old(state.View()), prompt, apiKey, chat)
  {
    if prompt == "" {
      return;
    }
    state.messages := Some(state.messages.value + [ChatMessage(UserRole, prompt)]);
    var fullResponse := "";
    if apiKey != "" {
      var chatHistory := BuildHistory(state.messages.value);
      var call := chat(chatHistory);
      fullResponse := CollectStream(call.chunks);
      match call.raised {
        case Some(e) =>
          fullResponse := ErrorReplyStart + e;
        case None =>
          if Contains(fullResponse, PlanMarker) {
            state.planGenerated := Some(true);
            state.planText := Some(fullResponse);
          }
      }
    } else {
      fullResponse := MissingKeyReply;
    }
    state.messages := Some(state.messages.value + [ChatMessage(AssistantRole, fullResponse)]);
  }

  /** The reply in each case: the missing-key notice without a key, the error
      text when something raised, and the streamed text otherwise. */
  lemma ReplyCases(v: Snapshot, prompt: string, apiKey: string, chat: seq<Content> -> ChatCall)
    requires v.messages.Some? && prompt != ""
    ensures var r := TurnSpec(v, prompt, apiKey, chat).messages.value;
      var call := chat(History(v.messages.value + [ChatMessage(UserRole, prompt)]));
      && |r| == |v.messages.value| + 2
      && r[..|v.messages.value|] == v.messages.value
      && r[|r| - 2] == ChatMessage(UserRole, prompt)
      && r[|r| - 1].role == AssistantRole
      && (apiKey == "" ==> r[|r| - 1].content == MissingKeyReply)
      && (apiKey != "" && call.raised.Some? ==> r[|r| - 1].content == ErrorReplyStart + call.raised.value)
      && (apiKey != "" && call.raised.None? ==> r[|r| - 1].content == Concat(call.chunks))
  {
    var old_ := v.messages.value;
    var call := chat(History(old_ + [ChatMessage(UserRole, prompt)]));
    var r := TurnSpec(v, prompt, apiKey, chat).messages.value;
    assert r == old_ + [ChatMessage(UserRole, prompt), ChatMessage(AssistantRole, Reply(apiKey, call))];
    assert r[..|old_|] == old_;
  }

  /** A turn never takes the plan flag back, and whenever it changes the plan
      text the new text announces a finished plan. */
  lemma PlanFlagMonotone(v: Snapshot, prompt: string, apiKey: string, chat: seq<Content> -> ChatCall)
    requires v.messages.Some?
    ensures var r := TurnSpec(v, prompt, apiKey, chat);
      && (v.planGenerated == Some(true) ==> r.planGenerated == Some(true))
      && (r.planText != v.planText ==> r.planGenerated == Some(true) && Contains(r.planText.value, PlanMarker))
  {
  }

  /** Without a key, or when the call raised, the plan is never marked done. */
  lemma FailedTurnKeepsPlan(v: Snapshot, prompt: string, apiKey: string, chat: seq<Content> -> ChatCall)
    requires v.messages.Some?
    requires apiKey == "" || chat(History(v.messages.value + [ChatMessage(UserRole, prompt)])).raised.Some?
    ensures TurnSpec(v, prompt, apiKey, chat).planGenerated == v.planGenerated
    ensures TurnSpec(v, prompt, apiKey, chat).planText == v.planText
  {
  }

  /* ---------------- Sample plan, visual assets and gallery ---------------- */

  /** The plan the development shortcut installs. */
  const SamplePlan: string :=
    "\n# Execution Summary\nThis is the executive summary of the business plan.\n\n"
    + "## Mission Statement\nTo revolutionize the grant writing process.\n\n"
    + "# The Cover Page\n(This section implies a cover page image)\n\n"
    + "# Financial Highlights\nOur financial projections are robust.\n\n"
    + "# Operational Plan\nWe plan to operate globally.\n"

  /** "Simulate Plan Generation": marks the plan done with the sample text. */
  method SimulatePlanGeneration(state: SessionState)
    modifies state
    ensures state.View() == old(state.View()).(planGenerated := Some(true), planText := Some(SamplePlan))
  {
    state.planGenerated := Some(true);
    state.planText := Some(SamplePlan);
  }

  /** The style used when the Design Studio has not chosen one. */
  const DefaultStyle: string := "Photorealistic"

  /** "Generate Visual Assets": runs the visual pipeline in the session's
      style, with progress reporting, and replaces the image map by its result
      whatever the map held before. Returns the progress reports, the waits
      between attempts and the number of images announced. */
  method GenerateVisualAssets(state: SessionState, apiKey: string, outcomes: seq<CallOutcome>,
                              parse: string -> Parsed, service: nat -> ImageReply)
    returns (progress: seq<Progress>, waits: seq<nat>, count: nat)
    requires |outcomes| == MaxRetries
    modifies state
    ensures var run := Visuals(old(state.visualStyle).GetOr(DefaultStyle), apiKey, outcomes, parse, service, true);
      && state.View() == old(state.View()).(images := Some(run.images))
      && progress == run.progress
      && count == |run.images|
    ensures waits == if apiKey == "" then [] else Backoff(outcomes, 0)
    ensures |waits| <= 2 && waits == [2, 4][..|waits|]
  {
    RetryMeaning(outcomes);
    var currentStyle := state.visualStyle.GetOr(DefaultStyle);
    var run;
    run, waits := AnalyzeAndGenerateVisuals(currentStyle, apiKey, outcomes, parse, service, true);
    state.images := Some(run.images);
    progress := run.progress;
    count := |run.images|;
  }

  /** Without a key, or once the rate limit is hit three times, the image map
      becomes empty: earlier images are not kept. */
  lemma FailedGenerationEmptiesGallery(style: string, apiKey: string, outcomes: seq<CallOutcome>,
                                       parse: string -> Parsed, service: nat -> ImageReply)
    requires |outcomes| == MaxRetries
    requires apiKey == "" || Retry(outcomes, 0) == QuotaExceeded
    ensures Visuals(style, apiKey, outcomes, parse, service, true).images == []
  {
    VisualItemsCases(outcomes, parse, style);
  }

  /** How many images a gallery row holds. */
  const GalleryColumns: nat := 3

  /** The rows laid end to end. */
  function Flatten<T>(rows: seq<seq<T>>): seq<T>
    decreases |rows|
  {
    if |rows| == 0 then [] else Flatten(rows[..|rows| - 1]) + rows[|rows| - 1]
  }

  lemma FlattenSnoc<T>(rows: seq<seq<T>>, row: seq<T>)
    ensures Flatten(rows + [row]) == Flatten(rows) + row
  {
    assert (rows + [row])[..|rows|] == rows;
  }

  /** The gallery loops: the images in map order, cut into rows of three with
      a shorter last row; each image is shown once, in order, with its section
      name. */
  method GalleryRows(images: Dict<Image>) returns (rows: seq<seq<(string, Image)>>)
    ensures Flatten(rows) == images
    ensures |rows| == (|images| + GalleryColumns - 1) / GalleryColumns
    ensures forall k | 0 <= k < |rows| :: 1 <= |rows[k]| <= GalleryColumns
    ensures forall k | 0 <= k < |rows| - 1 :: |rows[k]| == GalleryColumns
  {
    var imagesList := images;
    var n := |imagesList|;
    rows := [];
    var i := 0;
    while i < n
      invariant i == GalleryColumns * |rows| && i <= n + GalleryColumns - 1
      invariant Flatten(rows) == imagesList[..if i < n then i else n]
      invariant forall k | 0 <= k < |rows| :: 1 <= |rows[k]| <= GalleryColumns
      invariant forall k | 0 <= k < |rows| :: (k < |rows| - 1 || i <= n) ==> |rows[k]| == GalleryColumns
      decreases n - i
    {
      var row: seq<(string, Image)> := [];
      for j := 0 to GalleryColumns
        invariant row == imagesList[i..if i + j < n then i + j else n]
      {
        if i + j < n {
          row := row + [imagesList[i + j]];
        }
      }
      FlattenSnoc(rows, row);
      assert imagesList[..i] + row == imagesList[..if i + GalleryColumns < n then i + GalleryColumns else n];
      rows := rows + [row];
      i := i + GalleryColumns;
    }
    assert imagesList[..n] == images;
  }
}
