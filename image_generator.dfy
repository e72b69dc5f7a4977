/** The visual-asset pipeline (`analyze_and_generate_visuals` and
    `generate_business_image`): ask a text model for a plan of illustrations,
    retrying on rate limits, fall back to a fixed plan when the answer is
    unusable, then render one image per planned section into a dictionary keyed
    by section name. The text model, the JSON parser and the image service are
    parameters: their answers are given, not computed. */
module ImageGenerator {
  import opened Base
  import opened Strings
  import opened Dicts

  /* ---------------- One image ---------------- */

  /** What one call of the image service does.
      - ConfigRaised: `genai.configure` raised;
      - RequestRaised: the generation request raised, with `str(e)`;
      - Answer: the response, its parts (each with its inline data, if any)
        and the images it lists. */
  datatype ImageReply =
    | ConfigRaised
    | RequestRaised(message: string)
    | Answer(parts: seq<Option<seq<bv8>>>, images: seq<nat>)

  /** The outcome of `generate_business_image`: the image, and the text sent to
      the image service when a request was made. */
  datatype Rendered = Rendered(image: Image, request: Option<string>)

  const Preamble: string := "High quality, professional business illustration. "
  const StyleMarker: string := ". Style: "
  const Finish: string := ". 8k resolution, detailed."

  const MissingKeyCaption: string := "[Error: Missing API Key]"
  const ConfigFailedCaption: string := "[Error: API Config Failed]"
  const NoDataCaption: string := "[Image: Generation Failed - No Data]"
  const ErrorCaptionStart: string := "[Image: Generation Error - "

  /** The request text for a prompt in a style. */
  function FullPrompt(prompt: string, style: string): string {
    Preamble + prompt + StyleMarker + style + Finish
  }

  /** With the style fixed, the request text determines the prompt. */
  lemma FullPromptInjective(p1: string, p2: string, style: string)
    requires FullPrompt(p1, style) == FullPrompt(p2, style)
    ensures p1 == p2
  {
    var f1, f2 := FullPrompt(p1, style), FullPrompt(p2, style);
    assert |p1| == |p2|;
    assert f1[|Preamble|..|Preamble| + |p1|] == p1;
    assert f2[|Preamble|..|Preamble| + |p2|] == p2;
  }

  /** The caption of the placeholder shown when the request raised: the fixed
      opening, at most the first 50 characters of the error text, and "...]". */
  function ErrorCaption(message: string): (c: string)
    ensures |c| <= |ErrorCaptionStart| + 50 + 4
    ensures var k := if |message| < 50 then |message| else 50;
      && |c| == |ErrorCaptionStart| + k + 4
      && c[..|ErrorCaptionStart|] == ErrorCaptionStart
      && c[|ErrorCaptionStart|..|ErrorCaptionStart| + k] == message[..k]
      && c[|c| - 4..] == "...]"
  {
    ErrorCaptionStart + Take(message, 50) + "...]"
  }

  /** The inline data of the first part that has some. */
  function FirstInline(parts: seq<Option<seq<bv8>>>): (r: Option<seq<bv8>>)
    ensures r.None? <==> forall i | 0 <= i < |parts| :: parts[i].None?
    ensures r.Some? ==> exists i | 0 <= i < |parts| ::
              parts[i] == r && forall j | 0 <= j < i :: parts[j].None?
  {
    if |parts| == 0 then None
    else if parts[0].Some? then parts[0]
    else
      var r := FirstInline(parts[1..]);
      assert forall i | 1 <= i < |parts| :: parts[i] == parts[1..][i - 1];
      r
  }

  /** `generate_business_image` for one reply of the image service. */
  function RenderImage(prompt: string, style: string, apiKey: string, reply: ImageReply): Rendered {
    if apiKey == "" then Rendered(Placeholder(MissingKeyCaption), None)
    else match reply
      case ConfigRaised => Rendered(Placeholder(ConfigFailedCaption), None)
      case RequestRaised(m) => Rendered(Placeholder(ErrorCaption(m)), Some(FullPrompt(prompt, style)))
      case Answer(parts, images) =>
        var image :=
          match FirstInline(parts)
          case Some(data) => Decoded(data)
          case None => if |images| > 0 then Native(images[0]) else Placeholder(NoDataCaption);
        Rendered(image, Some(FullPrompt(prompt, style)))
  }

  /** What a rendering yields: a request exactly when there is a key and the
      service was configured; a placeholder exactly when there is no key, the
      configuration or the request raised, or the answer carries no image
      data; otherwise the first inline data, or else the first listed image. */
  lemma RenderOutcome(prompt: string, style: string, apiKey: string, reply: ImageReply)
    ensures var r := RenderImage(prompt, style, apiKey, reply);
      && (r.request.Some? <==> apiKey != "" && !reply.ConfigRaised?)
      && (r.request.Some? ==> r.request.value == FullPrompt(prompt, style))
      && (r.image.Placeholder? <==>
            || apiKey == ""
            || !reply.Answer?
            || ((forall i | 0 <= i < |reply.parts| :: reply.parts[i].None?) && |reply.images| == 0))
      && (apiKey != "" && reply.Answer? && FirstInline(reply.parts).Some? ==>
            r.image == Decoded(FirstInline(reply.parts).value))
      && (apiKey != "" && reply.Answer? && FirstInline(reply.parts).None? && |reply.images| > 0 ==>
            r.image == Native(reply.images[0]))
      && (r.image.Placeholder? ==>
            |r.image.caption| <= |ErrorCaptionStart| + 54 && r.image.caption[0] == '[')
  {
  }

  /** The `for part in response.parts` scan. */
  method FirstInlinePart(parts: seq<Option<seq<bv8>>>) returns (data: Option<seq<bv8>>)
    ensures data == FirstInline(parts)
  {
    var i := 0;
    while i < |parts|
      invariant 0 <= i <= |parts|
      invariant FirstInline(parts) == FirstInline(parts[i..])
    {
      if parts[i].Some? {
        return parts[i];
      }
      assert parts[i..][1..] == parts[i + 1..];
      i := i + 1;
    }
    return None;
  }

  /** `generate_business_image(prompt, style, api_key)`. */
  method GenerateBusinessImage(prompt: string, style: string, apiKey: string, reply: ImageReply)
    returns (r: Rendered)
    ensures r == RenderImage(prompt, style, apiKey, reply)
  {
    if apiKey == "" {
      return Rendered(Placeholder(MissingKeyCaption), None);
    }
    if reply.ConfigRaised? {
      return Rendered(Placeholder(ConfigFailedCaption), None);
    }
    var fullPrompt := FullPrompt(prompt, style);
    if reply.RequestRaised? {
      return Rendered(Placeholder(ErrorCaption(reply.message)), Some(fullPrompt));
    }
    var data := FirstInlinePart(reply.parts);
    if data.Some? {
      return Rendered(Decoded(data.value), Some(fullPrompt));
    }
    if |reply.images| > 0 {
      return Rendered(Native(reply.images[0]), Some(fullPrompt));
    }
    return Rendered(Placeholder(NoDataCaption), Some(fullPrompt));
  }

  /* ---------------- Asking for a visual plan ---------------- */

  /** What one call of the text model does: it answers (with the response's
      text, or None when reading `response.text` raises), or it raises with
      the error text `str(e)`. */
  datatype CallOutcome = Replied(text: Option<string>) | Threw(message: string)

  /** How the retry loop ends: with an answer, out of quota after the last
      rate-limited attempt, or with an error that is not a rate limit (raised
      on to the enclosing handler). NoResponse is the `if not response` guard
      after a loop that made no successful call. */
  datatype Analysis = Answered(text: Option<string>) | QuotaExceeded | Failed(message: string) | NoResponse

  const MaxRetries: nat := 3

  /** An error text that signals a rate limit. */
  predicate IsRateLimit(message: string) {
    Contains(message, "429") || Contains(message, "ResourceExhausted")
  }

  predicate RateLimited(o: CallOutcome) {
    o.Threw? && IsRateLimit(o.message)
  }

  function Pow2(n: nat): (r: nat)
    ensures r >= 1
  {
    if n == 0 then 1 else 2 * Pow2(n - 1)
  }

  /** The retry loop from attempt `attempt` on, one outcome per attempt. */
  function Retry(outcomes: seq<CallOutcome>, attempt: nat): Analysis
    requires |outcomes| == MaxRetries && attempt <= MaxRetries
    decreases MaxRetries - attempt
  {
    if attempt == MaxRetries then NoResponse
    else match outcomes[attempt]
      case Replied(text) => Answered(text)
      case Threw(m) =>
        if !IsRateLimit(m) then Failed(m)
        else if attempt < MaxRetries - 1 then Retry(outcomes, attempt + 1)
        else QuotaExceeded
  }

  /** The sleeps of the retry loop from attempt `attempt` on, in seconds. */
  function Backoff(outcomes: seq<CallOutcome>, attempt: nat): seq<nat>
    requires |outcomes| == MaxRetries && attempt <= MaxRetries
    decreases MaxRetries - attempt
  {
    if attempt < MaxRetries - 1 && RateLimited(outcomes[attempt]) then
      [Pow2(attempt + 1)] + Backoff(outcomes, attempt + 1)
    else []
  }

  /** The first attempt at or after `from` that is not rate-limited, or
      MaxRetries if there is none. */
  function FirstSettled(outcomes: seq<CallOutcome>, from: nat): (f: nat)
    requires |outcomes| == MaxRetries && from <= MaxRetries
    ensures from <= f <= MaxRetries
    ensures forall j | from <= j < f :: RateLimited(outcomes[j])
    ensures f < MaxRetries ==> !RateLimited(outcomes[f])
    decreases MaxRetries - from
  {
    if from == MaxRetries || !RateLimited(outcomes[from]) then from
    else FirstSettled(outcomes, from + 1)
  }

  /** The retry loop in closed form: the first attempt that is not rate-limited
      decides the result; three rate limits in a row exhaust the quota, and the
      guard after the loop is never reached. The waits are 2 and then 4
      seconds, one per rate-limited attempt except the last. */
  lemma {:induction false} RetryMeaning(outcomes: seq<CallOutcome>)
    requires |outcomes| == MaxRetries
    ensures var f := FirstSettled(outcomes, 0);
      Retry(outcomes, 0) ==
        if f == MaxRetries then QuotaExceeded
        else match outcomes[f]
          case Replied(text) => Answered(text)
          case Threw(m) => Failed(m)
    ensures Retry(outcomes, 0) != NoResponse
    ensures var f := FirstSettled(outcomes, 0);
      Backoff(outcomes, 0) == [2, 4][..if f < 2 then f else 2]
  {
    var f := FirstSettled(outcomes, 0);
    assert Pow2(1) == 2 && Pow2(2) == 4;
    if f >= 1 {
      assert Retry(outcomes, 0) == Retry(outcomes, 1);
      if f >= 2 {
        assert Retry(outcomes, 1) == Retry(outcomes, 2);
      }
    }
  }

  /** The `for attempt in range(max_retries)` loop. */
  method RequestAnalysis(outcomes: seq<CallOutcome>) returns (result: Analysis, waits: seq<nat>)
    requires |outcomes| == MaxRetries
    ensures result == Retry(outcomes, 0)
    ensures waits == Backoff(outcomes, 0)
  {
    waits := [];
    for attempt := 0 to MaxRetries
      invariant Retry(outcomes, attempt) == Retry(outcomes, 0)
      invariant waits + Backoff(outcomes, attempt) == Backoff(outcomes, 0)
    {
      match outcomes[attempt]
      case Replied(text) =>
        return Answered(text), waits;
      case Threw(message) =>
        if IsRateLimit(message) {
          if attempt < MaxRetries - 1 {
            waits := waits + [Pow2(attempt + 1)];
          } else {
            return QuotaExceeded, waits;
          }
        } else {
          return Failed(message), waits;
        }
    }
    result := NoResponse;
  }

  /* ---------------- Reading the visual plan ---------------- */

  const JsonFence: string := "```json"
  const Fence: string := "```"

  /** The code-block clean-up: the text between "```json" and the next "```";
      failing a "```json" tag, the text after the first "```" and before the
      next one; otherwise the text unchanged. */
  function StripFences(t: string): string {
    if Contains(t, JsonFence) then Split(Split(t, JsonFence)[1], Fence)[0]
    else if Contains(t, Fence) then Split(t, Fence)[1]
    else t
  }

  /** Text in which a code fence closes properly: it holds no "```" and does
      not end in a backtick, so a fence placed after it is the first one. */
  predicate FenceFree(s: string) {
    !Contains(s, Fence) && (s == "" || s[|s| - 1] != '`')
  }

  /** "```" overlaps itself, so a fence placed after fence-free text is found
      where it was placed. */
  lemma {:induction false} FenceFreeAcross(s: string)
    requires FenceFree(s)
    ensures !Contains(s + Fence[..2], Fence)
  {
    var u := s + Fence[..2];
    forall j | 0 <= j ensures !Occurs(u, Fence, j) {
      if j + 3 <= |u| {
        if j + 3 <= |s| {
          assert u[j..j + 3] == s[j..j + 3];
          assert !Occurs(s, Fence, j);
        } else {
          assert u[j..j + 3][|s| - 1 - j] == u[|s| - 1] == s[|s| - 1];
          assert Fence[|s| - 1 - j] == '`';
        }
      }
    }
  }

  /** "```json" does not overlap itself: text without it, followed by all of it
      but its last character, still holds none. */
  lemma {:induction false} JsonFenceAcross(s: string)
    requires !Contains(s, JsonFence)
    ensures !Contains(s + JsonFence[..6], JsonFence)
  {
    var u := s + JsonFence[..6];
    forall j | 0 <= j ensures !Occurs(u, JsonFence, j) {
      if j + 7 <= |u| {
        var w := u[j..j + 7];
        if j + 7 <= |s| {
          assert w == s[j..j + 7];
          assert !Occurs(s, JsonFence, j);
        } else if |s| - j >= 3 {
          assert w[|s| - j] == u[|s|] == JsonFence[0] == '`';
          assert JsonFence[|s| - j] != '`';
        } else {
          assert w[3] == u[|s| + 3 - (|s| - j)] == JsonFence[3 - (|s| - j)] == '`';
          assert JsonFence[3] == 'j';
        }
      }
    }
  }

  lemma {:induction false} JsonFenceHasFence(t: string)
    requires Contains(t, JsonFence)
    ensures Contains(t, Fence)
  {
    var i := Find(t, JsonFence).value;
    assert t[i..i + 3] == JsonFence[..3];
    assert Occurs(t, Fence, i);
  }

  /** Text without any code fence is passed on unchanged. */
  lemma {:induction false} StripFencesPlain(t: string)
    requires !Contains(t, Fence)
    ensures StripFences(t) == t
  {
    if Contains(t, JsonFence) {
      JsonFenceHasFence(t);
    }
  }

  /** A single JSON code block yields exactly its contents. Before it may come
      anything without "```json"; its contents must close at the fence that
      follows them; and the closing fence must not start a new "```json" with
      the text after it. */
  lemma {:induction false} StripJsonBlock(pre: string, body: string, post: string)
    requires !Contains(pre, JsonFence)
    requires FenceFree(body)
    requires !Contains(Fence + Take(post, 6), JsonFence)
    ensures StripFences(pre + JsonFence + (body + Fence + post)) == body
  {
    var rest := body + Fence + post;
    var t := pre + JsonFence + rest;
    JsonFenceAcross(pre);
    FindFirstAt(pre, JsonFence, rest);
    SplitSecond(t, JsonFence, |pre|);
    assert t[|pre| + |JsonFence|..] == rest;
    ContentsClose(body, post);
    SplitHead(rest, JsonFence);
    match Find(rest, JsonFence) {
      case None =>
      case Some(q) =>
        ClosingFenceFirst(body, post, q);
        SplitFirstOfPrefix(rest, Fence, |body|, q);
    }
  }

  /** In the contents followed by the closing fence, a "```json" can only start
      after that fence. */
  lemma {:induction false} ClosingFenceFirst(body: string, post: string, q: nat)
    requires Find(body + Fence + post, Fence) == Some(|body|)
    requires !Contains(Fence + Take(post, 6), JsonFence)
    requires Occurs(body + Fence + post, JsonFence, q)
    ensures |body| + |Fence| <= q
  {
    var rest := body + Fence + post;
    assert rest[q..q + 3] == rest[q..q + 7][..3];
    NotBeforeFirst(rest, Fence, |body|, q);
    if q < |body| + 3 {
      NoJsonFenceAtClose(body, post, q);
    }
  }

  /** No occurrence comes before the one `Find` reports. */
  lemma NotBeforeFirst(s: string, pat: string, i: nat, q: nat)
    requires Find(s, pat) == Some(i) && Occurs(s, pat, q)
    ensures i <= q
  {
  }

  /** The closing fence does not start a "```json" within its own three places. */
  lemma {:induction false} NoJsonFenceAtClose(body: string, post: string, q: nat)
    requires |body| <= q < |body| + |Fence|
    requires !Contains(Fence + Take(post, 6), JsonFence)
    ensures !Occurs(body + Fence + post, JsonFence, q)
  {
    var rest := body + Fence + post;
    var u := Fence + Take(post, 6);
    if q + |JsonFence| <= |rest| {
      ClosingWindow(body, post);
      SliceOfSlice(rest, |body|, |body| + |u|, q - |body|, q - |body| + |JsonFence|);
      assert !Occurs(u, JsonFence, q - |body|);
    }
  }

  /** The closing fence and the next six characters, as they sit in the text. */
  lemma {:induction false} ClosingWindow(body: string, post: string)
    ensures var u := Fence + Take(post, 6);
      && |body| + |u| <= |body + Fence + post|
      && u == (body + Fence + post)[|body|..|body| + |u|]
  {
    var rest := body + Fence + post;
    assert rest[|body|..] == Fence + post;
    assert Take(post, 6) == post[..|Take(post, 6)|];
  }

  /** With no "```json" anywhere, a bare code block yields exactly its
      contents, provided both what precedes its opening fence and its contents
      close at the fence that follows them. */
  lemma {:induction false} StripBareBlock(pre: string, body: string, post: string)
    requires FenceFree(pre) && FenceFree(body)
    requires !Contains(pre + Fence + (body + Fence + post), JsonFence)
    ensures StripFences(pre + Fence + (body + Fence + post)) == body
  {
    var rest := body + Fence + post;
    var t := pre + Fence + rest;
    FenceFreeAcross(pre);
    FindFirstAt(pre, Fence, rest);
    SplitSecond(t, Fence, |pre|);
    assert t[|pre| + |Fence|..] == rest;
    ContentsClose(body, post);
  }

  /** Fence-free contents end at the fence that follows them. */
  lemma {:induction false} ContentsClose(body: string, post: string)
    requires FenceFree(body)
    ensures Find(body + Fence + post, Fence) == Some(|body|)
    ensures Split(body + Fence + post, Fence)[0] == body
  {
    var rest := body + Fence + post;
    FenceFreeAcross(body);
    FindFirstAt(body, Fence, post);
    SplitHead(rest, Fence);
    assert rest[..|body|] == body;
  }

  /** What follows the closing fence matters: a backtick and "json" after it
      form a second "```json", and the split then cuts there. */
  lemma {:induction false} StripJsonSuffixMatters()
    ensures StripFences(JsonFence + ("" + Fence + "`json")) == "`"
  {
    var rest := "" + Fence + "`json";
    var t := JsonFence + rest;
    assert t[..7] == JsonFence;
    FindIsFirst(t, JsonFence, 0);
    SplitSecond(t, JsonFence, 0);
    assert t[7..] == rest;
    assert rest[1..8] == JsonFence;
    assert rest[..7] != JsonFence by { assert rest[..7][3] == '`'; }
    FindIsFirst(rest, JsonFence, 1);
    SplitHead(rest, JsonFence);
    assert rest[..1] == "`";
    SplitHead("`", Fence);
  }

  /** One entry of the plan's "visuals" list. A field that is absent is None. */
  datatype Item = Item(section: Option<string>, prompt: Option<string>)

  /** What `json.loads` makes of the cleaned text: a parse error, or an object
      whose "visuals" entry is present or not. */
  datatype Parsed = Unparsable | Parsed(visuals: Option<seq<Item>>)

  /** The plan used when the analysis raised. */
  function FallbackPlan(style: string): seq<Item> {
    [ Item(Some("The Cover Page"), Some("Professional business cover page, " + style)),
      Item(Some("Financial Highlights"), Some("Financial growth chart, " + style)) ]
  }

  /** The items to render after the analysis, or None when the function returns
      an empty dictionary before rendering anything. Every failure inside the
      `try` — an error that is not a rate limit, a response without text, text
      that does not parse — leads to the fallback plan. */
  function VisualItems(analysis: Analysis, parse: string -> Parsed, style: string): Option<seq<Item>> {
    match analysis
    case QuotaExceeded => None
    case NoResponse => None
    case Failed(_) => Some(FallbackPlan(style))
    case Answered(text) =>
      if text.None? then Some(FallbackPlan(style))
      else match parse(StripFences(text.value))
        case Unparsable => Some(FallbackPlan(style))
        case Parsed(visuals) => Some(visuals.GetOr([]))
  }

  /** The items in each case: nothing when the quota ran out; the fallback
      after an error or an unusable answer; the parsed list (empty when the
      "visuals" key is missing) otherwise. */
  lemma VisualItemsCases(outcomes: seq<CallOutcome>, parse: string -> Parsed, style: string)
    requires |outcomes| == MaxRetries
    ensures var a := Retry(outcomes, 0);
      && (VisualItems(a, parse, style).None? <==> a == QuotaExceeded)
      && (a.Failed? || a == Answered(None) ==> VisualItems(a, parse, style) == Some(FallbackPlan(style)))
      && (a.Answered? && a.text.Some? ==>
            VisualItems(a, parse, style) ==
              match parse(StripFences(a.text.value))
              case Unparsable => Some(FallbackPlan(style))
              case Parsed(v) => Some(v.GetOr([])))
  {
    RetryMeaning(outcomes);
  }

  /* ---------------- Rendering the plan ---------------- */

  /** `item.get("section", f"Section {index+1}")`. */
  function SectionName(item: Item, index: nat): string {
    item.section.GetOr("Section " + NatToString(index + 1))
  }

  /** `item.get("prompt")` as the f-string prints it: a missing prompt reads "None". */
  function PromptText(item: Item): string {
    item.prompt.GetOr("None")
  }

  /** A call of the progress callback: `done` of `total` items, and its message. */
  datatype Progress = Progress(done: nat, total: nat, message: string)

  /** What rendering a plan produces: the dictionary of images by section
      name, the requests sent to the image service in order, and the progress
      reports in order. */
  datatype Run = Run(images: Dict<Image>, requests: seq<string>, progress: seq<Progress>)

  const EmptyRun := Run([], [], [])

  /** The rendering of item `i`; call `i` of the image service answers `service(i)`. */
  function Rendering(items: seq<Item>, i: nat, style: string, apiKey: string, service: nat -> ImageReply): Rendered
    requires i < |items|
  {
    RenderImage(PromptText(items[i]), style, apiKey, service(i))
  }

  /** The assignments `generated_images[section_name] = image`, in item order. */
  function Assignments(items: seq<Item>, style: string, apiKey: string, service: nat -> ImageReply): (es: seq<(string, Image)>)
    ensures |es| == |items|
    ensures forall i | 0 <= i < |items| ::
              es[i] == (SectionName(items[i], i), Rendering(items, i, style, apiKey, service).image)
  {
    seq(|items|, i requires 0 <= i < |items| =>
      (SectionName(items[i], i), Rendering(items, i, style, apiKey, service).image))
  }

  /** The requests sent while rendering the first `n` items. */
  function Requests(items: seq<Item>, n: nat, style: string, apiKey: string, service: nat -> ImageReply): seq<string>
    requires n <= |items|
  {
    if n == 0 then []
    else
      var r := Rendering(items, n - 1, style, apiKey, service);
      Requests(items, n - 1, style, apiKey, service) + (if r.request.Some? then [r.request.value] else [])
  }

  /** The progress report after item `i`. */
  function Report(items: seq<Item>, i: nat): Progress
    requires i < |items|
  {
    Progress(i + 1, |items|, "Generating asset for: " + SectionName(items[i], i))
  }

  /** The progress reports for the first `n` items. */
  function Reports(items: seq<Item>, n: nat): (ps: seq<Progress>)
    requires n <= |items|
    ensures |ps| == n && forall i | 0 <= i < n :: ps[i] == Report(items, i)
  {
    seq(n, i requires 0 <= i < n => Report(items, i))
  }

  /** The whole rendering loop. */
  function RenderRun(items: seq<Item>, style: string, apiKey: string, service: nat -> ImageReply, reporting: bool): Run {
    Run(PutAll([], Assignments(items, style, apiKey, service)),
        Requests(items, |items|, style, apiKey, service),
        if reporting then Reports(items, |items|) else [])
  }

  /** The last of the first `n` items whose section name is `k`. */
  function LastNamed(items: seq<Item>, k: string, n: nat): (r: Option<nat>)
    requires n <= |items|
    ensures r.Some? ==> r.value < n && SectionName(items[r.value], r.value) == k
    ensures r.Some? ==> forall j | r.value < j < n :: SectionName(items[j], j) != k
    ensures r.None? ==> forall j | 0 <= j < n :: SectionName(items[j], j) != k
  {
    if n == 0 then None
    else if SectionName(items[n - 1], n - 1) == k then Some(n - 1)
    else LastNamed(items, k, n - 1)
  }

  lemma {:induction false} LastNamedIsLastWith(items: seq<Item>, es: seq<(string, Image)>, k: string, n: nat)
    requires n <= |items| && n <= |es|
    requires forall j | 0 <= j < n :: es[j].0 == SectionName(items[j], j)
    ensures LastWith(es[..n], k) == LastNamed(items, k, n)
  {
    if n > 0 {
      assert es[..n][..n - 1] == es[..n - 1];
      LastNamedIsLastWith(items, es, k, n - 1);
    }
  }

  /** Every item leaves its image under its section name and a later item with
      the same name overwrites an earlier one: each name holds the image of
      the last item with that name, and no other key is present. The
      dictionary never lists a name twice and has at most one entry per item. */
  lemma RenderLastWins(items: seq<Item>, style: string, apiKey: string, service: nat -> ImageReply,
                       reporting: bool, k: string)
    ensures var images := RenderRun(items, style, apiKey, service, reporting).images;
      && UniqueKeys(images)
      && |images| <= |items|
      && Get(images, k) ==
           match LastNamed(items, k, |items|)
           case None => None
           case Some(i) => Some(Rendering(items, i, style, apiKey, service).image)
  {
    var es := Assignments(items, style, apiKey, service);
    PutAllLastWins(es, k);
    PutAllUnique(es);
    LastNamedIsLastWith(items, es, k, |items|);
    assert es[..|items|] == es;
  }

  /** The section names of the items in order, defaults included. */
  function SectionNames(items: seq<Item>): (ns: seq<string>)
    ensures |ns| == |items|
    ensures forall i | 0 <= i < |items| :: ns[i] == SectionName(items[i], i)
  {
    seq(|items|, i requires 0 <= i < |items| => SectionName(items[i], i))
  }

  /** The rendered dictionary lists the section names in the order they first
      appear in the plan; a repeated name stays where it first appeared. */
  lemma RenderKeyOrder(items: seq<Item>, style: string, apiKey: string, service: nat -> ImageReply,
                       reporting: bool)
    ensures Keys(RenderRun(items, style, apiKey, service, reporting).images)
         == FirstOccurrences(SectionNames(items))
  {
    var es := Assignments(items, style, apiKey, service);
    PutAllKeyOrder(es);
    assert Keys(es) == SectionNames(items);
  }

  /** At most one request per item, and none at all without an API key. */
  lemma {:induction false} RequestsBound(items: seq<Item>, n: nat, style: string, apiKey: string, service: nat -> ImageReply)
    requires n <= |items|
    ensures |Requests(items, n, style, apiKey, service)| <= n
    ensures apiKey == "" ==> Requests(items, n, style, apiKey, service) == []
  {
    if n > 0 {
      RequestsBound(items, n - 1, style, apiKey, service);
    }
  }

  /** Reports count up one item at a time, and the last one says all are done. */
  lemma ReportsCountUp(items: seq<Item>)
    ensures var ps := Reports(items, |items|);
      && (forall i, j | 0 <= i < j < |ps| :: ps[i].done < ps[j].done)
      && (|ps| > 0 ==> ps[|ps| - 1].done == ps[|ps| - 1].total == |items|)
  {
  }

  /** `analyze_and_generate_visuals` as a whole: nothing without an API key
      or when the quota runs out; otherwise the rendering of the chosen items. */
  function Visuals(visualStyle: string, apiKey: string, outcomes: seq<CallOutcome>,
                   parse: string -> Parsed, service: nat -> ImageReply, reporting: bool): Run
    requires |outcomes| == MaxRetries
  {
    if apiKey == "" then EmptyRun
    else match VisualItems(Retry(outcomes, 0), parse, visualStyle)
      case None => EmptyRun
      case Some(items) => RenderRun(items, visualStyle, apiKey, service, reporting)
  }

  /** The fallback plan renders two sections, keyed by exactly "The Cover
      Page" and "Financial Highlights", in that order. */
  lemma FallbackRunKeys(visualStyle: string, apiKey: string, service: nat -> ImageReply, reporting: bool)
    ensures Keys(RenderRun(FallbackPlan(visualStyle), visualStyle, apiKey, service, reporting).images) ==
              ["The Cover Page", "Financial Highlights"]
  {
    var es := Assignments(FallbackPlan(visualStyle), visualStyle, apiKey, service);
    assert es[0].0 == "The Cover Page" && es[1].0 == "Financial Highlights";
    PutAllTwo(es);
  }

  /** So when the analysis raises an error that is not a rate limit, those
      are the keys of the result. */
  lemma FallbackKeys(visualStyle: string, apiKey: string, outcomes: seq<CallOutcome>,
                     parse: string -> Parsed, service: nat -> ImageReply, reporting: bool)
    requires |outcomes| == MaxRetries && apiKey != "" && Retry(outcomes, 0).Failed?
    ensures Keys(Visuals(visualStyle, apiKey, outcomes, parse, service, reporting).images) ==
              ["The Cover Page", "Financial Highlights"]
  {
    FallbackRunKeys(visualStyle, apiKey, service, reporting);
    assert VisualItems(Retry(outcomes, 0), parse, visualStyle) == Some(FallbackPlan(visualStyle));
    assert Visuals(visualStyle, apiKey, outcomes, parse, service, reporting) ==
           RenderRun(FallbackPlan(visualStyle), visualStyle, apiKey, service, reporting);
  }

  /** The loop `for index, item in enumerate(items)`. */
  method RenderItems(items: seq<Item>, visualStyle: string, apiKey: string,
                     service: nat -> ImageReply, reporting: bool) returns (run: Run)
    ensures run == RenderRun(items, visualStyle, apiKey, service, reporting)
  {
    ghost var es := Assignments(items, visualStyle, apiKey, service);
    var generatedImages: Dict<Image> := [];
    var requests: seq<string> := [];
    var progress: seq<Progress> := [];
    var totalItems := |items|;
    for index := 0 to |items|
      invariant generatedImages == PutAll([], es[..index])
      invariant requests == Requests(items, index, visualStyle, apiKey, service)
      invariant progress == if reporting then Reports(items, index) else []
    {
      var item := items[index];
      var sectionName := SectionName(item, index);
      var imagePrompt := PromptText(item);
      var image := GenerateBusinessImage(imagePrompt, visualStyle, apiKey, service(index));
      if image.request.Some? {
        requests := requests + [image.request.value];
      }
      // Every rendering yields an image, so `if image:` always holds.
      PutAllStep([], es, index);
      generatedImages := Put(generatedImages, sectionName, image.image);
      if reporting {
        ReportsStep(items, index);
        progress := progress + [Progress(index + 1, totalItems, "Generating asset for: " + sectionName)];
      }
    }
    assert es[..|items|] == es;
    run := Run(generatedImages, requests, progress);
  }

  lemma ReportsStep(items: seq<Item>, n: nat)
    requires n < |items|
    ensures Reports(items, n + 1) == Reports(items, n) + [Report(items, n)]
  {
  }

  /** `analyze_and_generate_visuals(plan_text, visual_style, api_key, ...)`.
      The text model's answers are `outcomes`, one per attempt; `parse` is
      `json.loads`; call `i` of the image service answers `service(i)`;
      `reporting` says whether a progress callback was passed. Also returns
      the sleeps of the retry loop. */
  method AnalyzeAndGenerateVisuals(visualStyle: string, apiKey: string, outcomes: seq<CallOutcome>,
                                   parse: string -> Parsed, service: nat -> ImageReply, reporting: bool)
    returns (run: Run, waits: seq<nat>)
    requires |outcomes| == MaxRetries
    ensures run == Visuals(visualStyle, apiKey, outcomes, parse, service, reporting)
    ensures waits == if apiKey == "" then [] else Backoff(outcomes, 0)
  {
    if apiKey == "" {
      return EmptyRun, [];
    }
    var analysis;
    analysis, waits := RequestAnalysis(outcomes);
    var items := ChooseItems(analysis, parse, visualStyle);
    if items.None? {
      return EmptyRun, waits;
    }
    run := RenderItems(items.value, visualStyle, apiKey, service, reporting);
  }

  /** The rest of the `try` block after the retry loop, with its handler:
      clean the reply up and parse it, or fall back. None means the function
      returns an empty dictionary. */
  method ChooseItems(analysis: Analysis, parse: string -> Parsed, visualStyle: string)
    returns (items: Option<seq<Item>>)
    ensures items == VisualItems(analysis, parse, visualStyle)
  {
    match analysis {
      case QuotaExceeded =>
        return None;
      case NoResponse =>
        return None;
      case Failed(_) =>
        items := Some(FallbackPlan(visualStyle));
      case Answered(text) =>
        if text.None? {
          items := Some(FallbackPlan(visualStyle));
        } else {
          var textResponse := StripFences(text.value);
          match parse(textResponse) {
            case Unparsable =>
              items := Some(FallbackPlan(visualStyle));
            case Parsed(visuals) =>
              items := Some(visuals.GetOr([]));
          }
        }
    }
  }
}
