# AI Grant Architect — a verified model of its core

AI Grant Architect is a Streamlit application. A chat model interviews the user
about their business and writes a business plan. An image pipeline illustrates
the plan, and the plan is compiled into a Word document. This project models
the logic under the user interface and proves properties of it. Every external
service is replaced by an input whose answers are given.

- `base.dfy` (`Base`): shared values.
  - `Option`;
  - the opaque `Image`: decoded bytes, an image handed back by the service, or
    a grey placeholder with a caption;
  - `ChatMessage`.
- `strings.dfy` (`Strings`): the Python string operations the code relies on.
  - `strip()` over Python's whole whitespace set;
  - `lower()`, the `in` test, `find`, `startswith`, clamped slicing;
  - `split(sep)`, with the proof that joining the pieces gives the text back.
- `dicts.dfy` (`Dicts`): an insertion-ordered dictionary with Python's
  assignment semantics. Assigning to a present key replaces the value in
  place; assigning to a new key appends it.
- `document_generator.dfy` (`DocumentGenerator`): `generate_docx`. The document
  is the sequence of blocks appended to it: pictures, the spacer, the title,
  the slogan, the page break, headings and paragraphs.
- `image_generator.dfy` (`ImageGenerator`): `generate_business_image` and
  `analyze_and_generate_visuals`. These cover the rate-limit retry loop, the
  code-fence clean-up, the fallback plan, and the loop that fills the
  section→image dictionary and reports progress.
  - The text model is a sequence of three attempt outcomes.
  - `json.loads` is a function from text to a parse result.
  - The image service is a function from the call number to its reply.
- `session.dfy` (`Session`): `st.session_state` as a class. It has one `Option`
  field per key, `None` while the key is unset.
- `state_manager.dfy` (`StateManager`): `save_session`, `load_session` and
  `clear_session`. The session file is a class with an optional content, which
  is a record of four optional keys or unreadable text. Write and remove
  failures are parameters.
- `app.dfy` (`App`): the state transitions of `app.py`.
  - session initialisation;
  - one consultation turn, with the last-ten history window and role mapping;
  - the "BUSINESS PLAN GENERATED" trigger;
  - the simulated plan;
  - "Generate Visual Assets";
  - the three-per-row gallery.

  The chat model is a function from the history it is sent to the chunks it
  streams and the error it raises, if any.

Every method that changes state is proved against a specification function of
the old state. The properties are then proved about those functions.

The retry loop of the visual analysis waits `2 ** (attempt + 1)` seconds after
a rate-limited attempt, so 2 seconds before the second attempt and 4 before the
third; a third rate-limited attempt returns an empty dictionary at once. The
variable `retry_delay = 5` at modules/image_generator.py:117 is never read.

## Model

| member | source | states |
|---|---|---|
| Strings.Strip | modules/document_generator.py:71 | `strip()` returns "" exactly when the line is all whitespace; otherwise the result starts and ends with non-whitespace |
| Strings.NatToStringInjective | modules/image_generator.py:165 | `str(n)` of different numbers differs, so different item indices give different default names "Section {index+1}" |
| Strings.NatToStringValue | modules/image_generator.py:165 | the decimal digits `str(n)` produces read back as `n` |
| Strings.StripIsInfix | modules/document_generator.py:71 | `strip()` returns a slice `s[a..b]` of the line with only whitespace before `a` and after `b` |
| Strings.JoinSplit | modules/document_generator.py:68 | `split('\n')` loses nothing: joining the pieces with the separator gives the plan text back |
| Strings.SplitPiecesAreFree | modules/document_generator.py:68 | no line produced by `split('\n')` contains a newline |
| Dicts.PutSpec | modules/image_generator.py:173 | `d[k] = v` keeps keys unique and stores `v` under `k`; every other key keeps its value; a new key is appended and an existing key keeps its position |
| Dicts.PutAllKeyOrder | modules/image_generator.py:164-173 | after a series of assignments the keys are the assigned keys in order of first assignment, each once |
| Dicts.PutAllLastWins | modules/image_generator.py:164-173 | after a series of assignments, each key holds the value of its last assignment |
| Dicts.PutAllUnique | modules/image_generator.py:164-173 | a series of assignments gives a dictionary without duplicate keys and with at most one entry per assignment |
| Dicts.PutAllDistinct | modules/image_generator.py:164-173 | assignments to distinct keys give exactly those entries, in assignment order |
| Dicts.PutAllTwo | modules/image_generator.py:164-173 | two assignments with different keys give exactly those keys, in assignment order |
| DocumentGenerator.ThemeColor | modules/document_generator.py:28-34 | 'Corporate Blue' gives (0,0,128), 'Eco Green' (34,139,34), 'Vibrant Startup' (255,69,0); every other name gives black, each in both directions |
| DocumentGenerator.CoverImage | modules/document_generator.py:38 | the cover image comes from 'The Cover Page' when that key is present, else from 'Cover Page'; there is none exactly when both are absent |
| DocumentGenerator.MatchForMeaning | modules/document_generator.py:85-95 | under a level-1 heading, the picture is the first entry in iteration order whose lowered key is in the lowered heading and has no "cover"; there is none exactly when no key qualifies, and none from an empty dictionary |
| DocumentGenerator.MatchImage | modules/document_generator.py:85-95 | the scan over the dictionary, with its `continue` and `break`, stops at that first qualifying entry |
| DocumentGenerator.HeadingBlocks | modules/document_generator.py:76-95 | a level-1 heading appends the coloured heading and then at most one picture, the one chosen above |
| DocumentGenerator.LineBlocks | modules/document_generator.py:71-117 | the loop body appends exactly the blocks of the stripped line; the 3D-asset flag changes nothing |
| DocumentGenerator.AppendBody | modules/document_generator.py:70-117 | after the loop, the document is what it was followed by the blocks of every line, in line order |
| DocumentGenerator.AddCover | modules/document_generator.py:38-64 | the cover block is the cover picture if any, the spacer, the coloured title, the slogan and the page break; it fails exactly when the name or the slogan is empty |
| DocumentGenerator.GenerateDocx | modules/document_generator.py:7-123 | `generate_docx` produces the compiled document: the theme colour, the cover block, then the body of the plan's lines; an IndexError when the name or slogan is empty |
| DocumentGenerator.Compile | modules/document_generator.py:7-123 | the result of `generate_docx`: an IndexError when the name or slogan is empty, else the cover block and then the body of the plan's lines, in the theme colour. Its layout is stated by CompileLayout and CoverThenBody |
| DocumentGenerator.CompileLayout | modules/document_generator.py:28-117 | the result is an IndexError exactly when the name or slogan is empty; otherwise the document is the cover picture if any, then the spacer, the coloured title, the slogan and the page break, then a body in which every picture follows the level-1 heading it was chosen for |
| DocumentGenerator.BodyHasShape | modules/document_generator.py:70-117 | every body holds only headings, paragraphs and pictures; no text is empty; both heading levels carry the theme colour; a picture directly follows a level-1 heading exactly when a key selects one for it, so a level-2 heading never gets a picture |
| DocumentGenerator.ClassifyShape | modules/document_generator.py:75-117 | the blocks of one stripped line have that shape and never start with a picture |
| DocumentGenerator.BodyAppend | modules/document_generator.py:70-117 | each line is handled on its own: the body of a concatenated plan is the concatenation of the bodies |
| DocumentGenerator.BlankLineAddsNothing | modules/document_generator.py:71-73 | a blank or all-whitespace line adds no block |
| DocumentGenerator.Classify | modules/document_generator.py:72-117 | one stripped line: nothing when blank; after "# " a level-1 heading of the stripped rest, then its picture; after "## " a level-2 heading; otherwise a paragraph of the line. Its properties are stated by ClassifyShape and MarkersNeedTheSpace |
| DocumentGenerator.MarkersNeedTheSpace | modules/document_generator.py:75-117 | every stripped line that is "#" or "##" alone, has "#" or "##" followed by something other than a space, or starts with "###" becomes one paragraph holding the line verbatim |
| DocumentGenerator.RepeatedHeadingRepeatsPicture | modules/document_generator.py:85-95 | keys are not consumed: a repeated heading gets the same picture again |
| DocumentGenerator.NoImagesNoPictures | modules/document_generator.py:85-95 | with an empty image dictionary, the body holds no picture |
| ImageGenerator.FullPromptInjective | modules/image_generator.py:42 | with the style fixed, the composed request "High quality, professional business illustration. {prompt}. Style: {style}. 8k resolution, detailed." determines the prompt |
| ImageGenerator.ErrorCaption | modules/image_generator.py:67 | the error placeholder's caption is "[Image: Generation Error - ", then the first min(50, length) characters of the error text, then "...]", and its length is exactly the sum of the three |
| ImageGenerator.FirstInline | modules/image_generator.py:52-56 | gives the inline data of the first part that has some, and none exactly when no part has any |
| ImageGenerator.FirstInlinePart | modules/image_generator.py:52-56 | the `for part in response.parts` scan returns that first inline data |
| ImageGenerator.RenderImage | modules/image_generator.py:17-67 | `generate_business_image` for one reply of the image service. What it yields is stated by RenderOutcome |
| ImageGenerator.RenderOutcome | modules/image_generator.py:29-67 | a request is made exactly when there is a key and configuration succeeded. The image is a placeholder exactly when the key is missing, something raised, or the answer has no image data. Otherwise it is the first inline data, else the first listed image. Every caption starts with '[' and is bounded |
| ImageGenerator.GenerateBusinessImage | modules/image_generator.py:17-67 | `generate_business_image` renders exactly as above |
| ImageGenerator.Retry | modules/image_generator.py:120-134 | the outcome of the retry loop from a given attempt on. RetryMeaning states it in closed form |
| ImageGenerator.Backoff | modules/image_generator.py:125-128 | the sleeps of the retry loop from a given attempt on. RetryMeaning shows they are 2 and then 4 seconds |
| ImageGenerator.FirstSettled | modules/image_generator.py:120-134 | the first attempt, from a given one, that is not rate-limited, with every earlier one rate-limited |
| ImageGenerator.RetryMeaning | modules/image_generator.py:116-134 | the first attempt that is not rate-limited decides the outcome: an answer, or an error that is not a rate limit. Three rate limits in a row exhaust the quota. The loop never ends without an outcome. The waits are 2 and then 4 seconds, with no wait after the third attempt |
| ImageGenerator.RequestAnalysis | modules/image_generator.py:116-134 | the retry loop, with its `break`, `continue` and returns, yields that outcome and exactly those waits |
| ImageGenerator.StripFences | modules/image_generator.py:141-145 | the code-block clean-up: the text between the first "```json" and the next "```"; failing a "```json", the text between the first and second "```"; otherwise the text unchanged. The four lemmas below state what it yields |
| ImageGenerator.StripFencesPlain | modules/image_generator.py:142-145 | a reply without a code fence is passed on unchanged |
| ImageGenerator.StripJsonBlock | modules/image_generator.py:142-143 | a "```json" block gives exactly its contents when three things hold. Nothing before it contains "```json". The contents hold no "```" and do not end in a backtick. The closing fence does not form a new "```json" with the six characters after it |
| ImageGenerator.StripJsonSuffixMatters | modules/image_generator.py:142-143 | the condition on what follows is needed: "```json```" followed by "`json" yields "`", not the empty contents |
| ImageGenerator.StripBareBlock | modules/image_generator.py:144-145 | without "```json" anywhere, a bare "```" block gives exactly its contents. This holds when the text before the opening fence and the contents each hold no "```" and do not end in a backtick |
| ImageGenerator.FallbackPlan | modules/image_generator.py:151-157 | the plan used when the analysis fails: "The Cover Page" with "Professional business cover page, {style}", then "Financial Highlights" with "Financial growth chart, {style}". Its keys are stated by FallbackRunKeys |
| ImageGenerator.VisualItemsCases | modules/image_generator.py:112-160 | nothing is rendered when the quota runs out. An error that is not a rate limit, a reply without text, or text that does not parse gives the two-item fallback plan. Otherwise the parsed "visuals" list is used, empty when the key is missing |
| ImageGenerator.FallbackRunKeys | modules/image_generator.py:152-173 | the fallback plan renders exactly the sections "The Cover Page" and "Financial Highlights", in that order |
| ImageGenerator.FallbackKeys | modules/image_generator.py:133-173 | an analysis error that is not a rate limit leads to exactly those two keys |
| ImageGenerator.RenderLastWins | modules/image_generator.py:159-173 | each section name holds the image of its last item, so a later duplicate overwrites an earlier one. A missing name is "Section {index+1}". No name appears twice, and there is at most one entry per item |
| ImageGenerator.RenderKeyOrder | modules/image_generator.py:164-173 | the rendered dictionary lists each section name once, in the order the names first appear in the plan; a repeated name keeps its first position |
| ImageGenerator.RequestsBound | modules/image_generator.py:164-170 | at most one image request per item, and none without a key |
| ImageGenerator.ReportsCountUp | modules/image_generator.py:175-178 | one progress report per item, counting up, the last one reporting total of total |
| ImageGenerator.ChooseItems | modules/image_generator.py:136-160 | after the retry loop, the reply is cleaned and parsed, or the fallback plan is used, exactly as the case analysis above says |
| ImageGenerator.RenderItems | modules/image_generator.py:159-180 | the `for index, item in enumerate(items)` loop builds exactly the rendered dictionary, requests and progress reports |
| ImageGenerator.AnalyzeAndGenerateVisuals | modules/image_generator.py:69-180 | `analyze_and_generate_visuals` returns an empty dictionary without a key or when the quota runs out, and otherwise renders the chosen items; its sleeps are the retry waits |
| Session.SessionState.constructor | app.py:73-82 | a session that has just connected holds no keys |
| StateManager.SavedRecord | state_manager.py:10-15 | the record `save_session` writes: each of the four keys, or its default. SaveLoadRoundTrip states what loading it restores |
| StateManager.SaveSession | state_manager.py:7-20 | writes the four keys `messages`, `plan_generated`, `generated_plan_text` and `selected_model`, with defaults [], False, "" and "models/gemini-1.5-flash"; `generated_images` is not saved; a failed write is swallowed |
| StateManager.LoadSpec | state_manager.py:22-44 | with no file, or one that does not parse, returns False and changes nothing. Otherwise it overwrites exactly the keys present in the file, leaves the rest untouched, and returns True |
| StateManager.Restore | state_manager.py:29-37 | each of the four keys the file holds overwrites the session's value; the others stay. LoadSpec states this key by key |
| StateManager.LoadSession | state_manager.py:22-44 | `load_session` restores key by key, exactly as above |
| StateManager.ClearSpec | state_manager.py:54-58 | resets messages to [], the plan flag to False and the plan text to ""; keeps the selected model, the images and the style |
| StateManager.ClearSession | state_manager.py:46-58 | removes the file, or keeps it when removal fails (swallowed), and resets the session as above |
| StateManager.SaveLoadRoundTrip | state_manager.py:10-37 | save then load restores the four saved keys as they were at save time, defaults included, whatever happened in between; it returns True and touches nothing else |
| StateManager.SaveLoadRestores | state_manager.py:10-37 | when the four keys are set, save then load restores them exactly |
| StateManager.SaveAfterLoadIsStable | state_manager.py:10-37 | saving right after loading a saved file writes the same file |
| StateManager.SaveFaultOutcome | state_manager.py:16-20 | a failed save either leaves the old file or leaves one that loading rejects without changing anything |
| StateManager.ClearThenLoad | state_manager.py:24-58 | after a clear that removed the file, loading returns False and the cleared session stays |
| StateManager.ClearThenSave | state_manager.py:10-58 | saving after a clear writes an empty conversation with the model kept |
| StateManager.LoadTwice | state_manager.py:30-37 | loading the same file twice is the same as loading it once |
| App.InitSpec | app.py:73-82 | initialisation fills only missing keys: plan flag False, plan text "", images {}, and messages holding the one assistant greeting; present keys are kept |
| App.InitializeSession | app.py:73-82 | the initialisation block performs exactly that update |
| App.InitIdempotent | app.py:73-82 | initialising twice is initialising once; a new session starts with the greeting, no plan and no images |
| App.Window | app.py:178 | `messages[-10:]` is the last min(10, n) messages |
| App.RoleFor | app.py:179 | the role "user" stays "user", and every other role becomes "model" |
| App.BuildHistory | app.py:177-180 | the history sent is the last min(10, n) messages in order, each as its mapped role and content |
| App.OlderMessagesIgnored | app.py:178 | messages older than the latest ten never reach the chat model |
| App.HistoryEndsWithPrompt | app.py:157-180 | the prompt just submitted is the last entry of the history, with role "user" |
| App.ConcatAppend | app.py:185-187 | the streamed text of two runs of chunks is the first text followed by the second |
| App.CollectStream | app.py:185-188 | the streaming loop accumulates exactly the concatenation of the chunks |
| App.Reply | app.py:165-203 | the assistant's reply: "Please provide an API Key to chat." without a key, "I encountered an error: " and the error when the call raised, and the streamed text otherwise. ReplyCases states it |
| App.TurnSpec | app.py:155-206 | an empty submission changes nothing. Otherwise exactly two messages are appended: the user's, then the assistant's reply. The plan flag and text are set when the completed reply contains "BUSINESS PLAN GENERATED", and otherwise kept. Images, model and style are unchanged |
| App.HandleChatInput | app.py:155-206 | one submitted prompt updates the session exactly as above |
| App.ReplyCases | app.py:157-206 | the assistant message is "Please provide an API Key to chat." without a key and "I encountered an error: " followed by the error when something raised; otherwise it is the streamed text, and the earlier transcript is kept as a prefix |
| App.PlanFlagMonotone | app.py:193-196 | a turn never resets the plan flag, and a changed plan text always contains the marker |
| App.FailedTurnKeepsPlan | app.py:193-203 | without a key, or when the call raised, the plan flag and text are untouched |
| App.SimulatePlanGeneration | app.py:209-226 | sets the plan flag and installs the sample plan text, and changes nothing else |
| App.GenerateVisualAssets | app.py:237-259 | runs the visual pipeline in the session's style, defaulting to "Photorealistic", with progress reporting. It replaces the image map wholesale with the result, and the announced count is its size. Its sleeps are the retry waits: none without a key, and otherwise at most 2 and then 4 seconds |
| App.FailedGenerationEmptiesGallery | app.py:250-258 | without a key, or when the quota runs out, the image map becomes empty and earlier images are not kept |
| App.GalleryRows | app.py:267-276 | the gallery shows every image once, in map order, in rows of three with a shorter last row; there are ⌈n/3⌉ rows |

## Left out

- Strings.Lower: `lower()` is modelled for ASCII letters only. Unicode case mapping is not modelled.
- The analysis prompt is not modelled: its wording, the `plan_text[:10000]` excerpt and `model_name`. These only reach the text model, whose answers are given as inputs. For the same reason, the plan text read in "Generate Visual Assets" does not appear in the model.
- `genai.configure` at modules/image_generator.py:87 sits outside any `try`. Its raising, which would propagate out of `analyze_and_generate_visuals`, is not modelled.
- JSON values of unexpected shape are not modelled, because their effects depend on Python's dynamic typing:
  - top-level JSON that is not an object (`visual_plan.get` raises outside the `try`);
  - items that are not objects;
  - section names or prompts that are `null` or not strings.

  Items have optional string fields.
- The `if not response` guard is never reached: response objects are truthy and the loop never ends without one. RetryMeaning proves the second part.
- Inline image bytes that `Image.open` rejects are not modelled. The source would then give the error placeholder; the model treats every inline payload as a decoded image.
- `if image:` always holds: every rendering yields an image object or a placeholder.
- DocumentGenerator.Compile: python-docx raises ValueError for text with a character XML does not allow (a control character such as `\x01`) in `add_heading` or `add_paragraph`; the model turns such a line into an ordinary block, because python-docx's XML layer is not part of this model.
- The placeholder is its caption. Drawing it with PIL, PNG encoding, python-docx styling (sizes, bold, italics, alignment, picture widths) and saving to a stream are not modelled.
- StripJsonBlock and StripBareBlock: their conditions are sufficient, not necessary. For example, a "```json" block whose closing fence is followed by "json" still yields its contents, but StripJsonBlock does not cover that case. StripJsonSuffixMatters shows that some condition on the suffix is needed.
- DocumentGenerator.GenerateDocx: the `use_3d_assets` branch is `pass` in the source, so the flag is accepted and ignored.
- `time.sleep` is recorded as the list of requested waits. The progress fraction is the pair (done, total). Printing and logging are dropped.
- Streamlit is not modelled: widgets, chat display, spinners, progress bars, downloads, `st.stop`, `st.rerun`, page navigation and the Export page. Obtaining the API key from secrets or the sidebar is not modelled either; the key is a parameter.
- The chat model's configuration is not modelled: the model name, the system prompt and the display of partial replies. A chunk whose `text` raises counts as the call raising.
- App.HandleChatInput requires `messages` to be present. The script reads it unguarded, and the initialisation that runs first always sets it.
- Session-file values are assumed to have the types the application writes. A hand-edited file with, say, a number under "messages" is not modelled. A top-level JSON value that is not an object is treated as unreadable.
- The file system is not modelled beyond the file's presence and content: races on `os.path.exists`, and partial content that still parses.
- Theme, font and 3D-asset selections are not modelled. They are read only by the Export page, which is not part of this model.
