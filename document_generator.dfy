/** The plan-to-document compiler (`generate_docx`). The Word document is
    modelled as the sequence of elements appended to it, in order: a picture,
    the blank spacer paragraph, the coloured title, the slogan, a page break,
    level-1 and level-2 headings and plain paragraphs. */
module DocumentGenerator {
  import opened Base
  import opened Strings
  import opened Dicts

  type Byte = x: int | 0 <= x < 256

  datatype Rgb = Rgb(red: Byte, green: Byte, blue: Byte)

  const Black := Rgb(0, 0, 0)
  const Navy := Rgb(0, 0, 128)
  const ForestGreen := Rgb(34, 139, 34)
  const OrangeRed := Rgb(255, 69, 0)

  /** One block appended to the document. A picture remembers the dictionary
      key it was found under. */
  datatype Element =
    | Picture(key: string, image: Image)
    | Spacer
    | Title(text: string, color: Rgb)
    | Slogan(text: string)
    | PageBreak
    | H1(text: string, color: Rgb)
    | H2(text: string, color: Rgb)
    | Para(text: string)

  /** What `generate_docx` yields: the document, or the IndexError raised when
      the business name or the slogan is empty (python-docx gives a paragraph
      made from empty text no run, and the code styles `runs[0]`). */
  datatype Compiled = Document(elements: seq<Element>) | IndexError

  /** The heading colour of a theme: three named themes have their own colour
      and every other name, "Modern Minimalist (Black/White)" included, is black. */
  function ThemeColor(theme: string): (c: Rgb)
    ensures c == Navy <==> theme == "Corporate Blue"
    ensures c == ForestGreen <==> theme == "Eco Green"
    ensures c == OrangeRed <==> theme == "Vibrant Startup"
    ensures c == Black <==> theme != "Corporate Blue" && theme != "Eco Green" && theme != "Vibrant Startup"
  {
    if theme == "Corporate Blue" then Navy
    else if theme == "Eco Green" then ForestGreen
    else if theme == "Vibrant Startup" then OrangeRed
    else Black
  }

  /** `images.get('The Cover Page') or images.get('Cover Page')`, with the key
      that supplied the image. Every image value is truthy, so the second key is
      consulted only when the first is absent. */
  function CoverImage(images: Dict<Image>): (r: Option<(string, Image)>)
    ensures r.Some? ==> Get(images, r.value.0) == Some(r.value.1)
    ensures "The Cover Page" in Keys(images) ==> r.Some? && r.value.0 == "The Cover Page"
    ensures "The Cover Page" !in Keys(images) && "Cover Page" in Keys(images) ==>
              r.Some? && r.value.0 == "Cover Page"
    ensures r.None? <==> "The Cover Page" !in Keys(images) && "Cover Page" !in Keys(images)
  {
    match Get(images, "The Cover Page")
    case Some(img) => Some(("The Cover Page", img))
    case None =>
      match Get(images, "Cover Page")
      case Some(img) => Some(("Cover Page", img))
      case None => None
  }

  /** The cover block: the cover picture when there is one, then the spacer,
      the title in the heading colour, the slogan and a page break. */
  function CoverBlock(name: string, slogan: string, color: Rgb, images: Dict<Image>): seq<Element> {
    (match CoverImage(images)
     case Some(kv) => [Picture(kv.0, kv.1)]
     case None => [])
    + [Spacer, Title(name, color), Slogan(slogan), PageBreak]
  }

  /** A dictionary key selects the picture for a level-1 heading when its lower
      case is a substring of the heading's lower case and does not contain "cover". */
  predicate KeyMatches(key: string, heading: string) {
    Contains(Lower(heading), Lower(key)) && !Contains(Lower(key), "cover")
  }

  /** The position, at or after `from`, of the first key that selects a picture
      for `heading`, in the dictionary's iteration order. */
  function FirstMatchFrom(images: Dict<Image>, heading: string, from: nat): (r: Option<nat>)
    requires from <= |images|
    ensures r.Some? ==> from <= r.value < |images| && KeyMatches(images[r.value].0, heading)
    ensures r.Some? ==> forall j | from <= j < r.value :: !KeyMatches(images[j].0, heading)
    ensures r.None? ==> forall j | from <= j < |images| :: !KeyMatches(images[j].0, heading)
    decreases |images| - from
  {
    if from == |images| then None
    else if KeyMatches(images[from].0, heading) then Some(from)
    else FirstMatchFrom(images, heading, from + 1)
  }

  /** The dictionary entry whose picture goes under a level-1 heading, if any. */
  function MatchFor(images: Dict<Image>, heading: string): Option<(string, Image)> {
    match FirstMatchFrom(images, heading, 0)
    case None => None
    case Some(i) => Some(images[i])
  }

  /** The picture inserted under a level-1 heading: at most one. */
  function PictureFor(images: Dict<Image>, heading: string): seq<Element> {
    match MatchFor(images, heading)
    case None => []
    case Some(kv) => [Picture(kv.0, kv.1)]
  }

  /** The entry chosen for a heading is the first, in iteration order, whose key
      selects a picture for it, and there is none exactly when no key does. So
      the chosen key never names the cover, its lower case is part of the
      heading's lower case, and an empty dictionary supplies no picture. */
  lemma MatchForMeaning(images: Dict<Image>, heading: string)
    ensures MatchFor(images, heading).Some? <==> exists i | 0 <= i < |images| :: KeyMatches(images[i].0, heading)
    ensures MatchFor(images, heading).Some? ==>
              exists i | 0 <= i < |images| ::
                && images[i] == MatchFor(images, heading).value
                && KeyMatches(images[i].0, heading)
                && forall j | 0 <= j < i :: !KeyMatches(images[j].0, heading)
    ensures MatchFor(images, heading).Some? ==>
              && MatchFor(images, heading).value in images
              && !Contains(Lower(MatchFor(images, heading).value.0), "cover")
              && Contains(Lower(heading), Lower(MatchFor(images, heading).value.0))
    ensures images == [] ==> MatchFor(images, heading).None?
  {
    var f := FirstMatchFrom(images, heading, 0);
    if f.Some? {
      assert images[f.value] == MatchFor(images, heading).value;
    }
  }

  lemma MatchFound(images: Dict<Image>, heading: string, found: Option<nat>)
    requires found == FirstMatchFrom(images, heading, 0)
    ensures found.Some? ==> found.value < |images|
    ensures PictureFor(images, heading) ==
              if found.Some? then [Picture(images[found.value].0, images[found.value].1)] else []
  {
  }

  /** What one line of plan text adds to the document, once stripped: nothing
      for a blank line, a level-1 heading (and its picture) after "# ", a
      level-2 heading after "## ", and a paragraph otherwise. */
  function Classify(t: string, color: Rgb, images: Dict<Image>): seq<Element> {
    if t == "" then []
    else if StartsWith(t, "# ") then
      var text := Strip(t[2..]);
      [H1(text, color)] + PictureFor(images, text)
    else if StartsWith(t, "## ") then [H2(Strip(t[3..]), color)]
    else [Para(t)]
  }

  /** What one line of plan text adds to the document. */
  function LineElements(line: string, color: Rgb, images: Dict<Image>): seq<Element> {
    Classify(Strip(line), color, images)
  }

  /** What a run of plan lines adds to the document, in line order. */
  function Body(lines: seq<string>, color: Rgb, images: Dict<Image>): seq<Element>
    decreases |lines|
  {
    if |lines| == 0 then []
    else Body(lines[..|lines| - 1], color, images) + LineElements(lines[|lines| - 1], color, images)
  }

  /** The compiled document for the given inputs. */
  function Compile(name: string, slogan: string, planText: string, theme: string, images: Dict<Image>): Compiled {
    if name == "" || slogan == "" then IndexError
    else
      var color := ThemeColor(theme);
      Document(CoverBlock(name, slogan, color, images) + Body(Split(planText, "\n"), color, images))
  }

  /** The inner scan of `generate_docx`: walk the dictionary in order and stop at
      the first key that selects a picture for the heading. */
  method MatchImage(images: Dict<Image>, heading: string) returns (found: Option<nat>)
    ensures found == FirstMatchFrom(images, heading, 0)
  {
    found := None;
    var i := 0;
    while i < |images|
      invariant 0 <= i <= |images|
      invariant forall j | 0 <= j < i :: !KeyMatches(images[j].0, heading)
    {
      var sectionKey := images[i].0;
      if Contains(Lower(heading), Lower(sectionKey)) {
        if !Contains(Lower(sectionKey), "cover") {
          found := Some(i);
          break;
        }
      }
      i := i + 1;
    }
  }

  lemma BodyStep(front: seq<Element>, lines: seq<string>, n: nat, color: Rgb, images: Dict<Image>)
    requires n < |lines|
    ensures front + Body(lines[..n + 1], color, images) ==
              front + Body(lines[..n], color, images) + LineElements(lines[n], color, images)
  {
    var p := lines[..n + 1];
    assert p[..n] == lines[..n];
    assert p[n] == lines[n];
    assert Body(p, color, images) == Body(lines[..n], color, images) + LineElements(lines[n], color, images);
    Associative(front, Body(lines[..n], color, images), LineElements(lines[n], color, images));
  }

  lemma BodyWhole(lines: seq<string>, color: Rgb, images: Dict<Image>)
    ensures Body(lines[..|lines|], color, images) == Body(lines, color, images)
  {
    assert lines[..|lines|] == lines;
  }

  lemma LineIsBlank(line: string, color: Rgb, images: Dict<Image>)
    requires AllSpace(line)
    ensures LineElements(line, color, images) == []
  {
  }

  /** The `# ` branch of `generate_docx`: the level-1 heading in the heading
      colour, then the picture of the first dictionary entry whose key selects
      one for that heading, if any. */
  method HeadingBlocks(text: string, headingColor: Rgb, generatedImages: Dict<Image>) returns (added: seq<Element>)
    ensures added == [H1(text, headingColor)] + PictureFor(generatedImages, text)
  {
    added := [H1(text, headingColor)];
    var found := MatchImage(generatedImages, text);
    MatchFound(generatedImages, text, found);
    if found.Some? {
      added := added + [Picture(generatedImages[found.value].0, generatedImages[found.value].1)];
    }
  }

  /** The body of the `for line in lines` loop of `generate_docx`: the blocks
      one line of plan text appends. */
  method LineBlocks(rawLine: string, headingColor: Rgb, generatedImages: Dict<Image>, use3dAssets: bool)
    returns (added: seq<Element>)
    ensures added == LineElements(rawLine, headingColor, generatedImages)
  {
    added := [];
    var line := Strip(rawLine);
    if line == "" {
      return;
    }
    if StartsWith(line, "# ") {
      var text := Strip(line[2..]);
      added := HeadingBlocks(text, headingColor, generatedImages);
      // The 3D-asset branch that follows in the source adds nothing to the document.
    } else if StartsWith(line, "## ") {
      var text := Strip(line[3..]);
      added := added + [H2(text, headingColor)];
    } else {
      added := added + [Para(line)];
    }
  }

  /** The `for line in lines` loop of `generate_docx`: every line appends its blocks. */
  method AppendBody(front: seq<Element>, lines: seq<string>, headingColor: Rgb, generatedImages: Dict<Image>,
                    use3dAssets: bool) returns (doc: seq<Element>)
    ensures doc == front + Body(lines, headingColor, generatedImages)
  {
    doc := front;
    for n := 0 to |lines|
      invariant doc == front + Body(lines[..n], headingColor, generatedImages)
    {
      BodyStep(front, lines, n, headingColor, generatedImages);
      var added := LineBlocks(lines[n], headingColor, generatedImages, use3dAssets);
      doc := doc + added;
    }
    BodyWhole(lines, headingColor, generatedImages);
  }

  /** The cover page of `generate_docx`: the cover picture, the spacer, the
      title, the slogan and the page break, or failure when styling the first
      run of an empty title or slogan raises. */
  method AddCover(businessName: string, slogan: string, headingColor: Rgb, generatedImages: Dict<Image>)
    returns (doc: seq<Element>, failed: bool)
    ensures failed <==> businessName == "" || slogan == ""
    ensures !failed ==> doc == CoverBlock(businessName, slogan, headingColor, generatedImages)
  {
    doc := [];
    var cover := CoverImage(generatedImages);
    if cover.Some? {
      doc := doc + [Picture(cover.value.0, cover.value.1)];
    }
    var picture := doc;
    doc := doc + [Spacer];
    if businessName == "" {
      return doc, true;
    }
    doc := doc + [Title(businessName, headingColor)];
    if slogan == "" {
      return doc, true;
    }
    doc := doc + [Slogan(slogan)];
    doc := doc + [PageBreak];
    assert doc == picture + [Spacer, Title(businessName, headingColor), Slogan(slogan), PageBreak];
    return doc, false;
  }

  /** `generate_docx`: resolve the theme colour, emit the cover block, then
      classify each stripped line of the plan text. `use3dAssets` is accepted
      and has no effect: its branch in the source is empty. */
  method GenerateDocx(businessName: string, slogan: string, planText: string, themeColor: string,
                      generatedImages: Dict<Image>, use3dAssets: bool) returns (result: Compiled)
    ensures result == Compile(businessName, slogan, planText, themeColor, generatedImages)
  {
    var headingColor := Black;
    if themeColor == "Corporate Blue" {
      headingColor := Navy;
    } else if themeColor == "Eco Green" {
      headingColor := ForestGreen;
    } else if themeColor == "Vibrant Startup" {
      headingColor := OrangeRed;
    }

    assert headingColor == ThemeColor(themeColor);
    var doc, failed := AddCover(businessName, slogan, headingColor, generatedImages);
    if failed {
      return IndexError;
    }
    var lines := Split(planText, "\n");
    doc := AppendBody(doc, lines, headingColor, generatedImages, use3dAssets);
    result := Document(doc);
  }

  /** The shape of every body: only headings, paragraphs and pictures; headings
      in the theme colour and never empty; paragraphs never empty; each picture
      right after the level-1 heading it was chosen for; and a level-1 heading
      followed by a picture exactly when some key selects one for it. */
  predicate BodyShape(es: seq<Element>, color: Rgb, images: Dict<Image>) {
    && (forall k | 0 <= k < |es| :: es[k].H1? || es[k].H2? || es[k].Para? || es[k].Picture?)
    && (forall k | 0 <= k < |es| :: (es[k].H1? || es[k].H2?) ==> es[k].color == color && es[k].text != "")
    && (forall k | 0 <= k < |es| :: es[k].Para? ==> es[k].text != "")
    && (forall k | 0 <= k < |es| :: es[k].Picture? ==>
          0 < k && es[k - 1].H1? && MatchFor(images, es[k - 1].text) == Some((es[k].key, es[k].image)))
    && (forall k | 0 <= k < |es| :: es[k].H1? ==>
          (PictureAfter(es, k) <==> MatchFor(images, es[k].text).Some?))
  }

  /** The element after position `k` is a picture. */
  predicate PictureAfter(es: seq<Element>, k: nat) {
    k + 1 < |es| && es[k + 1].Picture?
  }

  /** Two bodies side by side keep the shape when the second does not open with a picture. */
  lemma ShapeConcat(a: seq<Element>, b: seq<Element>, color: Rgb, images: Dict<Image>)
    requires BodyShape(a, color, images) && BodyShape(b, color, images)
    requires |b| > 0 ==> !b[0].Picture?
    ensures BodyShape(a + b, color, images)
  {
    var ab := a + b;
    forall k | 0 <= k < |ab| && ab[k].Picture?
      ensures 0 < k && ab[k - 1].H1? && MatchFor(images, ab[k - 1].text) == Some((ab[k].key, ab[k].image))
    {
      if k < |a| {
        assert ab[k] == a[k] && ab[k - 1] == a[k - 1];
      } else {
        assert ab[k] == b[k - |a|];
        assert k - |a| > 0;
        assert ab[k - 1] == b[k - |a| - 1];
      }
    }
    forall k | 0 <= k < |ab| && ab[k].H1?
      ensures PictureAfter(ab, k) <==> MatchFor(images, ab[k].text).Some?
    {
      if k + 1 < |a| {
        assert ab[k] == a[k] && ab[k + 1] == a[k + 1];
      } else if k + 1 == |a| {
        assert ab[k] == a[k] && a[k].H1?;
        assert MatchFor(images, a[k].text).None?;
        assert k + 1 < |ab| ==> ab[k + 1] == b[0];
      } else {
        var j := k - |a|;
        assert ab[k] == b[j] && b[j].H1?;
        assert k + 1 < |ab| ==> ab[k + 1] == b[j + 1];
      }
    }
  }

  /** The heading text after a marker is never empty: the stripped line ends
      with a character that is not whitespace, and it lies after the marker. */
  lemma MarkerTextNotEmpty(t: string, n: nat)
    requires t != "" && !IsSpace(t[|t| - 1])
    requires 0 < n <= |t| && IsSpace(t[n - 1])
    ensures Strip(t[n..]) != ""
  {
    assert t[n..][|t| - 1 - n] == t[|t| - 1];
  }

  /** A level-1 heading and its picture have the body's shape. */
  lemma HeadingShape(text: string, color: Rgb, images: Dict<Image>)
    requires text != ""
    ensures BodyShape([H1(text, color)] + PictureFor(images, text), color, images)
  {
    var es := [H1(text, color)] + PictureFor(images, text);
    assert es[0] == H1(text, color);
    assert PictureAfter(es, 0) <==> MatchFor(images, text).Some?;
  }

  /** A paragraph or a level-2 heading on its own has the body's shape. */
  lemma SingleShape(e: Element, color: Rgb, images: Dict<Image>)
    requires (e.H2? && e.color == color && e.text != "") || (e.Para? && e.text != "")
    ensures BodyShape([e], color, images)
  {
  }

  /** The blocks of one stripped line have the body's shape and never open with a picture. */
  lemma {:induction false} ClassifyShape(t: string, color: Rgb, images: Dict<Image>)
    requires t == "" || !IsSpace(t[|t| - 1])
    ensures BodyShape(Classify(t, color, images), color, images)
    ensures |Classify(t, color, images)| > 0 ==> !Classify(t, color, images)[0].Picture?
  {
    if t == "" {
    } else if StartsWith(t, "# ") {
      assert t[1] == ' ';
      MarkerTextNotEmpty(t, 2);
      HeadingShape(Strip(t[2..]), color, images);
    } else if StartsWith(t, "## ") {
      assert t[2] == ' ';
      MarkerTextNotEmpty(t, 3);
      SingleShape(H2(Strip(t[3..]), color), color, images);
    } else {
      SingleShape(Para(t), color, images);
    }
  }

  /** The blocks of one line have the body's shape and never open with a picture. */
  lemma {:induction false} LineShape(line: string, color: Rgb, images: Dict<Image>)
    ensures BodyShape(LineElements(line, color, images), color, images)
    ensures |LineElements(line, color, images)| > 0 ==> !LineElements(line, color, images)[0].Picture?
  {
    StrippedEnds(line);
    ClassifyShape(Strip(line), color, images);
  }

  lemma StrippedEnds(line: string)
    ensures Strip(line) == "" || !IsSpace(Strip(line)[|Strip(line)| - 1])
  {
  }

  /** Every body, whatever the plan text, has the shape above. */
  lemma {:induction false} BodyHasShape(lines: seq<string>, color: Rgb, images: Dict<Image>)
    ensures BodyShape(Body(lines, color, images), color, images)
    ensures |Body(lines, color, images)| > 0 ==> !Body(lines, color, images)[0].Picture?
    decreases |lines|
  {
    if |lines| > 0 {
      var init := lines[..|lines| - 1];
      BodyHasShape(init, color, images);
      LineShape(lines[|lines| - 1], color, images);
      ShapeConcat(Body(init, color, images), LineElements(lines[|lines| - 1], color, images), color, images);
    }
  }

  /** One more line appends its blocks. */
  lemma BodySnoc(lines: seq<string>, last: string, color: Rgb, images: Dict<Image>)
    ensures Body(lines + [last], color, images) == Body(lines, color, images) + LineElements(last, color, images)
  {
    var xs := lines + [last];
    assert xs[..|xs| - 1] == lines;
    assert xs[|xs| - 1] == last;
  }

  /** The body of a longer plan is the body of its first part followed by the
      body of the rest: the lines are handled one at a time and independently. */
  lemma {:induction false} BodyAppend(a: seq<string>, b: seq<string>, color: Rgb, images: Dict<Image>)
    ensures Body(a + b, color, images) == Body(a, color, images) + Body(b, color, images)
    decreases |b|
  {
    if |b| == 0 {
      assert a + b == a;
    } else {
      var init, last := b[..|b| - 1], b[|b| - 1];
      assert b == init + [last];
      assert a + b == (a + init) + [last];
      BodyAppend(a, init, color, images);
      BodySnoc(a + init, last, color, images);
      BodySnoc(init, last, color, images);
      Associative(Body(a, color, images), Body(init, color, images), LineElements(last, color, images));
    }
  }

  lemma Associative(x: seq<Element>, y: seq<Element>, z: seq<Element>)
    ensures (x + y) + z == x + (y + z)
  {
  }

  /** A blank or all-whitespace line adds nothing to the document. */
  lemma BlankLineAddsNothing(lines: seq<string>, blank: string, color: Rgb, images: Dict<Image>)
    requires AllSpace(blank)
    ensures Body(lines + [blank], color, images) == Body(lines, color, images)
  {
    BodyAppend(lines, [blank], color, images);
    assert [blank][..0] == [];
    LineIsBlank(blank, color, images);
  }

  /** Keys are not used up: a heading repeated later in the plan gets the same
      picture again. */
  lemma RepeatedHeadingRepeatsPicture(lines: seq<string>, heading: string, color: Rgb, images: Dict<Image>)
    ensures Body(lines + [heading, heading], color, images) ==
              Body(lines, color, images) + LineElements(heading, color, images) + LineElements(heading, color, images)
  {
    assert lines + [heading, heading] == (lines + [heading]) + [heading];
    BodySnoc(lines + [heading], heading, color, images);
    BodySnoc(lines, heading, color, images);
  }

  /** A line that carries a "#" marker without the space that should follow
      it: "#" or "##" alone, "#" or "##" followed by something other than a
      space, or a marker of three or more. */
  predicate MalformedMarker(t: string) {
    || t == "#" || t == "##"
    || (|t| >= 2 && t[0] == '#' && t[1] != ' ' && t[1] != '#')
    || (|t| >= 3 && t[0] == '#' && t[1] == '#' && t[2] != ' ')
    || StartsWith(t, "###")
  }

  /** Only "# " and "## " open a heading: a stripped line with a malformed
      marker is kept whole as a paragraph. */
  lemma MarkersNeedTheSpace(t: string, color: Rgb, images: Dict<Image>)
    requires MalformedMarker(t)
    ensures Classify(t, color, images) == [Para(t)]
  {
    MalformedIsNoHeading(t);
  }

  lemma MalformedIsNoHeading(t: string)
    requires MalformedMarker(t)
    ensures t != "" && !StartsWith(t, "# ") && !StartsWith(t, "## ")
  {
    if |t| >= 2 {
      assert t[..2][1] == t[1];
      if |t| >= 3 {
        assert t[..3][1] == t[1] && t[..3][2] == t[2];
      }
    }
    if StartsWith(t, "###") {
      assert t[1] == "###"[1] && t[2] == "###"[2];
    }
  }

  /** With no generated images the body holds no picture. */
  lemma NoImagesNoPictures(lines: seq<string>, color: Rgb)
    ensures forall k | 0 <= k < |Body(lines, color, [])| :: !Body(lines, color, [])[k].Picture?
  {
    var es := Body(lines, color, []);
    BodyHasShape(lines, color, []);
    forall k | 0 <= k < |es| ensures !es[k].Picture? {
      if es[k].Picture? {
        MatchForMeaning([], es[k - 1].text);
      }
    }
  }

  /** The layout of a compiled document: the cover picture when an image is
      stored under "The Cover Page" or "Cover Page", the spacer, the title in
      the heading colour, the slogan and a page break, then a body of the shape
      above that does not open with a picture. */
  predicate Layout(es: seq<Element>, name: string, slogan: string, color: Rgb, images: Dict<Image>) {
    var cover := CoverImage(images);
    var p := if cover.Some? then 1 else 0;
    && |es| >= p + 4
    && (cover.Some? ==> es[0] == Picture(cover.value.0, cover.value.1))
    && es[p] == Spacer
    && es[p + 1] == Title(name, color)
    && es[p + 2] == Slogan(slogan)
    && es[p + 3] == PageBreak
    && BodyShape(es[p + 4..], color, images)
    && (|es| > p + 4 ==> !es[p + 4].Picture?)
  }

  lemma CoverThenBody(name: string, slogan: string, color: Rgb, images: Dict<Image>, body: seq<Element>)
    requires BodyShape(body, color, images) && (|body| > 0 ==> !body[0].Picture?)
    ensures Layout(CoverBlock(name, slogan, color, images) + body, name, slogan, color, images)
  {
    var front := CoverBlock(name, slogan, color, images);
    assert (front + body)[|front|..] == body;
  }

  /** The compiled document is an IndexError exactly when the name or the
      slogan is empty, and has the layout above otherwise. */
  lemma CompileLayout(name: string, slogan: string, planText: string, theme: string, images: Dict<Image>)
    ensures Compile(name, slogan, planText, theme, images).IndexError? <==> name == "" || slogan == ""
    ensures Compile(name, slogan, planText, theme, images).Document? ==>
              Layout(Compile(name, slogan, planText, theme, images).elements, name, slogan, ThemeColor(theme), images)
  {
    if name != "" && slogan != "" {
      var color := ThemeColor(theme);
      var lines := Split(planText, "\n");
      BodyHasShape(lines, color, images);
      CoverThenBody(name, slogan, color, images, Body(lines, color, images));
    }
  }
}
