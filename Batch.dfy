/**
 * The batch driver: the caption file's non-blank lines become the captions,
 * image `i` is paired with caption `i` for as long as both lists last, each
 * pair is laid out and named `output_<i + 1>.png`, and a warning is shown
 * when there are fewer captions than images.
 *
 * Opening and saving images, the file dialogs and the message boxes are not
 * modelled: an image is given by its path and its pixel size, a caption file
 * by its lines, and the dialogs' answers by the inputs of `Run`.
 */
module BatchDriver {
  import opened Options
  import opened PyText
  import opened LineWrapper
  import opened CaptionLayout

  /** An input image: its path and its pixel size. */
  datatype Image = Image(path: string, width: nat, height: nat)

  /** The two fonts, each loaded at a given size: the main font for Hangul
      and Latin text, and the font used for CJK ideographs. */
  datatype Fonts = Fonts(mainAt: int -> Font, cjkAt: int -> Font)

  /** `image.width * 0.9`, as it is used: a whole pixel width `w` is within
      it exactly when `w <= MaxLineWidth(width)`. */
  function MaxLineWidth(width: nat): (m: int)
    ensures 10 * m <= 9 * width < 10 * m + 10
  {
    (9 * width) / 10
  }

  /** `int(image.height * 0.04)`: four percent of the height, rounded down. */
  function FontSize(height: nat): (s: int)
    ensures 100 * s <= 4 * height < 100 * s + 100
  {
    (4 * height) / 100
  }

  /** One saved image: its file name, what it was made from, and its layout. */
  datatype Output = Output(name: string, image: Image, caption: string,
                           plan: Plan, drawn: seq<Placement>)

  /** What a run of the tool ends with. */
  datatype Outcome =
    | NoImagesSelected
    | NoTextFileSelected
    | Completed(warned: bool, outputs: seq<Output>)

  function Min(a: int, b: int): int {
    if a <= b then a else b
  }

  // ----- Captions (line 138) -----

  /** `[line.strip() for line in lines if line.strip()]`. */
  function Captions(raw: seq<string>): (cs: seq<string>)
    ensures |cs| <= |raw|
    ensures forall i :: 0 <= i < |cs| ==> cs[i] != [] && !IsSpace(cs[i][0]) && !IsSpace(cs[i][|cs[i]| - 1])
  {
    if raw == [] then []
    else
      var s := Strip(raw[0]);
      (if s == [] then [] else [s]) + Captions(raw[1..])
  }

  /** Filtering goes line by line: it distributes over concatenation, ... */
  lemma {:induction false} CaptionsAppend(a: seq<string>, b: seq<string>)
    ensures Captions(a + b) == Captions(a) + Captions(b)
    decreases |a|
  {
    if a != [] {
      assert (a + b)[0] == a[0];
      assert (a + b)[1..] == a[1..] + b;
      CaptionsAppend(a[1..], b);
      var s := Strip(a[0]);
      var head := if s == [] then [] else [s];
      assert Captions(a + b) == head + Captions(a[1..] + b);
      assert Captions(a) == head + Captions(a[1..]);
    } else {
      assert a + b == b;
    }
  }

  /** ... and a single line is kept, stripped, exactly when it is not blank. */
  lemma CaptionsOfLine(line: string)
    ensures Captions([line]) == if AllSpace(line) then [] else [Strip(line)]
  {
    assert [line][1..] == [];
  }

  /** Every caption has at least one word, so it wraps to at least one line
      and the banner of a saved image always holds text. */
  lemma CaptionsHaveLines(raw: seq<string>, width: string -> int, maxWidth: int)
    ensures forall c :: c in Captions(raw) ==> Wrap(width, c, maxWidth) != []
  {
    forall c | c in Captions(raw) ensures Wrap(width, c, maxWidth) != [] {
      WrapSize(width, c, maxWidth);
    }
  }

  /** Blank lines are dropped before indexing: a file holding a word, a
      blank line and another word gives two captions, the second word being
      caption 1, not caption 2. */
  lemma BlankLineDropped(w1: string, blank: string, w2: string)
    requires IsWord(w1) && AllSpace(blank) && IsWord(w2)
    ensures Captions([w1 + "\n", blank, w2 + "\n"]) == [w1, w2]
  {
    CaptionOfWordLine(w1);
    BlankLineCaption(blank);
    CaptionOfWordLine(w2);
    MiddleLineDropped(w1 + "\n", blank, w2 + "\n", w1, w2);
  }

  /** A blank line gives no caption. */
  lemma BlankLineCaption(blank: string)
    requires AllSpace(blank)
    ensures Captions([blank]) == []
  {
    CaptionsOfLine(blank);
  }

  /** Of three lines, the middle one giving no caption, the captions are
      those of the first and the last. */
  lemma MiddleLineDropped(x: string, y: string, z: string, cx: string, cz: string)
    requires Captions([x]) == [cx] && Captions([y]) == [] && Captions([z]) == [cz]
    ensures Captions([x, y, z]) == [cx, cz]
  {
    ThreeLines(x, y, z);
  }

  /** A three-line file is filtered line by line. */
  lemma ThreeLines(x: string, y: string, z: string)
    ensures Captions([x, y, z]) == Captions([x]) + Captions([y]) + Captions([z])
  {
    assert [x, y, z] == [x] + [y] + [z];
    CaptionsOfThree([x], [y], [z]);
  }

  /** Filtering three pieces of a file is filtering each piece. */
  lemma CaptionsOfThree(a: seq<string>, b: seq<string>, c: seq<string>)
    ensures Captions(a + b + c) == Captions(a) + Captions(b) + Captions(c)
  {
    CaptionsAppend(a + b, c);
    CaptionsAppend(a, b);
  }

  /** A line holding one word and its line feed is kept as that word. */
  lemma CaptionOfWordLine(w: string)
    requires IsWord(w)
    ensures Captions([w + "\n"]) == [w]
  {
    var l := w + "\n";
    StripExample(w);
    assert !AllSpace(l) by {
      assert l[0] == w[0];
    }
    CaptionsOfLine(l);
  }

  /** A word followed by a line feed strips to the word. */
  lemma StripExample(w: string)
    requires IsWord(w)
    ensures Strip(w + "\n") == w
  {
    var s := w + "\n";
    assert LeadingSpaces(s) == 0 by {
      assert s[0] == w[0];
    }
    assert s[0..] == s;
    assert s[..|s| - 1] == w;
    assert TrailingSpaces(w) == 0 by {
      assert !IsSpace(w[|w| - 1]);
    }
    assert TrailingSpaces(s) == 1;
  }

  // ----- Output names (line 114) -----

  /** The character of a decimal digit. */
  function Digit(d: nat): char
    requires d < 10
  {
    ('0' as int + d) as char
  }

  predicate IsDigit(c: char) {
    '0' <= c <= '9'
  }

  /** `str(n)` for a natural number: its decimal digits, without leading zeros. */
  function DecimalString(n: nat): (s: string)
    ensures s != [] && forall k :: 0 <= k < |s| ==> IsDigit(s[k])
    ensures |s| > 1 ==> s[0] != '0'
    decreases n
  {
    if n < 10 then [Digit(n)] else DecimalString(n / 10) + [Digit(n % 10)]
  }

  /** The number a string of decimal digits denotes. */
  function DecimalValue(s: string): nat
    requires forall k :: 0 <= k < |s| ==> IsDigit(s[k])
  {
    if s == [] then 0
    else
      assert IsDigit(s[|s| - 1]);
      DecimalValue(s[..|s| - 1]) * 10 + (s[|s| - 1] as int - '0' as int)
  }

  /** Reading back the decimal string of `n` gives `n`. */
  lemma {:induction false} DecimalRoundTrip(n: nat)
    ensures DecimalValue(DecimalString(n)) == n
    decreases n
  {
    if n >= 10 {
      var s := DecimalString(n);
      DecimalRoundTrip(n / 10);
      assert s[..|s| - 1] == DecimalString(n / 10);
    }
  }

  /** `f"output_{i+1}.png"`. */
  function OutputName(i: nat): string {
    "output_" + DecimalString(i + 1) + ".png"
  }

  /** The name of output `i` is "output_", then a decimal number, then ".png",
      and the number is `i + 1`: outputs are numbered from one. */
  lemma OutputNameParts(i: nat)
    ensures var name := OutputName(i);
      && |name| > 11
      && name[..7] == "output_" && name[|name| - 4..] == ".png"
      && (forall k :: 7 <= k < |name| - 4 ==> IsDigit(name[k]))
      && DecimalValue(name[7..|name| - 4]) == i + 1
  {
    var name := OutputName(i);
    assert name[7..|name| - 4] == DecimalString(i + 1);
    DecimalRoundTrip(i + 1);
  }

  /** Different outputs never share a file name. */
  lemma OutputNamesDistinct(i: nat, j: nat)
    ensures OutputName(i) == OutputName(j) <==> i == j
  {
    OutputNameParts(i);
    OutputNameParts(j);
  }

  // ----- The loop of `add_text_to_images` (lines 64-115) -----

  /** What the loop body produces for image `i` and its caption. */
  function RenderOutput(fonts: Fonts, image: Image, caption: string, i: nat): Output {
    var fontSize := FontSize(image.height);
    var main := fonts.mainAt(fontSize);
    var plan := MakePlan(main, caption, fontSize, MaxLineWidth(image.width), image.width, image.height);
    Output(OutputName(i), image, caption, plan,
           Placements(main, fonts.cjkAt(fontSize), image.width, plan, |plan.lines|))
  }

  /** A caption taken from the file always gives at least one line, so the
      banner of every saved image holds text and its height is never the
      degenerate one of an empty line list. */
  lemma RenderedCaptionHasLines(fonts: Fonts, image: Image, raw: seq<string>, i: nat)
    requires i < |Captions(raw)|
    ensures |RenderOutput(fonts, image, Captions(raw)[i], i).plan.lines| > 0
  {
    var fontSize := FontSize(image.height);
    var main := fonts.mainAt(fontSize);
    CaptionsHaveLines(raw, main.right, MaxLineWidth(image.width));
    assert Captions(raw)[i] in Captions(raw);
  }

  /** `add_text_to_images`: walk the images in order, stop at the first one
      without a caption, lay each pair out and name it by its position. */
  method AddTextToImages(fonts: Fonts, images: seq<Image>, captions: seq<string>)
    returns (outputs: seq<Output>)
    ensures outputs == ExpectedOutputs(fonts, images, captions)
  {
    ghost var expected := ExpectedOutputs(fonts, images, captions);
    outputs := [];
    for i := 0 to |images|
      invariant i <= |captions|
      invariant outputs == expected[..i]
    {
      if i >= |captions| {
        break;
      }
      var output := RenderImage(fonts, images[i], captions[i], i);
      ExpectedStep(fonts, images, captions, i);
      outputs := outputs + [output];
    }
  }

  /** The outputs the batch is meant to produce: one for each position that
      has both an image and a caption. */
  function ExpectedOutputs(fonts: Fonts, images: seq<Image>, captions: seq<string>): seq<Output> {
    seq(Min(|images|, |captions|), k requires 0 <= k < Min(|images|, |captions|) =>
      RenderOutput(fonts, images[k], captions[k], k))
  }

  /** The expected outputs up to `i + 1` are those up to `i` and output `i`. */
  lemma ExpectedStep(fonts: Fonts, images: seq<Image>, captions: seq<string>, i: nat)
    requires i < |images| && i < |captions|
    ensures ExpectedOutputs(fonts, images, captions)[..i + 1]
      == ExpectedOutputs(fonts, images, captions)[..i] + [RenderOutput(fonts, images[i], captions[i], i)]
  {
    var e := ExpectedOutputs(fonts, images, captions);
    TakeSnoc(e, i);
  }

  lemma TakeSnoc<T>(xs: seq<T>, i: nat)
    requires i < |xs|
    ensures xs[..i + 1] == xs[..i] + [xs[i]]
  {
  }

  /** There are `min(#images, #captions)` outputs, and output `i` is image `i`
      with caption `i`, laid out and named `output_<i + 1>.png`. */
  lemma ExpectedOutputsShape(fonts: Fonts, images: seq<Image>, captions: seq<string>)
    ensures var e := ExpectedOutputs(fonts, images, captions);
      && |e| == Min(|images|, |captions|)
      && |e| <= |images| && |e| <= |captions|
      && (|e| < |images| <==> |captions| < |images|)
      && forall i :: 0 <= i < |e| ==> RenderedAt(fonts, images, captions, e, i)
  {
  }

  /** Output `k` pairs image `k` with caption `k`, laid out and named for position `k`. */
  predicate RenderedAt(fonts: Fonts, images: seq<Image>, captions: seq<string>, outputs: seq<Output>, k: int)
    requires 0 <= k < |outputs| && k < |images| && k < |captions|
  {
    outputs[k] == RenderOutput(fonts, images[k], captions[k], k)
  }

  /** One pass of the loop body (lines 68-115): size the fonts after the
      image, lay the caption out and name the result after its position. */
  method RenderImage(fonts: Fonts, image: Image, caption: string, i: nat) returns (output: Output)
    ensures output == RenderOutput(fonts, image, caption, i)
  {
    var maxWidth := MaxLineWidth(image.width);
    var fontSize := FontSize(image.height);
    var main := fonts.mainAt(fontSize);
    var cjk := fonts.cjkAt(fontSize);
    var plan, drawn := AddTextToImage(main, cjk, image.width, image.height, fontSize, maxWidth, caption);
    output := Output(OutputName(i), image, caption, plan, drawn);
  }

  /** The script's top level (lines 119-147): no images ends with an error,
      then no caption file ends with an error; otherwise the non-blank lines
      are the captions, a warning is raised when they are fewer than the
      images, and the batch runs. */
  method Run(fonts: Fonts, images: seq<Image>, textFile: Option<seq<string>>)
    returns (outcome: Outcome)
    ensures images == [] ==> outcome == NoImagesSelected
    ensures images != [] && textFile.None? ==> outcome == NoTextFileSelected
    ensures images != [] && textFile.Some? ==>
      && outcome.Completed?
      && outcome.warned == (|Captions(textFile.value)| < |images|)
      && outcome.outputs == ExpectedOutputs(fonts, images, Captions(textFile.value))
    ensures outcome.Completed? ==> (outcome.warned <==> |outcome.outputs| < |images|)
  {
    if images == [] {
      return NoImagesSelected;
    }
    if textFile.None? {
      return NoTextFileSelected;
    }
    var captions := Captions(textFile.value);
    var warned := |captions| < |images|;
    var outputs := AddTextToImages(fonts, images, captions);
    ExpectedOutputsShape(fonts, images, captions);
    outcome := Completed(warned, outputs);
  }
}
