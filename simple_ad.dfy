/** The single-advertisement generator page: the prompt it builds from the
    form, its style tables, the description counter, the re-entrancy flag of
    a generation and the name of the downloaded image. The image service is
    a parameter: its answer is passed to `CompleteGeneration`. */
module SimpleAd {
  import opened Wrappers
  import opened Text

  /** The form values after trimming; the style comes from a select box. */
  datatype AdForm = AdForm(productName: string, productDescription: string,
                           targetAudience: string, brandColors: string, adStyle: string)

  function TrimForm(raw: AdForm): (f: AdForm)
    ensures f.adStyle == raw.adStyle
    ensures f.productName == Trim(raw.productName) && f.productDescription == Trim(raw.productDescription)
    ensures f.targetAudience == Trim(raw.targetAudience) && f.brandColors == Trim(raw.brandColors)
  {
    AdForm(Trim(raw.productName), Trim(raw.productDescription), Trim(raw.targetAudience),
           Trim(raw.brandColors), raw.adStyle)
  }

  const StyleKeys: set<string> := {"modern", "bold", "elegant", "playful", "luxury"}

  const DefaultStyleDescription := "Modern and professional"

  const StyleDescriptions: map<string, string> := map[
    "modern" := "Modern and minimalist with clean lines",
    "bold" := "Bold and vibrant with strong colors",
    "elegant" := "Elegant and professional with sophisticated design",
    "playful" := "Playful and creative with fun elements",
    "luxury" := "Luxury and premium with high-end aesthetics"]

  const StyleLabels: map<string, string> := map[
    "modern" := "Modern & Minimalist",
    "bold" := "Bold & Vibrant",
    "elegant" := "Elegant & Professional",
    "playful" := "Playful & Creative",
    "luxury" := "Luxury & Premium"]

  /** `getStyleDescription`: the known styles have their own text, and
      every other value falls back to the default, which no known style uses. */
  function StyleDescription(style: string): (r: string)
    ensures style in StyleKeys ==> r == StyleDescriptions[style]
    ensures r == DefaultStyleDescription <==> style !in StyleKeys
  {
    if style in StyleDescriptions then StyleDescriptions[style] else DefaultStyleDescription
  }

  /** `getStyleLabel`: the known styles have a label, and any other value is
      shown as it is; no label equals its own key. */
  function StyleLabel(style: string): (r: string)
    ensures style in StyleKeys ==> r == StyleLabels[style]
    ensures r == style <==> style !in StyleKeys
  {
    if style in StyleLabels then StyleLabels[style] else style
  }

  /** Both tables know the same styles, and different styles get different labels. */
  lemma StyleTablesAgree()
    ensures StyleDescriptions.Keys == StyleLabels.Keys == StyleKeys
    ensures forall a, b :: a in StyleKeys && b in StyleKeys && a != b ==> StyleLabel(a) != StyleLabel(b)
  {
  }

  /** The description counter of `updateCharCount`. */
  datatype CountColor = Grey | Amber | Red

  function CountColorHex(c: CountColor): string {
    match c
    case Grey => "#9ca3af"
    case Amber => "#f59e0b"
    case Red => "#ef4444"
  }

  function CharCountColor(count: nat): (c: CountColor)
    ensures c == Red <==> count > 450
    ensures c == Amber <==> 400 < count <= 450
    ensures c == Grey <==> count <= 400
  {
    if count > 450 then Red else if count > 400 then Amber else Grey
  }

  function ColorRank(c: CountColor): nat {
    match c
    case Grey => 0
    case Amber => 1
    case Red => 2
  }

  /** A longer description never shows a calmer colour. */
  lemma CharCountColorMonotone(a: nat, b: nat)
    requires a <= b
    ensures ColorRank(CharCountColor(a)) <= ColorRank(CharCountColor(b))
  {
  }

  // The prompt

  // The long texts are written as concatenations of short literals, whose
  // characters the verifier can read off.
  const PromptHeader := "Create a professional " + "advertisement image for:\n"
  const Requirements := "\nRequirements: " + "Modern, eye-catching, high-quality commercial "
                        + "advertisement with clear product focus and professional composition."

  function ProductLine(f: AdForm): string { "Product: " + f.productName + "\n" }
  function DescriptionLine(f: AdForm): string { "Description: " + f.productDescription + "\n" }
  function AudienceLine(f: AdForm): string { "Target Audience: " + f.targetAudience + "\n" }
  function ColorsLine(f: AdForm): string { "Brand Colors: " + f.brandColors + "\n" }
  function StyleLine(f: AdForm): string { "Style: " + StyleDescription(f.adStyle) + "\n" }

  /** The pieces of the prompt in order; the audience and colours lines only
      for a non-empty field. */
  function PromptLines(f: AdForm): seq<string> {
    [PromptHeader, ProductLine(f), DescriptionLine(f)]
    + (if f.targetAudience != "" then [AudienceLine(f)] else [])
    + (if f.brandColors != "" then [ColorsLine(f)] else [])
    + [StyleLine(f), Requirements]
  }

  function Concat(parts: seq<string>): string {
    if parts == [] then [] else parts[0] + Concat(parts[1..])
  }

  lemma {:induction false} ConcatSnoc(parts: seq<string>, last: string)
    ensures Concat(parts + [last]) == Concat(parts) + last
  {
    if parts == [] {
      assert [] + [last] == [last];
    } else {
      assert (parts + [last])[1..] == parts[1..] + [last];
      ConcatSnoc(parts[1..], last);
    }
  }

  /** The prompt always has the header, product, description, style and
      requirements pieces in this order, and carries the audience and colours
      pieces exactly when those fields are non-empty. */
  lemma PromptLinesShape(f: AdForm)
    ensures var lines := PromptLines(f);
      && |lines| == 5 + (if f.targetAudience != "" then 1 else 0) + (if f.brandColors != "" then 1 else 0)
      && lines[0] == PromptHeader && lines[1] == ProductLine(f) && lines[2] == DescriptionLine(f)
      && lines[|lines| - 2] == StyleLine(f) && lines[|lines| - 1] == Requirements
      && (AudienceLine(f) in lines <==> f.targetAudience != "")
      && (ColorsLine(f) in lines <==> f.brandColors != "")
  {
    var head := [PromptHeader, ProductLine(f), DescriptionLine(f)];
    var audience := if f.targetAudience != "" then [AudienceLine(f)] else [];
    var colors := if f.brandColors != "" then [ColorsLine(f)] else [];
    var tail := [StyleLine(f), Requirements];
    assert PromptLines(f) == head + audience + colors + tail;
    // Every piece is told apart by its first character.
    FirstChars(f);
    if f.targetAudience == "" {
      assert AudienceLine(f) !in head + colors + tail;
    }
    if f.brandColors == "" {
      assert ColorsLine(f) !in head + audience + tail;
    }
  }

  lemma FirstChars(f: AdForm)
    ensures PromptHeader[0] == 'C' && ProductLine(f)[0] == 'P' && DescriptionLine(f)[0] == 'D'
    ensures AudienceLine(f)[0] == 'T' && ColorsLine(f)[0] == 'B'
    ensures StyleLine(f)[0] == 'S' && Requirements[0] == '\n'
  {
  }

  /** `buildPrompt`: the prompt is accumulated piece by piece. */
  method BuildPrompt(f: AdForm) returns (prompt: string)
    ensures prompt == Concat(PromptLines(f))
  {
    ghost var parts: seq<string> := [PromptHeader];
    prompt := PromptHeader;
    assert Concat(parts) == prompt by { assert parts[1..] == []; }
    parts, prompt := AddPiece(parts, prompt, ProductLine(f));
    parts, prompt := AddPiece(parts, prompt, DescriptionLine(f));
    ghost var head := parts;
    ghost var audience: seq<string> := if f.targetAudience != "" then [AudienceLine(f)] else [];
    ghost var colors: seq<string> := if f.brandColors != "" then [ColorsLine(f)] else [];
    if f.targetAudience != "" {
      parts, prompt := AddPiece(parts, prompt, AudienceLine(f));
    }
    assert parts == head + audience;
    if f.brandColors != "" {
      parts, prompt := AddPiece(parts, prompt, ColorsLine(f));
    }
    assert parts == head + audience + colors;
    parts, prompt := AddPiece(parts, prompt, StyleLine(f));
    parts, prompt := AddPiece(parts, prompt, Requirements);
    assert head == [PromptHeader, ProductLine(f), DescriptionLine(f)];
    assert parts == head + audience + colors + [StyleLine(f), Requirements];
  }

  /** One `prompt +=` step, keeping the prompt the concatenation of the
      pieces added so far. */
  method AddPiece(ghost parts: seq<string>, prompt: string, piece: string)
    returns (ghost parts': seq<string>, prompt': string)
    requires Concat(parts) == prompt
    ensures parts' == parts + [piece] && Concat(parts') == prompt'
  {
    ConcatSnoc(parts, piece);
    parts', prompt' := parts + [piece], prompt + piece;
  }

  // The download name

  /** `s.replace(/\s+/g, '_')`: each run of white space becomes one '_'. */
  function SquashWhitespace(s: string): (r: string)
    ensures forall i :: 0 <= i < |r| ==> !IsWhitespace(r[i])
    decreases |s|
  {
    if s == [] then []
    else if IsWhitespace(s[0]) then
      "_" + SquashWhitespace(TrimStart(s[1..]))
    else [s[0]] + SquashWhitespace(s[1..])
  }

  /** A character that is not white space is copied through. */
  lemma SquashKeepsChar(c: char, s: string)
    requires !IsWhitespace(c)
    ensures SquashWhitespace([c] + s) == [c] + SquashWhitespace(s)
  {
    assert ([c] + s)[1..] == s;
  }

  /** A whole run of white space becomes a single '_'. */
  lemma SquashRun(w: string, s: string)
    requires w != [] && forall i :: 0 <= i < |w| ==> IsWhitespace(w[i])
    requires s == [] || !IsWhitespace(s[0])
    ensures SquashWhitespace(w + s) == "_" + SquashWhitespace(s)
  {
    assert IsWhitespace(w[0]);
    assert forall i :: 0 <= i < |w[1..]| ==> IsWhitespace(w[1..][i]) by {
      forall i | 0 <= i < |w[1..]| ensures IsWhitespace(w[1..][i]) {
        assert w[1..][i] == w[i + 1];
      }
    }
    TrimStartRun(w[1..], s);
    SquashRunStep(w, s);
  }

  /** The step of `SquashRun` once the rest of the run is known to trim away. */
  lemma SquashRunStep(w: string, s: string)
    requires w != [] && IsWhitespace(w[0]) && TrimStart(w[1..] + s) == s
    ensures SquashWhitespace(w + s) == "_" + SquashWhitespace(s)
  {
    var ws := w + s;
    assert ws[0] == w[0] && ws[1..] == w[1..] + s;
  }

  /** Leading white space followed by a character that is not white space is
      exactly what `TrimStart` removes. */
  lemma {:induction false} TrimStartRun(w: string, s: string)
    requires forall i :: 0 <= i < |w| ==> IsWhitespace(w[i])
    requires s == [] || !IsWhitespace(s[0])
    ensures TrimStart(w + s) == s
  {
    if w == [] {
      assert w + s == s;
    } else {
      assert (w + s)[0] == w[0];
      assert (w + s)[1..] == w[1..] + s;
      TrimStartRun(w[1..], s);
    }
  }

  /** A name without white space is kept as it is. */
  lemma {:induction false} SquashWithoutWhitespace(s: string)
    requires forall i :: 0 <= i < |s| ==> !IsWhitespace(s[i])
    ensures SquashWhitespace(s) == s
  {
    if s != [] {
      SquashWithoutWhitespace(s[1..]);
    }
  }

  /** Replacing twice is replacing once. */
  lemma SquashIdempotent(s: string)
    ensures SquashWhitespace(SquashWhitespace(s)) == SquashWhitespace(s)
  {
    SquashWithoutWhitespace(SquashWhitespace(s));
  }

  /** Replacing never makes the name longer. */
  lemma {:induction false} SquashLength(s: string)
    ensures |SquashWhitespace(s)| <= |s|
    decreases |s|
  {
    if s != [] {
      if IsWhitespace(s[0]) {
        SquashLength(TrimStart(s[1..]));
      } else {
        SquashLength(s[1..]);
      }
    }
  }

  const DownloadSuffix := "_ad.png"

  /** The download file name: the product name with each white-space run
      replaced by '_', followed by "_ad.png". */
  function DownloadName(productName: string): (r: string)
    ensures r == SquashWhitespace(productName) + DownloadSuffix
    ensures EndsWith(r, DownloadSuffix)
    ensures forall i :: 0 <= i < |r| ==> !IsWhitespace(r[i])
  {
    var r := SquashWhitespace(productName) + DownloadSuffix;
    assert r[|r| - |DownloadSuffix|..] == DownloadSuffix;
    r
  }

  /** The generated advertisement kept for download. */
  datatype AdData = AdData(form: AdForm, imageUrl: string, generatedAt: int)

  datatype GenerateStart = Busy | InvalidForm | Started(prompt: string)

  const GenerateText := "Generate Advertisement"
  const GeneratingText := "Generating..."

  /** The text of the generate button while generating, and otherwise. */
  function ButtonLabel(generating: bool): string {
    if generating then GeneratingText else GenerateText
  }

  class SimpleAdGenerator {
    var isGenerating: bool
    var buttonDisabled: bool
    var buttonText: string
    var loadingVisible: bool
    var errorVisible: bool
    var currentAdData: Option<AdData>
    /** The form data of the generation under way. */
    var request: AdForm

    /** The button speaks the state of the flag. */
    ghost predicate Valid()
      reads this
    {
      buttonDisabled == isGenerating && loadingVisible == isGenerating
      && buttonText == ButtonLabel(isGenerating)
    }

    constructor ()
      ensures Valid() && !isGenerating && currentAdData == None && !errorVisible
    {
      isGenerating := false;
      buttonDisabled := false;
      buttonText := ButtonLabel(false);
      loadingVisible := false;
      errorVisible := false;
      currentAdData := None;
      request := AdForm("", "", "", "", "");
    }

    /** `startGeneration` */
    method StartGeneration()
      modifies this`isGenerating, this`buttonDisabled, this`buttonText, this`loadingVisible, this`errorVisible
      ensures Valid() && isGenerating && !errorVisible
    {
      isGenerating := true;
      buttonDisabled := true;
      buttonText := ButtonLabel(true);
      errorVisible := false;
      loadingVisible := true;
    }

    /** `stopGeneration` */
    method StopGeneration()
      modifies this`isGenerating, this`buttonDisabled, this`buttonText, this`loadingVisible
      ensures Valid() && !isGenerating
    {
      isGenerating := false;
      buttonDisabled := false;
      buttonText := ButtonLabel(false);
      loadingVisible := false;
    }

    /** `handleGenerate` up to its `await`: ignored while a generation runs,
        stopped by an invalid form, and otherwise marks the generation as
        under way with the trimmed form and its prompt. */
    method HandleGenerate(formValid: bool, raw: AdForm) returns (o: GenerateStart)
      requires Valid()
      modifies this`isGenerating, this`buttonDisabled, this`buttonText, this`loadingVisible,
               this`errorVisible, this`request
      ensures Valid()
      ensures old(isGenerating) ==> o == Busy
      ensures !old(isGenerating) && !formValid ==> o == InvalidForm
      ensures !old(isGenerating) && formValid ==>
        (request == TrimForm(raw) && o == Started(Concat(PromptLines(request))) && isGenerating)
      ensures !o.Started? ==> (isGenerating == old(isGenerating) && errorVisible == old(errorVisible)
                               && request == old(request))
    {
      if isGenerating {
        return Busy;
      }
      if !formValid {
        return InvalidForm;
      }
      var form := TrimForm(raw);
      var prompt := BuildPrompt(form);
      request := form;
      StartGeneration();
      o := Started(prompt);
    }

    /** The rest of `handleGenerate`: the image service's answer is shown, or
        the error is; the `finally` block always clears the flag. */
    method CompleteGeneration(imageUrl: Option<string>, now: int)
      requires Valid() && isGenerating
      modifies this`isGenerating, this`buttonDisabled, this`buttonText, this`loadingVisible,
               this`errorVisible, this`currentAdData
      ensures Valid() && !isGenerating
      ensures imageUrl.Some? ==> (currentAdData == Some(AdData(request, imageUrl.value, now))
                                  && errorVisible == old(errorVisible))
      ensures imageUrl.None? ==> currentAdData == old(currentAdData) && errorVisible
    {
      if imageUrl.Some? {
        currentAdData := Some(AdData(request, imageUrl.value, now));
      } else {
        errorVisible := true;
      }
      StopGeneration();
    }

    /** `downloadImage`: refused without a generated image, otherwise the
        name the browser is asked to save it under. */
    method DownloadImage() returns (name: Option<string>)
      ensures name.None? <==> currentAdData.None? || currentAdData.value.imageUrl == ""
      ensures name.Some? ==> name.value == DownloadName(currentAdData.value.form.productName)
    {
      if currentAdData.None? || currentAdData.value.imageUrl == "" {
        return None;
      }
      name := Some(DownloadName(currentAdData.value.form.productName));
    }
  }
}
