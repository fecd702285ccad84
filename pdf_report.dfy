/** The text and geometry rules of the styled PDF report: the `**bold**`
    rewriting, the paragraph and header rules, the aspect-preserving image
    scale and the order in which the document's flowables are appended.
    The rendering library itself is not modelled: the result is the list
    of flowables handed to it. */
module PdfReport {
  import opened Outcomes
  import opened Sequences
  import opened PyText
  import opened Patient
  import opened ImageProcessor

  // ---------------------------------------------------------------------
  // `process_text`: re.sub(r'\*\*(.*?)\*\*', r'<b>\1</b>', text)
  // ---------------------------------------------------------------------

  /** A `**` starts at index `j`. */
  predicate StarsAt(s: string, j: int) {
    0 <= j && j + 2 <= |s| && s[j] == '*' && s[j + 1] == '*'
  }

  /** No newline in `s[a..b]` (the regex's `.` does not match one). */
  predicate NoNewline(s: string, a: int, b: int)
    requires 0 <= a <= b <= |s|
  {
    forall i :: a <= i < b ==> s[i] != '\n'
  }

  /** The non-greedy `(.*?)\*\*` from index `k`: the first `**` at or after
      `k` reached without crossing a newline. */
  function FindClose(s: string, k: nat): (r: Option<nat>)
    requires k <= |s|
    ensures r.Some? ==> k <= r.value && StarsAt(s, r.value) && NoNewline(s, k, r.value)
    ensures r.Some? ==> forall j :: k <= j < r.value ==> !StarsAt(s, j)
    ensures r.None? ==> forall j :: k <= j && StarsAt(s, j) ==> !NoNewline(s, k, j)
    decreases |s| - k
  {
    if k + 2 > |s| then None
    else if s[k] == '*' && s[k + 1] == '*' then Some(k)
    else if s[k] == '\n' then None
    else FindClose(s, k + 1)
  }

  /** `process_text`: scanning left to right, each `**X**` whose `X` is the
      shortest newline-free stretch before the next `**` becomes `<b>X</b>`;
      every other character is copied. */
  function ProcessText(s: string): string
    decreases |s|
  {
    if |s| < 2 then s
    else if StarsAt(s, 0) then
      match FindClose(s, 2)
      case Some(j) => "<b>" + s[2..j] + "</b>" + ProcessText(s[j + 2..])
      case None => [s[0]] + ProcessText(s[1..])
    else [s[0]] + ProcessText(s[1..])
  }

  /** Text without any `**` is returned unchanged. */
  lemma {:induction false} ProcessTextWithoutStars(s: string)
    requires forall j :: !StarsAt(s, j)
    ensures ProcessText(s) == s
    decreases |s|
  {
    if |s| >= 2 {
      assert !StarsAt(s, 0);
      forall j ensures !StarsAt(s[1..], j) {
        assert !StarsAt(s, j + 1);
      }
      ProcessTextWithoutStars(s[1..]);
      assert [s[0]] + s[1..] == s;
    }
  }

  /** Text without `*` is copied as is, whatever follows it: the scan
      reaches what comes after unchanged. */
  lemma {:induction false} PlainPrefix(p: string, s: string)
    requires '*' !in p
    ensures ProcessText(p + s) == p + ProcessText(s)
    decreases |p|
  {
    if p != [] {
      var t := p + s;
      assert t[0] == p[0];
      assert t[1..] == p[1..] + s;
      if |t| >= 2 {
        assert !StarsAt(t, 0);
        assert ProcessText(t) == [t[0]] + ProcessText(t[1..]);
        PlainPrefix(p[1..], s);
        AppendAssoc([p[0]], p[1..], ProcessText(s));
        assert [p[0]] + p[1..] == p;
      } else {
        assert s == [] && t == p;
        assert ProcessText(s) == [];
      }
    } else {
      assert p + s == s;
    }
  }

  /** The closing `**` of a bold run is the first `**` after its content,
      when the content has no newline and no `**` starting inside it. */
  lemma {:induction false} FindCloseAfterContent(s: string, k: nat, n: nat)
    requires k + n + 2 <= |s|
    requires forall i :: k <= i < k + n ==> !StarsAt(s, i) && s[i] != '\n'
    requires StarsAt(s, k + n)
    ensures FindClose(s, k) == Some(k + n)
    decreases n
  {
    if n > 0 {
      assert !StarsAt(s, k);
      FindCloseAfterContent(s, k + 1, n - 1);
    }
  }

  /** A bold run becomes an HTML bold run, and the rewriting carries on
      after it, when its content has no newline, no `**` and does not end
      with a star (so the closing `**` is the one right after it). Single
      stars inside the content are kept. */
  lemma BoldRun(x: string, rest: string)
    requires '\n' !in x
    requires forall j :: !StarsAt(x, j)
    requires x == [] || x[|x| - 1] != '*'
    ensures ProcessText("**" + x + "**" + rest) == "<b>" + x + "</b>" + ProcessText(rest)
  {
    var s := "**" + x + "**" + rest;
    forall i | 2 <= i < 2 + |x| ensures !StarsAt(s, i) && s[i] != '\n' {
      assert s[i] == x[i - 2];
      if i + 1 < 2 + |x| {
        assert s[i + 1] == x[i - 1];
        assert !StarsAt(x, i - 2);
      }
    }
    FindCloseAfterContent(s, 2, |x|);
    assert s[2..2 + |x|] == x;
    assert s[2 + |x| + 2..] == rest;
  }

  /** A bold run after plain text is rewritten in place: the text before
      it is kept, the run becomes `<b>x</b>` and the rest is processed in
      turn. */
  lemma BoldAfterPlain(p: string, x: string, rest: string)
    requires '*' !in p
    requires '\n' !in x
    requires forall j :: !StarsAt(x, j)
    requires x == [] || x[|x| - 1] != '*'
    ensures ProcessText(p + "**" + x + "**" + rest) == p + "<b>" + x + "</b>" + ProcessText(rest)
  {
    PrefixOfFour(p, "**", x, "**", rest);
    PlainPrefix(p, "**" + x + "**" + rest);
    BoldRun(x, rest);
    PrefixOfFour(p, "<b>", x, "</b>", ProcessText(rest));
  }

  /** A single star inside a bold run is kept. */
  lemma SingleStarInsideBold()
    ensures ProcessText("**a*b**") == "<b>a*b</b>"
  {
    var x := "a*b";
    forall j ensures !StarsAt(x, j) {
    }
    BoldRun(x, "");
    assert "**" + x + "**" + "" == "**a*b**";
    assert "<b>" + x + "</b>" + ProcessText("") == "<b>a*b</b>";
  }

  /** A `**` pair split by a newline is left as it is. */
  lemma NewlineBreaksBold()
    ensures ProcessText("**a\nb**") == "**a\nb**"
  {
    var s := "**a\nb**";
    assert FindClose(s, 2) == None by {
      assert s[2] == 'a' && s[3] == '\n';
      assert FindClose(s, 3) == None;
    }
    var t := s[1..];
    assert !StarsAt(t, 0);
    assert t[1..] == "a\nb**";
    var u := "a\nb**";
    assert ProcessText(u) == u by {
      assert ProcessText("\nb**") == "\nb**" by {
        assert ProcessText("b**") == "b**" by {
          assert ProcessText("**") == "**" by {
            assert FindClose("**", 2) == None;
            assert ProcessText("*") == "*";
          }
        }
      }
    }
  }

  // ---------------------------------------------------------------------
  // Paragraphs and the header rule
  // ---------------------------------------------------------------------

  /** The paragraph styles of the document. */
  datatype Style = TitleStyle | HeaderStyle | BodyStyle | DisclaimerStyle

  /** The flowables appended to the story. */
  datatype Flowable =
    | Para(text: string, style: Style)
    | Spacer(gap: int)
    | Table(rows: seq<(string, string)>)
    | Picture(width: real, height: real)

  /** The paragraphs of the report: split at blank lines, then rewritten. */
  function ReportParagraphs(reportText: string): (paras: seq<string>)
    ensures |paras| == |Split(reportText, "\n\n")|
    ensures forall i :: 0 <= i < |paras| ==> paras[i] == ProcessText(Split(reportText, "\n\n")[i])
  {
    var parts := Split(reportText, "\n\n");
    seq(|parts|, i requires 0 <= i < |parts| => ProcessText(parts[i]))
  }

  /** A report without `**` keeps its paragraphs as written: they are the
      pieces between blank lines, and joining them back with a blank line
      gives the report text again. */
  lemma ParagraphsOfPlainText(reportText: string)
    requires forall j :: !StarsAt(reportText, j)
    ensures ReportParagraphs(reportText) == Split(reportText, "\n\n")
    ensures Join(ReportParagraphs(reportText), "\n\n") == reportText
  {
    var parts := Split(reportText, "\n\n");
    SplitPiecesAreInfixes(reportText, "\n\n");
    forall i | 0 <= i < |parts|
      ensures ProcessText(parts[i]) == parts[i]
    {
      var k :| InfixAt(parts[i], reportText, k);
      forall j
        ensures !StarsAt(parts[i], j)
      {
        assert !StarsAt(reportText, k + j);
      }
      ProcessTextWithoutStars(parts[i]);
    }
    JoinSplit(reportText, "\n\n");
  }

  /** The header rule, applied to a stripped paragraph: upper case
      (`isupper`) and shorter than 50 characters. */
  function StyleOf(text: string): Style {
    if IsUpper(text) && |text| < 50 then HeaderStyle else BodyStyle
  }

  /** What one paragraph contributes: nothing when it is blank, otherwise
      its stripped text in the header or body style and a 10-point spacer. */
  function ParagraphFlowables(para: string): seq<Flowable> {
    var text := Strip(para);
    if text == "" then [] else [Para(text, StyleOf(text)), Spacer(10)]
  }

  /** The flowables of all paragraphs, in order. */
  function ReportFlowables(paras: seq<string>): seq<Flowable> {
    if paras == [] then []
    else ReportFlowables(paras[..|paras| - 1]) + ParagraphFlowables(paras[|paras| - 1])
  }

  /** The paragraphs that are kept (not blank), stripped, in order. */
  function Kept(paras: seq<string>): (kept: seq<string>)
    ensures |kept| <= |paras|
    ensures forall i :: 0 <= i < |kept| ==> kept[i] != ""
  {
    if paras == [] then []
    else Kept(paras[..|paras| - 1]) + (if Strip(paras[|paras| - 1]) == "" then [] else [Strip(paras[|paras| - 1])])
  }


  /** The report's flowables alternate: the k-th kept paragraph in the style
      its own text calls for, then a 10-point spacer; nothing else. */
  lemma {:induction false} ReportFlowablesLayout(paras: seq<string>)
    ensures |ReportFlowables(paras)| == 2 * |Kept(paras)|
    ensures forall k :: 0 <= k < |Kept(paras)| ==>
      ReportFlowables(paras)[2 * k] == Para(Kept(paras)[k], StyleOf(Kept(paras)[k]))
      && ReportFlowables(paras)[2 * k + 1] == Spacer(10)
  {
    if paras != [] {
      var init := paras[..|paras| - 1];
      var text := Strip(paras[|paras| - 1]);
      ReportFlowablesLayout(init);
      if text == "" {
        assert ReportFlowables(paras) == ReportFlowables(init) + [];
        assert Kept(paras) == Kept(init) + [];
      } else {
        LayoutSnoc(ReportFlowables(init), Kept(init), text);
      }
    }
  }

  /** One more kept paragraph adds its pair of flowables after the others. */
  lemma LayoutSnoc(f0: seq<Flowable>, k0: seq<string>, text: string)
    requires |f0| == 2 * |k0|
    requires forall k :: 0 <= k < |k0| ==>
      f0[2 * k] == Para(k0[k], StyleOf(k0[k])) && f0[2 * k + 1] == Spacer(10)
    ensures var f, kept := f0 + [Para(text, StyleOf(text)), Spacer(10)], k0 + [text];
      && |f| == 2 * |kept|
      && forall k :: 0 <= k < |kept| ==>
        f[2 * k] == Para(kept[k], StyleOf(kept[k])) && f[2 * k + 1] == Spacer(10)
  {
  }

  /** A paragraph that is one Markdown-bold run is rewritten to
      `<b>...</b>` before the header test, and the lower-case `b` of the
      tag makes it body text, however upper-case its content. */
  lemma BoldParagraphIsBodyText(x: string)
    requires '\n' !in x
    requires forall j :: !StarsAt(x, j)
    requires x == [] || x[|x| - 1] != '*'
    ensures ProcessText("**" + x + "**") == "<b>" + x + "</b>"
    ensures ParagraphFlowables("<b>" + x + "</b>") == [Para("<b>" + x + "</b>", BodyStyle), Spacer(10)]
  {
    var t := "<b>" + x + "</b>";
    assert ProcessText("**" + x + "**") == t by {
      BoldRun(x, "");
      assert "**" + x + "**" + "" == "**" + x + "**";
      assert "<b>" + x + "</b>" + "" == t;
    }
    BoldTagIsBodyText(x);
  }

  /** Any text wrapped in `<b>...</b>` is body text. */
  lemma BoldTagIsBodyText(x: string)
    ensures ParagraphFlowables("<b>" + x + "</b>") == [Para("<b>" + x + "</b>", BodyStyle), Spacer(10)]
  {
    var t := "<b>" + x + "</b>";
    assert t[0] == '<' && t[1] == 'b' && t[|t| - 1] == '>';
    StripUnchanged(t);
    assert !IsUpper(t) by { assert IsAsciiLower(t[1]); }
  }

  /** A short upper-case paragraph with no surrounding blanks is kept as
      it is, in the header style. */
  lemma ShortUpperParagraphIsHeader(x: string)
    requires x != [] && !IsSpace(x[0]) && !IsSpace(x[|x| - 1])
    requires IsUpper(x) && |x| < 50
    ensures ParagraphFlowables(x) == [Para(x, HeaderStyle), Spacer(10)]
  {
    StripUnchanged(x);
  }

  /** The same heading without the bold markers is header-styled. */
  lemma PlainHeadingIsHeader()
    ensures ParagraphFlowables("FINDINGS:")[0] == Para("FINDINGS:", HeaderStyle)
  {
    var h := "FINDINGS:";
    assert h[0] == 'F' && h[|h| - 1] == ':';
    assert IsUpper(h) by { assert IsAsciiUpper(h[0]); }
    ShortUpperParagraphIsHeader(h);
  }

  // ---------------------------------------------------------------------
  // Image scale
  // ---------------------------------------------------------------------

  /** One typographic inch, in points. */
  const Inch: real := 72.0

  /** The failure of the document assembly: the image scale divides by a
      zero width or height. */
  datatype PdfError = DivisionByZero

  /** `scale = min(max_width/img_width, max_height/img_height)` and the
      scaled size; dividing by a zero side raises. */
  function ImageScale(width: nat, height: nat, maxWidth: real, maxHeight: real): (r: Result<(real, real), PdfError>)
    requires maxWidth > 0.0 && maxHeight > 0.0
    ensures r.Failure? <==> width == 0 || height == 0
    ensures r.Success? ==>
      var (w, h) := r.value;
      && 0.0 < w <= maxWidth && 0.0 < h <= maxHeight
      && (w == maxWidth || h == maxHeight)
      && w * (height as real) == h * (width as real)
  {
    if width == 0 || height == 0 then Failure(DivisionByZero)
    else
      var w, h := width as real, height as real;
      var sx, sy := maxWidth / w, maxHeight / h;
      var scale := if sy < sx then sy else sx;
      ScaleFits(w, h, maxWidth, maxHeight, scale);
      Success((w * scale, h * scale))
  }

  /** The geometry of the uniform scale factor. */
  lemma ScaleFits(w: real, h: real, maxWidth: real, maxHeight: real, scale: real)
    requires w > 0.0 && h > 0.0 && maxWidth > 0.0 && maxHeight > 0.0
    requires scale == (if maxHeight / h < maxWidth / w then maxHeight / h else maxWidth / w)
    ensures 0.0 < w * scale <= maxWidth && 0.0 < h * scale <= maxHeight
    ensures w * scale == maxWidth || h * scale == maxHeight
    ensures (w * scale) * h == (h * scale) * w
  {
    var sx, sy := maxWidth / w, maxHeight / h;
    assert sx * w == maxWidth;
    assert sy * h == maxHeight;
    assert scale > 0.0;
    if sy < sx {
      assert w * scale < w * sx by { assert w * (sx - scale) > 0.0; }
    } else {
      assert h * scale <= h * sy by { assert h * (sy - scale) >= 0.0; }
    }
  }

  // ---------------------------------------------------------------------
  // The story (`create_pdf_report`)
  // ---------------------------------------------------------------------

  const MainTitle := "MEDICAL IMAGE ANALYSIS REPORT"
  const SystemName := "AI Medical Imaging Analysis v1.0"
  const PatientHeading := "PATIENT INFORMATION"
  const ImageHeading := "CHEST X-RAY IMAGE"
  const ReportHeading := "DETAILED MEDICAL REPORT"

  /** The disclaimer paragraph, with the indentation of its source lines. */
  const DisclaimerText :=
    "\n        MEDICAL DISCLAIMER: This report is generated by an AI system for educational and research purposes only. \n        This analysis should not be used as the sole basis for medical diagnosis or treatment decisions. \n        Always consult with qualified healthcare professionals for proper medical evaluation and care.\n        "

  /** The four rows of the analysis summary table. */
  function SummaryRows(analysisTime: string, prediction: string, pctText: string): seq<(string, string)> {
    [("Analysis Date:", analysisTime), ("Predicted Condition:", prediction),
     ("AI Confidence:", pctText), ("System:", SystemName)]
  }

  /** `[f"{key}:", str(value)]` for every truthy entry, in order. */
  function PatientRows(info: PatientInfo): (rows: seq<(string, string)>)
    ensures |rows| == |TruthyEntries(info)|
    ensures forall i :: 0 <= i < |rows| ==>
      rows[i] == (TruthyEntries(info)[i].0 + ":", Render(TruthyEntries(info)[i].1))
  {
    var es := TruthyEntries(info);
    seq(|es|, i requires 0 <= i < |es| => (es[i].0 + ":", Render(es[i].1)))
  }

  /** A row of the patient table is a truthy field of the record, its key
      followed by a colon and its value as text; every truthy field has one. */
  lemma PatientRowsMembers(info: PatientInfo, k: string, v: string)
    ensures (k + ":", v) in PatientRows(info) <==>
      exists x :: (k, x) in info && Truthy(x) && Render(x) == v
  {
    var es := TruthyEntries(info);
    var rows := PatientRows(info);
    TruthyEntriesMembers(info);
    if (k + ":", v) in rows {
      var i :| 0 <= i < |rows| && rows[i] == (k + ":", v);
      assert es[i].0 == (es[i].0 + ":")[..|es[i].0|] == (k + ":")[..|k|] == k;
      assert es[i] in es;
    }
    if exists x :: (k, x) in info && Truthy(x) && Render(x) == v {
      var x :| (k, x) in info && Truthy(x) && Render(x) == v;
      assert (k, x) in es;
      var i :| 0 <= i < |es| && es[i] == (k, x);
      assert rows[i] == (k + ":", v);
    }
  }

  /** Whether the patient section is printed. */
  predicate HasPatientSection(info: Option<PatientInfo>) {
    info.Some? && AnyTruthy(info.value)
  }

  /** The patient section: heading, table of the truthy entries, spacer.
      The source guards the table with a non-empty check; once the section
      is entered that check always passes (`AppendPatientSection` models
      the guard and is proved to produce this). */
  function PatientPart(info: Option<PatientInfo>): seq<Flowable> {
    if !HasPatientSection(info) then []
    else
      [Para(PatientHeading, HeaderStyle), Table(PatientRows(info.value)), Spacer(20)]
  }

  /** The image section: heading, scaled picture, spacer. */
  function ImagePart(image: Option<ImageInfo>): Result<seq<Flowable>, PdfError> {
    match image
    case None => Success([])
    case Some(img) =>
      match ImageScale(img.width, img.height, 4.0 * Inch, 4.0 * Inch)
      case Failure(e) => Failure(e)
      case Success((w, h)) => Success([Para(ImageHeading, HeaderStyle), Picture(w, h), Spacer(20)])
  }

  /** The title and the analysis summary table, each followed by a spacer. */
  function StoryOpening(analysisTime: string, prediction: string, pctText: string): seq<Flowable> {
    [Para(MainTitle, TitleStyle), Spacer(20), Table(SummaryRows(analysisTime, prediction, pctText)), Spacer(20)]
  }

  /** The report heading and the paragraphs. */
  function ReportPart(reportText: string): seq<Flowable> {
    [Para(ReportHeading, HeaderStyle)] + ReportFlowables(ReportParagraphs(reportText))
  }

  /** A 30-point spacer and the disclaimer. */
  const Closing := [Spacer(30), Para(DisclaimerText, DisclaimerStyle)]

  /** Everything before the closing disclaimer: opening, patient section,
      image section and report section, in that order. */
  function StoryBody(analysisTime: string, prediction: string, pctText: string,
                     info: Option<PatientInfo>, pictures: seq<Flowable>, reportText: string): seq<Flowable>
  {
    StoryOpening(analysisTime, prediction, pctText) + PatientPart(info) + pictures + ReportPart(reportText)
  }

  /** The whole story handed to the document builder, or the error that
      aborts the report. */
  function PdfStory(image: Option<ImageInfo>, prediction: string, pctText: string,
                    reportText: string, info: Option<PatientInfo>, analysisTime: string)
    : Result<seq<Flowable>, PdfError>
  {
    match ImagePart(image)
    case Failure(e) => Failure(e)
    case Success(pictures) => Success(StoryBody(analysisTime, prediction, pctText, info, pictures, reportText) + Closing)
  }

  lemma PatientRowsAppend(info: PatientInfo, f: Field)
    ensures PatientRows(info + [f]) == PatientRows(info) + (if Truthy(f.1) then [(f.0 + ":", Render(f.1))] else [])
  {
    TruthyEntriesAppend(info, [f]);
    assert TruthyEntries([f]) == (if Truthy(f.1) then [f] else []) + TruthyEntries([]);
  }

  /** The patient-table loop: one `[key + ":", str(value)]` row per truthy
      value, in insertion order. */
  method CollectPatientRows(items: PatientInfo) returns (patientData: seq<(string, string)>)
    ensures patientData == PatientRows(items)
  {
    patientData := [];
    for i := 0 to |items|
      invariant patientData == PatientRows(items[..i])
    {
      PatientRowsAppend(items[..i], items[i]);
      assert items[..i + 1] == items[..i] + [items[i]];
      if Truthy(items[i].1) {
        patientData := patientData + [(items[i].0 + ":", Render(items[i].1))];
      }
    }
    assert items[..|items|] == items;
  }

  /** One paragraph: when not blank, its stripped text in the header or
      body style, then a 10-point spacer. */
  method AppendParagraph(story: seq<Flowable>, para: string) returns (result: seq<Flowable>)
    ensures result == story + ParagraphFlowables(para)
  {
    result := story;
    var text := Strip(para);
    if text != "" {
      var paragraph: Flowable;
      if IsUpper(text) && |text| < 50 {
        paragraph := Para(text, HeaderStyle);
      } else {
        paragraph := Para(text, BodyStyle);
      }
      result := result + [paragraph];
      result := result + [Spacer(10)];
      AppendTwo(story, paragraph, Spacer(10));
    }
  }

  /** The flowables of one more paragraph follow those of the earlier ones. */
  lemma ReportFlowablesSnoc(paras: seq<string>, i: nat)
    requires i < |paras|
    ensures ReportFlowables(paras[..i + 1]) == ReportFlowables(paras[..i]) + ParagraphFlowables(paras[i])
  {
    assert paras[..i + 1][..i] == paras[..i];
  }

  /** The paragraph loop: append each non-blank paragraph, stripped and
      styled, followed by a 10-point spacer. */
  method AppendParagraphs(story: seq<Flowable>, paras: seq<string>) returns (result: seq<Flowable>)
    ensures result == story + ReportFlowables(paras)
  {
    result := story;
    for i := 0 to |paras|
      invariant result == story + ReportFlowables(paras[..i])
    {
      ReportFlowablesSnoc(paras, i);
      AppendAssoc(story, ReportFlowables(paras[..i]), ParagraphFlowables(paras[i]));
      result := AppendParagraph(result, paras[i]);
    }
    assert paras[..|paras|] == paras;
  }

  /** The patient section of the story, appended when some value is truthy. */
  method AppendPatientSection(story: seq<Flowable>, info: Option<PatientInfo>) returns (result: seq<Flowable>)
    ensures result == story + PatientPart(info)
  {
    result := story;
    if HasPatientSection(info) {
      AnyTruthyIffEntries(info.value);
      result := result + [Para(PatientHeading, HeaderStyle)];
      var patientData := CollectPatientRows(info.value);
      if patientData != [] {
        result := result + [Table(patientData)];
        result := result + [Spacer(20)];
      }
    }
  }

  /** The image section of the story, appended when an image is given;
      a zero side aborts the report. */
  method AppendImageSection(story: seq<Flowable>, image: Option<ImageInfo>) returns (result: Result<seq<Flowable>, PdfError>)
    ensures ImagePart(image).Failure? ==> result == Failure(ImagePart(image).error)
    ensures ImagePart(image).Success? ==> result == Success(story + ImagePart(image).value)
  {
    var s := story;
    if image.Some? {
      s := s + [Para(ImageHeading, HeaderStyle)];
      var scaled := ImageScale(image.value.width, image.value.height, 4.0 * Inch, 4.0 * Inch);
      if scaled.Failure? {
        return Failure(scaled.error);
      }
      var (w, h) := scaled.value;
      s := s + [Picture(w, h)];
      s := s + [Spacer(20)];
      assert s == story + [Para(ImageHeading, HeaderStyle), Picture(w, h), Spacer(20)];
    } else {
      assert s == story + [];
    }
    result := Success(s);
  }

  /** The opening of the story: title and summary table, each followed by
      a 20-point spacer. */
  method AppendOpening(story: seq<Flowable>, prediction: string, pctText: string, analysisTime: string)
    returns (result: seq<Flowable>)
    ensures result == story + StoryOpening(analysisTime, prediction, pctText)
  {
    result := story + [Para(MainTitle, TitleStyle)];
    result := result + [Spacer(20)];
    result := result + [Table(SummaryRows(analysisTime, prediction, pctText))];
    result := result + [Spacer(20)];
  }

  /** The report heading and the paragraph loop. */
  method AppendReportSection(story: seq<Flowable>, reportText: string) returns (result: seq<Flowable>)
    ensures result == story + ReportPart(reportText)
  {
    result := story + [Para(ReportHeading, HeaderStyle)];
    result := AppendParagraphs(result, ReportParagraphs(reportText));
  }

  /** The closing spacer and the disclaimer. */
  method AppendClosing(story: seq<Flowable>) returns (result: seq<Flowable>)
    ensures result == story + Closing
  {
    result := story + [Spacer(30)];
    result := result + [Para(DisclaimerText, DisclaimerStyle)];
  }

  /** `create_pdf_report` up to `doc.build(story)`: the story is appended
      section by section; `pctText` is the `{:.1%}` rendering of the
      confidence. */
  method CreatePdfReport(image: Option<ImageInfo>, prediction: string, pctText: string,
                         reportText: string, info: Option<PatientInfo>, analysisTime: string)
    returns (r: Result<seq<Flowable>, PdfError>)
    ensures r == PdfStory(image, prediction, pctText, reportText, info, analysisTime)
  {
    var story := AppendOpening([], prediction, pctText, analysisTime);
    assert story == StoryOpening(analysisTime, prediction, pctText);
    story := AppendPatientSection(story, info);
    var withImage := AppendImageSection(story, image);
    if withImage.Failure? {
      return Failure(withImage.error);
    }
    story := AppendReportSection(withImage.value, reportText);
    story := AppendClosing(story);
    r := Success(story);
  }

  /** The only failure the model captures is an image with a zero side. */
  lemma StoryFails(image: Option<ImageInfo>, prediction: string, pctText: string,
                   reportText: string, info: Option<PatientInfo>, analysisTime: string)
    ensures PdfStory(image, prediction, pctText, reportText, info, analysisTime).Failure?
        <==> image.Some? && (image.value.width == 0 || image.value.height == 0)
  {
  }

  /** The front of the story: the title, a spacer, the four-row summary
      table and a spacer; then the patient section (heading and the table
      of truthy entries) exactly when some patient value is truthy; then
      the image section (heading and picture) exactly when an image is
      given. */
  lemma StoryFront(image: Option<ImageInfo>, prediction: string, pctText: string,
                   reportText: string, info: Option<PatientInfo>, analysisTime: string)
    requires ImagePart(image).Success?
    ensures var body := StoryBody(analysisTime, prediction, pctText, info, ImagePart(image).value, reportText);
      var p := if HasPatientSection(info) then 3 else 0;
      && |body| > 4 + p
      && body[0] == Para(MainTitle, TitleStyle)
      && body[2] == Table(SummaryRows(analysisTime, prediction, pctText))
      && (HasPatientSection(info) ==>
            body[4] == Para(PatientHeading, HeaderStyle) && body[5] == Table(PatientRows(info.value)))
      && (image.Some? ==>
            var size := ImageScale(image.value.width, image.value.height, 4.0 * Inch, 4.0 * Inch).value;
            body[4 + p] == Para(ImageHeading, HeaderStyle) && body[5 + p] == Picture(size.0, size.1))
  {
    Sections(StoryOpening(analysisTime, prediction, pctText), PatientPart(info), ImagePart(image).value,
             ReportPart(reportText));
  }

  /** After the front sections, the body holds the report heading and then
      exactly the paragraph flowables; none of them is a table or a picture. */
  lemma StoryReportSection(image: Option<ImageInfo>, prediction: string, pctText: string,
                           reportText: string, info: Option<PatientInfo>, analysisTime: string)
    requires ImagePart(image).Success?
    ensures var body := StoryBody(analysisTime, prediction, pctText, info, ImagePart(image).value, reportText);
      var front := 4 + (if HasPatientSection(info) then 3 else 0) + (if image.Some? then 3 else 0);
      && |body| == front + 1 + |ReportFlowables(ReportParagraphs(reportText))|
      && body[front] == Para(ReportHeading, HeaderStyle)
      && body[front + 1..] == ReportFlowables(ReportParagraphs(reportText))
      && (forall i :: front <= i < |body| ==> !body[i].Table? && !body[i].Picture?)
  {
    var body := StoryBody(analysisTime, prediction, pctText, info, ImagePart(image).value, reportText);
    var head := StoryOpening(analysisTime, prediction, pctText) + PatientPart(info) + ImagePart(image).value;
    PartLengths(image, info);
    var front := |head|;
    var rf := ReportFlowables(ReportParagraphs(reportText));
    assert body == head + ([Para(ReportHeading, HeaderStyle)] + rf);
    Tail(head, Para(ReportHeading, HeaderStyle), rf);
    ReportFlowablesKinds(ReportParagraphs(reportText));
    forall i | front <= i < |body| ensures !body[i].Table? && !body[i].Picture? {
      if i > front {
        assert body[i] == rf[i - front - 1];
      }
    }
  }

  /** The sizes of the sections in front of the report. */
  lemma PartLengths(image: Option<ImageInfo>, info: Option<PatientInfo>)
    requires ImagePart(image).Success?
    ensures |PatientPart(info)| == if HasPatientSection(info) then 3 else 0
    ensures |ImagePart(image).value| == if image.Some? then 3 else 0
  {
  }

  /** The report section holds only paragraphs and spacers. */
  lemma {:induction false} ReportFlowablesKinds(paras: seq<string>)
    ensures forall i :: 0 <= i < |ReportFlowables(paras)| ==>
      ReportFlowables(paras)[i].Para? || ReportFlowables(paras)[i].Spacer?
  {
    if paras != [] {
      ReportFlowablesKinds(paras[..|paras| - 1]);
    }
  }

  /** A successful story is the body followed by a 30-point spacer and the
      disclaimer, which is therefore always the last flowable. */
  lemma StoryClosing(image: Option<ImageInfo>, prediction: string, pctText: string,
                     reportText: string, info: Option<PatientInfo>, analysisTime: string, story: seq<Flowable>)
    requires PdfStory(image, prediction, pctText, reportText, info, analysisTime) == Success(story)
    ensures var body := StoryBody(analysisTime, prediction, pctText, info, ImagePart(image).value, reportText);
      && |story| == |body| + 2
      && story[..|body|] == body
      && story[|story| - 2] == Spacer(30)
      && story[|story| - 1] == Para(DisclaimerText, DisclaimerStyle)
  {
    var body := StoryBody(analysisTime, prediction, pctText, info, ImagePart(image).value, reportText);
    Tail(body, Spacer(30), [Para(DisclaimerText, DisclaimerStyle)]);
  }
}
