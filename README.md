# Chest X-ray analysis: verified model of the report pipeline

This project models the deterministic rules of the AI Medical Image Analysis
System, a Streamlit application. The application classifies a chest X-ray
into one of four labels: COVID, Lung_Opacity, Normal and Viral Pneumonia.
It then has a remote language model, or a built-in template, write a
radiology report, and renders that report as a PDF. The classifier, the
remote service and the PDF library are opaque. The rules around them are
modelled in Dafny and proved:

- **Prediction post-processing** (`ModelUtils`, from `model_utils.py`):
  - the first-maximum argmax over the output vector;
  - the label-to-probability list;
  - the three-way confidence validation;
  - the interpretation table with its "Unknown" default;
  - the High/Medium/Low confidence tiers.
- **Image validation** (`ImageProcessor`, from `image_processor.py`): the
  ordered chain of resolution, aspect-ratio and colour-mode checks.
- **Patient information** (`Patient`): the sidebar's insertion-ordered
  dictionary, Python truthiness, `str()` and the filter that drops empty
  fields.
- **Report selection** (`ReportGenerator`, from `report_generator.py`):
  - the patient-context builder, a loop (`BuildPatientContext`);
  - the condition-guidance lookup with its Normal default;
  - the four fallback templates and the error string for other labels;
  - the remote path modelled as a service record: package installed, API
    key, and a function from prompt inputs to a reply;
  - `generate_report`, which absorbs every remote failure.
- **Document assembly** (`PdfReport`, from `create_pdf_report`):
  - the `**bold**` rewrite, modelled as a left-to-right regex scan;
  - the paragraph split and the header-style rule;
  - the aspect-preserving image scale;
  - the story list built by successive appends (`CreatePdfReport`).
- **Canvas fallback** (`SimplePdf`, from `create_simple_pdf_report`):
  - the greedy 80-column word wrap and the pagination loop, as methods
    proved against specification functions (`Pack`, `TextOps`);
  - the disclaimer block, with its forced page break.
- **Display rules** (`UiComponents`, from `ui_components.py`):
  - the confidence CSS class;
  - the chart's highlight colour;
  - the stable descending sort and the status indicator of the prediction
    table (`CreatePredictionTable`, a loop);
  - the advice lookup;
  - the confidence banners.
- **Helpers**: `PyText` holds the Python string operations the rules use
  (`split`, `join`, `strip`, `isupper`, `str(int)`). `Sequences` holds
  generic sequence lemmas. `Outcomes` holds `Option` and `Result`.

Three things come in as parameters: the current time, the percentage
formatting `{confidence:.1%}` (a function `real -> string`) and the
classifier's output vector.

Three behaviours of the code are stated as they are:

- For a label outside the four, `generate_fallback_report` returns
  `Report generation error for condition: <label>`
  (`report_generator.py:314`), not the Normal template that
  `get_condition_guidance` falls back to. `FallbackReportShape` and
  `UnknownLabelIsNotNormal` state this.
- A paragraph written as `**HEADING**` becomes `<b>HEADING</b>`. The
  lower-case `b` makes `isupper()` false, so such a heading is always body
  text (`BoldParagraphIsBodyText`).
- The page check runs once per source line. The segments of a wrapped line
  are drawn without a further check, so they may go below y = 50
  (`LinePagination`).

## Model

| member | source | states |
|---|---|---|
| ModelUtils.ArgMax | AI-Medical-Image-Analysis-System/src/model_utils.py:55 | the index returned holds a maximum of the vector and no earlier index holds that maximum (numpy's first maximum) |
| ModelUtils.PredictImage | AI-Medical-Image-Analysis-System/src/model_utils.py:50-68 | prediction succeeds iff the vector has at least four entries and its first maximum lies among the first four. On success the label is `CLASS_LABELS[k]` for that first-maximum index k, the confidence is the vector's value there, `all_predictions` pairs each of the four labels with its value in order, and no value exceeds the confidence |
| ModelUtils.PredictImageTotalOnFourClasses | AI-Medical-Image-Analysis-System/src/model_utils.py:7 | a four-entry vector, one entry per class label, always yields a prediction |
| ModelUtils.PredictImageTieExample | AI-Medical-Image-Analysis-System/src/model_utils.py:55-63 | when COVID and Lung_Opacity tie for the maximum, COVID (the first) is predicted and the list keeps the label order |
| ModelUtils.ValidatePredictionConfidence | AI-Medical-Image-Analysis-System/src/model_utils.py:96-112 | valid iff confidence ≥ threshold or ≥ 0.3. The message is the high one iff confidence ≥ threshold, the moderate one iff below the threshold but ≥ 0.3, and the low one iff invalid |
| ModelUtils.DefaultThresholdAcceptance | AI-Medical-Image-Analysis-System/src/model_utils.py:96 | with the default threshold 0.5, acceptance is exactly confidence ≥ 0.3 and the high message is exactly confidence ≥ 0.5 |
| ModelUtils.LevelOf | AI-Medical-Image-Analysis-System/src/model_utils.py:160 | High iff c > 0.8, Medium iff 0.6 < c ≤ 0.8, Low iff c ≤ 0.6 |
| ModelUtils.LevelOfMonotone | AI-Medical-Image-Analysis-System/src/model_utils.py:160 | a higher confidence never gets a lower tier |
| ModelUtils.LevelBoundaries | AI-Medical-Image-Analysis-System/src/model_utils.py:160 | both thresholds are strict: 0.8 is Medium and 0.6 is Low |
| ModelUtils.GetPredictionInterpretation | AI-Medical-Image-Analysis-System/src/model_utils.py:114-162 | the result carries the input confidence unchanged and the tier name of that confidence |
| ModelUtils.InterpretationLookup | AI-Medical-Image-Analysis-System/src/model_utils.py:125-157 | each of the four labels gets its own table entry (description, urgency, colour and icon), whose urgency is never "Unknown". Every other string gets "Unknown condition", urgency "Unknown", colour gray and the icon ❓ |
| ModelUtils.InterpretationRows | AI-Medical-Image-Analysis-System/src/model_utils.py:125-160 | at any confidence: COVID gets "COVID-19 pneumonia detected", High, red, 🦠; Viral Pneumonia gets "Viral pneumonia detected", High, orange, 🫁; Lung_Opacity gets "Lung opacities detected", Medium, yellow, ⚠️; Normal gets "No abnormalities detected", Low, green, ✅; each with the confidence and its tier |
| ImageProcessor.ValidateImage | AI-Medical-Image-Analysis-System/src/image_processor.py:97-139 | invalid iff a side is below 100, always with the resolution message. The upscale message appears iff valid and both sides are below 224. The aspect message appears iff neither earlier rule fired and w/h lies outside [0.5, 2.0]. Otherwise the message depends on the mode: grayscale only for "L", colour only for "RGB" |
| ImageProcessor.ModeMessages | AI-Medical-Image-Analysis-System/src/image_processor.py:123-139 | once the size checks pass, mode "L" gives the grayscale message, "RGB" the colour message and any other mode the generic one |
| ImageProcessor.AspectRatioAsDivision | AI-Medical-Image-Analysis-System/src/image_processor.py:115-116 | the integer test `2w < h or w > 2h` agrees with the source's division test for every positive height |
| ImageProcessor.DivisionOrder | AI-Medical-Image-Analysis-System/src/image_processor.py:115-116 | comparing w/h with a constant is comparing w with that constant times h, for h > 0 |
| ImageProcessor.ValidityMonotone | AI-Medical-Image-Analysis-System/src/image_processor.py:101-139 | enlarging a valid image never makes it invalid |
| ImageProcessor.FirstMatchWins | AI-Medical-Image-Analysis-System/src/image_processor.py:101-134 | checks run in order: a 150×150 grayscale image gets the upscale message, not the grayscale one |
| Patient.TruthyEntries | AI-Medical-Image-Analysis-System/src/ui_components.py:98 | the filtered dictionary is no longer than the input and holds only truthy values |
| Patient.TruthyEntriesMembers | AI-Medical-Image-Analysis-System/src/ui_components.py:98 | an entry survives the filter iff it is in the input and its value is truthy |
| Patient.TruthyEntriesAppend | AI-Medical-Image-Analysis-System/src/ui_components.py:98 | the filter distributes over concatenation, so insertion order is preserved |
| Patient.AnyTruthyIffEntries | AI-Medical-Image-Analysis-System/src/report_generator.py:213 | `any(values())` holds iff the filtered dictionary is non-empty |
| Patient.TruthyEntriesIdempotent | AI-Medical-Image-Analysis-System/src/ui_components.py:98 | filtering twice is filtering once |
| Patient.SidebarFilterExample | AI-Medical-Image-Analysis-System/src/ui_components.py:67-98 | an age of 0, the blank gender choice and an empty clinical history are dropped, and the other fields keep their order |
| ReportGenerator.ContextLines | AI-Medical-Image-Analysis-System/src/report_generator.py:217-219 | one context line per truthy entry |
| ReportGenerator.ContextLinesAppend | AI-Medical-Image-Analysis-System/src/report_generator.py:217-219 | adding a field appends its line iff its value is truthy |
| ReportGenerator.BuildPatientContext | AI-Medical-Image-Analysis-System/src/report_generator.py:211-221 | the loop that appends `- key: value` for each truthy entry and joins with newlines returns the specified context |
| ReportGenerator.PatientContextNotProvidedIff | AI-Medical-Image-Analysis-System/src/report_generator.py:213-214 | the context is "PATIENT INFORMATION: Not provided" iff no information is given or every value is falsy |
| ReportGenerator.PatientContextLineCount | AI-Medical-Image-Analysis-System/src/report_generator.py:216-221 | with newline-free keys and values, splitting the context on newlines gives the header followed by one line per truthy entry, so 1 + (number of truthy values) lines |
| ReportGenerator.ContextLineNoNewline | AI-Medical-Image-Analysis-System/src/report_generator.py:219 | a line built from a newline-free key and value contains no newline |
| ReportGenerator.ContextPartsNoNewline | AI-Medical-Image-Analysis-System/src/report_generator.py:216-219 | no part of the context contains a newline when no key or value does |
| ReportGenerator.PatientContextOfFiltered | AI-Medical-Image-Analysis-System/src/report_generator.py:213-221 | passing the sidebar's already-filtered dictionary gives the same context, and an empty dictionary gives the same context as None |
| ReportGenerator.PatientContextExample | AI-Medical-Image-Analysis-System/src/report_generator.py:216-221 | an age of "34" and an empty gender give exactly "PATIENT INFORMATION:\n- Age: 34" |
| ReportGenerator.PatientContext | AI-Medical-Image-Analysis-System/src/report_generator.py:211-221 | "Not provided" iff there is no truthy value (`PatientContextNotProvidedIff`); otherwise the header and one line per truthy entry (`PatientContextLineCount`), the value the loop `BuildPatientContext` returns |
| ReportGenerator.ConditionGuidanceLookup | AI-Medical-Image-Analysis-System/src/report_generator.py:134-209 | the four labels get their own guidance. Any other string gets the Normal guidance, so the lookup is total |
| ReportGenerator.GetConditionGuidance | AI-Medical-Image-Analysis-System/src/report_generator.py:131-209 | own guidance for each of the four labels and the Normal guidance for any other string (`ConditionGuidanceLookup`) |
| ReportGenerator.TablesCoverClassLabels | AI-Medical-Image-Analysis-System/src/report_generator.py:134-207 | the guidance table's keys are exactly the four class labels, and the fallback templates have the same keys |
| ReportGenerator.RenderTemplateShape | AI-Medical-Image-Analysis-System/src/report_generator.py:230-311 | every rendered template starts with the title and patient section, contains the confidence note, and ends with "Report generated: <time>" |
| ReportGenerator.RenderTemplateImpression | AI-Medical-Image-Analysis-System/src/report_generator.py:240 | the template's impression text appears in the rendered report |
| ReportGenerator.RenderTemplate | AI-Medical-Image-Analysis-System/src/report_generator.py:229-311 | title and patient section first, the confidence note and impression inside, the timestamp line last (`RenderTemplateShape`, `RenderTemplateImpression`) |
| ReportGenerator.FallbackReportShape | AI-Medical-Image-Analysis-System/src/report_generator.py:223-314 | for the four labels the fallback starts with the title and patient context, contains the formatted confidence, and ends with the timestamp line. For any other label it is exactly "Report generation error for condition: <label>" |
| ReportGenerator.UnknownLabelIsNotNormal | AI-Medical-Image-Analysis-System/src/report_generator.py:314 | an unknown label does not get the Normal report |
| ReportGenerator.FallbackReport | AI-Medical-Image-Analysis-System/src/report_generator.py:223-314 | the rendered template of a known label, the error string for any other (`FallbackReportShape`, `UnknownLabelIsNotNormal`) |
| ReportGenerator.GeminiReport | AI-Medical-Image-Analysis-System/src/report_generator.py:28-84 | the remote path succeeds iff the package is installed, the API key is non-empty, and the reply has parts. On success it returns the reply's text. When the package is installed, every failure is reported with the "An error occurred with the Gemini API: " prefix |
| ReportGenerator.GenerateReportAbsorbsRemoteFailure | AI-Medical-Image-Analysis-System/src/report_generator.py:17-23 | `generate_report` returns the remote text when the remote path succeeds. Otherwise it returns the fallback report for the same inputs, which for the four labels starts with the report title and contains the confidence |
| ReportGenerator.GenerateReport | AI-Medical-Image-Analysis-System/src/report_generator.py:5-23 | the remote text on success, the fallback report on every remote failure (`GenerateReportAbsorbsRemoteFailure`, `NormalWithoutKeyUsesFallback`) |
| ReportGenerator.NormalWithoutKeyUsesFallback | AI-Medical-Image-Analysis-System/src/report_generator.py:34-36 | without an API key, a Normal prediction gets the Normal template, whose impression appears in the report |
| PdfReport.FindClose | AI-Medical-Image-Analysis-System/src/pdf_utils.py:131 | the non-greedy `(.*?)\*\*` finds the first `**` after the opening with no newline in between, or reports that none exists |
| PdfReport.ProcessText | AI-Medical-Image-Analysis-System/src/pdf_utils.py:129-131 | each `**x**` on one line becomes `<b>x</b>` and other text is copied: text without `**` is unchanged (`ProcessTextWithoutStars`), text without `*` is copied whatever follows it (`PlainPrefix`), a bold run is rewritten where it stands and the rest processed in turn (`BoldRun`, `BoldAfterPlain`, `SingleStarInsideBold`), and a newline between the stars leaves them (`NewlineBreaksBold`) |
| PdfReport.ProcessTextWithoutStars | AI-Medical-Image-Analysis-System/src/pdf_utils.py:129-131 | text without `**` is returned unchanged |
| PdfReport.FindCloseAfterContent | AI-Medical-Image-Analysis-System/src/pdf_utils.py:131 | content with no newline and no `**` starting inside it, followed by `**`, closes at exactly that `**` |
| PdfReport.BoldRun | AI-Medical-Image-Analysis-System/src/pdf_utils.py:129-131 | a leading `**x**`, where x has no newline, contains no `**` and does not end in `*`, becomes `<b>x</b>` and the rest is processed in turn |
| PdfReport.PlainPrefix | AI-Medical-Image-Analysis-System/src/pdf_utils.py:129-131 | text without `*` is copied unchanged, and what follows it is processed as if it stood alone |
| PdfReport.BoldAfterPlain | AI-Medical-Image-Analysis-System/src/pdf_utils.py:129-131 | a bold run after text without `*` becomes `<b>x</b>` in place: the text before it is kept and the rest is processed in turn |
| PdfReport.NewlineBreaksBold | AI-Medical-Image-Analysis-System/src/pdf_utils.py:131 | a pair of `**` with a newline between them is left unchanged |
| PdfReport.SingleStarInsideBold | AI-Medical-Image-Analysis-System/src/pdf_utils.py:131 | `**a*b**` becomes `<b>a*b</b>`: a single `*` inside a bold run is kept |
| PdfReport.ReportParagraphs | AI-Medical-Image-Analysis-System/src/pdf_utils.py:134 | paragraph i is the processed i-th piece of `split('\n\n')`. The pieces join back to the report (`PyText.JoinSplit`), and a report without `**` keeps them unchanged (`ParagraphsOfPlainText`) |
| PdfReport.ParagraphsOfPlainText | AI-Medical-Image-Analysis-System/src/pdf_utils.py:129-134 | for a report without `**`, the paragraphs are exactly the pieces between blank lines, and joining them with a blank line gives the report text back |
| PdfReport.Kept | AI-Medical-Image-Analysis-System/src/pdf_utils.py:136-137 | the kept, stripped paragraphs are all non-empty |
| PdfReport.ReportFlowablesLayout | AI-Medical-Image-Analysis-System/src/pdf_utils.py:136-143 | every kept paragraph yields its stripped text in its style followed by a 10-point spacer, in order, and whitespace-only paragraphs yield nothing |
| PdfReport.ParagraphFlowables | AI-Medical-Image-Analysis-System/src/pdf_utils.py:137-143 | nothing for a whitespace-only paragraph, otherwise its stripped text in its style and a 10-point spacer (`ReportFlowablesLayout`) |
| PdfReport.StyleOf | AI-Medical-Image-Analysis-System/src/pdf_utils.py:139-142 | the header style iff the stripped text is upper-case and under 50 characters (`ShortUpperParagraphIsHeader`, `BoldTagIsBodyText`) |
| PdfReport.ShortUpperParagraphIsHeader | AI-Medical-Image-Analysis-System/src/pdf_utils.py:139-140 | a stripped, upper-case paragraph shorter than 50 characters gets the header style |
| PdfReport.PlainHeadingIsHeader | AI-Medical-Image-Analysis-System/src/pdf_utils.py:139-140 | "FINDINGS:" is a header |
| PdfReport.BoldParagraphIsBodyText | AI-Medical-Image-Analysis-System/src/pdf_utils.py:129-142 | a paragraph `**x**`, with x as for `BoldRun`, becomes `<b>x</b>`, which is always body text |
| PdfReport.BoldTagIsBodyText | AI-Medical-Image-Analysis-System/src/pdf_utils.py:139-142 | any paragraph `<b>x</b>` is body text: the lower-case tag makes `isupper()` false |
| PdfReport.ImageScale | AI-Medical-Image-Analysis-System/src/pdf_utils.py:115-119 | a zero dimension fails (division by zero). Otherwise the scaled size fits the box, reaches at least one bound, and keeps the w:h ratio |
| PdfReport.ScaleFits | AI-Medical-Image-Analysis-System/src/pdf_utils.py:117-119 | scaling both sides by min(maxW/w, maxH/h) fits the box, reaches a bound, and keeps the ratio |
| PdfReport.PatientRows | AI-Medical-Image-Analysis-System/src/pdf_utils.py:84-87 | row i is the i-th truthy entry as `key:` and `str(value)`. `PatientRowsMembers` states which rows exist, and `PatientRowsAppend` and `CollectPatientRows` state the order |
| PdfReport.PatientRowsMembers | AI-Medical-Image-Analysis-System/src/pdf_utils.py:84-87 | (`key:`, v) is a row iff the record holds a truthy value under that key whose `str()` is v |
| PdfReport.PatientRowsAppend | AI-Medical-Image-Analysis-System/src/pdf_utils.py:85-87 | adding a field appends its row iff its value is truthy |
| PdfReport.CollectPatientRows | AI-Medical-Image-Analysis-System/src/pdf_utils.py:84-87 | the collection loop produces the specified rows |
| PdfReport.AppendParagraph | AI-Medical-Image-Analysis-System/src/pdf_utils.py:137-143 | one paragraph appends its flowables to the story |
| PdfReport.ReportFlowablesSnoc | AI-Medical-Image-Analysis-System/src/pdf_utils.py:136-143 | the flowables of one more paragraph are the earlier ones plus that paragraph's |
| PdfReport.AppendParagraphs | AI-Medical-Image-Analysis-System/src/pdf_utils.py:136-143 | the paragraph loop appends exactly the report flowables |
| PdfReport.AppendPatientSection | AI-Medical-Image-Analysis-System/src/pdf_utils.py:81-103 | the patient section is appended only when some value is truthy |
| PdfReport.AppendImageSection | AI-Medical-Image-Analysis-System/src/pdf_utils.py:106-123 | the image section is appended when an image is given, and a zero dimension makes assembly fail |
| PdfReport.AppendOpening | AI-Medical-Image-Analysis-System/src/pdf_utils.py:54-78 | title, spacer, four-row summary table and spacer are appended |
| PdfReport.AppendReportSection | AI-Medical-Image-Analysis-System/src/pdf_utils.py:126-143 | report heading and paragraphs are appended |
| PdfReport.AppendClosing | AI-Medical-Image-Analysis-System/src/pdf_utils.py:146-161 | spacer and disclaimer are appended |
| PdfReport.CreatePdfReport | AI-Medical-Image-Analysis-System/src/pdf_utils.py:27-170 | the successive appends build exactly the specified story, or the failure |
| PdfReport.PdfStory | AI-Medical-Image-Analysis-System/src/pdf_utils.py:27-170 | the specified story: its front, report and closing sections (`StoryFront`, `StoryReportSection`, `StoryClosing`), its failure case (`StoryFails`), and the value the append sequence `CreatePdfReport` builds |
| PdfReport.StoryFails | AI-Medical-Image-Analysis-System/src/pdf_utils.py:115-117 | the only failure the model captures: assembly fails iff an image with a zero dimension is given |
| PdfReport.StoryFront | AI-Medical-Image-Analysis-System/src/pdf_utils.py:54-123 | the story opens with the title and the summary table. The patient heading and table follow only when some value is truthy, then the image heading and scaled picture only when an image is given |
| PdfReport.StoryReportSection | AI-Medical-Image-Analysis-System/src/pdf_utils.py:126-143 | after the front sections come the report heading and exactly the report flowables, with no table or picture |
| PdfReport.PartLengths | AI-Medical-Image-Analysis-System/src/pdf_utils.py:81-123 | the patient and image sections have three flowables each when present and none otherwise |
| PdfReport.ReportFlowablesKinds | AI-Medical-Image-Analysis-System/src/pdf_utils.py:136-143 | the report section holds only paragraphs and spacers |
| PdfReport.StoryClosing | AI-Medical-Image-Analysis-System/src/pdf_utils.py:146-161 | the story ends with a 30-point spacer and the disclaimer paragraph, after the whole body |
| SimplePdf.CurText | AI-Medical-Image-Analysis-System/src/pdf_utils.py:258-266 | the accumulated `current_line` is empty iff no word is in it |
| SimplePdf.LineTexts | AI-Medical-Image-Analysis-System/src/pdf_utils.py:263-269 | group k is drawn as its stripped `current_line`. When it starts and ends on a visible character this is its words joined by single spaces (`DrawnLineIsJoinedWords`) |
| SimplePdf.DrawnLineIsJoinedWords | AI-Medical-Image-Analysis-System/src/pdf_utils.py:260-268 | a drawn line whose first and last characters are visible is exactly its words joined by single spaces: stripping removes only the trailing space the loop appends |
| SimplePdf.PackFlatten | AI-Medical-Image-Analysis-System/src/pdf_utils.py:259-269 | greedy packing keeps every word, in order |
| SimplePdf.PackGroups | AI-Medical-Image-Analysis-System/src/pdf_utils.py:259-269 | every emitted group is non-empty and within the width rule |
| SimplePdf.MultiWordLineShort | AI-Medical-Image-Analysis-System/src/pdf_utils.py:260 | a group of two or more words joins to fewer than 80 characters |
| SimplePdf.WrapRule | AI-Medical-Image-Analysis-System/src/pdf_utils.py:256-269 | wrapping preserves the words and their order, emits no empty word group, keeps every multi-word group under 80 characters, and puts a word of 80 or more characters on a line of its own |
| SimplePdf.EmptyWordDrawsBlank | AI-Medical-Image-Analysis-System/src/pdf_utils.py:262-268 | a group holding only the empty word from a trailing or doubled space is drawn as the empty string |
| SimplePdf.PackStartsWith | AI-Medical-Image-Analysis-System/src/pdf_utils.py:259-266 | the words pending in `current_line` start the next emitted line |
| SimplePdf.PackGreedy | AI-Medical-Image-Analysis-System/src/pdf_utils.py:260-266 | a line is closed only when the next word would break the width rule |
| SimplePdf.Pack | AI-Medical-Image-Analysis-System/src/pdf_utils.py:257-269 | the greedy packing: every word kept in order, every line within the width rule, a line closed only when the next word would break it (`WrapRule`, `PackFlatten`, `PackGreedy`) |
| SimplePdf.ShortLineUnchanged | AI-Medical-Image-Analysis-System/src/pdf_utils.py:256-271 | a line of at most 80 characters is drawn unchanged |
| SimplePdf.Segments | AI-Medical-Image-Analysis-System/src/pdf_utils.py:256-272 | a line of at most 80 characters is drawn unchanged, a longer one as its packed groups, and never zero lines (`ShortLineUnchanged`, `SegmentsNonEmpty`) |
| SimplePdf.DrawLines | AI-Medical-Image-Analysis-System/src/pdf_utils.py:264-272 | operation i draws text i at the margin, 12 points per line below the start. `DrawnTextsOfLines` (exactly the given texts, in order) and `DrawLinesHeights` (every line within the block) state what this gives |
| SimplePdf.DrawnTextsOfLines | AI-Medical-Image-Analysis-System/src/pdf_utils.py:264-272 | the texts drawn are exactly the given lines |
| SimplePdf.LineOpsTexts | AI-Medical-Image-Analysis-System/src/pdf_utils.py:250-272 | handling one source line draws exactly its segments |
| SimplePdf.TextOpsDrawsAllSegments | AI-Medical-Image-Analysis-System/src/pdf_utils.py:249-272 | the report loop draws every segment of every source line, in order, and nothing else |
| SimplePdf.TextOps | AI-Medical-Image-Analysis-System/src/pdf_utils.py:249-272 | every segment of every source line drawn in order with a page check per source line (`TextOpsDrawsAllSegments`, `LinePagination`), the value the loop `DrawReportText` produces |
| SimplePdf.SegmentsNonEmpty | AI-Medical-Image-Analysis-System/src/pdf_utils.py:256-272 | every source line draws at least one line |
| SimplePdf.DrawLinesHeights | AI-Medical-Image-Analysis-System/src/pdf_utils.py:263-272 | the lines of a block lie between its start and 12 points per line below it |
| SimplePdf.LinePagination | AI-Medical-Image-Analysis-System/src/pdf_utils.py:250-272 | a page break comes first iff y < 50, restarting at height − 50. All segments of the line follow at or below that start and above the new y, which is 12 points lower per segment |
| SimplePdf.PackKeep | AI-Medical-Image-Analysis-System/src/pdf_utils.py:260-261 | a word that fits joins the pending line |
| SimplePdf.PackEmit | AI-Medical-Image-Analysis-System/src/pdf_utils.py:262-266 | a word that does not fit closes the pending line (if any) and starts the next |
| SimplePdf.EmitLine | AI-Medical-Image-Analysis-System/src/pdf_utils.py:264-265 | drawing the stripped line adds one draw and lowers y by 12 |
| SimplePdf.WrapWords | AI-Medical-Image-Analysis-System/src/pdf_utils.py:257-269 | the wrap loop draws exactly the greedy packing of the words and lowers y by 12 per emitted line |
| SimplePdf.DrawLine | AI-Medical-Image-Analysis-System/src/pdf_utils.py:256-272 | a source line is drawn as its segments, 12 points apart |
| SimplePdf.DrawSourceLine | AI-Medical-Image-Analysis-System/src/pdf_utils.py:251-272 | one pass of the loop body does the page check and draws the line, as specified |
| SimplePdf.TextOpsSnoc | AI-Medical-Image-Analysis-System/src/pdf_utils.py:250-272 | the output for one more source line is the earlier output plus that line's, starting at the earlier y |
| SimplePdf.DrawReportText | AI-Medical-Image-Analysis-System/src/pdf_utils.py:249-272 | the loop over `report_text.split('\n')` produces the specified operations and final y |
| SimplePdf.DisclaimerTop | AI-Medical-Image-Analysis-System/src/pdf_utils.py:275-277 | below 100 points a new page starts, so the disclaimer always starts at 100 or higher |
| SimplePdf.DrawDisclaimer | AI-Medical-Image-Analysis-System/src/pdf_utils.py:274-294 | the disclaimer code produces the specified operations and final y |
| SimplePdf.DisclaimerBlockTexts | AI-Medical-Image-Analysis-System/src/pdf_utils.py:282-293 | the disclaimer draws its heading and then its lines, in order |
| SimplePdf.DisclaimerBlockFits | AI-Medical-Image-Analysis-System/src/pdf_utils.py:275-294 | with three lines, a page break occurs iff y < 100, and every line lies between 31 points and the block's start |
| SimplePdf.DisclaimerFits | AI-Medical-Image-Analysis-System/src/pdf_utils.py:274-294 | the disclaimer breaks the page iff y < 100, draws the heading and the three lines, and stays on the page |
| UiComponents.ConfidenceClass | AI-Medical-Image-Analysis-System/src/ui_components.py:155 | 'high-confidence' iff c > 0.8, 'medium-confidence' iff 0.6 < c ≤ 0.8, 'low-confidence' iff c ≤ 0.6 |
| UiComponents.ConfidenceClassMatchesLevel | AI-Medical-Image-Analysis-System/src/ui_components.py:155-160 | the CSS class always agrees with the interpretation's confidence level |
| UiComponents.MaxOf | AI-Medical-Image-Analysis-System/src/ui_components.py:205 | `max(confidences)` is one of the values and bounds them all |
| UiComponents.ChartColors | AI-Medical-Image-Analysis-System/src/ui_components.py:205 | one colour per bar, each the highlight or the plain colour |
| UiComponents.ChartHighlightRule | AI-Medical-Image-Analysis-System/src/ui_components.py:205 | a bar is red iff no value exceeds it |
| UiComponents.ChartHighlightsEveryMaximum | AI-Medical-Image-Analysis-System/src/ui_components.py:205 | once some bar is red, a bar is red iff its value ties it, so all tied maxima are red |
| UiComponents.ChartHasHighlight | AI-Medical-Image-Analysis-System/src/ui_components.py:205 | a non-empty chart has at least one red bar |
| UiComponents.SortByConfidence | AI-Medical-Image-Analysis-System/src/ui_components.py:233 | the sort is a permutation of the items, in descending confidence |
| UiComponents.InsertSorted | AI-Medical-Image-Analysis-System/src/ui_components.py:233 | inserting into a descending list keeps it descending |
| UiComponents.SortStable | AI-Medical-Image-Analysis-System/src/ui_components.py:233 | the sort is stable: items with equal confidence keep their original order |
| UiComponents.InsertStable | AI-Medical-Image-Analysis-System/src/ui_components.py:233 | an insertion keeps the relative order of equal-confidence items, with the inserted item first |
| UiComponents.SortHead | AI-Medical-Image-Analysis-System/src/ui_components.py:233 | the first maximum of the input comes first in the sorted list |
| UiComponents.IndicatorFor | AI-Medical-Image-Analysis-System/src/ui_components.py:239-244 | PREDICTED iff the row is the top prediction, Consider iff not and confidence > 0.1, Unlikely iff not and confidence ≤ 0.1 |
| UiComponents.PredictionTable | AI-Medical-Image-Analysis-System/src/ui_components.py:233-251 | row i is built from the i-th entry of the stable descending sort. `TableIsStableSort`, `PredictedRowComesFirst` and `LabelOnce` state what the table holds |
| UiComponents.CreatePredictionTable | AI-Medical-Image-Analysis-System/src/ui_components.py:236-251 | the append loop builds exactly the specified table |
| UiComponents.TableIsStableSort | AI-Medical-Image-Analysis-System/src/ui_components.py:233-251 | the bars descend, the rows hold exactly the entries, and rows with equal confidence keep the original order |
| UiComponents.PredictedRowComesFirst | AI-Medical-Image-Analysis-System/src/ui_components.py:229-251 | for any classifier output, the table has four rows. The first row is the predicted label, marked PREDICTED and carrying the prediction's confidence, and no other row is marked PREDICTED |
| UiComponents.LabelOnce | AI-Medical-Image-Analysis-System/src/ui_components.py:233-239 | the predicted label occurs in no row after the first |
| UiComponents.AdviceLookup | AI-Medical-Image-Analysis-System/src/ui_components.py:276-303 | the four labels get their own advice and any other string gets the Normal advice |
| UiComponents.AdviceDistinct | AI-Medical-Image-Analysis-System/src/ui_components.py:276-301 | different labels get different follow-up advice |
| UiComponents.GetAdvice | AI-Medical-Image-Analysis-System/src/ui_components.py:276-303 | the label's own advice for the four labels and the Normal advice otherwise (`AdviceLookup`, `AdviceDistinct`) |
| UiComponents.BannerFor | AI-Medical-Image-Analysis-System/src/ui_components.py:318-321 | the low-confidence warning iff c < 0.6, the high-confidence note iff c > 0.9, and no banner iff 0.6 ≤ c ≤ 0.9 |
| UiComponents.BannerAgreesWithClass | AI-Medical-Image-Analysis-System/src/ui_components.py:318-321 | the warning comes only with the low CSS class and the note only with the high one. At exactly 0.6 the class is low but no warning is shown |
| PyText.Split | AI-Medical-Image-Analysis-System/src/pdf_utils.py:134 | `s.split(sep)` loses, adds and reorders nothing: joining the pieces with sep gives s back (`JoinSplit`), and every piece occurs in s (`SplitPiecesAreInfixes`) |
| PyText.JoinSplit | AI-Medical-Image-Analysis-System/src/pdf_utils.py:134 | for every string and non-empty separator, joining the pieces of the split with the separator gives the string back |
| PyText.SplitPiecesAreInfixes | AI-Medical-Image-Analysis-System/src/pdf_utils.py:134 | every piece of a split occurs in the string as a contiguous slice |
| PyText.Join | AI-Medical-Image-Analysis-System/src/report_generator.py:221 | `sep.join(parts)` starts with the first part and ends with the last (`JoinEnds`) and undoes a split (`JoinSplit`) |
| PyText.Strip | AI-Medical-Image-Analysis-System/src/pdf_utils.py:137 | the result is no longer than the input and starts and ends with a non-whitespace character when non-empty; it is empty iff the input is all whitespace (`StripEmptyIffAllSpace`) |


## Left out

- The Streamlit page, its widgets and session state. Only the sidebar filter and the values it produces are modelled.
- The TensorFlow model: `load_model`, `model.predict` and `get_model_info`. The output vector is an input to `PredictImage`.
- `preprocess_image` and `display_image_info`: the resizing and normalisation are floating-point work inside PIL and Keras.
- The exception branch of `validate_image` (lines 141-145). It is reached only when the image library raises; an image is modelled as width, height and mode.
- The Gemini client (configure, `generate_content`, safety settings) and `test_gemini_connection`. The remote call is a function from prompt inputs to a reply, and an import failure is a flag.
- The wording of `create_gemini_prompt`. The service receives the label, confidence, patient context, guidance and time as a record.
- `GeminiReport`: the texts of the error messages are not modelled beyond their common prefix.
- `datetime.now()`: the time is a parameter.
- `{confidence:.1%}` and `{confidence:.2%}`: percentage formatting is a function parameter.
- reportlab: fonts, colours, table styles, PNG encoding and the `doc.build` and `canvas` calls. Only the story list and the canvas operations that matter (page breaks, drawn strings and their y positions) are modelled. `validate_pdf_generation` is not modelled.
- The header, summary, patient and image drawing of `create_simple_pdf_report` (lines 187-245). The text and disclaimer loops take the y position they start from as a parameter.
- `PdfReport.ImageScale`: computed over exact reals, not floating point.
- `PyText.IsUpper`: only ASCII letters count as cased. Python's `isupper` also treats other Unicode letters as cased.
- `ProcessText`: the regex is modelled for `**` pairs only, as a left-to-right scan. Regex engine details such as backtracking are not modelled.
- PdfReport.ProcessText: the lemmas cover text made of pieces without `*` and bold runs, in any order. Text where a lone `*` outside a bold run comes before a later run is not covered by a lemma; the function scans it as the regex does.
- PdfReport.StoryFails: PNG encoding failures of `image.save` (`pdf_utils.py:111`, for example a CMYK image) and markup errors raised by `doc.build` (line 164, for example a bare `<` in the report text) are not modelled; the model captures only the division by a zero image side.
- `SimplePdf.LinePagination`: the page check runs once per source line, as in the code, so the segments of one wrapped line are not kept above 50 points.
- `src/__init__.py` holds only metadata and is not part of this model.
