/** The report generator: the patient-context block, the per-label guidance
    and fallback templates, the remote (Gemini) path as a success/failure
    oracle, and the try-remote-then-fall-back rule of `generate_report`. */
module ReportGenerator {
  import opened Outcomes
  import opened PyText
  import opened Patient
  import ModelUtils

  // ---------------------------------------------------------------------
  // Patient context (`build_patient_context`)
  // ---------------------------------------------------------------------

  const NotProvided := "PATIENT INFORMATION: Not provided"
  const ContextHeader := "PATIENT INFORMATION:"

  /** `f"- {key}: {value}"`. */
  function ContextLine(f: Field): string {
    "- " + f.0 + ": " + Render(f.1)
  }

  /** One line per truthy field, in insertion order. */
  function ContextLines(info: PatientInfo): (lines: seq<string>)
    ensures |lines| == |TruthyEntries(info)|
  {
    var es := TruthyEntries(info);
    seq(|es|, i requires 0 <= i < |es| => ContextLine(es[i]))
  }

  /** What `build_patient_context` returns: the "Not provided" marker when the
      dictionary is absent, empty or all falsy, and otherwise the header
      followed by one line per truthy field, joined by newlines. */
  function PatientContext(info: Option<PatientInfo>): string {
    if info.None? || !AnyTruthy(info.value) then NotProvided
    else Join([ContextHeader] + ContextLines(info.value), "\n")
  }

  lemma ContextLinesAppend(info: PatientInfo, f: Field)
    ensures ContextLines(info + [f]) == ContextLines(info) + (if Truthy(f.1) then [ContextLine(f)] else [])
  {
    var es := TruthyEntries(info);
    var added := if Truthy(f.1) then [f] else [];
    TruthyEntriesAppend(info, [f]);
    assert TruthyEntries([f]) == added by {
      assert TruthyEntries([f]) == added + TruthyEntries([]);
    }
    var l := ContextLines(info + [f]);
    var r := ContextLines(info) + (if Truthy(f.1) then [ContextLine(f)] else []);
    assert |l| == |r|;
    forall i | 0 <= i < |l| ensures l[i] == r[i] {
      if i < |es| {
        assert (es + added)[i] == es[i];
      }
    }
  }

  /** `build_patient_context`: collect the lines in a list, then join them. */
  method BuildPatientContext(info: Option<PatientInfo>) returns (context: string)
    ensures context == PatientContext(info)
  {
    if info.None? || !AnyTruthy(info.value) {
      return NotProvided;
    }
    var items := info.value;
    var contextParts := [ContextHeader];
    for i := 0 to |items|
      invariant contextParts == [ContextHeader] + ContextLines(items[..i])
    {
      ContextLinesAppend(items[..i], items[i]);
      assert items[..i + 1] == items[..i] + [items[i]];
      if Truthy(items[i].1) {
        contextParts := contextParts + [ContextLine(items[i])];
      }
    }
    assert items[..|items|] == items;
    context := Join(contextParts, "\n");
  }

  /** The marker appears exactly when no field is truthy (an absent
      dictionary and an all-empty one are not told apart). */
  lemma PatientContextNotProvidedIff(info: Option<PatientInfo>)
    ensures PatientContext(info) == NotProvided <==> info.None? || !AnyTruthy(info.value)
  {
    if info.Some? && AnyTruthy(info.value) {
      AnyTruthyIffEntries(info.value);
      var lines := ContextLines(info.value);
      assert |lines| >= 1;
      var parts := [ContextHeader] + lines;
      assert parts[1..] == lines;
      var rest := "\n" + Join(lines, "\n");
      assert Join(parts, "\n") == ContextHeader + rest;
      assert (ContextHeader + rest)[20] == rest[0] == '\n';
      assert NotProvided[20] == ' ';
    }
  }

  /** A rendered line contains a newline only if its key or value does. */
  lemma ContextLineNoNewline(f: Field)
    requires '\n' !in f.0 && '\n' !in Render(f.1)
    ensures '\n' !in ContextLine(f)
  {
  }

  /** With no newline inside keys and values, the context has exactly one
      line more than there are truthy fields, and those lines are the
      header followed by the field lines in order. */
  lemma PatientContextLineCount(info: PatientInfo)
    requires AnyTruthy(info)
    requires forall i :: 0 <= i < |info| ==> '\n' !in info[i].0 && '\n' !in Render(info[i].1)
    ensures Split(PatientContext(Some(info)), "\n") == [ContextHeader] + ContextLines(info)
    ensures |Split(PatientContext(Some(info)), "\n")| == 1 + |TruthyEntries(info)|
  {
    var parts := [ContextHeader] + ContextLines(info);
    ContextPartsNoNewline(info);
    assert PatientContext(Some(info)) == Join(parts, "\n");
    SplitJoinRoundTrip(parts, '\n');
  }

  lemma ContextPartsNoNewline(info: PatientInfo)
    requires forall i :: 0 <= i < |info| ==> '\n' !in info[i].0 && '\n' !in Render(info[i].1)
    ensures forall i :: 0 <= i < 1 + |ContextLines(info)| ==> '\n' !in ([ContextHeader] + ContextLines(info))[i]
  {
    var parts := [ContextHeader] + ContextLines(info);
    var es := TruthyEntries(info);
    TruthyEntriesMembers(info);
    forall i | 0 <= i < |parts| ensures '\n' !in parts[i] {
      if i > 0 {
        var f := es[i - 1];
        assert f in info;
        var j :| 0 <= j < |info| && info[j] == f;
        ContextLineNoNewline(f);
      }
    }
  }

  /** Passing the sidebar's already-filtered dictionary gives the same
      context as passing the unfiltered one. */
  lemma {:induction false} PatientContextOfFiltered(info: PatientInfo)
    ensures PatientContext(Some(TruthyEntries(info))) == PatientContext(Some(info))
    ensures PatientContext(Some([])) == PatientContext(None)
  {
    TruthyEntriesIdempotent(info);
    AnyTruthyIffEntries(info);
    AnyTruthyIffEntries(TruthyEntries(info));
  }

  /** An age of 34 is listed; an empty gender is not mentioned. */
  lemma PatientContextExample()
    ensures PatientContext(Some([("Age", Str("34")), ("Gender", Str(""))]))
         == "PATIENT INFORMATION:\n- Age: 34"
  {
    var info := [("Age", Str("34")), ("Gender", Str(""))];
    assert TruthyEntries(info[1..]) == [];
    assert TruthyEntries(info) == [("Age", Str("34"))];
    assert AnyTruthy(info) by { assert Truthy(info[0].1); }
    var lines := ContextLines(info);
    assert |lines| == 1;
    assert lines[0] == "- Age: 34";
    assert Join([ContextHeader] + lines, "\n") == ContextHeader + "\n" + "- Age: 34";
  }

  // ---------------------------------------------------------------------
  // Guidance (`get_condition_guidance`)
  // ---------------------------------------------------------------------

  /** The three free-text guidance blocks used to steer the remote model. */
  datatype Guidance = Guidance(findings: string, impression: string, recommendations: string)

  /** Indentation of the lines of the triple-quoted guidance strings. */
  const Indent := "            "

  function IndentedLines(lines: seq<string>): string {
    if lines == [] then "" else Indent + lines[0] + "\n" + IndentedLines(lines[1..])
  }

  /** A triple-quoted block: a leading newline, each line indented and
      ended, then the closing line's indentation. */
  function Block(lines: seq<string>): string {
    "\n" + IndentedLines(lines) + Indent
  }

  /** The `guidance` dictionary of `get_condition_guidance`. */
  const GuidanceTable: map<string, Guidance> := map[
    "COVID" := Guidance(
      Block(["Describe bilateral ground-glass opacities with peripheral and lower lobe distribution.",
             "Mention the typical appearance of COVID-19 pneumonia.",
             "Note any associated findings like air bronchograms or consolidation.",
             "Comment on cardiac silhouette and pleural spaces."]),
      Block(["State findings consistent with COVID-19 pneumonia.",
             "Mention the bilateral peripheral pattern typical of viral pneumonia."]),
      Block(["Include RT-PCR testing confirmation, isolation protocols,",
             "clinical correlation with symptoms, follow-up imaging timeline,",
             "and consideration of chest CT if clinically indicated."])),
    "Viral Pneumonia" := Guidance(
      Block(["Describe bilateral interstitial or mixed alveolar-interstitial infiltrates.",
             "Note the diffuse distribution pattern typical of viral etiology.",
             "Differentiate from bacterial pneumonia appearance.",
             "Comment on any associated findings."]),
      Block(["State findings consistent with viral pneumonia.",
             "Note the bilateral interstitial pattern."]),
      Block(["Include supportive care measures, symptom monitoring,",
             "follow-up imaging schedule, clinical evaluation,",
             "and consideration of antiviral therapy if specific virus identified."])),
    "Lung_Opacity" := Guidance(
      Block(["Describe the location, extent, and characteristics of the opacities.",
             "Consider differential diagnosis including infection, inflammation, or fluid.",
             "Note any associated findings like air bronchograms or volume loss.",
             "Comment on distribution pattern."]),
      Block(["State presence of lung opacities with differential diagnosis.",
             "Mention need for clinical correlation."]),
      Block(["Include clinical correlation with symptoms and vital signs,",
             "laboratory studies (CBC, inflammatory markers),",
             "consideration of chest CT for better characterization,",
             "and appropriate follow-up imaging timeline."])),
    "Normal" := Guidance(
      Block(["Confirm clear lung fields bilaterally with no consolidation.",
             "Note normal cardiac silhouette and mediastinal contours.",
             "Comment on normal diaphragmatic contours and costophrenic angles.",
             "State no acute abnormalities are present."]),
      Block(["State normal chest radiograph with no acute cardiopulmonary abnormalities."]),
      Block(["Include routine follow-up as clinically appropriate,",
             "continued clinical monitoring if symptomatic,",
             "no immediate imaging follow-up required,",
             "and age-appropriate screening recommendations."]))
  ]

  /** `guidance.get(prediction, guidance['Normal'])`. */
  function GetConditionGuidance(prediction: string): Guidance {
    if prediction in GuidanceTable then GuidanceTable[prediction] else GuidanceTable["Normal"]
  }

  /** Each of the four labels gets its own entry; any other string gets the
      Normal entry, so the lookup never fails. */
  lemma ConditionGuidanceLookup(prediction: string)
    ensures prediction in ModelUtils.ClassLabels ==> GetConditionGuidance(prediction) == GuidanceTable[prediction]
    ensures prediction !in ModelUtils.ClassLabels ==> GetConditionGuidance(prediction) == GetConditionGuidance("Normal")
  {
    TablesCoverClassLabels();
  }

  // ---------------------------------------------------------------------
  // Fallback report (`generate_fallback_report`)
  // ---------------------------------------------------------------------

  /** The per-label parts of a fallback report; the rest is shared. */
  datatype Template = Template(
    indication: string,
    findingsBefore: string,   // findings text up to the confidence note
    findingsAfter: string,    // findings text after it
    impression: string,
    recommendations: seq<string>)

  const ReportTitle := "CHEST X-RAY INTERPRETATION REPORT"

  /** The confidence note embedded in the findings paragraph. */
  function ConfidenceNote(pct: string): string {
    "(AI confidence: " + pct + ")"
  }

  /** The title and the patient section, each followed by a blank line. */
  function ReportOpening(patientSection: string): string {
    ReportTitle + "\n\n" + patientSection + "\n\n"
  }

  /** The findings paragraph up to the confidence note. */
  function ReportHead(t: Template): string {
    "CLINICAL INDICATION: " + t.indication
    + "\n\nTECHNIQUE: Standard chest radiography\n\nFINDINGS: " + t.findingsBefore
  }

  /** From the end of the confidence note to the recommendations. */
  function ReportTail(t: Template): string {
    t.findingsAfter + "\n\nIMPRESSION: " + t.impression + "\n\nRECOMMENDATIONS:\n"
    + Join(t.recommendations, "\n")
  }

  /** The last line of every fallback report. */
  function ReportFooter(now: string): string {
    "\n\nReport generated: " + now
  }

  /** One f-string of the `reports` dictionary, filled in. */
  function RenderTemplate(t: Template, pct: string, patientSection: string, now: string): string {
    ReportOpening(patientSection) + (ReportHead(t) + ConfidenceNote(pct) + ReportTail(t)) + ReportFooter(now)
  }

  /** The fallback templates, one per label. */
  const CovidTemplate := Template(
    "Evaluation for suspected COVID-19 pneumonia",
    "The chest radiograph demonstrates findings consistent with COVID-19 pneumonia ",
    ". Bilateral ground-glass opacities are observed, predominantly in the peripheral and lower lobe distribution. The pattern is characteristic of viral pneumonia with COVID-19 features. The cardiac silhouette appears normal in size and contour. No pleural effusion or pneumothorax is identified. The mediastinal contours are unremarkable.",
    "Radiographic findings highly suggestive of COVID-19 pneumonia with bilateral peripheral ground-glass opacities.",
    ["1. RT-PCR testing for COVID-19 confirmation and clinical correlation",
     "2. Patient isolation per institutional COVID-19 protocols",
     "3. Follow-up chest imaging in 7-10 days or if clinical condition deteriorates",
     "4. Consider chest CT for better characterization if symptoms worsen",
     "5. Monitor oxygen saturation and respiratory status closely"])

  const ViralPneumoniaTemplate := Template(
    "Evaluation for suspected viral pneumonia",
    "The chest radiograph shows findings consistent with viral pneumonia ",
    ". Bilateral interstitial infiltrates are observed with a diffuse pattern throughout both lung fields. The appearance suggests viral etiology rather than bacterial pneumonia. The cardiac silhouette is within normal limits. No significant pleural effusion is noted.",
    "Findings consistent with viral pneumonia, characterized by bilateral interstitial infiltrates.",
    ["1. Clinical correlation with symptoms and vital signs",
     "2. Supportive care and symptomatic treatment as indicated",
     "3. Follow-up chest radiograph in 7-10 days to assess progression",
     "4. Consider viral studies if specific pathogen identification needed",
     "5. Monitor for complications and respiratory deterioration"])

  const LungOpacityTemplate := Template(
    "Evaluation of lung opacities",
    "The chest radiograph reveals lung opacities ",
    ". Areas of increased density are noted, suggesting possible infectious process, inflammatory changes, or fluid accumulation. The distribution and characteristics require clinical correlation for definitive diagnosis. The cardiac silhouette appears normal. Costophrenic angles are preserved.",
    "Lung opacities present with differential diagnosis including pneumonia, pulmonary edema, or inflammatory process.",
    ["1. Clinical correlation with patient symptoms, vital signs, and physical examination",
     "2. Complete blood count and inflammatory markers (CRP, ESR, procalcitonin)",
     "3. Consider chest CT for better characterization of opacities",
     "4. Follow-up imaging in 48-72 hours to assess response to treatment",
     "5. Appropriate antimicrobial therapy if infectious etiology suspected"])

  const NormalTemplate := Template(
    "Routine chest evaluation",
    "The chest radiograph appears normal ",
    ". The lungs are clear bilaterally with no evidence of consolidation, pneumothorax, or pleural effusion. The cardiac silhouette is normal in size and configuration. The mediastinal contours are unremarkable. The diaphragmatic contours are normal and the costophrenic angles are sharp.",
    "Normal chest radiograph. No acute cardiopulmonary abnormalities detected.",
    ["1. No immediate follow-up imaging required unless clinically indicated",
     "2. Continue routine health maintenance and age-appropriate screening",
     "3. Return for imaging if respiratory symptoms develop",
     "4. Clinical follow-up as deemed appropriate by treating physician"])

  /** The `reports` dictionary of `generate_fallback_report`, one template per label. */
  const FallbackTemplates: map<string, Template> := map[
    "COVID" := CovidTemplate,
    "Viral Pneumonia" := ViralPneumoniaTemplate,
    "Lung_Opacity" := LungOpacityTemplate,
    "Normal" := NormalTemplate
  ]

  /** `generate_fallback_report`: the label's template filled in with the
      formatted confidence, the patient context and the time, or a
      diagnostic string for a label without a template. `pct` stands for
      the `{:.1%}` formatting and `now` for the current time. */
  function FallbackReport(prediction: string, confidence: real, info: Option<PatientInfo>,
                          pct: real -> string, now: string): string
  {
    if prediction in FallbackTemplates then
      RenderTemplate(FallbackTemplates[prediction], pct(confidence), PatientContext(info), now)
    else
      "Report generation error for condition: " + prediction
  }

  /** Any filled-in template starts with the title and the patient section,
      contains the confidence note, and ends with the generation time. */
  lemma RenderTemplateShape(t: Template, pct: string, patientSection: string, now: string)
    ensures var r := RenderTemplate(t, pct, patientSection, now);
      && StartsWith(r, ReportOpening(patientSection))
      && IsInfix(ConfidenceNote(pct), r)
      && EndsWith(r, ReportFooter(now))
  {
    NestedPieces(ReportOpening(patientSection), ReportHead(t), ConfidenceNote(pct), ReportTail(t),
                 ReportFooter(now));
  }

  /** For each of the four labels the fallback report starts with the title
      and the patient section, contains the formatted confidence, and ends
      with the generation time; any other label gets exactly the
      diagnostic string naming it. */
  lemma FallbackReportShape(prediction: string, confidence: real, info: Option<PatientInfo>,
                            pct: real -> string, now: string)
    ensures var r := FallbackReport(prediction, confidence, info, pct, now);
      if prediction in ModelUtils.ClassLabels then
        && StartsWith(r, ReportOpening(PatientContext(info)))
        && IsInfix(ConfidenceNote(pct(confidence)), r)
        && EndsWith(r, ReportFooter(now))
      else
        r == "Report generation error for condition: " + prediction
  {
    TablesCoverClassLabels();
    if prediction in ModelUtils.ClassLabels {
      RenderTemplateShape(FallbackTemplates[prediction], pct(confidence), PatientContext(info), now);
    }
  }

  /** A label without a template does not fall back to the Normal template:
      the report is the one-line diagnostic, unlike the Normal report. */
  lemma UnknownLabelIsNotNormal(prediction: string, confidence: real, info: Option<PatientInfo>,
                                pct: real -> string, now: string)
    requires prediction !in ModelUtils.ClassLabels
    ensures FallbackReport(prediction, confidence, info, pct, now)
         != FallbackReport("Normal", confidence, info, pct, now)
  {
    FallbackReportShape(prediction, confidence, info, pct, now);
    FallbackReportShape("Normal", confidence, info, pct, now);
    var e := "Report generation error for condition: " + prediction;
    var n := FallbackReport("Normal", confidence, info, pct, now);
    var opening := ReportOpening(PatientContext(info));
    assert n[0] == opening[0] == 'C';
    assert e[0] == 'R';
  }

  // ---------------------------------------------------------------------
  // The remote path (`generate_gemini_report`) and `generate_report`
  // ---------------------------------------------------------------------

  /** What goes into the remote prompt (its wording is not modelled). */
  datatype PromptInputs = PromptInputs(
    prediction: string, confidence: real, patientContext: string, guidance: Guidance, analysisDate: string)

  /** What the remote call yields: an exception with its message, or a
      response with its list of parts and its text. */
  datatype ServiceReply = Raised(message: string) | Reply(parts: seq<string>, text: string)

  /** The environment of the remote path: whether the client package can be
      imported, the `GOOGLE_API_KEY` variable, and the service itself. */
  datatype RemoteService = RemoteService(
    packageInstalled: bool, apiKey: Option<string>, generate: PromptInputs -> ServiceReply)

  const PackageMissing := "'google-generativeai' package not installed. Please run 'pip install google-generativeai'"
  const GeminiErrorPrefix := "An error occurred with the Gemini API: "
  const KeyMissing := "Google API key not found. Set it in your environment."
  const NoContent := "Content generation failed despite safety overrides. Check the prompt or model configuration."

  /** `not api_key`: unset or empty. */
  predicate HasApiKey(key: Option<string>) {
    key.Some? && key.value != ""
  }

  /** `generate_gemini_report`: the text of a response with parts, or the
      message of the exception it raises. */
  function GeminiReport(remote: RemoteService, prediction: string, confidence: real,
                        info: Option<PatientInfo>, now: string): (r: Result<string, string>)
    ensures r.Success? <==>
      && remote.packageInstalled && HasApiKey(remote.apiKey)
      && var reply := remote.generate(PromptInputs(prediction, confidence, PatientContext(info),
                                                   GetConditionGuidance(prediction), now));
         reply.Reply? && reply.parts != []
    ensures r.Success? ==> r.value == remote.generate(PromptInputs(prediction, confidence,
              PatientContext(info), GetConditionGuidance(prediction), now)).text
    ensures r.Failure? && remote.packageInstalled ==> StartsWith(r.error, GeminiErrorPrefix)
  {
    if !remote.packageInstalled then Failure(PackageMissing)
    else if !HasApiKey(remote.apiKey) then Failure(GeminiErrorPrefix + KeyMissing)
    else
      var prompt := PromptInputs(prediction, confidence, PatientContext(info),
                                 GetConditionGuidance(prediction), now);
      match remote.generate(prompt)
      case Raised(message) => Failure(GeminiErrorPrefix + message)
      case Reply(parts, text) =>
        if parts != [] then Success(text) else Failure(GeminiErrorPrefix + NoContent)
  }

  /** `generate_report`: the remote text, or on any exception the fallback
      report for the same inputs. */
  function GenerateReport(remote: RemoteService, prediction: string, confidence: real,
                          info: Option<PatientInfo>, pct: real -> string, now: string): string
  {
    match GeminiReport(remote, prediction, confidence, info, now)
    case Success(text) => text
    case Failure(_) => FallbackReport(prediction, confidence, info, pct, now)
  }

  /** A remote failure never escapes: the report is either the text of a
      response that had parts, or, when the package, the key or the
      response is missing, the fallback report; for the four labels that
      fallback is a full template report. */
  lemma GenerateReportAbsorbsRemoteFailure(remote: RemoteService, prediction: string, confidence: real,
                                           info: Option<PatientInfo>, pct: real -> string, now: string)
    ensures var r := GenerateReport(remote, prediction, confidence, info, pct, now);
      var reply := remote.generate(PromptInputs(prediction, confidence, PatientContext(info),
                                                GetConditionGuidance(prediction), now));
      if remote.packageInstalled && HasApiKey(remote.apiKey) && reply.Reply? && reply.parts != [] then
        r == reply.text
      else
        && r == FallbackReport(prediction, confidence, info, pct, now)
        && (prediction in ModelUtils.ClassLabels ==>
              StartsWith(r, ReportTitle) && IsInfix(ConfidenceNote(pct(confidence)), r))
  {
    FallbackReportShape(prediction, confidence, info, pct, now);
    var r := GenerateReport(remote, prediction, confidence, info, pct, now);
    var opening := ReportOpening(PatientContext(info));
    var titled := ReportTitle + "\n\n";
    ConcatPieces(ReportTitle, "\n\n", "");
    assert titled + "" == titled;
    ConcatPieces(titled, PatientContext(info), "\n\n");
    StartsWithTransitive(opening, titled, ReportTitle);
    if StartsWith(r, opening) {
      StartsWithTransitive(r, opening, ReportTitle);
    }
  }

  /** The impression of a template appears verbatim in its filled-in report. */
  lemma RenderTemplateImpression(t: Template, pct: string, patientSection: string, now: string)
    ensures IsInfix(t.impression, RenderTemplate(t, pct, patientSection, now))
  {
    var before := t.findingsAfter + "\n\nIMPRESSION: ";
    var after := "\n\nRECOMMENDATIONS:\n" + Join(t.recommendations, "\n");
    assert ReportTail(t) == before + t.impression + after;
    NestedInfix(ReportOpening(patientSection), ReportHead(t), ConfidenceNote(pct),
                before, t.impression, after, ReportFooter(now));
  }

  /** With no API key the Normal analysis yields the fallback report,
      which carries the Normal template's impression ("Normal chest
      radiograph. No acute cardiopulmonary abnormalities detected."). */
  lemma NormalWithoutKeyUsesFallback(remote: RemoteService, confidence: real, info: Option<PatientInfo>,
                                     pct: real -> string, now: string)
    requires !HasApiKey(remote.apiKey)
    ensures GenerateReport(remote, "Normal", confidence, info, pct, now)
         == FallbackReport("Normal", confidence, info, pct, now)
    ensures IsInfix(NormalTemplate.impression, GenerateReport(remote, "Normal", confidence, info, pct, now))
  {
    assert FallbackTemplates["Normal"] == NormalTemplate;
    RenderTemplateImpression(NormalTemplate, pct(confidence), PatientContext(info), now);
  }

  /** Every label the classifier can output has guidance and a template. */
  lemma TablesCoverClassLabels()
    ensures forall l :: l in ModelUtils.ClassLabels <==> l in GuidanceTable
    ensures GuidanceTable.Keys == FallbackTemplates.Keys
  {
    GuidanceKeys();
    FallbackKeys();
    ModelUtils.ClassLabelSet();
  }

  lemma GuidanceKeys()
    ensures GuidanceTable.Keys == {"COVID", "Viral Pneumonia", "Lung_Opacity", "Normal"}
  {
  }

  lemma FallbackKeys()
    ensures FallbackTemplates.Keys == {"COVID", "Viral Pneumonia", "Lung_Opacity", "Normal"}
  {
  }
}
