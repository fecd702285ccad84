/** Post-processing of the classifier's output: the fixed label list, the
    arg-max that picks the predicted label, the per-label probability
    dictionary, the confidence check and the interpretation table.
    The classifier itself is not modelled: its probability row is an input. */
module ModelUtils {
  import opened Outcomes

  /** `CLASS_LABELS`, in the classifier's output order. */
  const ClassLabels: seq<string> := ["COVID", "Lung_Opacity", "Normal", "Viral Pneumonia"]

  /** The labels as a set. */
  lemma ClassLabelSet()
    ensures forall l :: l in ClassLabels <==> l in {"COVID", "Viral Pneumonia", "Lung_Opacity", "Normal"}
  {
  }

  /** `np.argmax`: the index of the first largest value. */
  function ArgMax(v: seq<real>): (k: nat)
    requires |v| > 0
    ensures k < |v|
    ensures forall j :: 0 <= j < |v| ==> v[j] <= v[k]
    ensures forall j :: 0 <= j < k ==> v[j] < v[k]
  {
    if |v| == 1 then 0
    else
      var k := ArgMax(v[..|v| - 1]);
      if v[|v| - 1] > v[k] then |v| - 1 else k
  }

  /** What `predict_image` returns: the label, its probability and the
      dictionary of every label's probability, in `CLASS_LABELS` order. */
  datatype Prediction = Prediction(predictedClass: string, confidence: real, allPredictions: seq<(string, real)>)

  /** The ways the post-processing raises (reported as "Prediction failed"):
      `np.argmax` of an empty row, an arg-max beyond the four labels, and
      a row too short for the dictionary comprehension. */
  datatype PredictError = EmptyOutput | LabelIndexOutOfRange | OutputIndexOutOfRange

  /** `predict_image` from the classifier's output row onwards. */
  function PredictImage(row: seq<real>): (r: Result<Prediction, PredictError>)
    ensures r.Success? <==> |row| >= |ClassLabels| && ArgMax(row) < |ClassLabels|
    ensures r.Success? ==>
      && (exists k :: 0 <= k < |ClassLabels|
            && r.value.predictedClass == ClassLabels[k] && r.value.confidence == row[k]
            && (forall j :: 0 <= j < |row| ==> row[j] <= row[k])
            && (forall j :: 0 <= j < k ==> row[j] < row[k]))
      && |r.value.allPredictions| == |ClassLabels|
      && (forall i :: 0 <= i < |ClassLabels| ==>
            r.value.allPredictions[i] == (ClassLabels[i], row[i]))
      && (forall i :: 0 <= i < |ClassLabels| ==>
            r.value.allPredictions[i].1 <= r.value.confidence)
  {
    if |row| == 0 then Failure(EmptyOutput)
    else
      var k := ArgMax(row);
      if k >= |ClassLabels| then Failure(LabelIndexOutOfRange)
      else if |row| < |ClassLabels| then Failure(OutputIndexOutOfRange)
      else
        Success(Prediction(ClassLabels[k], row[k],
                           seq(|ClassLabels|, i requires 0 <= i < |ClassLabels| => (ClassLabels[i], row[i]))))
  }

  /** A four-class output row (what the classifier produces) never fails. */
  lemma PredictImageTotalOnFourClasses(row: seq<real>)
    requires |row| == |ClassLabels|
    ensures PredictImage(row).Success?
  {
  }

  /** A tie between the first two labels goes to the first one. */
  lemma PredictImageTieExample()
    ensures PredictImage([0.4, 0.4, 0.1, 0.1]) == Success(Prediction("COVID", 0.4,
      [("COVID", 0.4), ("Lung_Opacity", 0.4), ("Normal", 0.1), ("Viral Pneumonia", 0.1)]))
  {
    var row := [0.4, 0.4, 0.1, 0.1];
    assert ArgMax(row) == 0;
    var r := PredictImage(row);
    var expected := [("COVID", 0.4), ("Lung_Opacity", 0.4), ("Normal", 0.1), ("Viral Pneumonia", 0.1)];
    assert forall i :: 0 <= i < 4 ==> r.value.allPredictions[i] == expected[i];
    assert r.Success?;
    assert r.value.allPredictions == expected;
    assert r.value.predictedClass == "COVID";
    assert r.value.confidence == 0.4;
  }

  /** The default minimum of `validate_prediction_confidence`. */
  const DefaultThreshold: real := 0.5

  const HighConfidenceMessage := "High confidence prediction"
  const ModerateConfidenceMessage := "Moderate confidence - consider additional testing"
  const LowConfidenceMessage := "Low confidence - manual review recommended"

  /** `validate_prediction_confidence`: (is_valid, message). */
  function ValidatePredictionConfidence(confidence: real, threshold: real): (r: (bool, string))
    ensures r.0 <==> confidence >= threshold || confidence >= 0.3
    ensures r.1 == HighConfidenceMessage <==> confidence >= threshold
    ensures r.1 == ModerateConfidenceMessage <==> confidence < threshold && confidence >= 0.3
    ensures r.1 == LowConfidenceMessage <==> !r.0
  {
    if confidence >= threshold then (true, HighConfidenceMessage)
    else if confidence >= 0.3 then (true, ModerateConfidenceMessage)
    else (false, LowConfidenceMessage)
  }

  /** With the default threshold a prediction is accepted exactly when its
      confidence is at least 0.3, and called "high" from 0.5 upwards. */
  lemma DefaultThresholdAcceptance(confidence: real)
    ensures ValidatePredictionConfidence(confidence, DefaultThreshold).0 <==> confidence >= 0.3
    ensures ValidatePredictionConfidence(confidence, DefaultThreshold).1 == HighConfidenceMessage
            <==> confidence >= 0.5
  {
  }

  /** The three confidence tiers. */
  datatype ConfidenceLevel = High | Medium | Low

  /** The tier's display name. */
  function LevelName(l: ConfidenceLevel): string {
    match l
    case High => "High"
    case Medium => "Medium"
    case Low => "Low"
  }

  /** The tier rule of `get_prediction_interpretation`: strictly above 0.8 is
      High, strictly above 0.6 is Medium, everything else Low. */
  function LevelOf(confidence: real): (l: ConfidenceLevel)
    ensures l == High <==> confidence > 0.8
    ensures l == Medium <==> 0.6 < confidence <= 0.8
    ensures l == Low <==> confidence <= 0.6
  {
    if confidence > 0.8 then High else if confidence > 0.6 then Medium else Low
  }

  function Rank(l: ConfidenceLevel): nat {
    match l
    case Low => 0
    case Medium => 1
    case High => 2
  }

  /** A higher confidence never gets a lower tier. */
  lemma LevelOfMonotone(c1: real, c2: real)
    requires c1 <= c2
    ensures Rank(LevelOf(c1)) <= Rank(LevelOf(c2))
  {
  }

  /** The exact boundaries: 0.8 and 0.6 belong to the lower tier. */
  lemma LevelBoundaries()
    ensures LevelOf(0.8) == Medium && LevelOf(0.8000001) == High
    ensures LevelOf(0.6) == Low && LevelOf(0.6000001) == Medium
  {
  }

  /** One row of the interpretation table. */
  datatype ConditionInfo = ConditionInfo(description: string, urgency: string, color: string, icon: string)

  /** The dictionary returned by `get_prediction_interpretation`. */
  datatype Interpretation = Interpretation(
    description: string, urgency: string, color: string, icon: string,
    confidence: real, confidenceLevel: string)

  /** The fixed table of `get_prediction_interpretation`. */
  const InterpretationTable: map<string, ConditionInfo> := map[
    "COVID" := ConditionInfo("COVID-19 pneumonia detected", "High", "red", "\U{1F9A0}"),
    "Viral Pneumonia" := ConditionInfo("Viral pneumonia detected", "High", "orange", "\U{1FAC1}"),
    "Lung_Opacity" := ConditionInfo("Lung opacities detected", "Medium", "yellow", "\U{26A0}\U{FE0F}"),
    "Normal" := ConditionInfo("No abnormalities detected", "Low", "green", "\U{2705}")
  ]

  /** The entry used for a label the table does not know. */
  const UnknownCondition := ConditionInfo("Unknown condition", "Unknown", "gray", "\U{2753}")

  /** `get_prediction_interpretation`: a freshly built record from the
      table row (or the unknown entry), the confidence passed through and
      its tier's name. */
  function GetPredictionInterpretation(predictedClass: string, confidence: real): (r: Interpretation)
    ensures r.confidence == confidence
    ensures r.confidenceLevel == LevelName(LevelOf(confidence))
  {
    var base := if predictedClass in InterpretationTable then InterpretationTable[predictedClass]
                else UnknownCondition;
    Interpretation(base.description, base.urgency, base.color, base.icon,
                   confidence, LevelName(LevelOf(confidence)))
  }

  /** Every label the classifier can output has its own table row, and
      any other label gets the "Unknown" row; the result depends on
      nothing but the two arguments. */
  lemma InterpretationLookup(predictedClass: string, confidence: real)
    ensures var r := GetPredictionInterpretation(predictedClass, confidence);
      && (predictedClass in ClassLabels ==>
            predictedClass in InterpretationTable
            && r.description == InterpretationTable[predictedClass].description
            && r.urgency == InterpretationTable[predictedClass].urgency
            && r.color == InterpretationTable[predictedClass].color
            && r.icon == InterpretationTable[predictedClass].icon
            && r.urgency != "Unknown")
      && (predictedClass !in ClassLabels ==>
            r.description == "Unknown condition" && r.urgency == "Unknown" && r.color == "gray"
            && r.icon == "\U{2753}")
  {
    ClassLabelSet();
    InterpretationKeys();
  }

  lemma InterpretationKeys()
    ensures InterpretationTable.Keys == {"COVID", "Viral Pneumonia", "Lung_Opacity", "Normal"}
  {
  }

  /** The full record each known label gets, at any confidence. */
  lemma InterpretationRows(c: real)
    ensures var level := LevelName(LevelOf(c));
      && GetPredictionInterpretation("COVID", c)
         == Interpretation("COVID-19 pneumonia detected", "High", "red", "\U{1F9A0}", c, level)
      && GetPredictionInterpretation("Viral Pneumonia", c)
         == Interpretation("Viral pneumonia detected", "High", "orange", "\U{1FAC1}", c, level)
      && GetPredictionInterpretation("Lung_Opacity", c)
         == Interpretation("Lung opacities detected", "Medium", "yellow", "\U{26A0}\U{FE0F}", c, level)
      && GetPredictionInterpretation("Normal", c)
         == Interpretation("No abnormalities detected", "Low", "green", "\U{2705}", c, level)
  {
  }
}
