/** The display-side rules of the Streamlit front end: the CSS class of the
    prediction box, the colours of the confidence chart, the sorted table
    of predictions with its status column, the advice box and its
    confidence banners. The widgets themselves are not modelled; each rule
    is the value it hands to them. */
module UiComponents {
  import opened Sequences
  import ModelUtils

  // ---------------------------------------------------------------------
  // Prediction box (`display_results`)
  // ---------------------------------------------------------------------

  /** The CSS class of the prediction box: above 0.8 high, above 0.6
      medium, otherwise low. */
  function ConfidenceClass(confidence: real): (cls: string)
    ensures cls == "high-confidence" <==> confidence > 0.8
    ensures cls == "medium-confidence" <==> 0.6 < confidence <= 0.8
    ensures cls == "low-confidence" <==> confidence <= 0.6
  {
    if confidence > 0.8 then "high-confidence"
    else if confidence > 0.6 then "medium-confidence"
    else "low-confidence"
  }

  /** The box's class and the confidence level printed inside it, which
      comes from the interpretation, always name the same tier. */
  lemma ConfidenceClassMatchesLevel(confidence: real)
    ensures ConfidenceClass(confidence) == "high-confidence" <==> ModelUtils.LevelOf(confidence) == ModelUtils.High
    ensures ConfidenceClass(confidence) == "medium-confidence" <==> ModelUtils.LevelOf(confidence) == ModelUtils.Medium
    ensures ConfidenceClass(confidence) == "low-confidence" <==> ModelUtils.LevelOf(confidence) == ModelUtils.Low
  {
  }

  // ---------------------------------------------------------------------
  // Confidence chart (`create_confidence_chart`)
  // ---------------------------------------------------------------------

  /** A label and its probability, as in the `all_predictions` dictionary. */
  type Entry = (string, real)

  const HighlightColor := "#FF6B6B"
  const PlainColor := "#4ECDC4"

  /** `max(confidences)`. */
  function MaxOf(values: seq<real>): (m: real)
    requires values != []
    ensures exists i :: 0 <= i < |values| && values[i] == m
    ensures forall i :: 0 <= i < |values| ==> values[i] <= m
  {
    if |values| == 1 then values[0]
    else
      var rest := MaxOf(values[1..]);
      if values[0] >= rest then values[0] else rest
  }

  /** The values of the dictionary, in order. */
  function Confidences(entries: seq<Entry>): (values: seq<real>)
    ensures |values| == |entries|
    ensures forall i :: 0 <= i < |entries| ==> values[i] == entries[i].1
  {
    seq(|entries|, i requires 0 <= i < |entries| => entries[i].1)
  }

  /** The bar colours: the highlight for every bar equal to the maximum,
      the plain colour for the others. */
  function ChartColors(entries: seq<Entry>): (colors: seq<string>)
    ensures |colors| == |entries|
    ensures forall i :: 0 <= i < |entries| ==> colors[i] == HighlightColor || colors[i] == PlainColor
  {
    var values := Confidences(entries);
    seq(|entries|, i requires 0 <= i < |entries| =>
      if values[i] == MaxOf(values) then HighlightColor else PlainColor)
  }

  /** A bar is highlighted exactly when no bar is higher. */
  lemma ChartHighlightRule(entries: seq<Entry>, i: nat)
    requires i < |entries|
    ensures ChartColors(entries)[i] == HighlightColor
        <==> forall j :: 0 <= j < |entries| ==> entries[j].1 <= entries[i].1
  {
    var values := Confidences(entries);
    var m := MaxOf(values);
    var w :| 0 <= w < |values| && values[w] == m;
    if forall j :: 0 <= j < |entries| ==> entries[j].1 <= entries[i].1 {
      assert values[w] <= values[i];
    }
  }

  /** Tied maxima are all highlighted: once one bar is highlighted, the
      highlighted bars are exactly those of the same height. */
  lemma ChartHighlightsEveryMaximum(entries: seq<Entry>, i: nat, j: nat)
    requires i < |entries| && j < |entries|
    requires ChartColors(entries)[i] == HighlightColor
    ensures ChartColors(entries)[j] == HighlightColor <==> entries[j].1 == entries[i].1
  {
    ChartHighlightRule(entries, i);
    ChartHighlightRule(entries, j);
  }

  /** Some bar of a non-empty chart is highlighted. */
  lemma ChartHasHighlight(entries: seq<Entry>)
    requires entries != []
    ensures exists i :: 0 <= i < |entries| && ChartColors(entries)[i] == HighlightColor
  {
    var values := Confidences(entries);
    var m := MaxOf(values);
    var i :| 0 <= i < |values| && values[i] == m;
    assert ChartColors(entries)[i] == HighlightColor;
  }

  // ---------------------------------------------------------------------
  // Sorting (`sorted(..., key=lambda x: x[1], reverse=True)`)
  // ---------------------------------------------------------------------

  /** Descending by confidence. */
  predicate SortedDesc<T>(s: seq<(T, real)>) {
    forall i, j :: 0 <= i < j < |s| ==> s[i].1 >= s[j].1
  }

  /** Places an entry before the first one whose confidence is not larger,
      that is, after every strictly larger one. */
  function Insert<T>(x: (T, real), s: seq<(T, real)>): (r: seq<(T, real)>)
    ensures |r| == |s| + 1
    ensures multiset(r) == multiset(s) + multiset{x}
    decreases |s|
  {
    if s == [] || s[0].1 <= x.1 then [x] + s
    else
      assert s == [s[0]] + s[1..];
      [s[0]] + Insert(x, s[1..])
  }

  /** Inserting into a descending sequence keeps it descending. */
  lemma {:induction false} InsertSorted<T>(x: (T, real), s: seq<(T, real)>)
    requires SortedDesc(s)
    ensures SortedDesc(Insert(x, s))
    decreases |s|
  {
    if s != [] && s[0].1 > x.1 {
      var tail := Insert(x, s[1..]);
      InsertSorted(x, s[1..]);
      InsertBounded(x, s[1..], s[0].1);
      assert Insert(x, s) == [s[0]] + tail;
    }
  }

  /** Inserting an entry no larger than a bound into entries no larger
      than it gives entries no larger than it. */
  lemma {:induction false} InsertBounded<T>(x: (T, real), s: seq<(T, real)>, bound: real)
    requires x.1 <= bound
    requires forall i :: 0 <= i < |s| ==> s[i].1 <= bound
    ensures forall i :: 0 <= i < |Insert(x, s)| ==> Insert(x, s)[i].1 <= bound
    decreases |s|
  {
    if s != [] && s[0].1 > x.1 {
      InsertBounded(x, s[1..], bound);
      assert Insert(x, s) == [s[0]] + Insert(x, s[1..]);
    }
  }

  /** Python's `sorted` with `reverse=True`, which keeps entries with equal
      confidence in their original order: each entry is inserted into the
      sorted rest ahead of the entries it ties with. */
  function SortByConfidence<T>(items: seq<(T, real)>): (r: seq<(T, real)>)
    ensures |r| == |items|
    ensures multiset(r) == multiset(items)
    ensures SortedDesc(r)
    decreases |items|
  {
    if items == [] then []
    else
      var rest := SortByConfidence(items[1..]);
      InsertSorted(items[0], rest);
      assert items == [items[0]] + items[1..];
      Insert(items[0], rest)
  }

  /** The entries with confidence `v`, in order. */
  function WithConfidence<T>(s: seq<(T, real)>, v: real): seq<(T, real)> {
    if s == [] then [] else (if s[0].1 == v then [s[0]] else []) + WithConfidence(s[1..], v)
  }

  lemma {:induction false} WithConfidenceAppend<T>(a: seq<(T, real)>, b: seq<(T, real)>, v: real)
    ensures WithConfidence(a + b, v) == WithConfidence(a, v) + WithConfidence(b, v)
    decreases |a|
  {
    if a == [] {
      assert a + b == b;
    } else {
      var head := if a[0].1 == v then [a[0]] else [];
      assert (a + b)[0] == a[0];
      assert (a + b)[1..] == a[1..] + b;
      assert WithConfidence(a + b, v) == head + WithConfidence(a[1..] + b, v);
      WithConfidenceAppend(a[1..], b, v);
      AppendAssoc(head, WithConfidence(a[1..], v), WithConfidence(b, v));
    }
  }

  /** A single entry is kept exactly when its confidence is `v`. */
  lemma WithConfidenceSingle<T>(e: (T, real), v: real)
    ensures WithConfidence([e], v) == if e.1 == v then [e] else []
  {
    assert [e][1..] == [];
  }

  /** Insertion only passes over strictly larger entries, so the entries
      tied with the inserted one keep it in front. */
  lemma {:induction false} InsertStable<T>(x: (T, real), s: seq<(T, real)>, v: real)
    ensures WithConfidence(Insert(x, s), v) == WithConfidence([x] + s, v)
    decreases |s|
  {
    if s != [] && s[0].1 > x.1 {
      var hs, hx, rest := WithConfidence([s[0]], v), WithConfidence([x], v), WithConfidence(s[1..], v);
      var inserted := Insert(x, s[1..]);
      assert WithConfidence(Insert(x, s), v) == hs + (hx + rest) by {
        assert Insert(x, s) == [s[0]] + inserted;
        WithConfidenceAppend([s[0]], inserted, v);
        InsertStable(x, s[1..], v);
        WithConfidenceAppend([x], s[1..], v);
      }
      assert WithConfidence([x] + s, v) == hx + (hs + rest) by {
        assert s == [s[0]] + s[1..];
        WithConfidenceAppend([s[0]], s[1..], v);
        WithConfidenceAppend([x], s, v);
      }
      assert hs + (hx + rest) == hx + (hs + rest) by {
        WithConfidenceSingle(s[0], v);
        WithConfidenceSingle(x, v);
        assert hs == [] || hx == [];
        assert hs + hx == hx + hs;
        AppendAssoc(hs, hx, rest);
        AppendAssoc(hx, hs, rest);
      }
    }
  }

  /** The sort is stable: for every confidence value, the entries with that
      value appear in the same order as in the input. */
  lemma {:induction false} SortStable<T>(items: seq<(T, real)>, v: real)
    ensures WithConfidence(SortByConfidence(items), v) == WithConfidence(items, v)
    decreases |items|
  {
    if items != [] {
      SortStable(items[1..], v);
      InsertStable(items[0], SortByConfidence(items[1..]), v);
      WithConfidenceAppend([items[0]], SortByConfidence(items[1..]), v);
      WithConfidenceAppend([items[0]], items[1..], v);
      assert items == [items[0]] + items[1..];
    }
  }

  /** The first entry of the sorted table is the first entry of largest
      confidence in the input, which is the one `np.argmax` picks. */
  lemma {:induction false} SortHead<T>(items: seq<(T, real)>, k: nat)
    requires k < |items|
    requires forall j :: 0 <= j < |items| ==> items[j].1 <= items[k].1
    requires forall j :: 0 <= j < k ==> items[j].1 < items[k].1
    ensures SortByConfidence(items)[0] == items[k]
    decreases |items|
  {
    var tail := items[1..];
    var rest := SortByConfidence(tail);
    assert SortByConfidence(items) == Insert(items[0], rest);
    InsertHead(items[0], rest);
    if k == 0 {
      if rest != [] {
        var m := HeadComesFrom(tail, rest);
        assert tail[m] == items[m + 1];
      }
    } else {
      FirstMaximumOfTail(items, k);
      SortHead(tail, k - 1);
    }
  }

  /** The entry in front after an insertion. */
  lemma InsertHead<T>(x: (T, real), s: seq<(T, real)>)
    ensures Insert(x, s)[0] == if s == [] || s[0].1 <= x.1 then x else s[0]
  {
  }

  /** A first maximum after position 0 is a first maximum of the tail. */
  lemma FirstMaximumOfTail<T>(items: seq<(T, real)>, k: nat)
    requires 0 < k < |items|
    requires forall j :: 0 <= j < |items| ==> items[j].1 <= items[k].1
    requires forall j :: 0 <= j < k ==> items[j].1 < items[k].1
    ensures forall j :: 0 <= j < |items[1..]| ==> items[1..][j].1 <= items[1..][k - 1].1
    ensures forall j :: 0 <= j < k - 1 ==> items[1..][j].1 < items[1..][k - 1].1
  {
    var tail := items[1..];
    forall j | 0 <= j < |tail| ensures tail[j].1 <= tail[k - 1].1 {
      assert tail[j] == items[j + 1];
    }
    forall j | 0 <= j < k - 1 ensures tail[j].1 < tail[k - 1].1 {
      assert tail[j] == items[j + 1];
    }
  }

  /** The first entry of a permutation is an entry of the original. */
  lemma HeadComesFrom<T>(items: seq<(T, real)>, perm: seq<(T, real)>) returns (m: nat)
    requires multiset(perm) == multiset(items) && perm != []
    ensures m < |items| && items[m] == perm[0]
  {
    assert perm[0] in multiset(items);
    m :| 0 <= m < |items| && items[m] == perm[0];
  }

  // ---------------------------------------------------------------------
  // Prediction table (`create_prediction_table`)
  // ---------------------------------------------------------------------

  /** The status column. */
  datatype Indicator = Predicted | Consider | Unlikely

  function IndicatorText(i: Indicator): string {
    match i
    case Predicted => "\U{1f3af} **PREDICTED**"
    case Consider => "\U{26a0}\U{fe0f} Consider"
    case Unlikely => "\U{2705} Unlikely"
  }

  /** The status of one row: the top prediction is marked as predicted,
      any other label above 0.1 is to be considered, the rest unlikely. */
  function IndicatorFor(condition: string, confidence: real, topPrediction: string): (i: Indicator)
    ensures i == Predicted <==> condition == topPrediction
    ensures i == Consider <==> condition != topPrediction && confidence > 0.1
    ensures i == Unlikely <==> condition != topPrediction && confidence <= 0.1
  {
    if condition == topPrediction then Predicted
    else if confidence > 0.1 then Consider
    else Unlikely
  }

  /** One row of `table_data`; `confidence` is the `{:.1%}` text. */
  datatype Row = Row(condition: string, confidence: string, status: Indicator, bar: real)

  /** The row for one sorted entry; `pct` stands for the `{:.1%}` formatting. */
  function RowFor(e: Entry, topPrediction: string, pct: real -> string): Row {
    Row(e.0, pct(e.1), IndicatorFor(e.0, e.1, topPrediction), e.1)
  }

  /** The table: one row per dictionary entry, in sorted order. */
  function PredictionTable(entries: seq<Entry>, topPrediction: string, pct: real -> string): (rows: seq<Row>)
    ensures |rows| == |entries|
    ensures forall i :: 0 <= i < |rows| ==>
      rows[i] == RowFor(SortByConfidence(entries)[i], topPrediction, pct)
  {
    var sorted := SortByConfidence(entries);
    seq(|sorted|, i requires 0 <= i < |sorted| => RowFor(sorted[i], topPrediction, pct))
  }

  /** The table loop: rows are appended one sorted entry at a time. */
  method CreatePredictionTable(allPredictions: seq<Entry>, topPrediction: string, pct: real -> string)
    returns (tableData: seq<Row>)
    ensures tableData == PredictionTable(allPredictions, topPrediction, pct)
  {
    var sortedPredictions := SortByConfidence(allPredictions);
    tableData := [];
    for i := 0 to |sortedPredictions|
      invariant |tableData| == i
      invariant forall j :: 0 <= j < i ==> tableData[j] == RowFor(sortedPredictions[j], topPrediction, pct)
    {
      var (condition, confidence) := sortedPredictions[i];
      var indicator: Indicator;
      if condition == topPrediction {
        indicator := Predicted;
      } else if confidence > 0.1 {
        indicator := Consider;
      } else {
        indicator := Unlikely;
      }
      tableData := tableData + [Row(condition, pct(confidence), indicator, confidence)];
    }
  }

  /** The rows' bars descend, and the (label, bar) pairs are exactly the
      dictionary's entries, with tied entries in their original order. */
  lemma TableIsStableSort(entries: seq<Entry>, topPrediction: string, pct: real -> string, v: real)
    ensures var rows := PredictionTable(entries, topPrediction, pct);
      && (forall i, j :: 0 <= i < j < |rows| ==> rows[i].bar >= rows[j].bar)
      && multiset(seq(|rows|, i requires 0 <= i < |rows| => (rows[i].condition, rows[i].bar))) == multiset(entries)
      && WithConfidence(seq(|rows|, i requires 0 <= i < |rows| => (rows[i].condition, rows[i].bar)), v)
         == WithConfidence(entries, v)
  {
    var rows := PredictionTable(entries, topPrediction, pct);
    var pairs := seq(|rows|, i requires 0 <= i < |rows| => (rows[i].condition, rows[i].bar));
    assert pairs == SortByConfidence(entries);
    SortStable(entries, v);
  }

  /** For the dictionary `predict_image` returns, the first row is the
      predicted label, marked as predicted, and no other row is. */
  lemma PredictedRowComesFirst(output: seq<real>, pct: real -> string)
    requires ModelUtils.PredictImage(output).Success?
    ensures var p := ModelUtils.PredictImage(output).value;
      var rows := PredictionTable(p.allPredictions, p.predictedClass, pct);
      && |rows| == |ModelUtils.ClassLabels|
      && rows[0].condition == p.predictedClass && rows[0].status == Predicted
      && rows[0].bar == p.confidence
      && forall i :: 1 <= i < |rows| ==> rows[i].status != Predicted
  {
    var p := ModelUtils.PredictImage(output).value;
    var entries := p.allPredictions;
    var k := PredictedIndex(output);
    var sorted := SortByConfidence(entries);
    SortHead(entries, k);
    forall i | 1 <= i < |sorted| ensures sorted[i].0 != p.predictedClass {
      LabelOnce(entries, sorted, i, k);
    }
  }

  /** The position of the predicted label in the dictionary: its entry is
      the first one of largest confidence. */
  lemma PredictedIndex(output: seq<real>) returns (k: nat)
    requires ModelUtils.PredictImage(output).Success?
    ensures var p := ModelUtils.PredictImage(output).value;
      && k < |p.allPredictions|
      && p.allPredictions[k] == (p.predictedClass, p.confidence)
      && p.predictedClass == ModelUtils.ClassLabels[k]
      && |p.allPredictions| == |ModelUtils.ClassLabels|
      && (forall j :: 0 <= j < |p.allPredictions| ==> p.allPredictions[j].0 == ModelUtils.ClassLabels[j])
      && (forall j :: 0 <= j < |p.allPredictions| ==> p.allPredictions[j].1 <= p.allPredictions[k].1)
      && (forall j :: 0 <= j < k ==> p.allPredictions[j].1 < p.allPredictions[k].1)
  {
    var p := ModelUtils.PredictImage(output).value;
    k :| 0 <= k < |ModelUtils.ClassLabels|
      && p.predictedClass == ModelUtils.ClassLabels[k] && p.confidence == output[k]
      && (forall j :: 0 <= j < |output| ==> output[j] <= output[k])
      && (forall j :: 0 <= j < k ==> output[j] < output[k]);
  }

  /** In a permutation of the four-label dictionary whose first entry is
      the entry of label `k`, no later entry carries that label. */
  lemma LabelOnce(entries: seq<Entry>, sorted: seq<Entry>, i: nat, k: nat)
    requires |entries| == |ModelUtils.ClassLabels| && k < |entries|
    requires forall j :: 0 <= j < |entries| ==> entries[j].0 == ModelUtils.ClassLabels[j]
    requires multiset(sorted) == multiset(entries)
    requires sorted != [] && sorted[0] == entries[k]
    requires 1 <= i < |sorted|
    ensures sorted[i].0 != ModelUtils.ClassLabels[k]
  {
    OnlyOccurrence(entries, k);
    assert sorted == [sorted[0]] + sorted[1..];
    assert multiset(sorted) == multiset{sorted[0]} + multiset(sorted[1..]);
    assert entries[k] !in multiset(sorted[1..]);
    assert sorted[i] == sorted[1..][i - 1];
    assert sorted[i] != entries[k];
    assert sorted[i] in multiset(entries);
    var m :| 0 <= m < |entries| && entries[m] == sorted[i];
    assert m != k;
    var labels := ModelUtils.ClassLabels;
    assert labels[0] != labels[1] && labels[0] != labels[2] && labels[0] != labels[3];
    assert labels[1] != labels[2] && labels[1] != labels[3] && labels[2] != labels[3];
  }

  /** An entry of the four-label dictionary occurs once in it. */
  lemma OnlyOccurrence(entries: seq<Entry>, k: nat)
    requires |entries| == |ModelUtils.ClassLabels| && k < |entries|
    requires forall j :: 0 <= j < |entries| ==> entries[j].0 == ModelUtils.ClassLabels[j]
    ensures multiset(entries)[entries[k]] == 1
  {
    var labels := ModelUtils.ClassLabels;
    assert labels[0] != labels[1] && labels[0] != labels[2] && labels[0] != labels[3];
    assert labels[1] != labels[2] && labels[1] != labels[3] && labels[2] != labels[3];
    assert entries == [entries[0], entries[1], entries[2], entries[3]];
  }

  // ---------------------------------------------------------------------
  // Advice box (`create_medical_advice_box`)
  // ---------------------------------------------------------------------

  /** The four advice lines shown for a label. */
  datatype Advice = Advice(immediate: string, testing: string, monitoring: string, followup: string)

  /** The `advice_content` dictionary. */
  const AdviceContent: map<string, Advice> := map[
    "COVID" := Advice(
      "\U{1f6a8} Immediate isolation recommended",
      "\U{1f4cb} RT-PCR testing required",
      "\U{1fa7a} Monitor oxygen levels closely",
      "\U{1f4c5} Follow-up in 7-10 days"),
    "Viral Pneumonia" := Advice(
      "\U{1f3e5} Medical evaluation recommended",
      "\U{1f9ea} Consider viral panel testing",
      "\U{1f321}\U{fe0f} Monitor symptoms and fever",
      "\U{1f4c5} Follow-up in 5-7 days"),
    "Lung_Opacity" := Advice(
      "\U{1f468}\U{200d}\U{2695}\U{fe0f} Clinical correlation needed",
      "\U{1f52c} Laboratory studies recommended",
      "\U{1f4ca} Monitor symptoms progression",
      "\U{1f4c5} Follow-up in 2-3 days"),
    "Normal" := Advice(
      "\U{2705} No immediate action required",
      "\U{1f4dd} Routine care as needed",
      "\U{1f60a} Continue normal activities",
      "\U{1f4c5} Routine follow-up as scheduled")
  ]

  /** `advice_content.get(prediction, advice_content['Normal'])`. */
  function GetAdvice(prediction: string): Advice {
    if prediction in AdviceContent then AdviceContent[prediction] else AdviceContent["Normal"]
  }

  /** Each of the four labels gets its own entry; any other string gets the
      Normal advice. */
  lemma AdviceLookup(prediction: string)
    ensures prediction in ModelUtils.ClassLabels ==> GetAdvice(prediction) == AdviceContent[prediction]
    ensures prediction !in ModelUtils.ClassLabels ==> GetAdvice(prediction) == GetAdvice("Normal")
  {
    AdviceKeys();
    ModelUtils.ClassLabelSet();
  }

  /** The four labels get four different follow-up intervals. */
  lemma AdviceDistinct(prediction: string, other: string)
    requires prediction in AdviceContent && other in AdviceContent && prediction != other
    ensures GetAdvice(prediction).followup != GetAdvice(other).followup
  {
    AdviceKeys();
    FollowupMarks();
  }

  lemma AdviceKeys()
    ensures AdviceContent.Keys == {"COVID", "Viral Pneumonia", "Lung_Opacity", "Normal"}
  {
  }

  /** One character that tells each follow-up line apart. */
  lemma FollowupMarks()
    ensures AdviceContent["COVID"].followup[15] == '7'
    ensures AdviceContent["Viral Pneumonia"].followup[15] == '5'
    ensures AdviceContent["Lung_Opacity"].followup[15] == '2'
    ensures AdviceContent["Normal"].followup[2] == 'R'
  {
  }

  /** The extra banner under the advice. */
  datatype Banner = LowConfidenceAlert | HighConfidenceNote | NoBanner

  function BannerText(b: Banner): string {
    match b
    case LowConfidenceAlert =>
      "\U{26a0}\U{fe0f} **Low Confidence Alert:** Consider additional imaging or second opinion due to moderate confidence level."
    case HighConfidenceNote => "\U{2705} **High Confidence:** AI analysis shows strong confidence in prediction."
    case NoBanner => ""
  }

  /** Below 0.6 the low-confidence warning, above 0.9 the high-confidence
      note, and nothing in between. */
  function BannerFor(confidence: real): (b: Banner)
    ensures b == LowConfidenceAlert <==> confidence < 0.6
    ensures b == HighConfidenceNote <==> confidence > 0.9
    ensures b == NoBanner <==> 0.6 <= confidence <= 0.9
  {
    if confidence < 0.6 then LowConfidenceAlert
    else if confidence > 0.9 then HighConfidenceNote
    else NoBanner
  }

  /** The banner never contradicts the box's class: the warning comes only
      with the low class and the note only with the high one. At exactly
      0.6 the box is low-confidence but no warning is shown. */
  lemma BannerAgreesWithClass(confidence: real)
    ensures BannerFor(confidence) == LowConfidenceAlert ==> ConfidenceClass(confidence) == "low-confidence"
    ensures BannerFor(confidence) == HighConfidenceNote ==> ConfidenceClass(confidence) == "high-confidence"
    ensures BannerFor(0.6) == NoBanner && ConfidenceClass(0.6) == "low-confidence"
  {
  }
}
