/** Patient information as the sidebar form collects it: an insertion-ordered
    dictionary from field name to a Python value, together with Python's
    truthiness and `str()` on those values. */
module Patient {
  import opened Sequences
  import opened PyText

  /** The values the sidebar widgets produce: text inputs and the select box
      give strings, the age input gives an integer or `None`. */
  datatype Value = Str(s: string) | Int(n: int) | NoneValue

  /** An ordered dictionary: field name and value, in insertion order. */
  type Field = (string, Value)
  type PatientInfo = seq<Field>

  /** Python truthiness: the empty string, 0 and None are falsy. */
  predicate Truthy(v: Value) {
    match v
    case Str(s) => s != ""
    case Int(n) => n != 0
    case NoneValue => false
  }

  /** `str(value)`. */
  function Render(v: Value): string {
    match v
    case Str(s) => s
    case Int(n) => IntToString(n)
    case NoneValue => "None"
  }

  /** `any(patient_info.values())`. */
  predicate AnyTruthy(info: PatientInfo) {
    exists i :: 0 <= i < |info| && Truthy(info[i].1)
  }

  /** `{k: v for k, v in info.items() if v}`: the truthy entries, in order. */
  function TruthyEntries(info: PatientInfo): (r: PatientInfo)
    ensures |r| <= |info|
    ensures forall i :: 0 <= i < |r| ==> Truthy(r[i].1)
  {
    if info == [] then []
    else (if Truthy(info[0].1) then [info[0]] else []) + TruthyEntries(info[1..])
  }

  /** The filter keeps exactly the truthy fields. */
  lemma {:induction false} TruthyEntriesMembers(info: PatientInfo)
    ensures forall f :: f in TruthyEntries(info) <==> f in info && Truthy(f.1)
  {
    if info != [] {
      TruthyEntriesMembers(info[1..]);
      assert info == [info[0]] + info[1..];
    }
  }

  /** Filtering distributes over concatenation, so a loop that filters
      a prefix at a time builds the same sequence. */
  lemma {:induction false} TruthyEntriesAppend(a: PatientInfo, b: PatientInfo)
    ensures TruthyEntries(a + b) == TruthyEntries(a) + TruthyEntries(b)
  {
    if a == [] {
      assert a + b == b;
    } else {
      var head := if Truthy(a[0].1) then [a[0]] else [];
      assert (a + b)[0] == a[0];
      assert (a + b)[1..] == a[1..] + b;
      TruthyEntriesAppend(a[1..], b);
      AppendAssoc(head, TruthyEntries(a[1..]), TruthyEntries(b));
    }
  }

  /** Some value is truthy exactly when filtering leaves something. */
  lemma AnyTruthyIffEntries(info: PatientInfo)
    ensures AnyTruthy(info) <==> TruthyEntries(info) != []
  {
    TruthyEntriesMembers(info);
    if AnyTruthy(info) {
      var i :| 0 <= i < |info| && Truthy(info[i].1);
      assert info[i] in TruthyEntries(info);
    }
  }

  /** Filtering is idempotent: the sidebar's filtered dictionary is left
      alone by every later "skip falsy values" loop. */
  lemma {:induction false} TruthyEntriesIdempotent(info: PatientInfo)
    ensures TruthyEntries(TruthyEntries(info)) == TruthyEntries(info)
  {
    if info != [] {
      TruthyEntriesIdempotent(info[1..]);
      var t := TruthyEntries(info[1..]);
      if Truthy(info[0].1) {
        var r := [info[0]] + t;
        assert r[0] == info[0];
        assert r[1..] == t;
        assert TruthyEntries(info) == r;
        assert TruthyEntries(r) == [r[0]] + TruthyEntries(r[1..]);
      } else {
        assert TruthyEntries(info) == [] + t;
        assert [] + t == t;
      }
    }
  }

  /** The sidebar filter (an age of 0, the blank gender choice and an
      empty text area all disappear) keeps every truthy field, in order. */
  lemma SidebarFilterExample()
    ensures TruthyEntries([("Patient ID", Str("P-7")), ("Age", Int(0)), ("Gender", Str("")),
                           ("Clinical History", Str("")), ("Referring Physician", Str("Dr. Lee"))])
         == [("Patient ID", Str("P-7")), ("Referring Physician", Str("Dr. Lee"))]
  {
  }
}
