/** The plain-canvas fallback report: the report text is split into lines,
    lines longer than 80 characters are wrapped greedily on spaces, every
    drawn line lowers the pen by 12 points, a new page is started before a
    source line when the pen is below 50 points, and the disclaimer forces
    a new page when fewer than 100 points are left. The canvas is modelled
    as the sequence of calls made on it. */
module SimplePdf {
  import opened Sequences
  import opened PyText

  /** The canvas calls made by the text and disclaimer part of the report. */
  datatype CanvasOp =
    | SetFont(name: string, size: int)
    | SetFillColor(color: string)
    | DrawString(x: real, y: real, text: string)
    | ShowPage

  /** US letter is 792 points high; a new page starts 50 points below its top. */
  const PageHeight: real := 792.0
  const PageTop: real := PageHeight - 50.0

  /** The line length from which a line is wrapped, and the pen step. */
  const WrapWidth: nat := 80
  const LineStep: real := 12.0

  // ---------------------------------------------------------------------
  // Greedy word wrap
  // ---------------------------------------------------------------------

  /** `current_line` while the words `cur` are collected: each word is
      followed by one space; no words give the empty string. */
  function CurText(cur: seq<string>): (t: string)
    ensures t == "" <==> cur == []
  {
    if cur == [] then "" else Join(cur, " ") + " "
  }

  /** The greedy packing: `cur` holds the words of the line being built; a
      word joins it while `len(current_line + word) < 80`, otherwise the
      line is emitted (when non-empty) and the word starts the next one. */
  function Pack(words: seq<string>, cur: seq<string>): seq<seq<string>>
    decreases |words|
  {
    if words == [] then (if cur == [] then [] else [cur])
    else if |CurText(cur) + words[0]| < WrapWidth then Pack(words[1..], cur + [words[0]])
    else (if cur == [] then [] else [cur]) + Pack(words[1..], [words[0]])
  }

  /** The text drawn for each packed line: `current_line.strip()`. */
  function LineTexts(groups: seq<seq<string>>): (texts: seq<string>)
    ensures |texts| == |groups|
    ensures forall k :: 0 <= k < |groups| ==> texts[k] == Strip(CurText(groups[k]))
  {
    seq(|groups|, k requires 0 <= k < |groups| => Strip(CurText(groups[k])))
  }

  /** A drawn line is its words joined by single spaces: stripping removes
      only the trailing space the loop appends after the last word, as long
      as the line starts and ends on a visible character. */
  lemma DrawnLineIsJoinedWords(g: seq<string>)
    requires g != [] && g[0] != [] && g[|g| - 1] != []
    requires !IsSpace(g[0][0]) && !IsSpace(g[|g| - 1][|g[|g| - 1]| - 1])
    ensures Strip(CurText(g)) == Join(g, " ")
  {
    var t := Join(g, " ");
    JoinEnds(g, " ");
    assert t[0] == g[0][0];
    assert t[|t| - 1] == g[|g| - 1][|g[|g| - 1]| - 1];
    StripTrailingSpace(t);
  }

  lemma StripTrailingSpace(t: string)
    requires t != [] && !IsSpace(t[0]) && !IsSpace(t[|t| - 1])
    ensures Strip(t + " ") == t
  {
    var s := t + " ";
    assert TrimStart(s) == s;
    assert s[..|s| - 1] == t;
    assert TrimEnd(t) == t;
  }

  /** A group holding only the empty word left by a trailing or doubled
      space is drawn as the empty string: `" ".strip()` is `""`. */
  lemma EmptyWordDrawsBlank()
    ensures Strip(CurText([""])) == ""
  {
    assert CurText([""]) == " ";
    StripEmptyIffAllSpace(" ");
  }

  /** The texts drawn for one source line: the line itself when it has at
      most 80 characters, otherwise its greedily packed words. */
  function Segments(line: string): seq<string> {
    if |line| <= WrapWidth then [line] else LineTexts(Pack(Split(line, " "), []))
  }

  /** All words of a sequence of lines, in order. */
  function Flatten(groups: seq<seq<string>>): seq<string> {
    if groups == [] then [] else groups[0] + Flatten(groups[1..])
  }

  lemma {:induction false} JoinAppend(parts: seq<string>, w: string, sep: string)
    requires parts != []
    ensures Join(parts + [w], sep) == Join(parts, sep) + sep + w
    decreases |parts|
  {
    if |parts| == 1 {
      assert parts + [w] == [parts[0], w];
      assert [parts[0], w][1..] == [w];
    } else {
      assert (parts + [w])[1..] == parts[1..] + [w];
      JoinAppend(parts[1..], w, sep);
    }
  }

  /** Adding a word appends it and a space to `current_line`. */
  lemma CurTextAppend(cur: seq<string>, w: string)
    ensures CurText(cur + [w]) == CurText(cur) + w + " "
  {
    if cur != [] {
      JoinAppend(cur, w, " ");
    } else {
      assert [] + [w] == [w];
    }
  }

  /** Packing neither loses, duplicates nor reorders a word. */
  lemma {:induction false} PackFlatten(words: seq<string>, cur: seq<string>)
    ensures Flatten(Pack(words, cur)) == cur + words
    decreases |words|
  {
    if words == [] {
      if cur != [] {
        assert Flatten([cur]) == cur + Flatten([]);
      }
    } else if |CurText(cur) + words[0]| < WrapWidth {
      PackFlatten(words[1..], cur + [words[0]]);
      MoveHead(cur, words);
    } else {
      PackFlatten(words[1..], [words[0]]);
      MoveHead(cur, words);
      if cur != [] {
        FlattenCons(cur, Pack(words[1..], [words[0]]));
      } else {
        assert Pack(words, cur) == Pack(words[1..], [words[0]]);
      }
    }
  }

  lemma FlattenCons(g: seq<string>, rest: seq<seq<string>>)
    ensures Flatten([g] + rest) == g + Flatten(rest)
  {
    assert ([g] + rest)[1..] == rest;
  }

  /** A line being built satisfies the wrap bound unless it holds a single word. */
  predicate WithinWidth(g: seq<string>) {
    |g| <= 1 || |CurText(g)| <= WrapWidth
  }

  /** Every emitted line is non-empty, and a line of two or more words is
      shorter than 80 characters once joined. */
  lemma {:induction false} PackGroups(words: seq<string>, cur: seq<string>)
    requires WithinWidth(cur)
    ensures forall k :: 0 <= k < |Pack(words, cur)| ==>
      Pack(words, cur)[k] != [] && WithinWidth(Pack(words, cur)[k])
    decreases |words|
  {
    if words != [] {
      if |CurText(cur) + words[0]| < WrapWidth {
        CurTextAppend(cur, words[0]);
        PackGroups(words[1..], cur + [words[0]]);
      } else {
        PackGroups(words[1..], [words[0]]);
      }
    }
  }

  /** A packed line of two or more words joins to fewer than 80 characters. */
  lemma MultiWordLineShort(g: seq<string>)
    requires |g| >= 2 && WithinWidth(g)
    ensures |Join(g, " ")| < WrapWidth
  {
  }

  /** Every word is at most as long as the words joined. */
  lemma {:induction false} JoinHasWord(g: seq<string>, j: nat, sep: string)
    requires j < |g|
    ensures |Join(g, sep)| >= |g[j]|
    decreases |g|
  {
    if |g| > 1 && j > 0 {
      JoinHasWord(g[1..], j - 1, sep);
    }
  }

  /** The wrap rule, for every line longer than 80 characters: the emitted
      word groups are non-empty and hold exactly the words, in order; a
      group of two or more words joins to fewer than 80 characters; so a
      word of 80 or more characters is always emitted on its own. A group
      may still consist of empty words (from a run of spaces), and such a
      group is drawn as the empty string (`EmptyWordDrawsBlank`). */
  lemma WrapRule(words: seq<string>)
    ensures Flatten(Pack(words, [])) == words
    ensures forall k :: 0 <= k < |Pack(words, [])| ==> Pack(words, [])[k] != []
    ensures forall k :: 0 <= k < |Pack(words, [])| && |Pack(words, [])[k]| >= 2 ==>
      |Join(Pack(words, [])[k], " ")| < WrapWidth
    ensures forall k, j ::
      (0 <= k < |Pack(words, [])| && 0 <= j < |Pack(words, [])[k]| && |Pack(words, [])[k][j]| >= WrapWidth)
      ==> Pack(words, [])[k] == [Pack(words, [])[k][j]]
  {
    PackFlatten(words, []);
    var groups := Pack(words, []);
    PackGroups(words, []);
    forall k | 0 <= k < |groups| && |groups[k]| >= 2
      ensures |Join(groups[k], " ")| < WrapWidth
    {
      MultiWordLineShort(groups[k]);
    }
    forall k, j | 0 <= k < |groups| && 0 <= j < |groups[k]| && |groups[k][j]| >= WrapWidth
      ensures groups[k] == [groups[k][j]]
    {
      if |groups[k]| >= 2 {
        MultiWordLineShort(groups[k]);
        JoinHasWord(groups[k], j, " ");
        assert false;
      }
    }
  }

  /** A packed line that is being extended starts with the words already
      collected. */
  lemma {:induction false} PackStartsWith(words: seq<string>, cur: seq<string>)
    requires cur != []
    ensures |Pack(words, cur)| >= 1
    ensures |Pack(words, cur)[0]| >= |cur| && Pack(words, cur)[0][..|cur|] == cur
    decreases |words|
  {
    if words != [] {
      if |CurText(cur) + words[0]| < WrapWidth {
        PackStartsWith(words[1..], cur + [words[0]]);
        assert (cur + [words[0]])[..|cur|] == cur;
      }
    }
  }

  /** The packing is greedy: the first word of every emitted line but the
      first did not fit on the line before it. */
  predicate Greedy(groups: seq<seq<string>>) {
    forall k :: 1 <= k < |groups| ==>
      groups[k] != [] && |CurText(groups[k - 1]) + groups[k][0]| >= WrapWidth
  }

  lemma {:induction false} PackGreedy(words: seq<string>, cur: seq<string>)
    ensures Greedy(Pack(words, cur))
    decreases |words|
  {
    if words != [] {
      var w := words[0];
      if |CurText(cur) + w| < WrapWidth {
        PackGreedy(words[1..], cur + [w]);
      } else {
        var rest := Pack(words[1..], [w]);
        PackGreedy(words[1..], [w]);
        PackStartsWith(words[1..], [w]);
        if cur != [] {
          var all := [cur] + rest;
          forall k | 1 <= k < |all|
            ensures all[k] != [] && |CurText(all[k - 1]) + all[k][0]| >= WrapWidth
          {
            if k == 1 {
              assert all[1] == rest[0];
              assert rest[0][0] == rest[0][..1][0] == w;
            } else {
              assert all[k - 1] == rest[k - 2] && all[k] == rest[k - 1];
            }
          }
        } else {
          assert Pack(words, cur) == rest;
        }
      }
    }
  }

  /** A line of at most 80 characters is drawn unchanged. */
  lemma ShortLineUnchanged(line: string)
    requires |line| <= WrapWidth
    ensures Segments(line) == [line]
  {
  }

  // ---------------------------------------------------------------------
  // Drawing and pagination
  // ---------------------------------------------------------------------

  /** The left margin of every text line. */
  const Margin: real := 50.0

  /** `texts` drawn one below the other from height `y`, 12 points apart. */
  function DrawLines(texts: seq<string>, y: real): (ops: seq<CanvasOp>)
    ensures |ops| == |texts|
    ensures forall i :: 0 <= i < |texts| ==>
      ops[i] == DrawString(Margin, y - LineStep * (i as real), texts[i])
  {
    seq(|texts|, i requires 0 <= i < |texts| => DrawString(Margin, y - LineStep * (i as real), texts[i]))
  }

  /** The check made before each source line: below 50 points, a new page
      is started and the pen moves to its top. */
  function PageCheck(y: real): (seq<CanvasOp>, real) {
    if y < 50.0 then ([ShowPage], PageTop) else ([], y)
  }

  /** The calls made for one source line and the pen height after it. */
  function LineOps(line: string, y: real): (seq<CanvasOp>, real) {
    var (pre, y0) := PageCheck(y);
    (pre + DrawLines(Segments(line), y0), y0 - LineStep * (|Segments(line)| as real))
  }

  /** The calls made for the report's lines, in order, and the final pen height. */
  function TextOps(lines: seq<string>, y: real): (seq<CanvasOp>, real)
    decreases |lines|
  {
    if lines == [] then ([], y)
    else
      var (ops, y1) := TextOps(lines[..|lines| - 1], y);
      var (more, y2) := LineOps(lines[|lines| - 1], y1);
      (ops + more, y2)
  }

  /** The texts drawn by a sequence of calls, in order. */
  function DrawnTexts(ops: seq<CanvasOp>): seq<string> {
    if ops == [] then []
    else (if ops[0].DrawString? then [ops[0].text] else []) + DrawnTexts(ops[1..])
  }

  lemma {:induction false} DrawnTextsAppend(a: seq<CanvasOp>, b: seq<CanvasOp>)
    ensures DrawnTexts(a + b) == DrawnTexts(a) + DrawnTexts(b)
    decreases |a|
  {
    if a == [] {
      assert a + b == b;
    } else {
      assert (a + b)[0] == a[0];
      assert (a + b)[1..] == a[1..] + b;
      DrawnTextsAppend(a[1..], b);
    }
  }

  lemma {:induction false} DrawnTextsOfLines(texts: seq<string>, y: real)
    ensures DrawnTexts(DrawLines(texts, y)) == texts
    decreases |texts|
  {
    if texts != [] {
      var ops := DrawLines(texts, y);
      assert ops[1..] == DrawLines(texts[1..], y - LineStep) by {
        var tail := DrawLines(texts[1..], y - LineStep);
        forall i | 0 <= i < |tail| ensures ops[1..][i] == tail[i] {
          assert (i + 1) as real == i as real + 1.0;
        }
      }
      DrawnTextsOfLines(texts[1..], y - LineStep);
      assert [texts[0]] + texts[1..] == texts;
    }
  }

  /** All segments of the given lines, in order. */
  function AllSegments(lines: seq<string>): seq<string>
    decreases |lines|
  {
    if lines == [] then [] else AllSegments(lines[..|lines| - 1]) + Segments(lines[|lines| - 1])
  }

  /** One source line draws exactly its segments; the page check adds no text. */
  lemma LineOpsTexts(line: string, y: real)
    ensures DrawnTexts(LineOps(line, y).0) == Segments(line)
  {
    var (pre, y0) := PageCheck(y);
    var segs := Segments(line);
    assert LineOps(line, y).0 == pre + DrawLines(segs, y0);
    DrawnTextsAppend(pre, DrawLines(segs, y0));
    DrawnTextsOfLines(segs, y0);
    assert DrawnTexts(pre) == [] by {
      if pre != [] {
        assert pre[1..] == [];
      }
    }
  }

  /** Pagination loses no text: the texts drawn are exactly the segments
      of every line, in order; page breaks only add `showPage` calls. */
  lemma {:induction false} TextOpsDrawsAllSegments(lines: seq<string>, y: real)
    ensures DrawnTexts(TextOps(lines, y).0) == AllSegments(lines)
    decreases |lines|
  {
    if lines != [] {
      var init := lines[..|lines| - 1];
      var line := lines[|lines| - 1];
      var before := TextOps(init, y);
      TextOpsDrawsAllSegments(init, y);
      var more := LineOps(line, before.1).0;
      LineOpsTexts(line, before.1);
      assert TextOps(lines, y).0 == before.0 + more;
      DrawnTextsAppend(before.0, more);
    }
  }

  /** Every source line yields at least one segment. */
  lemma SegmentsNonEmpty(line: string)
    ensures |Segments(line)| >= 1
  {
    if |line| > WrapWidth {
      var words := Split(line, " ");
      PackFlatten(words, []);
      assert Pack(words, []) != [] by {
        assert |Flatten(Pack(words, []))| >= 1;
      }
    }
  }

  /** Lines drawn from height `y0` stay between `y0` and the height the pen
      ends at. */
  lemma DrawLinesHeights(texts: seq<string>, y0: real)
    ensures forall i :: 0 <= i < |texts| ==>
      DrawLines(texts, y0)[i].y <= y0
      && DrawLines(texts, y0)[i].y > y0 - LineStep * (|texts| as real)
  {
    forall i | 0 <= i < |texts|
      ensures DrawLines(texts, y0)[i].y <= y0
      ensures DrawLines(texts, y0)[i].y > y0 - LineStep * (|texts| as real)
    {
      assert (i as real) < (|texts| as real);
    }
  }

  /** One source line: a new page is started exactly when the pen is below
      50 points, the first segment is drawn at or above 50 points, each
      further segment 12 points lower, and no page break happens inside
      the line however many segments it wraps into. */
  lemma LinePagination(line: string, y: real)
    ensures var y0 := if y < 50.0 then PageTop else y;
      && |LineOps(line, y).0| >= 1
      && (LineOps(line, y).0[0] == ShowPage <==> y < 50.0)
      && y0 >= 50.0
      && (forall i :: 0 < i < |LineOps(line, y).0| ==> LineOps(line, y).0[i].DrawString?)
      && (forall i :: 0 <= i < |LineOps(line, y).0| && LineOps(line, y).0[i].DrawString? ==>
            y0 >= LineOps(line, y).0[i].y > LineOps(line, y).1)
      && LineOps(line, y).1 == y0 - LineStep * (|Segments(line)| as real)
  {
    SegmentsNonEmpty(line);
    var (pre, y0) := PageCheck(y);
    var draws := DrawLines(Segments(line), y0);
    DrawLinesHeights(Segments(line), y0);
    var ops := pre + draws;
    assert LineOps(line, y).0 == ops;
    forall i | 0 <= i < |ops| && ops[i].DrawString?
      ensures y0 >= ops[i].y > y0 - LineStep * (|Segments(line)| as real)
    {
      assert ops[i] == draws[i - |pre|];
    }
  }

  // ---------------------------------------------------------------------
  // The drawing loops
  // ---------------------------------------------------------------------

  /** Drawing one more line below `k` earlier ones. */
  lemma DrawLinesAppend(texts: seq<string>, t: string, y: real)
    ensures DrawLines(texts + [t], y)
      == DrawLines(texts, y) + [DrawString(Margin, y - LineStep * (|texts| as real), t)]
  {
    var whole := texts + [t];
    var l := DrawLines(whole, y);
    var r := DrawLines(texts, y) + [DrawString(Margin, y - LineStep * (|texts| as real), t)];
    forall k | 0 <= k < |l| ensures l[k] == r[k] {
      if k < |texts| {
        assert whole[k] == texts[k];
      }
    }
  }

  /** Emitting the line being built appends its text. */
  lemma LineTextsAppend(groups: seq<seq<string>>, g: seq<string>)
    ensures LineTexts(groups + [g]) == LineTexts(groups) + [Strip(CurText(g))]
  {
    var whole := groups + [g];
    var l := LineTexts(whole);
    var r := LineTexts(groups) + [Strip(CurText(g))];
    forall k | 0 <= k < |l| ensures l[k] == r[k] {
      if k < |groups| {
        assert whole[k] == groups[k];
      }
    }
  }

  /** A word that fits joins the line being built. */
  lemma PackKeep(words: seq<string>, i: nat, cur: seq<string>, done: seq<seq<string>>)
    requires i < |words|
    requires done + Pack(words[i..], cur) == Pack(words, [])
    requires |CurText(cur) + words[i]| < WrapWidth
    ensures done + Pack(words[i + 1..], cur + [words[i]]) == Pack(words, [])
  {
    var ws := words[i..];
    assert ws[0] == words[i];
    assert ws[1..] == words[i + 1..];
  }

  /** A word that does not fit emits the line being built, when it has
      words, and starts the next one. */
  lemma PackEmit(words: seq<string>, i: nat, cur: seq<string>, done: seq<seq<string>>)
    requires i < |words|
    requires done + Pack(words[i..], cur) == Pack(words, [])
    requires |CurText(cur) + words[i]| >= WrapWidth
    ensures cur == [] ==> done + Pack(words[i + 1..], [words[i]]) == Pack(words, [])
    ensures cur != [] ==> (done + [cur]) + Pack(words[i + 1..], [words[i]]) == Pack(words, [])
  {
    var ws := words[i..];
    assert ws[0] == words[i];
    assert ws[1..] == words[i + 1..];
    var rest := Pack(words[i + 1..], [words[i]]);
    if cur == [] {
      assert Pack(ws, cur) == rest;
    } else {
      assert Pack(ws, cur) == [cur] + rest;
      AppendAssoc(done, [cur], rest);
    }
  }

  /** Emitting the line being built: its stripped text is drawn at the pen
      and the pen moves down one step. */
  method EmitLine(currentLine: string, ops: seq<CanvasOp>, yOut: real, y: real, ghost texts: seq<string>)
    returns (ops': seq<CanvasOp>, yOut': real)
    requires ops == DrawLines(texts, y)
    requires yOut == y - LineStep * (|texts| as real)
    ensures ops' == DrawLines(texts + [Strip(currentLine)], y)
    ensures yOut' == y - LineStep * (|texts + [Strip(currentLine)]| as real)
  {
    var text := Strip(currentLine);
    DrawLinesAppend(texts, text, y);
    ops' := ops + [DrawString(Margin, yOut, text)];
    yOut' := yOut - LineStep;
  }

  /** The greedy wrap loop over the words of one long line, drawing each
      emitted line 12 points below the previous one. */
  method WrapWords(words: seq<string>, y: real) returns (ops: seq<CanvasOp>, yOut: real)
    ensures ops == DrawLines(LineTexts(Pack(words, [])), y)
    ensures yOut == y - LineStep * (|Pack(words, [])| as real)
  {
    var currentLine := "";
    ghost var cur: seq<string> := [];
    ghost var done: seq<seq<string>> := [];
    ops := [];
    yOut := y;
    assert words[0..] == words;
    for i := 0 to |words|
      invariant currentLine == CurText(cur)
      invariant done + Pack(words[i..], cur) == Pack(words, [])
      invariant ops == DrawLines(LineTexts(done), y)
      invariant yOut == y - LineStep * (|done| as real)
    {
      var word := words[i];
      if |currentLine + word| < WrapWidth {
        PackKeep(words, i, cur, done);
        CurTextAppend(cur, word);
        currentLine := currentLine + word + " ";
        cur := cur + [word];
      } else {
        PackEmit(words, i, cur, done);
        if currentLine != "" {
          LineTextsAppend(done, cur);
          ops, yOut := EmitLine(currentLine, ops, yOut, y, LineTexts(done));
          done := done + [cur];
        }
        CurTextAppend([], word);
        currentLine := word + " ";
        cur := [word];
      }
    }
    assert words[|words|..] == [];
    if currentLine != "" {
      LineTextsAppend(done, cur);
      ops, yOut := EmitLine(currentLine, ops, yOut, y, LineTexts(done));
      done := done + [cur];
    }
  }

  /** One source line from height `y`, without the page check: a line of
      at most 80 characters is drawn as it is; a longer one is split on
      spaces and wrapped greedily, each emitted line stripped. */
  method DrawLine(line: string, y: real) returns (ops: seq<CanvasOp>, yOut: real)
    ensures ops == DrawLines(Segments(line), y)
    ensures yOut == y - LineStep * (|Segments(line)| as real)
  {
    if |line| > WrapWidth {
      ops, yOut := WrapWords(Split(line, " "), y);
    } else {
      ops := [DrawString(Margin, y, line)];
      yOut := y - LineStep;
    }
  }

  /** One source line with the page check before it. */
  method DrawSourceLine(line: string, y: real) returns (ops: seq<CanvasOp>, yOut: real)
    ensures ops == LineOps(line, y).0
    ensures yOut == LineOps(line, y).1
  {
    var pre: seq<CanvasOp> := [];
    var y0 := y;
    if y0 < 50.0 {
      pre := [ShowPage];
      y0 := PageTop;
    }
    var drawn, y1 := DrawLine(line, y0);
    ops := pre + drawn;
    yOut := y1;
  }

  /** Unfolding the report text calls by one more line. */
  lemma TextOpsSnoc(lines: seq<string>, i: nat, y: real)
    requires i < |lines|
    ensures TextOps(lines[..i + 1], y).0
      == TextOps(lines[..i], y).0 + LineOps(lines[i], TextOps(lines[..i], y).1).0
    ensures TextOps(lines[..i + 1], y).1 == LineOps(lines[i], TextOps(lines[..i], y).1).1
  {
    assert lines[..i + 1][..i] == lines[..i];
  }

  /** The report text loop: the text is split on newlines and, before each
      line, a pen below 50 points starts a new page at the top. */
  method DrawReportText(reportText: string, y: real) returns (ops: seq<CanvasOp>, yOut: real)
    ensures ops == TextOps(Split(reportText, "\n"), y).0
    ensures yOut == TextOps(Split(reportText, "\n"), y).1
  {
    var lines := Split(reportText, "\n");
    ops := [];
    yOut := y;
    for i := 0 to |lines|
      invariant ops == TextOps(lines[..i], y).0
      invariant yOut == TextOps(lines[..i], y).1
    {
      TextOpsSnoc(lines, i, y);
      var more, y1 := DrawSourceLine(lines[i], yOut);
      ops := ops + more;
      yOut := y1;
    }
    assert lines[..|lines|] == lines;
  }

  // ---------------------------------------------------------------------
  // The disclaimer
  // ---------------------------------------------------------------------

  const DisclaimerHeading: string := "MEDICAL DISCLAIMER:"

  /** The three disclaimer lines, drawn in small print. */
  const DisclaimerLines: seq<string> := [
    "This report is generated by an AI system for educational purposes only.",
    "Do not use as sole basis for medical diagnosis or treatment decisions.",
    "Always consult qualified healthcare professionals for proper medical care."
  ]

  /** The height the disclaimer starts from: with fewer than 100 points
      left, a new page is started first. */
  function DisclaimerTop(y: real): (top: real)
    ensures top >= 100.0
    ensures y >= 100.0 ==> top == y
  {
    if y < 100.0 then PageTop else y
  }

  /** The calls that open the disclaimer: the page check, then a red bold
      heading 30 points below the start and the small print font. */
  function DisclaimerHead(y: real): seq<CanvasOp> {
    (if y < 100.0 then [ShowPage] else [])
      + [SetFont("Helvetica-Bold", 10), SetFillColor("red"),
         DrawString(Margin, DisclaimerTop(y) - 30.0, DisclaimerHeading), SetFont("Helvetica", 8)]
  }

  /** The calls made for a disclaimer with the given lines and the pen
      height after it: the lines start 15 points below the heading. */
  function DisclaimerBlock(y: real, lines: seq<string>): (seq<CanvasOp>, real) {
    var start := DisclaimerTop(y) - 45.0;
    (DisclaimerHead(y) + DrawLines(lines, start), start - LineStep * (|lines| as real))
  }

  /** The calls made for the disclaimer of the plain-canvas report. */
  function DisclaimerOps(y: real): (seq<CanvasOp>, real) {
    DisclaimerBlock(y, DisclaimerLines)
  }

  /** The disclaimer block of the plain-canvas report. */
  method DrawDisclaimer(y: real) returns (ops: seq<CanvasOp>, yOut: real)
    ensures ops == DisclaimerOps(y).0
    ensures yOut == DisclaimerOps(y).1
  {
    if y < 100.0 {
      ops := [ShowPage];
      yOut := PageTop;
    } else {
      ops := [];
      yOut := y;
    }
    yOut := yOut - 30.0;
    ops := ops + [SetFont("Helvetica-Bold", 10), SetFillColor("red"), DrawString(Margin, yOut, DisclaimerHeading),
                  SetFont("Helvetica", 8)];
    yOut := yOut - 15.0;
    assert ops == DisclaimerHead(y);
    ghost var start := yOut;
    var lines := DisclaimerLines;
    for i := 0 to |lines|
      invariant ops == DisclaimerHead(y) + DrawLines(lines[..i], start)
      invariant yOut == start - LineStep * (i as real)
    {
      DrawLinesAppend(lines[..i], lines[i], start);
      assert lines[..i + 1] == lines[..i] + [lines[i]];
      ops := ops + [DrawString(Margin, yOut, lines[i])];
      yOut := yOut - LineStep;
    }
    assert lines[..|lines|] == lines;
  }

  /** The texts a disclaimer block draws: its heading, then its lines. */
  lemma DisclaimerBlockTexts(y: real, lines: seq<string>)
    ensures DrawnTexts(DisclaimerBlock(y, lines).0) == [DisclaimerHeading] + lines
  {
    var head := DisclaimerHead(y);
    var pre: seq<CanvasOp> := if y < 100.0 then [ShowPage] else [];
    var calls := [SetFont("Helvetica-Bold", 10), SetFillColor("red"),
                  DrawString(Margin, DisclaimerTop(y) - 30.0, DisclaimerHeading), SetFont("Helvetica", 8)];
    DrawnTextsAppend(head, DrawLines(lines, DisclaimerTop(y) - 45.0));
    DrawnTextsAppend(pre, calls);
    DrawnTextsOfLines(lines, DisclaimerTop(y) - 45.0);
    HeadCallsTexts(DisclaimerTop(y) - 30.0);
    assert DrawnTexts(pre) == [] by {
      if pre != [] { assert pre[1..] == []; }
    }
  }

  lemma HeadCallsTexts(y: real)
    ensures DrawnTexts([SetFont("Helvetica-Bold", 10), SetFillColor("red"),
                        DrawString(Margin, y, DisclaimerHeading), SetFont("Helvetica", 8)])
         == [DisclaimerHeading]
  {
    var calls := [SetFont("Helvetica-Bold", 10), SetFillColor("red"),
                  DrawString(Margin, y, DisclaimerHeading), SetFont("Helvetica", 8)];
    var c3 := calls[3..];
    assert DrawnTexts(c3) == [] by { assert c3[1..] == []; }
    assert calls[2..][1..] == c3;
    assert DrawnTexts(calls[2..]) == [DisclaimerHeading] + DrawnTexts(c3);
    assert calls[1..][1..] == calls[2..];
    assert calls[1..] == [calls[1]] + calls[2..];
  }

  /** Where a disclaimer block of three lines draws: a new page is started
      exactly when fewer than 100 points are left, and every text sits at
      least 31 points above the bottom edge and below the start. */
  lemma DisclaimerBlockFits(y: real, lines: seq<string>)
    requires |lines| == 3
    ensures var ops := DisclaimerBlock(y, lines).0;
      && (ShowPage in ops <==> y < 100.0)
      && forall i :: 0 <= i < |ops| && ops[i].DrawString? ==>
           31.0 <= ops[i].y < DisclaimerTop(y)
  {
    var ops := DisclaimerBlock(y, lines).0;
    var head := DisclaimerHead(y);
    var start := DisclaimerTop(y) - 45.0;
    var drawn := DrawLines(lines, start);
    assert ops == head + drawn;
    forall i | 0 <= i < |ops| && ops[i].DrawString?
      ensures 31.0 <= ops[i].y < DisclaimerTop(y)
    {
      if i >= |head| {
        assert ops[i] == drawn[i - |head|];
      }
    }
    assert ShowPage !in drawn;
  }

  /** The disclaimer of the plain-canvas report: its heading and its three
      lines, in order, all on the page and at least 31 points above its
      bottom edge, after a new page exactly when fewer than 100 points were
      left. */
  lemma DisclaimerFits(y: real)
    ensures var ops := DisclaimerOps(y).0;
      && (ShowPage in ops <==> y < 100.0)
      && DrawnTexts(ops) == [DisclaimerHeading] + DisclaimerLines
      && forall i :: 0 <= i < |ops| && ops[i].DrawString? ==>
           31.0 <= ops[i].y < DisclaimerTop(y)
  {
    DisclaimerBlockTexts(y, DisclaimerLines);
    DisclaimerBlockFits(y, DisclaimerLines);
  }
}
