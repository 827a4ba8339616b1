/**
 * The post-pass of `_strip_explanations`: `re.sub(r"\n{3,}", "\n\n", s)`
 * followed by `s.strip("\n")`, on the text and, equivalently, on its lines.
 */
module NewlineCollapse {
  import opened Strings
  import opened Subsequences

  // ---------------------------------------------------------------------
  // The post-pass: re.sub(r"\n{3,}", "\n\n", s).strip("\n")
  // ---------------------------------------------------------------------

  /** `"\n" * k`. */
  function Newlines(k: nat): (r: string)
    ensures |r| == k
  {
    if k == 0 then [] else "\n" + Newlines(k - 1)
  }

  /** Length of the run of newlines at the front of `s`. */
  function NewlineRun(s: string): (k: nat)
    ensures k <= |s| && (k < |s| ==> s[k] != '\n')
    decreases |s|
  {
    if |s| > 0 && s[0] == '\n' then 1 + NewlineRun(s[1..]) else 0
  }

  /** `re.sub(r"\n{3,}", "\n\n", s)`: each maximal run of three or more newlines becomes two. */
  function CollapseNewlines(s: string): string
    decreases |s|
  {
    if |s| == 0 then []
    else if s[0] != '\n' then [s[0]] + CollapseNewlines(s[1..])
    else
      var k := NewlineRun(s);
      (if k >= 3 then "\n\n" else s[..k]) + CollapseNewlines(s[k..])
  }

  function Normalize(s: string): string
  {
    StripChars(CollapseNewlines(s), {'\n'})
  }

  /**
   * A streaming reading of the collapse: `pending` newlines (at most two)
   * were just emitted, and a newline is emitted only while fewer than two
   * are pending.
   */
  function Squeeze(pending: nat, s: string): string
    decreases |s|
  {
    if |s| == 0 then []
    else if s[0] != '\n' then [s[0]] + Squeeze(0, s[1..])
    else if pending >= 2 then Squeeze(2, s[1..])
    else "\n" + Squeeze(pending + 1, s[1..])
  }

  function Min(a: int, b: int): int
  {
    if a <= b then a else b
  }

  /** The run at the front of `s` is made of newlines only. */
  lemma {:induction false} NewlineRunIsNewlines(s: string)
    ensures s[..NewlineRun(s)] == Newlines(NewlineRun(s))
    decreases |s|
  {
    if |s| > 0 && s[0] == '\n' {
      NewlineRunIsNewlines(s[1..]);
      assert s[..NewlineRun(s)] == "\n" + s[1..][..NewlineRun(s[1..])];
    }
  }

  lemma {:induction false} SqueezeNewlines(c: nat, k: nat, r: string)
    requires c <= 2
    ensures Squeeze(c, Newlines(k) + r) == Newlines(Min(k, 2 - c)) + Squeeze(Min(c + k, 2), r)
    decreases k
  {
    if k == 0 {
      assert Newlines(0) + r == r;
    } else {
      var t := Newlines(k - 1) + r;
      ConcatAssoc("\n", Newlines(k - 1), r);
      ConsParts('\n', t);
      if c >= 2 {
        SqueezeNewlines(2, k - 1, r);
      } else {
        SqueezeNewlines(c + 1, k - 1, r);
        var m := Newlines(Min(k - 1, 1 - c));
        assert Newlines(Min(k, 2 - c)) == "\n" + m;
        ConcatAssoc("\n", m, Squeeze(Min(c + k, 2), r));
      }
    }
  }

  lemma {:induction false} SqueezeText(c: nat, x: string, r: string)
    requires x != [] && '\n' !in x
    ensures Squeeze(c, x + r) == x + Squeeze(0, r)
    decreases |x|
  {
    var tail := x[1..];
    assert x == [x[0]] + tail;
    ConcatAssoc([x[0]], tail, r);
    ConsParts(x[0], tail + r);
    if |x| == 1 {
      assert tail + r == r;
    } else {
      assert '\n' !in tail by {
        forall i | 0 <= i < |tail| ensures tail[i] != '\n' { assert tail[i] == x[i + 1]; }
      }
      SqueezeText(0, tail, r);
      ConcatAssoc([x[0]], tail, Squeeze(0, r));
    }
  }

  /** The run-based collapse and the streaming one agree. */
  lemma {:induction false} CollapseIsSqueeze(s: string)
    ensures CollapseNewlines(s) == Squeeze(0, s)
    decreases |s|
  {
    if |s| == 0 {
    } else if s[0] != '\n' {
      CollapseIsSqueeze(s[1..]);
    } else {
      var k := NewlineRun(s);
      NewlineRunIsNewlines(s);
      assert s == s[..k] + s[k..];
      SqueezeNewlines(0, k, s[k..]);
      CollapseIsSqueeze(s[k..]);
      if k < |s| {
        assert s[k..][0] != '\n';
      }
      assert Newlines(2) == "\n\n";
    }
  }

  /** The streaming collapse never emits three newlines in a row. */
  lemma {:induction false} SqueezeShape(c: nat, s: string)
    ensures !Contains(Squeeze(c, s), "\n\n\n")
    ensures c >= 1 ==> !IsPrefix("\n\n", Squeeze(c, s))
    ensures c >= 2 ==> !IsPrefix("\n", Squeeze(c, s))
    decreases |s|
  {
    var out := Squeeze(c, s);
    if |s| == 0 {
    } else if s[0] != '\n' {
      var y := Squeeze(0, s[1..]);
      assert out == [s[0]] + y;
      SqueezeShape(0, s[1..]);
      ContainsCons(s[0], y, "\n\n\n");
      NotPrefixFirst("\n\n\n", out);
      NotPrefixFirst("\n\n", out);
    } else if c >= 2 {
      SqueezeShape(2, s[1..]);
    } else {
      var y := Squeeze(c + 1, s[1..]);
      assert out == "\n" + y;
      SqueezeShape(c + 1, s[1..]);
      ContainsCons('\n', y, "\n\n\n");
      assert "\n\n\n" == "\n" + "\n\n" && "\n\n" == "\n" + "\n";
      PrefixCons('\n', "\n\n", y);
      PrefixCons('\n', "\n", y);
    }
  }

  /** The post-pass leaves no run of three newlines and no newline at either end. */
  lemma NormalizeShape(s: string)
    ensures !Contains(Normalize(s), "\n\n\n")
    ensures Normalize(s) == [] || (Normalize(s)[0] != '\n' && Normalize(s)[|Normalize(s)| - 1] != '\n')
  {
    var c := CollapseNewlines(s);
    CollapseIsSqueeze(s);
    SqueezeShape(0, s);
    StripCharsSpec(c, {'\n'});
    if Contains(Normalize(s), "\n\n\n") {
      ContainsInStrip(c, {'\n'}, "\n\n\n");
    }
  }

  // ---------------------------------------------------------------------
  // The post-pass on lines: it only drops empty lines
  // ---------------------------------------------------------------------

  predicate NoNewlines(lines: seq<string>)
  {
    forall i :: 0 <= i < |lines| ==> '\n' !in lines[i]
  }

  /** Drops the empty lines at the front. */
  function DropLeadingEmpty(lines: seq<string>): (r: seq<string>)
    ensures |r| <= |lines|
    decreases |lines|
  {
    if |lines| > 0 && lines[0] == "" then DropLeadingEmpty(lines[1..]) else lines
  }

  /** What is dropped at the front is empty lines only, and what is kept does not start with one. */
  lemma {:induction false} DropLeadingEmptySpec(lines: seq<string>)
    ensures var r := DropLeadingEmpty(lines);
      r == lines[|lines| - |r|..] && (r == [] || r[0] != "") &&
      forall i :: 0 <= i < |lines| - |r| ==> lines[i] == ""
    decreases |lines|
  {
    if |lines| > 0 && lines[0] == "" {
      var rest := lines[1..];
      DropLeadingEmptySpec(rest);
      var r := DropLeadingEmpty(lines);
      forall i | 0 <= i < |lines| - |r| ensures lines[i] == "" {
        if i > 0 { assert lines[i] == rest[i - 1]; }
      }
    }
  }

  /** Drops the empty lines at the end. */
  function DropTrailingEmpty(lines: seq<string>): (r: seq<string>)
    ensures |r| <= |lines|
    decreases |lines|
  {
    if |lines| > 0 && lines[|lines| - 1] == "" then DropTrailingEmpty(lines[..|lines| - 1]) else lines
  }

  /** What is dropped at the end is empty lines only, and what is kept does not end with one. */
  lemma {:induction false} DropTrailingEmptySpec(lines: seq<string>)
    ensures var r := DropTrailingEmpty(lines);
      r == lines[..|r|] && (r == [] || r[|r| - 1] != "") &&
      forall i :: |r| <= i < |lines| ==> lines[i] == ""
    decreases |lines|
  {
    if |lines| > 0 && lines[|lines| - 1] == "" {
      var init := lines[..|lines| - 1];
      DropTrailingEmptySpec(init);
      var r := DropTrailingEmpty(lines);
      forall i | |r| <= i < |lines| ensures lines[i] == "" {
        if i < |lines| - 1 { assert lines[i] == init[i]; }
      }
    }
  }

  /** Drops an empty line that another empty line follows. */
  function SquashEmpty(lines: seq<string>): (r: seq<string>)
    ensures |lines| > 0 ==> |r| > 0 && r[0] == lines[0] && r[|r| - 1] == lines[|lines| - 1]
    decreases |lines|
  {
    if |lines| <= 1 then lines
    else if lines[0] == "" && lines[1] == "" then SquashEmpty(lines[1..])
    else [lines[0]] + SquashEmpty(lines[1..])
  }

  /** The lines of the post-pass's result, computed on lines. */
  function NormalizeLines(lines: seq<string>): seq<string>
  {
    SquashEmpty(DropTrailingEmpty(DropLeadingEmpty(lines)))
  }

  lemma SqueezeNewlineStep(c: nat, y: string)
    ensures c < 2 ==> Squeeze(c, "\n" + y) == "\n" + Squeeze(c + 1, y)
    ensures c >= 2 ==> Squeeze(c, "\n" + y) == Squeeze(2, y)
  {
    assert ("\n" + y)[1..] == y;
  }

  lemma NoNewlinesTail(lines: seq<string>)
    requires |lines| > 0 && NoNewlines(lines)
    ensures NoNewlines(lines[1..])
  {
    forall i | 0 <= i < |lines| - 1 ensures '\n' !in lines[1..][i] {
      assert lines[1..][i] == lines[i + 1];
    }
  }

  /** Joining `x` in front of a non-empty list of lines, then appending `r`. */
  lemma JoinConsAppend(x: string, rest: seq<string>, r: string)
    requires |rest| >= 1
    ensures Join("\n", [x] + rest) + r == x + ("\n" + (Join("\n", rest) + r))
  {
    var j := Join("\n", rest);
    JoinCons("\n", x, rest);
    ConcatAssoc(x + "\n", j, r);
    ConcatAssoc(x, "\n", j + r);
  }

  /**
   * Streaming over joined lines squeezes out exactly the empty lines that
   * follow another empty line (`c == 1` says a newline was just emitted).
   */
  lemma {:induction false} SqueezeJoin(lines: seq<string>, r: string, c: nat)
    requires |lines| > 0 && lines[|lines| - 1] != "" && NoNewlines(lines)
    requires c == 1 || lines[0] != ""
    ensures Squeeze(c, Join("\n", lines) + r) == Join("\n", SquashEmpty(lines)) + Squeeze(0, r)
    decreases |lines|
  {
    if |lines| == 1 {
      SqueezeText(c, lines[0], r);
    } else {
      var first, rest := lines[0], lines[1..];
      assert lines == [first] + rest;
      NoNewlinesTail(lines);
      JoinConsAppend(first, rest, r);
      var u := Join("\n", rest) + r;
      var tail := Join("\n", SquashEmpty(rest)) + Squeeze(0, r);
      if first != "" {
        SqueezeJoin(rest, r, 1);
        SqueezeText(c, first, "\n" + u);
        SqueezeNewlineStep(0, u);
        assert SquashEmpty(lines) == [first] + SquashEmpty(rest);
        JoinConsAppend(first, SquashEmpty(rest), Squeeze(0, r));
      } else if rest[0] != "" {
        SqueezeJoin(rest, r, 2);
        assert first + ("\n" + u) == "\n" + u;
        SqueezeNewlineStep(1, u);
        assert SquashEmpty(lines) == [first] + SquashEmpty(rest);
        JoinConsAppend(first, SquashEmpty(rest), Squeeze(0, r));
        assert first + ("\n" + tail) == "\n" + tail;
      } else {
        SqueezeJoin(rest, r, 1);
        assert first + ("\n" + u) == "\n" + u;
        assert rest == [rest[0]] + rest[1..];
        JoinConsAppend(rest[0], rest[1..], r);
        var w := Join("\n", rest[1..]) + r;
        assert u == "\n" + w;
        SqueezeNewlineStep(1, u);
        SqueezeNewlineStep(2, w);
        SqueezeNewlineStep(1, w);
        assert SquashEmpty(lines) == SquashEmpty(rest);
      }
    }
  }

  lemma {:induction false} JoinLeadingEmpty(lines: seq<string>, p: nat)
    requires p < |lines|
    requires forall i :: 0 <= i < p ==> lines[i] == ""
    ensures Join("\n", lines) == Newlines(p) + Join("\n", lines[p..])
    decreases p
  {
    if p > 0 {
      var rest := lines[1..];
      JoinLeadingEmpty(rest, p - 1);
      assert rest[p - 1..] == lines[p..];
      assert lines == [""] + rest;
      JoinCons("\n", "", rest);
      ConcatAssoc("\n", Newlines(p - 1), Join("\n", lines[p..]));
    }
  }

  lemma {:induction false} NewlinesSnoc(k: nat)
    ensures Newlines(k + 1) == Newlines(k) + "\n"
    decreases k
  {
    if k > 0 {
      NewlinesSnoc(k - 1);
    }
  }

  lemma {:induction false} JoinTrailingEmpty(lines: seq<string>, q: nat)
    requires q < |lines|
    requires forall i :: |lines| - q <= i < |lines| ==> lines[i] == ""
    ensures Join("\n", lines) == Join("\n", lines[..|lines| - q]) + Newlines(q)
    decreases q
  {
    if q > 0 {
      var n := |lines|;
      var init := lines[..n - 1];
      var front := lines[..n - q];
      forall i | |init| - (q - 1) <= i < |init| ensures init[i] == "" {
        assert init[i] == lines[i];
      }
      JoinTrailingEmpty(init, q - 1);
      assert init[..|init| - (q - 1)] == front;
      assert lines[n - 1] == "";
      assert lines == init + [""];
      JoinSnoc("\n", init, "");
      NewlinesSnoc(q - 1);
      ConcatAssoc(Join("\n", front), Newlines(q - 1), "\n");
      calc {
        Join("\n", lines);
        Join("\n", init) + "\n" + "";
        (Join("\n", front) + Newlines(q - 1)) + "\n";
        Join("\n", front) + (Newlines(q - 1) + "\n");
        Join("\n", front) + Newlines(q);
      }
    } else {
      assert lines[..|lines|] == lines;
    }
  }

  /** The first line of a joined text is its prefix. */
  lemma {:induction false} JoinFront(lines: seq<string>)
    requires |lines| > 0
    ensures IsPrefix(lines[0], Join("\n", lines))
  {
    if |lines| > 1 {
      ConcatAssoc(lines[0], "\n", Join("\n", lines[1..]));
    }
  }

  /** The last line of a joined text is its suffix. */
  lemma {:induction false} JoinBack(lines: seq<string>)
    requires |lines| > 0
    ensures IsSuffix(lines[|lines| - 1], Join("\n", lines))
    decreases |lines|
  {
    if |lines| > 1 {
      JoinBack(lines[1..]);
      assert Join("\n", lines) == (lines[0] + "\n") + Join("\n", lines[1..]);
    }
  }

  /** Lines whose first and last are non-empty and hold no newline join to a text that neither starts nor ends with one. */
  lemma JoinEnds(lines: seq<string>)
    requires |lines| > 0
    requires lines[0] != "" && '\n' !in lines[0]
    requires lines[|lines| - 1] != "" && '\n' !in lines[|lines| - 1]
    ensures var x := Join("\n", lines); x != [] && x[0] != '\n' && x[|x| - 1] != '\n'
  {
    var x := Join("\n", lines);
    var a, b := lines[0], lines[|lines| - 1];
    JoinFront(lines);
    JoinBack(lines);
    assert x[0] == x[..|a|][0] == a[0];
    assert x[|x| - 1] == x[|x| - |b|..][|b| - 1] == b[|b| - 1];
  }

  lemma {:induction false} LStripNewlines(a: nat, y: string)
    requires y == [] || y[0] != '\n'
    ensures LStrip(Newlines(a) + y, {'\n'}) == y
    decreases a
  {
    if a == 0 {
      assert Newlines(0) + y == y;
    } else {
      var t := Newlines(a - 1) + y;
      ConcatAssoc("\n", Newlines(a - 1), y);
      ConsParts('\n', t);
      assert LStrip("\n" + t, {'\n'}) == LStrip(t, {'\n'});
      LStripNewlines(a - 1, y);
    }
  }

  lemma {:induction false} RStripNewlines(x: string, b: nat)
    requires x == [] || x[|x| - 1] != '\n'
    ensures RStrip(x + Newlines(b), {'\n'}) == x
    decreases b
  {
    if b == 0 {
      assert x + Newlines(0) == x;
    } else {
      var t := x + Newlines(b - 1);
      NewlinesSnoc(b - 1);
      ConcatAssoc(x, Newlines(b - 1), "\n");
      SnocParts(t, '\n');
      assert RStrip(t + "\n", {'\n'}) == RStrip(t, {'\n'});
      RStripNewlines(x, b - 1);
    }
  }

  lemma StripNewlinesAround(a: nat, x: string, b: nat)
    requires x != [] && x[0] != '\n' && x[|x| - 1] != '\n'
    ensures StripChars(Newlines(a) + (x + Newlines(b)), {'\n'}) == x
  {
    var y := x + Newlines(b);
    assert y[0] == x[0];
    LStripNewlines(a, y);
    RStripNewlines(x, b);
  }

  lemma SqueezeOnlyNewlines(n: nat)
    ensures Squeeze(0, Newlines(n)) == Newlines(Min(n, 2))
  {
    assert Newlines(n) + [] == Newlines(n);
    SqueezeNewlines(0, n, []);
    assert Newlines(Min(n, 2)) + [] == Newlines(Min(n, 2));
  }

  lemma CollapseOnlyNewlines(n: nat)
    ensures CollapseNewlines(Newlines(n)) == Newlines(Min(n, 2))
  {
    CollapseIsSqueeze(Newlines(n));
    SqueezeOnlyNewlines(n);
  }

  lemma StripOnlyNewlines(m: nat)
    ensures StripChars(Newlines(m), {'\n'}) == []
  {
    assert Newlines(m) + [] == Newlines(m);
    LStripNewlines(m, []);
  }

  /** A text of newlines only normalises to the empty text. */
  lemma NormalizeOnlyNewlines(n: nat)
    ensures Normalize(Newlines(n)) == []
  {
    CollapseOnlyNewlines(n);
    StripOnlyNewlines(Min(n, 2));
  }

  /** The joined text is the kept core framed by the dropped empty lines. */
  lemma JoinAroundCore(lines: seq<string>)
    requires NoNewlines(lines) && DropLeadingEmpty(lines) != []
    ensures var d := DropLeadingEmpty(lines);
      var t := DropTrailingEmpty(d);
      t != [] && t[0] != "" && t[|t| - 1] != "" && NoNewlines(t) &&
      Join("\n", lines) == Newlines(|lines| - |d|) + (Join("\n", t) + Newlines(|d| - |t|))
  {
    var d := DropLeadingEmpty(lines);
    var t := DropTrailingEmpty(d);
    var p, q := |lines| - |d|, |d| - |t|;
    DropLeadingEmptySpec(lines);
    DropTrailingEmptySpec(d);
    JoinLeadingEmpty(lines, p);
    JoinTrailingEmpty(d, q);
    assert t[0] == d[0];
    forall i | 0 <= i < |t| ensures '\n' !in t[i] {
      assert t[i] == d[i] == lines[p + i];
    }
  }

  /** Collapsing a core of lines framed by newlines squeezes the frame and the core separately. */
  lemma SqueezeFramed(p: nat, t: seq<string>, q: nat)
    requires |t| > 0 && t[0] != "" && t[|t| - 1] != "" && NoNewlines(t)
    ensures Squeeze(0, Newlines(p) + (Join("\n", t) + Newlines(q)))
         == Newlines(Min(p, 2)) + (Join("\n", SquashEmpty(t)) + Newlines(Min(q, 2)))
  {
    SqueezeNewlines(0, p, Join("\n", t) + Newlines(q));
    SqueezeJoin(t, Newlines(q), Min(p, 2));
    SqueezeOnlyNewlines(q);
  }

  lemma CollapseFramed(s: string, t: seq<string>, p: nat, q: nat)
    requires |t| > 0 && t[0] != "" && t[|t| - 1] != "" && NoNewlines(t)
    requires s == Newlines(p) + (Join("\n", t) + Newlines(q))
    ensures CollapseNewlines(s) == Newlines(Min(p, 2)) + (Join("\n", SquashEmpty(t)) + Newlines(Min(q, 2)))
  {
    CollapseIsSqueeze(s);
    SqueezeFramed(p, t, q);
  }

  lemma NormalizeFramed(s: string, t: seq<string>, a: nat, b: nat)
    requires |t| > 0 && t[0] != "" && t[|t| - 1] != "" && NoNewlines(t)
    requires CollapseNewlines(s) == Newlines(a) + (Join("\n", SquashEmpty(t)) + Newlines(b))
    ensures Normalize(s) == Join("\n", SquashEmpty(t))
  {
    JoinEnds(SquashEmpty(t));
    StripNewlinesAround(a, Join("\n", SquashEmpty(t)), b);
  }

  /** The post-pass on a core of lines framed by newlines. */
  lemma NormalizeCore(s: string, t: seq<string>, p: nat, q: nat)
    requires |t| > 0 && t[0] != "" && t[|t| - 1] != "" && NoNewlines(t)
    requires s == Newlines(p) + (Join("\n", t) + Newlines(q))
    ensures Normalize(s) == Join("\n", SquashEmpty(t))
  {
    CollapseFramed(s, t, p, q);
    NormalizeFramed(s, t, Min(p, 2), Min(q, 2));
  }

  /** Empty lines join to the newlines between them. */
  lemma JoinAllEmpty(lines: seq<string>)
    requires |lines| > 0 && forall i :: 0 <= i < |lines| ==> lines[i] == ""
    ensures Join("\n", lines) == Newlines(|lines| - 1)
  {
    var n := |lines| - 1;
    JoinLeadingEmpty(lines, n);
    assert lines[n..] == [""];
    assert Newlines(n) + "" == Newlines(n);
  }

  /** Lines that are all empty normalise to the empty text. */
  lemma NormalizeJoinBlank(lines: seq<string>)
    requires DropLeadingEmpty(lines) == []
    ensures Normalize(Join("\n", lines)) == []
  {
    if |lines| > 0 {
      DropLeadingEmptySpec(lines);
      JoinAllEmpty(lines);
      NormalizeOnlyNewlines(|lines| - 1);
    }
  }

  lemma NormalizeJoinCore(lines: seq<string>)
    requires NoNewlines(lines) && DropLeadingEmpty(lines) != []
    ensures Normalize(Join("\n", lines)) == Join("\n", NormalizeLines(lines))
  {
    var d := DropLeadingEmpty(lines);
    var t := DropTrailingEmpty(d);
    JoinAroundCore(lines);
    NormalizeCore(Join("\n", lines), t, |lines| - |d|, |d| - |t|);
  }

  /** The string post-pass applied to joined lines is the line post-pass, joined. */
  lemma NormalizeJoin(lines: seq<string>)
    requires NoNewlines(lines)
    ensures Normalize(Join("\n", lines)) == Join("\n", NormalizeLines(lines))
  {
    if DropLeadingEmpty(lines) == [] {
      NormalizeJoinBlank(lines);
      assert NormalizeLines(lines) == [];
    } else {
      NormalizeJoinCore(lines);
    }
  }

  /** Squashing keeps the order of the lines it keeps. */
  lemma {:induction false} SquashIsSubsequence(lines: seq<string>)
    ensures IsSubsequence(SquashEmpty(lines), lines)
    decreases |lines|
  {
    if |lines| <= 1 {
      SubsequenceReflexive(lines);
    } else {
      var rest := lines[1..];
      SquashIsSubsequence(rest);
      assert lines == [lines[0]] + rest;
      if lines[0] == "" && lines[1] == "" {
        DropHead(lines[0], SquashEmpty(rest), rest);
      } else {
        KeepHead(lines[0], SquashEmpty(rest), rest);
      }
    }
  }

  /** The line post-pass only removes lines. */
  lemma NormalizeLinesIsSubsequence(lines: seq<string>)
    ensures IsSubsequence(NormalizeLines(lines), lines)
  {
    var d := DropLeadingEmpty(lines);
    var t := DropTrailingEmpty(d);
    DropLeadingEmptySpec(lines);
    DropTrailingEmptySpec(d);
    SubsequenceOfSuffix(lines, |lines| - |d|);
    SubsequenceOfPrefix(d, |t|);
    SquashIsSubsequence(t);
    SubsequenceTransitive(SquashEmpty(t), t, d);
    SubsequenceTransitive(SquashEmpty(t), d, lines);
  }

  predicate NoAdjacentEmpty(lines: seq<string>)
  {
    forall i :: 0 <= i < |lines| - 1 ==> lines[i] != "" || lines[i + 1] != ""
  }

  /** No two empty lines are adjacent after squashing. */
  lemma {:induction false} SquashEmptySpec(lines: seq<string>)
    ensures NoAdjacentEmpty(SquashEmpty(lines))
    decreases |lines|
  {
    if |lines| > 1 {
      var rest := lines[1..];
      SquashEmptySpec(rest);
      var r := SquashEmpty(lines);
      var sr := SquashEmpty(rest);
      if !(lines[0] == "" && lines[1] == "") {
        assert r == [lines[0]] + sr;
        forall i | 0 <= i < |r| - 1 ensures r[i] != "" || r[i + 1] != "" {
          if i > 0 {
            assert r[i] == sr[i - 1] && r[i + 1] == sr[i];
            assert sr[i - 1] != "" || sr[i] != "";
          } else {
            assert r[0] == lines[0];
            assert r[1] == sr[0] == rest[0] == lines[1];
          }
        }
      }
    }
  }
}
