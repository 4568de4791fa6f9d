/** The line diff of the coding example (examples/gage-coding/diff.go): a longest
    common subsequence table filled in place, then a walk that emits an edit script. */
module LineDiff {
  import opened Strings

  datatype Op = Keep(line: string) | Delete(line: string) | Insert(line: string)

  // ---- lines ----

  function TrimRightNewlines(s: string): string {
    if s != "" && s[|s| - 1] == '\n' then TrimRightNewlines(s[..|s| - 1]) else s
  }

  /** The pieces of `s` between newlines: one more than there are newlines. */
  function Split(s: string): (lines: seq<string>)
    ensures lines != []
  {
    if s == "" then [""]
    else
      var rest := Split(s[1..]);
      if s[0] == '\n' then [""] + rest else [[s[0]] + rest[0]] + rest[1..]
  }

  function Join(lines: seq<string>): string {
    if lines == [] then ""
    else if |lines| == 1 then lines[0]
    else lines[0] + "\n" + Join(lines[1..])
  }

  function SplitDiffLines(s: string): seq<string> {
    if s == "" then [] else Split(TrimRightNewlines(s))
  }

  lemma JoinHead(c: char, lines: seq<string>)
    requires lines != []
    ensures Join([[c] + lines[0]] + lines[1..]) == [c] + Join(lines)
  {
    var longer := [[c] + lines[0]] + lines[1..];
    assert longer[1..] == lines[1..];
    if |lines| > 1 {
      Assoc([c], lines[0], "\n");
      Assoc([c], lines[0] + "\n", Join(lines[1..]));
    }
  }

  /** Splitting loses nothing, and no piece holds a newline. */
  lemma {:induction false} JoinSplit(s: string)
    ensures Join(Split(s)) == s
    ensures forall k :: 0 <= k < |Split(s)| ==> '\n' !in Split(s)[k]
  {
    if s != "" {
      var rest := Split(s[1..]);
      JoinSplit(s[1..]);
      if s[0] == '\n' {
        assert ([""] + rest)[1..] == rest;
        assert s == "" + "\n" + s[1..];
      } else {
        JoinHead(s[0], rest);
        assert s == [s[0]] + s[1..];
      }
    }
  }

  lemma {:induction false} TrimmedAre(s: string)
    ensures TrimRightNewlines(s) <= s
    ensures forall k :: |TrimRightNewlines(s)| <= k < |s| ==> s[k] == '\n'
    ensures var t := TrimRightNewlines(s); t != "" ==> t[|t| - 1] != '\n'
  {
    if s != "" && s[|s| - 1] == '\n' {
      TrimmedAre(s[..|s| - 1]);
    }
  }

  /** The lines compared are those of the text up to the newlines at its end: joined they
      give that much back, and two texts have the same lines exactly when they differ in
      those newlines only (the empty text, which has no line at all, apart). */
  lemma SameLinesIff(s: string, t: string)
    ensures Join(SplitDiffLines(s)) == TrimRightNewlines(s)
    ensures SplitDiffLines(s) == SplitDiffLines(t) <==>
              TrimRightNewlines(s) == TrimRightNewlines(t) && (s == "" <==> t == "")
  {
    JoinSplit(TrimRightNewlines(s));
    JoinSplit(TrimRightNewlines(t));
  }

  // ---- the longest common subsequence ----

  function Max(x: nat, y: nat): nat {
    if x >= y then x else y
  }

  /** The table's entry at `i`, `j`. */
  function Lcs(a: seq<string>, b: seq<string>, i: nat, j: nat): nat
    requires i <= |a| && j <= |b|
    decreases |a| - i + |b| - j
  {
    if i == |a| || j == |b| then 0
    else if a[i] == b[j] then Lcs(a, b, i + 1, j + 1) + 1
    else Max(Lcs(a, b, i + 1, j), Lcs(a, b, i, j + 1))
  }

  ghost predicate Increasing(f: seq<nat>) {
    forall k, l :: 0 <= k < l < |f| ==> f[k] < f[l]
  }

  /** `f` and `g` pick out a common subsequence of `a` from `i` on and `b` from `j` on. */
  ghost predicate Common(a: seq<string>, b: seq<string>, i: nat, j: nat, f: seq<nat>, g: seq<nat>) {
    && |f| == |g| && Increasing(f) && Increasing(g)
    && forall k :: 0 <= k < |f| ==> i <= f[k] < |a| && j <= g[k] < |b| && a[f[k]] == b[g[k]]
  }

  /** No common subsequence is longer than the table says. */
  lemma {:induction false} NoneLonger(a: seq<string>, b: seq<string>, i: nat, j: nat, f: seq<nat>, g: seq<nat>)
    requires i <= |a| && j <= |b| && Common(a, b, i, j, f, g)
    ensures |f| <= Lcs(a, b, i, j)
    decreases |a| - i + |b| - j
  {
    if f != [] {
      assert i <= f[0] < |a| && j <= g[0] < |b| && a[f[0]] == b[g[0]];
      if a[i] == b[j] {
        forall k | 0 <= k < |f| - 1
          ensures f[1..][k] > f[0] && g[1..][k] > g[0] && a[f[1..][k]] == b[g[1..][k]]
        {
        }
        NoneLonger(a, b, i + 1, j + 1, f[1..], g[1..]);
      } else if f[0] > i {
        NoneLonger(a, b, i + 1, j, f, g);
      } else {
        NoneLonger(a, b, i, j + 1, f, g);
      }
    }
  }

  // ---- edit scripts ----

  /** The lines of the old text a script accounts for. */
  function OldOf(script: seq<Op>): seq<string> {
    if script == [] then []
    else (if script[0].Insert? then [] else [script[0].line]) + OldOf(script[1..])
  }

  /** The lines of the new text a script accounts for. */
  function NewOf(script: seq<Op>): seq<string> {
    if script == [] then []
    else (if script[0].Delete? then [] else [script[0].line]) + NewOf(script[1..])
  }

  function KeptCount(script: seq<Op>): nat {
    if script == [] then 0 else (if script[0].Keep? then 1 else 0) + KeptCount(script[1..])
  }

  /** The script turns `a` into `b`. */
  ghost predicate Turns(script: seq<Op>, a: seq<string>, b: seq<string>) {
    OldOf(script) == a && NewOf(script) == b
  }

  /** The lines any script keeps are a common subsequence of what it turns into what. */
  lemma {:induction false} KeptIsCommon(script: seq<Op>, a: seq<string>, b: seq<string>, i: nat, j: nat)
      returns (f: seq<nat>, g: seq<nat>)
    requires i <= |a| && j <= |b| && Turns(script, a[i..], b[j..])
    ensures Common(a, b, i, j, f, g) && |f| == KeptCount(script)
  {
    if script == [] {
      f, g := [], [];
    } else {
      var op, rest := script[0], script[1..];
      match op
      case Keep(line) =>
        assert a[i..][0] == line && b[j..][0] == line;
        assert a[i..][1..] == a[i + 1..] && b[j..][1..] == b[j + 1..];
        f, g := KeptIsCommon(rest, a, b, i + 1, j + 1);
        CommonMore(a, b, i, j, f, g);
        f, g := [i] + f, [j] + g;
      case Delete(line) =>
        assert a[i..][0] == line && a[i..][1..] == a[i + 1..];
        f, g := KeptIsCommon(rest, a, b, i + 1, j);
      case Insert(line) =>
        assert b[j..][0] == line && b[j..][1..] == b[j + 1..];
        f, g := KeptIsCommon(rest, a, b, i, j + 1);
    }
  }

  lemma CommonMore(a: seq<string>, b: seq<string>, i: nat, j: nat, f: seq<nat>, g: seq<nat>)
    requires i < |a| && j < |b| && a[i] == b[j] && Common(a, b, i + 1, j + 1, f, g)
    ensures Common(a, b, i, j, [i] + f, [j] + g)
  {
  }

  lemma {:induction false} ScriptLength(script: seq<Op>)
    ensures |script| + KeptCount(script) == |OldOf(script)| + |NewOf(script)|
  {
    if script != [] {
      ScriptLength(script[1..]);
    }
  }

  /** A script that keeps as many lines as the table promises is as short as any script
      for the same job, and keeps as much as any. */
  lemma ShortestOfAll(script: seq<Op>, other: seq<Op>, a: seq<string>, b: seq<string>)
    requires Turns(script, a, b) && KeptCount(script) == Lcs(a, b, 0, 0)
    requires Turns(other, a, b)
    ensures |script| <= |other| && KeptCount(script) >= KeptCount(other)
  {
    assert a[0..] == a && b[0..] == b;
    var f, g := KeptIsCommon(other, a, b, 0, 0);
    NoneLonger(a, b, 0, 0, f, g);
    ScriptLength(script);
    ScriptLength(other);
  }

  // ---- growing a script at its end ----

  lemma {:induction false} Append(script: seq<Op>, op: Op)
    ensures OldOf(script + [op]) == OldOf(script) + (if op.Insert? then [] else [op.line])
    ensures NewOf(script + [op]) == NewOf(script) + (if op.Delete? then [] else [op.line])
    ensures KeptCount(script + [op]) == KeptCount(script) + if op.Keep? then 1 else 0
  {
    if script == [] {
      assert script + [op] == [op];
    } else {
      var first, rest := script[0], script[1..];
      assert (script + [op])[1..] == rest + [op];
      Append(rest, op);
      Assoc(if first.Insert? then [] else [first.line], OldOf(rest), if op.Insert? then [] else [op.line]);
      Assoc(if first.Delete? then [] else [first.line], NewOf(rest), if op.Delete? then [] else [op.line]);
    }
  }

  /** One more step of the walk, from `i`, `j`. */
  lemma Walked(out: seq<Op>, a: seq<string>, b: seq<string>, i: nat, j: nat, op: Op)
    requires i <= |a| && j <= |b| && Turns(out, a[..i], b[..j])
    requires !op.Insert? ==> i < |a| && op.line == a[i]
    requires !op.Delete? ==> j < |b| && op.line == b[j]
    ensures Turns(out + [op], a[..if op.Insert? then i else i + 1], b[..if op.Delete? then j else j + 1])
    ensures KeptCount(out + [op]) == KeptCount(out) + if op.Keep? then 1 else 0
  {
    Append(out, op);
    assert i < |a| ==> a[..i + 1] == a[..i] + [a[i]];
    assert j < |b| ==> b[..j + 1] == b[..j] + [b[j]];
  }

  /** The table, complete from row `i` and, in row `i`, from column `j` on. */
  ghost predicate Filled(a: seq<string>, b: seq<string>, lcs: array2<nat>, i: nat, j: nat)
    requires lcs.Length0 == |a| + 1 && lcs.Length1 == |b| + 1
    reads lcs
  {
    && (forall x: nat, y: nat :: i < x <= |a| && y <= |b| ==> lcs[x, y] == Lcs(a, b, x, y))
    && (i <= |a| ==> forall y: nat :: j <= y <= |b| ==> lcs[i, y] == Lcs(a, b, i, y))
  }

  method FillTable(a: seq<string>, b: seq<string>) returns (lcs: array2<nat>)
    ensures fresh(lcs) && lcs.Length0 == |a| + 1 && lcs.Length1 == |b| + 1
    ensures forall x: nat, y: nat :: x <= |a| && y <= |b| ==> lcs[x, y] == Lcs(a, b, x, y)
  {
    var n, m := |a|, |b|;
    lcs := new nat[n + 1, m + 1]((i, j) => 0);
    var i := n;
    while i > 0
      invariant 0 <= i <= n
      invariant Filled(a, b, lcs, i, 0)
      invariant forall x: nat :: x < i ==> lcs[x, m] == 0
    {
      i := i - 1;
      var j := m;
      assert Lcs(a, b, i, m) == 0;
      while j > 0
        invariant 0 <= j <= m
        invariant Filled(a, b, lcs, i, j)
        invariant forall x: nat :: x < i ==> lcs[x, m] == 0
      {
        j := j - 1;
        if a[i] == b[j] {
          lcs[i, j] := lcs[i + 1, j + 1] + 1;
        } else {
          lcs[i, j] := Max(lcs[i + 1, j], lcs[i, j + 1]);
        }
        assert lcs[i, j] == Lcs(a, b, i, j);
      }
    }
  }

  /** Walk the table from its corner, keeping, deleting and inserting lines. */
  method Walk(a: seq<string>, b: seq<string>, lcs: array2<nat>) returns (out: seq<Op>)
    requires lcs.Length0 == |a| + 1 && lcs.Length1 == |b| + 1
    requires forall x: nat, y: nat :: x <= |a| && y <= |b| ==> lcs[x, y] == Lcs(a, b, x, y)
    ensures Turns(out, a, b) && KeptCount(out) == Lcs(a, b, 0, 0)
  {
    out := [];
    var i, j := 0, 0;
    while i < |a| && j < |b|
      invariant 0 <= i <= |a| && 0 <= j <= |b|
      invariant Turns(out, a[..i], b[..j])
      invariant KeptCount(out) + Lcs(a, b, i, j) == Lcs(a, b, 0, 0)
      decreases |a| - i + |b| - j
    {
      assert lcs[i + 1, j] == Lcs(a, b, i + 1, j) && lcs[i, j + 1] == Lcs(a, b, i, j + 1);
      if a[i] == b[j] {
        Walked(out, a, b, i, j, Keep(a[i]));
        out := out + [Keep(a[i])];
        i, j := i + 1, j + 1;
      } else if lcs[i + 1, j] >= lcs[i, j + 1] {
        Walked(out, a, b, i, j, Delete(a[i]));
        out := out + [Delete(a[i])];
        i := i + 1;
      } else {
        Walked(out, a, b, i, j, Insert(b[j]));
        out := out + [Insert(b[j])];
        j := j + 1;
      }
    }
    while i < |a|
      invariant 0 <= i <= |a| && 0 <= j <= |b|
      invariant Turns(out, a[..i], b[..j])
      invariant KeptCount(out) == Lcs(a, b, 0, 0)
    {
      Walked(out, a, b, i, j, Delete(a[i]));
      out := out + [Delete(a[i])];
      i := i + 1;
    }
    while j < |b|
      invariant 0 <= j <= |b|
      invariant Turns(out, a[..i], b[..j])
      invariant KeptCount(out) == Lcs(a, b, 0, 0)
    {
      Walked(out, a, b, i, j, Insert(b[j]));
      out := out + [Insert(b[j])];
      j := j + 1;
    }
    assert a[..|a|] == a && b[..|b|] == b;
  }

  /** The edit script: every line of both texts is accounted for, in order, and no
      script for the same job is shorter. Refused when a side has too many lines. */
  method LineDiff(oldText: string, newText: string, maxLines: int) returns (out: seq<Op>, ok: bool)
    ensures ok <==> |SplitDiffLines(oldText)| <= maxLines && |SplitDiffLines(newText)| <= maxLines
    ensures ok ==> Turns(out, SplitDiffLines(oldText), SplitDiffLines(newText))
    ensures ok ==> KeptCount(out) == Lcs(SplitDiffLines(oldText), SplitDiffLines(newText), 0, 0)
    ensures ok ==> forall other :: Turns(other, SplitDiffLines(oldText), SplitDiffLines(newText)) ==> |out| <= |other|
  {
    var a, b := SplitDiffLines(oldText), SplitDiffLines(newText);
    if |a| > maxLines || |b| > maxLines {
      return [], false;
    }
    var lcs := FillTable(a, b);
    out := Walk(a, b, lcs);
    ok := true;
    forall other | Turns(other, a, b)
      ensures |out| <= |other|
    {
      ShortestOfAll(out, other, a, b);
    }
  }
}
