/** Soft-wrapping one line (wrapLine in examples/gage-coding/markdown.go): greedy, with
    the line's indentation kept and overlong words broken. */
module Wrap {
  import opened Strings

  // ---- the algorithm ----

  predicate IsIndent(c: char) {
    c == ' ' || c == '\t'
  }

  /** How far the line is indented. */
  function IndentLength(line: string): nat {
    if line != "" && IsIndent(line[0]) then 1 + IndentLength(line[1..]) else 0
  }

  /** The lines finished so far and the one under construction. */
  datatype Page = Page(out: seq<string>, current: string)

  function Flushed(p: Page): Page {
    Page(p.out + [p.current], "")
  }

  /** Break pieces of `avail` runes off an overlong word, then place what is left. */
  function PutWord(p: Page, word: string, avail: nat): Page
    requires avail > 0
    decreases |word|
  {
    if |word| > avail then
      var before := if p.current != "" then Flushed(p) else p;
      PutWord(Flushed(before.(current := word[..avail])), word[avail..], avail)
    else if p.current == "" then p.(current := word)
    else if |p.current| + 1 + |word| <= avail then p.(current := p.current + " " + word)
    else Flushed(p).(current := word)
  }

  function PutWords(p: Page, words: seq<string>, avail: nat): Page
    requires avail > 0
  {
    if words == [] then p
    else PutWord(PutWords(p, words[..|words| - 1], avail), words[|words| - 1], avail)
  }

  function Finished(p: Page): seq<string> {
    if p.current != "" || p.out == [] then p.out + [p.current] else p.out
  }

  function Indented(indent: string, lines: seq<string>): seq<string> {
    seq(|lines|, k requires 0 <= k < |lines| => indent + lines[k])
  }

  /** The indentation kept, and the room it leaves. A deep indentation is dropped. */
  function Layout(line: string, width: nat): (string, int) {
    var n := IndentLength(line);
    if n > |line| || width - n < 4 then ("", width) else (line[..n], width - n)
  }

  function Words(line: string): seq<string> {
    Fields(if IndentLength(line) <= |line| then line[IndentLength(line)..] else "", "")
  }

  // ---- widths and ink ----

  ghost predicate Fits(p: Page, avail: nat) {
    |p.current| <= avail && forall k :: 0 <= k < |p.out| ==> |p.out[k]| <= avail
  }

  /** All ink on the page, in order. */
  function InkOf(p: Page): string {
    Ink(Concat(p.out)) + Ink(p.current)
  }

  lemma FlushedKeeps(p: Page)
    ensures InkOf(Flushed(p)) == InkOf(p)
  {
    assert (p.out + [p.current])[..|p.out|] == p.out;
    InkConcat(Concat(p.out), p.current);
    assert InkOf(p) + "" == InkOf(p);
  }

  lemma PlaceKeeps(p: Page, word: string, avail: nat)
    requires avail > 0 && Fits(p, avail) && word != "" && Spaceless(word) && |word| <= avail
    ensures var p' := PutWord(p, word, avail);
            Fits(p', avail) && p'.current != "" && InkOf(p') == InkOf(p) + word
  {
    SpacelessInk(word);
    if p.current == "" {
      assert InkOf(p) == Ink(Concat(p.out));
    } else if |p.current| + 1 + |word| <= avail {
      JoinedKeeps(p, word);
    } else {
      FlushedKeeps(p);
      assert InkOf(Flushed(p)) == Ink(Concat(Flushed(p).out));
    }
  }

  lemma JoinedKeeps(p: Page, word: string)
    requires Ink(word) == word
    ensures InkOf(p.(current := p.current + " " + word)) == InkOf(p) + word
  {
    InkConcat(p.current + " ", word);
    InkConcat(p.current, " ");
    assert Ink(" ") == "" && Ink(p.current) + "" == Ink(p.current);
    Assoc(Ink(Concat(p.out)), Ink(p.current), word);
  }

  lemma BreakKeeps(p: Page, word: string, avail: nat)
    requires avail > 0 && Fits(p, avail) && Spaceless(word) && |word| > avail
    ensures var before := if p.current != "" then Flushed(p) else p;
            var piece := Flushed(before.(current := word[..avail]));
            Fits(piece, avail) && InkOf(piece) == InkOf(p) + word[..avail]
  {
    var before := if p.current != "" then Flushed(p) else p;
    FlushedKeeps(p);
    var piece := before.(current := word[..avail]);
    FlushedKeeps(piece);
    SpacelessInk(word[..avail]);
    assert InkOf(before) == Ink(Concat(before.out));
  }

  lemma {:induction false} PutWordKeeps(p: Page, word: string, avail: nat)
    requires avail > 0 && Fits(p, avail) && word != "" && Spaceless(word)
    ensures var p' := PutWord(p, word, avail);
            Fits(p', avail) && p'.current != "" && InkOf(p') == InkOf(p) + word
    decreases |word|
  {
    if |word| > avail {
      BreakKeeps(p, word, avail);
      var before := if p.current != "" then Flushed(p) else p;
      var piece := Flushed(before.(current := word[..avail]));
      PutWordKeeps(piece, word[avail..], avail);
      assert word == word[..avail] + word[avail..];
      assert (InkOf(p) + word[..avail]) + word[avail..] == InkOf(p) + (word[..avail] + word[avail..]);
    } else {
      PlaceKeeps(p, word, avail);
    }
  }

  ghost predicate ProperWords(words: seq<string>) {
    forall k :: 0 <= k < |words| ==> words[k] != "" && Spaceless(words[k])
  }

  lemma {:induction false} PutWordsKeep(p: Page, words: seq<string>, avail: nat)
    requires avail > 0 && Fits(p, avail) && ProperWords(words)
    ensures var p' := PutWords(p, words, avail);
            Fits(p', avail) && InkOf(p') == InkOf(p) + Concat(words) && (words != [] ==> p'.current != "")
  {
    if words != [] {
      var n := |words| - 1;
      PutWordsKeep(p, words[..n], avail);
      PutWordKeeps(PutWords(p, words[..n], avail), words[n], avail);
    }
  }

  // ---- the fewest lines ----

  function JoinWords(group: seq<string>): string {
    if group == [] then ""
    else if |group| == 1 then group[0]
    else JoinWords(group[..|group| - 1]) + " " + group[|group| - 1]
  }

  function Flat(groups: seq<seq<string>>): seq<string> {
    if groups == [] then [] else Flat(groups[..|groups| - 1]) + groups[|groups| - 1]
  }

  /** A way to break the words into lines: in order, none empty, each within `avail`. */
  ghost predicate Breaks(groups: seq<seq<string>>, words: seq<string>, avail: nat) {
    && Flat(groups) == words
    && forall k :: 0 <= k < |groups| ==> groups[k] != [] && |JoinWords(groups[k])| <= avail
  }

  /** Greedy packing: a word joins the last line if it fits there. */
  function Pack(words: seq<string>, avail: nat): seq<seq<string>> {
    if words == [] then []
    else
      var n := |words| - 1;
      var before := Pack(words[..n], avail);
      var k := |before| - 1;
      if before != [] && |JoinWords(before[k])| + 1 + |words[n]| <= avail then before[k := before[k] + [words[n]]]
      else before + [[words[n]]]
  }

  predicate NoneTooLong(words: seq<string>, avail: nat) {
    forall k :: 0 <= k < |words| ==> |words[k]| <= avail
  }

  lemma JoinMore(group: seq<string>, word: string)
    ensures group != [] ==> JoinWords(group + [word]) == JoinWords(group) + " " + word
    ensures JoinWords([word]) == word
  {
    assert (group + [word])[..|group|] == group;
  }

  lemma FlatReplaceLast(groups: seq<seq<string>>, more: seq<string>)
    requires groups != []
    ensures Flat(groups[|groups| - 1 := groups[|groups| - 1] + more]) == Flat(groups) + more
  {
    var k := |groups| - 1;
    var groups' := groups[k := groups[k] + more];
    assert groups'[..k] == groups[..k];
    assert Flat(groups[..k]) + (groups[k] + more) == (Flat(groups[..k]) + groups[k]) + more;
  }

  lemma NewLineBreaks(groups: seq<seq<string>>, words: seq<string>, word: string, avail: nat)
    requires Breaks(groups, words, avail) && |word| <= avail
    ensures Breaks(groups + [[word]], words + [word], avail)
  {
    assert (groups + [[word]])[..|groups|] == groups;
    JoinMore([], word);
  }

  lemma SameLineBreaks(groups: seq<seq<string>>, words: seq<string>, word: string, avail: nat)
    requires Breaks(groups, words, avail) && groups != []
    requires |JoinWords(groups[|groups| - 1])| + 1 + |word| <= avail
    ensures Breaks(groups[|groups| - 1 := groups[|groups| - 1] + [word]], words + [word], avail)
  {
    JoinMore(groups[|groups| - 1], word);
    FlatReplaceLast(groups, [word]);
  }

  lemma {:induction false} PackBreaks(words: seq<string>, avail: nat)
    requires NoneTooLong(words, avail)
    ensures Breaks(Pack(words, avail), words, avail)
    ensures words != [] ==> Pack(words, avail) != []
  {
    if words != [] {
      var n := |words| - 1;
      var front, word := words[..n], words[n];
      assert words == front + [word];
      PackBreaks(front, avail);
      var before := Pack(front, avail);
      if before != [] && |JoinWords(before[|before| - 1])| + 1 + |word| <= avail {
        SameLineBreaks(before, front, word, avail);
      } else {
        NewLineBreaks(before, front, word, avail);
      }
    }
  }

  /** How many lines greedy packing takes, and how long the last one is. */
  lemma PackSnoc(words: seq<string>, avail: nat)
    requires words != []
    ensures var n := |words| - 1;
            var before, packed := Pack(words[..n], avail), Pack(words, avail);
            var last := if before == [] then 0 else |JoinWords(before[|before| - 1])|;
            packed != [] &&
            if before != [] && last + 1 + |words[n]| <= avail
            then |packed| == |before| && |JoinWords(packed[|packed| - 1])| == last + 1 + |words[n]|
            else |packed| == |before| + 1 && |JoinWords(packed[|packed| - 1])| == |words[n]|
  {
    var n := |words| - 1;
    var before := Pack(words[..n], avail);
    JoinMore([], words[n]);
    if before != [] {
      JoinMore(before[|before| - 1], words[n]);
    }
  }

  /** The page is `groups` written out, the last of them still under construction. */
  ghost predicate Written(p: Page, groups: seq<seq<string>>) {
    if groups == [] then p == Page([], "")
    else
      var k := |groups| - 1;
      && |p.out| == k
      && (forall j :: 0 <= j < k ==> p.out[j] == JoinWords(groups[j]))
      && p.current == JoinWords(groups[k])
  }

  /** When no word is too long the algorithm does greedy packing. */
  lemma {:induction false} PutWordsPack(words: seq<string>, avail: nat)
    requires avail > 0 && NoneTooLong(words, avail) && ProperWords(words)
    ensures Written(PutWords(Page([], ""), words, avail), Pack(words, avail))
    ensures words != [] ==> PutWords(Page([], ""), words, avail).current != ""
  {
    if words != [] {
      var n := |words| - 1;
      var front, word := words[..n], words[n];
      PutWordsPack(front, avail);
      PackBreaks(front, avail);
      var before := Pack(front, avail);
      JoinMore([], word);
      if before != [] {
        JoinMore(before[|before| - 1], word);
      }
    }
  }

  lemma FlatLast(groups: seq<seq<string>>)
    requires groups != [] && groups[|groups| - 1] != []
    ensures var last := groups[|groups| - 1];
            && Flat(groups) != []
            && Flat(groups)[|Flat(groups)| - 1] == last[|last| - 1]
            && Flat(groups)[..|Flat(groups)| - 1] == Flat(groups[..|groups| - 1]) + last[..|last| - 1]
  {
  }

  /** Taking the last word off a breaking: its line goes, or gets shorter. */
  lemma Unbreak(groups: seq<seq<string>>, front: seq<string>, word: string, avail: nat)
      returns (shorter: seq<seq<string>>, alone: bool)
    requires Breaks(groups, front + [word], avail)
    ensures groups != [] && Breaks(shorter, front, avail)
    ensures var last := |JoinWords(groups[|groups| - 1])|;
            if alone then |shorter| == |groups| - 1 && last == |word|
            else |shorter| == |groups| && last == |JoinWords(shorter[|groups| - 1])| + 1 + |word|
    ensures |JoinWords(groups[|groups| - 1])| <= avail
  {
    assert groups == [] ==> Flat(groups) == [];
    var k := |groups| - 1;
    var last := groups[k];
    FlatLast(groups);
    assert (front + [word])[|front|] == word && (front + [word])[..|front|] == front;
    var rest := last[..|last| - 1];
    assert last == rest + [word];
    JoinMore(rest, word);
    alone := rest == [];
    if alone {
      shorter := groups[..k];
      assert Flat(shorter) + rest == Flat(shorter);
      assert last == [word];
    } else {
      shorter := groups[k := rest];
      assert shorter[..k] == groups[..k];
    }
  }

  /** No breaking has fewer lines than greedy packing, and one with as many has a last
      line at least as long. */
  lemma {:induction false} PackIsBest(words: seq<string>, avail: nat, groups: seq<seq<string>>)
    requires NoneTooLong(words, avail) && Breaks(groups, words, avail)
    ensures var packed := Pack(words, avail);
            && |packed| <= |groups|
            && (|packed| == |groups| && packed != [] ==>
                  |JoinWords(packed[|packed| - 1])| <= |JoinWords(groups[|groups| - 1])|)
    decreases |words|
  {
    if words != [] {
      var n := |words| - 1;
      assert words == words[..n] + [words[n]];
      var shorter, alone := Unbreak(groups, words[..n], words[n], avail);
      PackSnoc(words, avail);
      PackIsBest(words[..n], avail, shorter);
    }
  }

  // ---- the method ----

  /** The two nested loops. */
  method PlaceWords(words: seq<string>, avail: nat) returns (out: seq<string>, current: string)
    requires avail > 0
    ensures Page(out, current) == PutWords(Page([], ""), words, avail)
  {
    out, current := [], "";
    var i := 0;
    while i < |words|
      invariant 0 <= i <= |words|
      invariant PutWords(Page([], ""), words[..i], avail) == Page(out, current)
    {
      var word := words[i];
      assert words[..i + 1][..i] == words[..i];
      while |word| > avail
        invariant PutWord(Page(out, current), word, avail) == PutWords(Page([], ""), words[..i + 1], avail)
        decreases |word|
      {
        if current != "" {
          out, current := out + [current], "";
        }
        current := word[..avail];
        out, current := out + [current], "";
        word := word[avail..];
      }
      if current == "" {
        current := word;
      } else if |current| + 1 + |word| <= avail {
        current := current + " " + word;
      } else {
        out, current := out + [current], "";
        current := word;
      }
      i := i + 1;
    }
    assert words[..|words|] == words;
  }

  /** Wrap a line: no line over the width, no ink lost or moved, and as few lines as
      any breaking of the words when none of them is too long. Needs a width of at
      least 1 unless the line fits as it is. */
  method WrapLine(line: string, width: int) returns (out: seq<string>)
    requires |line| > width ==> width >= 1
    ensures |line| <= width ==> out == [line]
    ensures forall k :: 0 <= k < |out| ==> |out[k]| <= width
    ensures Ink(Concat(out)) == Ink(line)
    ensures |line| > width ==> forall k :: 0 <= k < |out| ==> Layout(line, width).0 <= out[k]
    ensures |line| > width && Words(line) != [] && NoneTooLong(Words(line), Layout(line, width).1) ==>
              && out == Indented(Layout(line, width).0, Lines(Pack(Words(line), Layout(line, width).1)))
              && forall groups :: Breaks(groups, Words(line), Layout(line, width).1) ==> |out| <= |groups|
  {
    if |line| <= width {
      LineItself(line);
      return [line];
    }
    IndentWithin(line);
    var n := IndentLength(line);
    var indent, avail := line[..n], width - n;
    if avail < 4 {
      indent, avail := "", width;
    }
    var current;
    out, current := PlaceWords(Words(line), avail);
    ghost var page := Page(out, current);
    if current != "" || |out| == 0 {
      out := out + [current];
    }
    WrapsRight(line, width, page);
    if Words(line) != [] && NoneTooLong(Words(line), avail) {
      WrapsBest(line, width, page);
    }
    out := Indented(indent, out);
  }

  /** The spaces and tabs a line begins with, all of them, are kept if that leaves room for
      four characters, and dropped if not; and the words are those of the line. */
  lemma LayoutKeeps(line: string, indent: string, gaps: seq<string>, words: seq<string>, width: nat)
    requires Separated(gaps, words) && (words != [] ==> gaps[0] == "") && line == indent + Spread(gaps, words)
    requires forall k :: 0 <= k < |indent| ==> indent[k] in {' ', '\t'}
    requires line == indent || line[|indent|] !in {' ', '\t'}
    ensures Layout(line, width) == if |indent| + 4 <= width then (indent, width - |indent|) else ("", width)
    ensures Words(line) == words
  {
    IndentExactly(line, indent);
    FieldsAreTheWords(gaps, words);
    assert line[..|indent|] == indent && line[|indent|..] == Spread(gaps, words);
  }

  lemma {:induction false} IndentExactly(line: string, indent: string)
    requires indent <= line && forall k :: 0 <= k < |indent| ==> indent[k] in {' ', '\t'}
    requires line == indent || line[|indent|] !in {' ', '\t'}
    ensures IndentLength(line) == |indent|
    decreases |indent|
  {
    if indent != "" {
      assert line[0] == indent[0];
      IndentExactly(line[1..], indent[1..]);
    }
  }

  /** An overlong word is cut into pieces that fill their lines, and what is left of it. */
  lemma {:induction false} CutEvenly(out: seq<string>, word: string, avail: nat)
      returns (pieces: seq<string>, left: string)
    requires avail > 0 && word != ""
    ensures PutWord(Page(out, ""), word, avail) == Page(out + pieces, left)
    ensures Concat(pieces) + left == word && 0 < |left| <= avail
    ensures forall k :: 0 <= k < |pieces| ==> |pieces[k]| == avail
    decreases |word|
  {
    if |word| <= avail {
      pieces, left := [], word;
      assert out + [] == out && Concat([]) + word == word;
    } else {
      var piece, rest := word[..avail], word[avail..];
      pieces, left := CutEvenly(out + [piece], rest, avail);
      Assoc(out, [piece], pieces);
      ConcatCons(piece, pieces);
      Assoc(piece, Concat(pieces), left);
      pieces := [piece] + pieces;
      assert word == piece + rest;
    }
  }

  /** What is put on the page, the indentation kept. */
  lemma WrapsRight(line: string, width: nat, page: Page)
    requires width >= 1 && IndentLength(line) <= |line|
    requires page == PutWords(Page([], ""), Words(line), Layout(line, width).1)
    ensures var out := Indented(Layout(line, width).0, Finished(page));
            && (forall k :: 0 <= k < |out| ==> |out[k]| <= width)
            && Ink(Concat(out)) == Ink(line)
  {
    var (indent, avail) := Layout(line, width);
    IndentWithin(line);
    FieldsAreInk(line[IndentLength(line)..], "");
    PageIsRight(line, width, Words(line), avail, page);
    IndentedKeeps(indent, Finished(page), avail);
  }

  lemma WrapsBest(line: string, width: nat, page: Page)
    requires width >= 1 && IndentLength(line) <= |line|
    requires page == PutWords(Page([], ""), Words(line), Layout(line, width).1)
    requires Words(line) != [] && NoneTooLong(Words(line), Layout(line, width).1)
    ensures Finished(page) == Lines(Pack(Words(line), Layout(line, width).1))
    ensures forall groups :: Breaks(groups, Words(line), Layout(line, width).1) ==> |Finished(page)| <= |groups|
  {
    FieldsAreInk(line[IndentLength(line)..], "");
    PageIsBest(Words(line), Layout(line, width).1, page);
  }

  lemma LineItself(line: string)
    ensures Concat([line]) == line
  {
    assert [line][..0] == [] && "" + line == line;
  }

  lemma {:induction false} IndentWithin(line: string)
    ensures IndentLength(line) <= |line|
    ensures Ink(line[..IndentLength(line)]) == "" && Ink(line) == Ink(line[IndentLength(line)..])
  {
    if line != "" && IsIndent(line[0]) {
      IndentWithin(line[1..]);
      var n := IndentLength(line[1..]);
      assert line[..n + 1][1..] == line[1..][..n] && line[n + 1..] == line[1..][n..];
    }
  }

  function Lines(groups: seq<seq<string>>): seq<string> {
    seq(|groups|, k requires 0 <= k < |groups| => JoinWords(groups[k]))
  }

  lemma PageIsRight(line: string, width: nat, words: seq<string>, avail: nat, page: Page)
    requires avail > 0 && ProperWords(words) && words == Words(line)
    requires page == PutWords(Page([], ""), words, avail)
    ensures Ink(Concat(Finished(page))) == Ink(line)
    ensures forall k :: 0 <= k < |Finished(page)| ==> |Finished(page)[k]| <= avail
  {
    WordsAreInk(line);
    PutWordsKeep(Page([], ""), words, avail);
    assert InkOf(Page([], "")) == "";
    assert "" + Concat(words) == Concat(words);
    FinishedKeeps(page);
  }

  lemma WordsAreInk(line: string)
    ensures Concat(Words(line)) == Ink(line)
  {
    IndentWithin(line);
    FieldsAreInk(line[IndentLength(line)..], "");
    assert "" + Ink(line) == Ink(line);
  }

  lemma FinishedKeeps(page: Page)
    ensures Ink(Concat(Finished(page))) == InkOf(page)
  {
    FlushedKeeps(page);
    assert Ink(Concat(Finished(page))) + "" == Ink(Concat(Finished(page)));
    assert InkOf(Flushed(page)) == Ink(Concat(Flushed(page).out)) + "";
  }

  lemma PageIsBest(words: seq<string>, avail: nat, page: Page)
    requires avail > 0 && ProperWords(words)
    requires page == PutWords(Page([], ""), words, avail)
    ensures words != [] && NoneTooLong(words, avail) ==>
              && Finished(page) == Lines(Pack(words, avail))
              && forall groups :: Breaks(groups, words, avail) ==> |Finished(page)| <= |groups|
  {
    if words != [] && NoneTooLong(words, avail) {
      PutWordsPack(words, avail);
      PackBreaks(words, avail);
      assert Finished(page) == Lines(Pack(words, avail));
      forall groups | Breaks(groups, words, avail)
        ensures |Finished(page)| <= |groups|
      {
        PackIsBest(words, avail, groups);
      }
    }
  }

  lemma {:induction false} IndentedKeeps(indent: string, lines: seq<string>, avail: nat)
    requires Ink(indent) == ""
    requires forall k :: 0 <= k < |lines| ==> |lines[k]| <= avail
    ensures Ink(Concat(Indented(indent, lines))) == Ink(Concat(lines))
    ensures forall k :: 0 <= k < |lines| ==> |Indented(indent, lines)[k]| <= |indent| + avail
    decreases |lines|
  {
    if lines != [] {
      var n := |lines| - 1;
      IndentedKeeps(indent, lines[..n], avail);
      assert Indented(indent, lines)[..n] == Indented(indent, lines[..n]);
      InkConcat(Concat(Indented(indent, lines[..n])), indent + lines[n]);
      InkConcat(indent, lines[n]);
      InkConcat(Concat(lines[..n]), lines[n]);
      assert "" + Ink(lines[n]) == Ink(lines[n]);
    }
  }
}
