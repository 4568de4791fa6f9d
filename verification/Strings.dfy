/** The few string functions of Go's library the models need, over runes. */
module Strings {

  /** unicode.IsSpace. */
  predicate IsSpace(c: char) {
    || c in {'\t', '\n', '\U{B}', '\U{C}', '\r', ' ', '\U{85}', '\U{A0}', '\U{1680}', '\U{2028}', '\U{2029}',
             '\U{202F}', '\U{205F}', '\U{3000}'}
    || '\U{2000}' <= c <= '\U{200A}'
  }

  function TrimLeft(s: string): string {
    if s != "" && IsSpace(s[0]) then TrimLeft(s[1..]) else s
  }

  function TrimRight(s: string): string {
    if s != "" && IsSpace(s[|s| - 1]) then TrimRight(s[..|s| - 1]) else s
  }

  function TrimSpace(s: string): string {
    TrimRight(TrimLeft(s))
  }

  /** The word being read, if any. */
  function Word(cur: string): seq<string> {
    if cur == "" then [] else [cur]
  }

  /** The words of `s`, `cur` being the beginning of the first. */
  function Fields(s: string, cur: string): seq<string>
    decreases |s|
  {
    if s == "" then Word(cur)
    else if IsSpace(s[0]) then Word(cur) + Fields(s[1..], "")
    else Fields(s[1..], cur + [s[0]])
  }

  predicate Contains(s: string, sub: string) {
    sub <= s || (s != "" && Contains(s[1..], sub))
  }

  /** What is left of `s` without its spaces. */
  function Ink(s: string): string {
    if s == "" then "" else (if IsSpace(s[0]) then "" else [s[0]]) + Ink(s[1..])
  }

  predicate Spaceless(s: string) {
    forall k :: 0 <= k < |s| ==> !IsSpace(s[k])
  }

  function Concat(words: seq<string>): string {
    if words == [] then "" else Concat(words[..|words| - 1]) + words[|words| - 1]
  }

  lemma {:induction false} InkConcat(a: string, b: string)
    ensures Ink(a + b) == Ink(a) + Ink(b)
  {
    if a == "" {
      assert a + b == b;
    } else {
      assert (a + b)[0] == a[0] && (a + b)[1..] == a[1..] + b;
      InkConcat(a[1..], b);
    }
  }

  lemma {:induction false} SpacelessInk(s: string)
    requires Spaceless(s)
    ensures Ink(s) == s
  {
    if s != "" {
      assert s == [s[0]] + s[1..];
      SpacelessInk(s[1..]);
    }
  }

  lemma {:induction false} ConcatCons(w: string, words: seq<string>)
    ensures Concat([w] + words) == w + Concat(words)
  {
    if words == [] {
      assert [w] + words == [w] && [w][..0] == [];
      assert "" + w == w + "";
    } else {
      var n := |words| - 1;
      assert ([w] + words)[..n + 1] == [w] + words[..n];
      ConcatCons(w, words[..n]);
      assert (w + Concat(words[..n])) + words[n] == w + (Concat(words[..n]) + words[n]);
    }
  }

  /** The words are non-empty, hold no space, and together are the ink of the text. */
  lemma {:induction false} FieldsAreInk(s: string, cur: string)
    requires Spaceless(cur)
    ensures Concat(Fields(s, cur)) == cur + Ink(s)
    ensures forall k :: 0 <= k < |Fields(s, cur)| ==> Fields(s, cur)[k] != "" && Spaceless(Fields(s, cur)[k])
    decreases |s|
  {
    if s == "" {
      assert [cur][..0] == [];
      assert "" + cur == cur && cur + "" == cur;
    } else if IsSpace(s[0]) {
      FieldsAreInk(s[1..], "");
      if cur != "" {
        ConcatCons(cur, Fields(s[1..], ""));
      }
      assert "" + Ink(s[1..]) == Ink(s[1..]) && [] + Fields(s[1..], "") == Fields(s[1..], "");
    } else {
      FieldsAreInk(s[1..], cur + [s[0]]);
      assert (cur + [s[0]]) + Ink(s[1..]) == cur + ([s[0]] + Ink(s[1..]));
    }
  }

  // ---- words ----

  predicate Blank(s: string) {
    forall k :: 0 <= k < |s| ==> IsSpace(s[k])
  }

  /** Words with spaces around and between them, one gap more than there are words. */
  function Spread(gaps: seq<string>, words: seq<string>): string
    requires |gaps| == |words| + 1
    decreases |words|
  {
    if words == [] then gaps[0] else gaps[0] + words[0] + Spread(gaps[1..], words[1..])
  }

  predicate Separated(gaps: seq<string>, words: seq<string>) {
    && |gaps| == |words| + 1
    && (forall k :: 0 <= k < |gaps| ==> Blank(gaps[k]) && (0 < k < |words| ==> gaps[k] != ""))
    && forall k :: 0 <= k < |words| ==> words[k] != "" && Spaceless(words[k])
  }

  /** The words of a text are those it is spelled with, however they are spaced. */
  lemma {:induction false} FieldsAreTheWords(gaps: seq<string>, words: seq<string>)
    requires Separated(gaps, words)
    ensures Fields(Spread(gaps, words), "") == words
    decreases |words|
  {
    if words == [] {
      BlankFields(gaps[0], "");
      assert gaps[0] + "" == gaps[0];
    } else {
      var rest := Spread(gaps[1..], words[1..]);
      assert Spread(gaps, words) == gaps[0] + (words[0] + rest);
      BlankFields(gaps[0], words[0] + rest);
      FieldsAreTheWords(gaps[1..], words[1..]);
      AfterWord(gaps[1..], words[1..]);
      WordFields(words[0], rest, "");
      assert "" + words[0] == words[0] && words == [words[0]] + words[1..];
    }
  }

  /** What follows a word is a space, or nothing. */
  lemma AfterWord(gaps: seq<string>, words: seq<string>)
    requires |gaps| == |words| + 1 && Blank(gaps[0]) && (words != [] ==> gaps[0] != "")
    ensures var rest := Spread(gaps, words); rest == "" || IsSpace(rest[0])
  {
  }

  lemma {:induction false} BlankFields(gap: string, s: string)
    requires Blank(gap)
    ensures Fields(gap + s, "") == Fields(s, "")
    decreases |gap|
  {
    if gap == "" {
      assert gap + s == s;
    } else {
      assert (gap + s)[0] == gap[0] && (gap + s)[1..] == gap[1..] + s;
      BlankFields(gap[1..], s);
      assert [] + Fields(s, "") == Fields(s, "");
    }
  }

  lemma {:induction false} WordFields(word: string, rest: string, cur: string)
    requires Spaceless(word) && cur + word != "" && (rest == "" || IsSpace(rest[0]))
    ensures Fields(word + rest, cur) == [cur + word] + Fields(rest, "")
    decreases |word|
  {
    if word == "" {
      assert word + rest == rest && cur + word == cur;
      if rest != "" {
        assert [] + Fields(rest[1..], "") == Fields(rest[1..], "");
      } else {
        assert [cur] + [] == [cur];
      }
    } else {
      assert (word + rest)[0] == word[0] && (word + rest)[1..] == word[1..] + rest;
      assert (cur + [word[0]]) + word[1..] == cur + word;
      WordFields(word[1..], rest, cur + [word[0]]);
    }
  }

  /** The texts of `xs`, one after another. */
  function Joined<T>(xs: seq<T>, text: T -> string): string {
    if xs == [] then "" else text(xs[0]) + Joined(xs[1..], text)
  }

  lemma {:induction false} JoinedMore<T>(xs: seq<T>, text: T -> string, x: T)
    ensures Joined(xs + [x], text) == Joined(xs, text) + text(x)
    decreases |xs|
  {
    if xs == [] {
      assert Joined([x], text) == text(x) + "";
    } else {
      assert (xs + [x])[1..] == xs[1..] + [x];
      JoinedMore(xs[1..], text, x);
    }
  }

  lemma Assoc<T>(a: seq<T>, b: seq<T>, c: seq<T>)
    ensures (a + b) + c == a + (b + c)
  {
  }
}
