/** Comment stripping for configuration files (examples/gage-coding/config.go),
    against the grammar of the tokens it recognises. */
module StripComments {
  import opened Strings

  // ---- the grammar ----

  /** Inside quotes: a byte that is neither quote nor backslash, or an escaped byte. */
  datatype Piece = Plain(c: char) | Escaped(c: char)

  /** How a quoted string stops: at its quote, or where the input ends, possibly in the
      middle of an escape. */
  datatype End = AtQuote | AtInputEnd | InEscape

  datatype Token =
    | Byte(c: char)
    | Quoted(pieces: seq<Piece>, end: End)
    | LineComment(text: string, ended: bool)
    | BlockComment(text: string, closed: bool)

  function PieceText(p: Piece): string {
    match p
    case Plain(c) => [c]
    case Escaped(c) => ['\\', c]
  }

  function PiecesText(pieces: seq<Piece>): string {
    Joined(pieces, PieceText)
  }

  function EndText(end: End): string {
    match end
    case AtQuote => "\""
    case AtInputEnd => ""
    case InEscape => "\\"
  }

  function TokenText(t: Token): string {
    match t
    case Byte(c) => [c]
    case Quoted(pieces, end) => "\"" + PiecesText(pieces) + EndText(end)
    case LineComment(text, ended) => "//" + text + if ended then "\n" else ""
    case BlockComment(text, closed) => "/*" + text + if closed then "*/" else ""
  }

  predicate ClosesAt(text: string, k: int) {
    0 <= k && k + 1 < |text| && text[k] == '*' && text[k + 1] == '/'
  }

  /** No block comment closes within `text`. */
  ghost predicate NoClose(text: string) {
    forall k :: !ClosesAt(text, k)
  }

  ghost predicate Legal(t: Token) {
    match t
    case Byte(c) => c != '"'
    case Quoted(pieces, _) => forall k :: 0 <= k < |pieces| && pieces[k].Plain? ==> pieces[k].c !in {'"', '\\'}
    case LineComment(text, _) => '\n' !in text
    case BlockComment(text, closed) => NoClose(if closed then text + "*" else text)
  }

  /** Only the end of the input finishes the token. */
  predicate Unfinished(t: Token) {
    || (t.Quoted? && t.end != AtQuote)
    || (t.LineComment? && !t.ended)
    || (t.BlockComment? && !t.closed)
  }

  /** What may follow a token: nothing after an unfinished one; after a slash that is an
      ordinary byte, nothing that would make the two open a comment. */
  ghost predicate MayFollow(t: Token, rest: string) {
    && (Unfinished(t) ==> rest == "")
    && (t == Byte('/') && rest != "" ==> rest[0] !in {'/', '*'})
  }

  ghost predicate WellFormed(tokens: seq<Token>) {
    tokens != [] ==>
      Legal(tokens[0]) && MayFollow(tokens[0], Text(tokens[1..])) && WellFormed(tokens[1..])
  }

  function Text(tokens: seq<Token>): string {
    Joined(tokens, TokenText)
  }

  // ---- what stripping means ----

  function Newlines(text: string): string {
    if text == "" then ""
    else Newlines(text[..|text| - 1]) + if text[|text| - 1] == '\n' then "\n" else ""
  }

  /** Strings and ordinary bytes stay; a line comment leaves its line feed, a block
      comment the line feeds in it, less a last one when the comment is never closed. */
  function Rendered(t: Token): string {
    match t
    case Byte(_) => TokenText(t)
    case Quoted(_, _) => TokenText(t)
    case LineComment(_, ended) => if ended then "\n" else ""
    case BlockComment(text, closed) =>
      Newlines(if closed || text == "" then text else text[..|text| - 1])
  }

  function Render(tokens: seq<Token>): string {
    Joined(tokens, Rendered)
  }

  // ---- the lexer ----

  /** stripJSONComments: the rendering of the input's reading, of which there is one. */
  method StripJSONComments(src: string) returns (out: string)
    ensures forall tokens :: WellFormed(tokens) && Text(tokens) == src ==> out == Render(tokens)
    ensures exists tokens :: WellFormed(tokens) && Text(tokens) == src && out == Render(tokens)
  {
    out := "";
    ghost var tokens: seq<Token> := [];
    var inString, escaped := false, false;
    ghost var open: nat, pieces: seq<Piece> := 0, [];
    var i := 0;
    while i < |src|
      invariant 0 <= i <= |src| && Lexing(src, i, out, inString, escaped, tokens, open, pieces)
    {
      if inString {
        out, inString, escaped, tokens, pieces := TakeQuoted(src, out, i, escaped, tokens, open, pieces);
        i := i + 1;
        continue;
      }
      if src[i] == '"' {
        OpenQuote(tokens, src, i, out);
        inString, open, pieces := true, i, [];
        out := out + [src[i]];
        i := i + 1;
        continue;
      }
      out, tokens, i := TakePlain(src, out, i, tokens);
    }
    if inString {
      tokens := EndsInQuotes(src, out, tokens, open, pieces, escaped);
    }
    RenderedOnce(src, out, tokens);
  }

  /** What has been read up to `i`: whole tokens, and then perhaps part of a string. */
  ghost predicate Lexing(src: string, i: nat, out: string, inString: bool, escaped: bool, tokens: seq<Token>,
                         open: nat, pieces: seq<Piece>)
    requires i <= |src|
  {
    if inString then
      open < i && InQuotes(tokens, open, pieces, escaped, src, i) && out == Render(tokens) + src[open..i]
    else
      !escaped && Reads(tokens, src, i) && out == Render(tokens)
  }

  /** A string the input ends in is read to that end. */
  lemma EndsInQuotes(src: string, out: string, tokens: seq<Token>, open: nat, pieces: seq<Piece>, escaped: bool)
      returns (all: seq<Token>)
    requires open < |src| && InQuotes(tokens, open, pieces, escaped, src, |src|)
    requires out == Render(tokens) + src[open..|src|]
    ensures Reads(all, src, |src|) && out == Render(all)
  {
    var end := if escaped then InEscape else AtInputEnd;
    QuoteRead(tokens, open, pieces, escaped, end, src, |src|);
    all := tokens + [Quoted(pieces, end)];
  }

  /** A reading of the whole input has the one rendering there is. */
  lemma RenderedOnce(src: string, out: string, tokens: seq<Token>)
    requires Reads(tokens, src, |src|) && out == Render(tokens)
    ensures forall other :: WellFormed(other) && Text(other) == src ==> out == Render(other)
    ensures exists one :: WellFormed(one) && Text(one) == src && out == Render(one)
  {
    assert src[..|src|] == src;
    forall other | WellFormed(other) && Text(other) == src
      ensures out == Render(other)
    {
      OneReading(other, tokens);
    }
  }

  /** What starts at `start`, outside strings and not one itself: a comment or a byte. */
  method TakePlain(src: string, was: string, start: nat, ghost before: seq<Token>)
      returns (out: string, ghost tokens: seq<Token>, i: nat)
    requires start < |src| && src[start] != '"'
    requires Reads(before, src, start) && was == Render(before)
    ensures start < i <= |src| && Reads(tokens, src, i) && out == Render(tokens)
  {
    if src[start] == '/' && start + 1 < |src| {
      if src[start + 1] == '/' {
        out, tokens, i := SkipLine(src, was, start, before);
        return;
      }
      if src[start + 1] == '*' {
        out, tokens, i := SkipBlock(src, was, start, before);
        return;
      }
    }
    ByteRead(before, src, start);
    tokens := before + [Byte(src[start])];
    out := was + [src[start]];
    i := start + 1;
  }

  /** The byte at `i`, within a string. */
  method TakeQuoted(src: string, was: string, i: nat, escapedBefore: bool, ghost before: seq<Token>, ghost open: nat,
                    ghost piecesBefore: seq<Piece>)
      returns (out: string, inString: bool, escaped: bool, ghost tokens: seq<Token>, ghost pieces: seq<Piece>)
    requires open < i < |src| && InQuotes(before, open, piecesBefore, escapedBefore, src, i)
    requires was == Render(before) + src[open..i]
    ensures Lexing(src, i + 1, out, inString, escaped, tokens, open, pieces)
  {
    QuotedByte(before, open, piecesBefore, escapedBefore, src, i);
    assert src[open..i + 1] == src[open..i] + [src[i]];
    var c := src[i];
    inString, escaped, tokens, pieces := true, escapedBefore, before, piecesBefore;
    out := was + [c];
    if escaped {
      escaped := false;
      pieces := pieces + [Escaped(c)];
      return;
    }
    if c == '\\' {
      escaped := true;
    } else if c == '"' {
      inString := false;
      tokens := tokens + [Quoted(pieces, AtQuote)];
    } else {
      pieces := pieces + [Plain(c)];
    }
  }

  /** The line comment that starts at `start`. */
  method SkipLine(src: string, was: string, start: nat, ghost before: seq<Token>)
      returns (out: string, ghost tokens: seq<Token>, i: nat)
    requires start + 1 < |src| && src[start] == '/' && src[start + 1] == '/'
    requires Reads(before, src, start) && was == Render(before)
    ensures start < i <= |src| && Reads(tokens, src, i) && out == Render(tokens)
  {
    i := LineEnd(src, start);
    out := was;
    LineRead(before, src, start, i);
    tokens := before + [LineComment(src[start + 2..i], i < |src|)];
    if i < |src| {
      out := out + "\n";
      i := i + 1;
    }
  }

  /** The inner loop: up to the line feed or the end of the input. */
  method LineEnd(src: string, start: nat) returns (i: nat)
    requires start <= |src|
    ensures start <= i <= |src| && '\n' !in src[start..i] && (i < |src| ==> src[i] == '\n')
  {
    i := start;
    while i < |src| && src[i] != '\n'
      invariant start <= i <= |src| && '\n' !in src[start..i]
    {
      assert src[start..i + 1] == src[start..i] + [src[i]];
      i := i + 1;
    }
  }

  /** The block comment that starts at `start`. */
  method SkipBlock(src: string, was: string, start: nat, ghost before: seq<Token>)
      returns (out: string, ghost tokens: seq<Token>, i: nat)
    requires start + 1 < |src| && src[start] == '/' && src[start + 1] == '*'
    requires Reads(before, src, start) && was == Render(before)
    ensures start < i <= |src| && Reads(tokens, src, i) && out == Render(tokens)
  {
    i, out := CopyLineFeeds(src, was, start + 2);
    if i + 1 < |src| {
      ClosedBlockRead(before, src, start + 2, i);
      tokens := before + [BlockComment(src[start + 2..i], true)];
      i := i + 2;
    } else {
      OpenBlockRead(before, src, start + 2, i);
      tokens := before + [BlockComment(src[start + 2..], false)];
      i := |src|;
    }
  }

  /** The inner loop: up to where the comment closes or the last byte. */
  method CopyLineFeeds(src: string, was: string, start: nat) returns (i: nat, out: string)
    requires start <= |src|
    ensures start <= i <= |src| && out == was + Newlines(src[start..i])
    ensures NoneClosed(src, start, i) && (i + 1 < |src| ==> ClosesAt(src, i))
    ensures i == |src| ==> i == start
  {
    i, out := start, was;
    while i + 1 < |src| && !(src[i] == '*' && src[i + 1] == '/')
      invariant start <= i <= |src| && (i == |src| ==> i == start)
      invariant out == was + Newlines(src[start..i])
      invariant NoneClosed(src, start, i)
    {
      assert src[start..i + 1][..i - start] == src[start..i];
      if src[i] == '\n' {
        out := out + "\n";
      }
      i := i + 1;
    }
  }

  // ---- the loop's invariants ----

  /** The input up to `i` is read, and what follows may be read on its own. */
  ghost predicate Reads(tokens: seq<Token>, src: string, i: nat)
    requires i <= |src|
  {
    && WellFormed(tokens) && Text(tokens) == src[..i]
    && (tokens != [] ==> MayFollow(tokens[|tokens| - 1], src[i..]))
  }

  /** Within a string opened at `open`, `pieces` of it and perhaps a backslash read. */
  ghost predicate InQuotes(tokens: seq<Token>, open: nat, pieces: seq<Piece>, escaped: bool, src: string, i: nat)
    requires open < i <= |src|
  {
    && Legal(Quoted(pieces, AtQuote))
    && Reads(tokens, src, open)
    && src[open..i] == "\"" + PiecesText(pieces) + if escaped then "\\" else ""
  }

  ghost predicate NoneClosed(src: string, start: nat, end: nat)
    requires start <= end <= |src|
  {
    forall k :: start <= k < end ==> !ClosesAt(src, k)
  }

  lemma NotEmpty(tokens: seq<Token>)
    requires tokens != []
    ensures |Text(tokens)| > 0 && Text(tokens)[0] == TokenText(tokens[0])[0]
  {
  }

  lemma {:induction false} Append(tokens: seq<Token>, t: Token)
    requires WellFormed(tokens) && Legal(t)
    requires tokens != [] ==> MayFollow(tokens[|tokens| - 1], TokenText(t))
    ensures WellFormed(tokens + [t])
    decreases |tokens|
  {
    if tokens == [] {
      assert tokens + [t] == [t] && [t][1..] == [];
    } else {
      var rest := tokens[1..];
      assert (tokens + [t])[1..] == rest + [t];
      Append(rest, t);
      JoinedMore(rest, TokenText, t);
      if rest != [] {
        NotEmpty(rest);
      }
    }
  }

  /** One more token read, from `i` to `j`. */
  lemma Extend(tokens: seq<Token>, t: Token, src: string, i: nat, j: nat)
    requires i < j <= |src| && Reads(tokens, src, i)
    requires Legal(t) && src[i..j] == TokenText(t) && MayFollow(t, src[j..])
    ensures Reads(tokens + [t], src, j)
    ensures Render(tokens + [t]) == Render(tokens) + Rendered(t)
  {
    assert src[i..] == src[i..j] + src[j..];
    assert src[i..][0] == src[i];
    Append(tokens, t);
    JoinedMore(tokens, TokenText, t);
    JoinedMore(tokens, Rendered, t);
    assert src[..j] == src[..i] + src[i..j];
  }

  lemma LineRead(tokens: seq<Token>, src: string, start: nat, end: nat)
    requires start + 1 < |src| && start <= end <= |src| && Reads(tokens, src, start)
    requires src[start] == '/' && src[start + 1] == '/'
    requires '\n' !in src[start..end] && (end < |src| ==> src[end] == '\n')
    ensures start + 2 <= end
    ensures var t := LineComment(src[start + 2..end], end < |src|);
            && Reads(tokens + [t], src, if end < |src| then end + 1 else end)
            && Render(tokens + [t]) == Render(tokens) + Rendered(t)
  {
    LineFits(src, start, end);
    Extend(tokens, LineComment(src[start + 2..end], end < |src|), src, start, if end < |src| then end + 1 else end);
  }

  lemma LineFits(src: string, start: nat, end: nat)
    requires start + 1 < |src| && start <= end <= |src|
    requires src[start] == '/' && src[start + 1] == '/'
    requires '\n' !in src[start..end] && (end < |src| ==> src[end] == '\n')
    ensures start + 2 <= end
    ensures var t, next := LineComment(src[start + 2..end], end < |src|), if end < |src| then end + 1 else end;
            Legal(t) && src[start..next] == TokenText(t) && MayFollow(t, src[next..])
  {
    LineText(src, start, end, if end < |src| then "\n" else "");
    assert forall k :: start + 2 <= k < end ==> src[k] == src[start..end][k - start];
  }

  lemma LineText(src: string, start: nat, end: nat, feed: string)
    requires start + 2 <= end && end + |feed| <= |src|
    requires src[start] == '/' && src[start + 1] == '/' && src[end..end + |feed|] == feed
    ensures src[start..end + |feed|] == "//" + src[start + 2..end] + feed
  {
    assert src[start..start + 2] == "//";
    assert src[start..end] == src[start..start + 2] + src[start + 2..end];
    assert src[start..end + |feed|] == src[start..end] + src[end..end + |feed|];
  }

  lemma BlockText(src: string, start: nat, end: nat, close: string)
    requires 2 <= start <= end && end + |close| <= |src|
    requires src[start - 2] == '/' && src[start - 1] == '*' && src[end..end + |close|] == close
    ensures src[start - 2..end + |close|] == "/*" + src[start..end] + close
  {
    assert src[start - 2..start] == "/*";
    assert src[start - 2..end] == src[start - 2..start] + src[start..end];
    assert src[start - 2..end + |close|] == src[start - 2..end] + src[end..end + |close|];
  }

  lemma ClosedBlockRead(tokens: seq<Token>, src: string, start: nat, end: nat)
    requires 2 <= start <= end && end + 1 < |src| && Reads(tokens, src, start - 2)
    requires src[start - 2] == '/' && src[start - 1] == '*'
    requires NoneClosed(src, start, end) && ClosesAt(src, end)
    ensures var t := BlockComment(src[start..end], true);
            && Reads(tokens + [t], src, end + 2)
            && Render(tokens + [t]) == Render(tokens) + Newlines(src[start..end])
  {
    var t := BlockComment(src[start..end], true);
    var text := src[start..end] + "*";
    forall k
      ensures !ClosesAt(text, k)
    {
      assert ClosesAt(text, k) ==> ClosesAt(src, start + k);
    }
    BlockText(src, start, end, "*/");
    Extend(tokens, t, src, start - 2, end + 2);
  }

  lemma OpenBlockRead(tokens: seq<Token>, src: string, start: nat, end: nat)
    requires 2 <= start <= end <= |src| <= end + 1 && Reads(tokens, src, start - 2)
    requires src[start - 2] == '/' && src[start - 1] == '*'
    requires NoneClosed(src, start, end)
    requires end == |src| ==> end == start
    ensures var t := BlockComment(src[start..], false);
            && Reads(tokens + [t], src, |src|)
            && Render(tokens + [t]) == Render(tokens) + Newlines(src[start..end])
  {
    OpenBlockFits(src, start, end);
    Extend(tokens, BlockComment(src[start..], false), src, start - 2, |src|);
  }

  lemma OpenBlockFits(src: string, start: nat, end: nat)
    requires 2 <= start <= end <= |src| <= end + 1
    requires src[start - 2] == '/' && src[start - 1] == '*' && NoneClosed(src, start, end)
    requires end == |src| ==> end == start
    ensures var t := BlockComment(src[start..], false);
            && Legal(t) && src[start - 2..|src|] == TokenText(t) && MayFollow(t, src[|src|..])
            && Rendered(t) == Newlines(src[start..end])
  {
    var t := BlockComment(src[start..], false);
    forall k
      ensures !ClosesAt(t.text, k)
    {
      assert ClosesAt(t.text, k) ==> ClosesAt(src, start + k);
    }
    BlockText(src, start, |src|, "");
    assert src[start..|src|] == t.text && t.text + "" == t.text;
    assert t.text != "" ==> t.text[..|t.text| - 1] == src[start..end];
  }

  lemma ByteRead(tokens: seq<Token>, src: string, i: nat)
    requires i < |src| && Reads(tokens, src, i) && src[i] != '"'
    requires src[i] == '/' && i + 1 < |src| ==> src[i + 1] !in {'/', '*'}
    ensures Reads(tokens + [Byte(src[i])], src, i + 1)
    ensures Render(tokens + [Byte(src[i])]) == Render(tokens) + [src[i]]
  {
    Extend(tokens, Byte(src[i]), src, i, i + 1);
  }

  lemma OpenQuote(tokens: seq<Token>, src: string, i: nat, out: string)
    requires i < |src| && Reads(tokens, src, i) && src[i] == '"' && out == Render(tokens)
    ensures Lexing(src, i + 1, out + [src[i]], true, false, tokens, i, [])
  {
    assert src[i..i + 1] == [src[i]];
  }

  lemma QuoteRead(tokens: seq<Token>, open: nat, pieces: seq<Piece>, escaped: bool, end: End, src: string, i: nat)
    requires open < i <= |src| && InQuotes(tokens, open, pieces, escaped, src, i)
    requires match end
             case AtQuote => !escaped && i < |src| && src[i] == '"'
             case AtInputEnd => !escaped && i == |src|
             case InEscape => escaped && i == |src|
    ensures var t, next := Quoted(pieces, end), if end.AtQuote? then i + 1 else i;
            && Reads(tokens + [t], src, next)
            && Render(tokens + [t]) == Render(tokens) + src[open..next]
  {
    var t, next := Quoted(pieces, end), if end.AtQuote? then i + 1 else i;
    assert src[open..next] == src[open..i] + src[i..next];
    assert src[open..next] == TokenText(t);
    Extend(tokens, t, src, open, next);
  }

  /** One more byte within quotes. */
  lemma QuotedByte(tokens: seq<Token>, open: nat, pieces: seq<Piece>, escaped: bool, src: string, i: nat)
    requires open < i < |src| && InQuotes(tokens, open, pieces, escaped, src, i)
    ensures var c := src[i];
            if escaped then InQuotes(tokens, open, pieces + [Escaped(c)], false, src, i + 1)
            else if c == '\\' then InQuotes(tokens, open, pieces, true, src, i + 1)
            else if c == '"' then
              && Reads(tokens + [Quoted(pieces, AtQuote)], src, i + 1)
              && Render(tokens + [Quoted(pieces, AtQuote)]) == Render(tokens) + src[open..i + 1]
            else InQuotes(tokens, open, pieces + [Plain(c)], false, src, i + 1)
  {
    var c := src[i];
    assert src[open..i + 1] == src[open..i] + [c];
    if escaped {
      JoinedMore(pieces, PieceText, Escaped(c));
    } else if c == '"' {
      QuoteRead(tokens, open, pieces, escaped, AtQuote, src, i);
    } else if c != '\\' {
      JoinedMore(pieces, PieceText, Plain(c));
    }
  }

  // ---- one reading for each input ----

  /** What the first two bytes say about the first token. */
  lemma KindOf(t: Token, rest: string)
    requires Legal(t) && MayFollow(t, rest)
    ensures var s := TokenText(t) + rest;
            && s != ""
            && (t.Quoted? <==> s[0] == '"')
            && (t.LineComment? <==> |s| > 1 && s[0] == '/' && s[1] == '/')
            && (t.BlockComment? <==> |s| > 1 && s[0] == '/' && s[1] == '*')
  {
  }

  /** Strings: the same bytes are the same pieces, stopped in the same way. */
  lemma {:induction false} SamePieces(p: seq<Piece>, e: End, u: string, q: seq<Piece>, f: End, v: string)
    requires Legal(Quoted(p, e)) && Legal(Quoted(q, f))
    requires (e != AtQuote ==> u == "") && (f != AtQuote ==> v == "")
    requires PiecesText(p) + EndText(e) + u == PiecesText(q) + EndText(f) + v
    ensures p == q && e == f && u == v
    decreases |p|
  {
    var s := PiecesText(p) + EndText(e) + u;
    FirstPiece(p, e, u);
    FirstPiece(q, f, v);
    if p != [] && q != [] {
      assert p[0] == q[0];
      var n := |PieceText(p[0])|;
      assert s[n..] == PiecesText(p[1..]) + EndText(e) + u == PiecesText(q[1..]) + EndText(f) + v;
      SamePieces(p[1..], e, u, q[1..], f, v);
      assert p == [p[0]] + p[1..] && q == [q[0]] + q[1..];
    }
  }

  /** What the bytes ahead say about the rest of a string. */
  lemma FirstPiece(p: seq<Piece>, e: End, u: string)
    requires Legal(Quoted(p, e)) && (e != AtQuote ==> u == "")
    ensures var s := PiecesText(p) + EndText(e) + u;
            if s == "" then p == [] && e == AtInputEnd && u == ""
            else if s[0] == '"' then p == [] && e == AtQuote && u == s[1..]
            else if s == "\\" then p == [] && e == InEscape && u == ""
            else
              && p != []
              && p[0] == (if s[0] == '\\' then Escaped(s[1]) else Plain(s[0]))
              && s[|PieceText(p[0])|..] == PiecesText(p[1..]) + EndText(e) + u
  {
    var s := PiecesText(p) + EndText(e) + u;
    if p != [] {
      assert s == PieceText(p[0]) + (PiecesText(p[1..]) + EndText(e) + u);
      assert p[0].Plain? ==> p[0].c !in {'"', '\\'};
    }
  }

  lemma SameLine(a: string, e: bool, u: string, b: string, f: bool, v: string)
    requires '\n' !in a && '\n' !in b && (!e ==> u == "") && (!f ==> v == "")
    requires a + (if e then "\n" else "") + u == b + (if f then "\n" else "") + v
    ensures |a| <= |b|
  {
    var s := a + (if e then "\n" else "") + u;
    assert forall k :: 0 <= k < |a| ==> s[k] == a[k];
    assert f ==> s[|b|] == '\n';
  }

  lemma SameBlock(a: string, e: bool, u: string, b: string, f: bool, v: string)
    requires NoClose(if e then a + "*" else a) && (!e ==> u == "") && (!f ==> v == "")
    requires a + (if e then "*/" else "") + u == b + (if f then "*/" else "") + v
    ensures f ==> |a| <= |b| && (|a| == |b| ==> e)
    ensures !f ==> |a| <= |b|
  {
    var s := a + (if e then "*/" else "") + u;
    assert forall k :: 0 <= k < |a| ==> s[k] == a[k];
    assert f ==> s[|b|] == '*' && s[|b| + 1] == '/';
    assert !ClosesAt(if e then a + "*" else a, |b|);
  }

  lemma SameLineComment(a: string, e: bool, u: string, b: string, f: bool, v: string)
    requires '\n' !in a && '\n' !in b && (!e ==> u == "") && (!f ==> v == "")
    requires a + (if e then "\n" else "") + u == b + (if f then "\n" else "") + v
    ensures a == b && e == f && u == v
  {
    SameLine(a, e, u, b, f, v);
    SameLine(b, f, v, a, e, u);
    SameSplit(a + (if e then "\n" else "") + u, a, if e then "\n" else "", u, b, if f then "\n" else "", v);
  }

  lemma SameBlockComment(a: string, e: bool, u: string, b: string, f: bool, v: string)
    requires NoClose(if e then a + "*" else a) && NoClose(if f then b + "*" else b)
    requires (!e ==> u == "") && (!f ==> v == "")
    requires a + (if e then "*/" else "") + u == b + (if f then "*/" else "") + v
    ensures a == b && e == f && u == v
  {
    SameBlock(a, e, u, b, f, v);
    SameBlock(b, f, v, a, e, u);
    SameSplit(a + (if e then "*/" else "") + u, a, if e then "*/" else "", u, b, if f then "*/" else "", v);
  }

  lemma After(a: string, b: string, c: string, d: string)
    ensures (a + b + c + d)[|a|..] == b + c + d
  {
  }

  lemma SameToken(x: Token, u: string, y: Token, v: string)
    requires Legal(x) && Legal(y) && MayFollow(x, u) && MayFollow(y, v)
    requires TokenText(x) + u == TokenText(y) + v
    ensures x == y && u == v
  {
    KindOf(x, u);
    KindOf(y, v);
    match x
    case Byte(c) =>
      assert u == (TokenText(x) + u)[1..] && v == (TokenText(y) + v)[1..];
    case Quoted(p, e) =>
      After("\"", PiecesText(p), EndText(e), u);
      After("\"", PiecesText(y.pieces), EndText(y.end), v);
      SamePieces(p, e, u, y.pieces, y.end, v);
    case LineComment(a, e) =>
      After("//", a, if e then "\n" else "", u);
      After("//", y.text, if y.ended then "\n" else "", v);
      SameLineComment(a, e, u, y.text, y.ended, v);
    case BlockComment(a, e) =>
      After("/*", a, if e then "*/" else "", u);
      After("/*", y.text, if y.closed then "*/" else "", v);
      SameBlockComment(a, e, u, y.text, y.closed, v);
  }

  lemma SameSplit(s: string, a: string, e: string, u: string, b: string, f: string, v: string)
    requires s == a + e + u == b + f + v && |a| == |b|
    ensures a == b && e + u == f + v && (|e| == |f| ==> e == f && u == v)
  {
    assert a == s[..|a|] && b == s[..|b|];
    assert e + u == s[|a|..] && f + v == s[|b|..];
    assert e == (e + u)[..|e|] && f == (f + v)[..|f|];
    assert u == (e + u)[|e|..] && v == (f + v)[|f|..];
  }

  /** The grammar is unambiguous, so what stripping gives depends on the input alone. */
  lemma {:induction false} OneReading(a: seq<Token>, b: seq<Token>)
    requires WellFormed(a) && WellFormed(b) && Text(a) == Text(b)
    ensures a == b
    decreases |a|
  {
    if a == [] || b == [] {
      if a != [] {
        NotEmpty(a);
      }
      if b != [] {
        NotEmpty(b);
      }
    } else {
      SameToken(a[0], Text(a[1..]), b[0], Text(b[1..]));
      OneReading(a[1..], b[1..]);
      assert a == [a[0]] + a[1..] && b == [b[0]] + b[1..];
    }
  }

  // ---- what stripping leaves ----

  predicate IsComment(t: Token) {
    t.LineComment? || t.BlockComment?
  }

  ghost predicate CommentFree(tokens: seq<Token>) {
    forall k :: 0 <= k < |tokens| ==> !IsComment(tokens[k])
  }

  lemma {:induction false} FewerLineFeeds(text: string)
    ensures |Newlines(text)| <= |text| && forall k :: 0 <= k < |Newlines(text)| ==> Newlines(text)[k] == '\n'
    decreases |text|
  {
    if text != "" {
      FewerLineFeeds(text[..|text| - 1]);
    }
  }

  lemma CommentsShrink(t: Token)
    ensures |Rendered(t)| <= |TokenText(t)|
    ensures |Rendered(t)| == |TokenText(t)| <==> !IsComment(t)
    ensures !IsComment(t) ==> Rendered(t) == TokenText(t)
  {
    if t.BlockComment? {
      FewerLineFeeds(if t.closed || t.text == "" then t.text else t.text[..|t.text| - 1]);
    }
  }

  lemma {:induction false} RenderShrinks(tokens: seq<Token>)
    ensures |Render(tokens)| <= |Text(tokens)|
    ensures |Render(tokens)| == |Text(tokens)| <==> CommentFree(tokens)
    ensures CommentFree(tokens) ==> Render(tokens) == Text(tokens)
    decreases |tokens|
  {
    if tokens != [] {
      CommentsShrink(tokens[0]);
      RenderShrinks(tokens[1..]);
      assert CommentFree(tokens) <==> !IsComment(tokens[0]) && CommentFree(tokens[1..]) by {
        assert tokens == [tokens[0]] + tokens[1..];
      }
    }
  }

  /** Stripping changes nothing exactly when there is no comment. */
  lemma UnchangedIffCommentFree(tokens: seq<Token>)
    ensures Render(tokens) == Text(tokens) <==> CommentFree(tokens)
  {
    RenderShrinks(tokens);
  }

  /** The tokens of what is left: a comment's line feeds are ordinary bytes. */
  function Kept(tokens: seq<Token>): seq<Token> {
    if tokens == [] then []
    else (if IsComment(tokens[0]) then Feeds(|Rendered(tokens[0])|) else [tokens[0]]) + Kept(tokens[1..])
  }

  function Feeds(n: nat): seq<Token> {
    seq(n, _ => Byte('\n'))
  }

  lemma {:induction false} FeedsAhead(n: nat, rest: seq<Token>)
    requires WellFormed(rest)
    ensures WellFormed(Feeds(n) + rest)
    ensures Text(Feeds(n) + rest) == seq(n, _ => '\n') + Text(rest)
    ensures CommentFree(rest) ==> CommentFree(Feeds(n) + rest)
  {
    if n == 0 {
      assert Feeds(0) + rest == rest && seq(0, _ => '\n') + Text(rest) == Text(rest);
    } else {
      FeedsAhead(n - 1, rest);
      OneFeedAhead(Feeds(n - 1) + rest);
      FeedsSplit(n, rest, Text(rest));
    }
  }

  lemma FeedsSplit(n: nat, rest: seq<Token>, text: string)
    requires n > 0
    ensures Feeds(n) + rest == [Byte('\n')] + (Feeds(n - 1) + rest)
    ensures seq(n, _ => '\n') + text == "\n" + (seq(n - 1, _ => '\n') + text)
  {
  }

  lemma OneFeedAhead(fewer: seq<Token>)
    requires WellFormed(fewer)
    ensures var more := [Byte('\n')] + fewer;
            && WellFormed(more) && Text(more) == "\n" + Text(fewer)
            && (CommentFree(fewer) ==> CommentFree(more))
  {
    var more := [Byte('\n')] + fewer;
    assert more[0] == Byte('\n') && more[1..] == fewer;
  }

  lemma {:induction false} KeptIsWhatIsLeft(tokens: seq<Token>)
    requires WellFormed(tokens)
    ensures WellFormed(Kept(tokens)) && Text(Kept(tokens)) == Render(tokens)
    ensures CommentFree(Kept(tokens))
    decreases |tokens|
  {
    if tokens != [] {
      var t, rest := tokens[0], tokens[1..];
      KeptIsWhatIsLeft(rest);
      if IsComment(t) {
        FeedsOnly(t);
        FeedsAhead(|Rendered(t)|, Kept(rest));
      } else {
        assert Kept(tokens)[1..] == Kept(rest);
        KeepsApart(t, rest);
      }
    }
  }

  lemma FeedsOnly(t: Token)
    requires IsComment(t)
    ensures Rendered(t) == seq(|Rendered(t)|, _ => '\n')
  {
    if t.BlockComment? {
      FewerLineFeeds(if t.closed || t.text == "" then t.text else t.text[..|t.text| - 1]);
    }
  }

  /** Dropping comments brings nothing next to a token that it may not stand next to. */
  lemma KeepsApart(t: Token, rest: seq<Token>)
    requires WellFormed(rest) && MayFollow(t, Text(rest))
    ensures MayFollow(t, Render(rest))
  {
    if rest != [] {
      NotEmpty(rest);
      if t == Byte('/') {
        assert !IsComment(rest[0]);
        assert Render(rest) == TokenText(rest[0]) + Render(rest[1..]);
      }
    }
  }

  /** Stripping what was stripped changes nothing. */
  lemma Idempotent(tokens: seq<Token>, again: seq<Token>)
    requires WellFormed(tokens) && WellFormed(again) && Text(again) == Render(tokens)
    ensures Render(again) == Text(again)
  {
    KeptIsWhatIsLeft(tokens);
    OneReading(again, Kept(tokens));
    RenderShrinks(again);
  }

  // ---- line numbers ----

  lemma {:induction false} NewlinesConcat(a: string, b: string)
    ensures Newlines(a + b) == Newlines(a) + Newlines(b)
    decreases |b|
  {
    if b == "" {
      assert a + b == a;
    } else {
      assert (a + b)[..|a + b| - 1] == a + b[..|b| - 1];
      NewlinesConcat(a, b[..|b| - 1]);
    }
  }

  lemma {:induction false} NewlinesOfNewlines(text: string)
    ensures Newlines(Newlines(text)) == Newlines(text)
    decreases |text|
  {
    if text != "" {
      NewlinesOfNewlines(text[..|text| - 1]);
      NewlinesConcat(Newlines(text[..|text| - 1]), "\n");
      assert Newlines("\n") == "" + "\n";
      assert Newlines(text[..|text| - 1]) + "" == Newlines(text[..|text| - 1]);
    }
  }

  /** The one line feed that is lost: the last byte of a comment never closed. */
  predicate LosesAFeed(t: Token) {
    t.BlockComment? && !t.closed && t.text != "" && t.text[|t.text| - 1] == '\n'
  }

  lemma {:induction false} NoNewlines(text: string)
    requires '\n' !in text
    ensures Newlines(text) == ""
    decreases |text|
  {
    if text != "" {
      NoNewlines(text[..|text| - 1]);
    }
  }

  lemma TokenLineFeeds(t: Token)
    requires Legal(t)
    ensures |Newlines(TokenText(t))| == |Newlines(Rendered(t))| + if LosesAFeed(t) then 1 else 0
  {
    match t
    case Byte(_) =>
    case Quoted(_, _) =>
    case LineComment(text, ended) => LineCommentFeeds(text, ended);
    case BlockComment(text, closed) => BlockCommentFeeds(text, closed);
  }

  lemma LineCommentFeeds(text: string, ended: bool)
    requires Legal(LineComment(text, ended))
    ensures var t := LineComment(text, ended); |Newlines(TokenText(t))| == |Newlines(Rendered(t))|
  {
    var feed := if ended then "\n" else "";
    NewlinesConcat("//" + text, feed);
    NewlinesConcat("//", text);
    NoNewlines(text);
    NoNewlines("//");
  }

  lemma BlockCommentFeeds(text: string, closed: bool)
    requires Legal(BlockComment(text, closed))
    ensures var t := BlockComment(text, closed);
            |Newlines(TokenText(t))| == |Newlines(Rendered(t))| + if LosesAFeed(t) then 1 else 0
  {
    var close := if closed then "*/" else "";
    NewlinesConcat("/*" + text, close);
    NewlinesConcat("/*", text);
    NoNewlines("/*");
    NoNewlines(close);
    NewlinesOfNewlines(if closed || text == "" then text else text[..|text| - 1]);
  }

  /** Every line keeps its number, unless a comment is not closed and the input ends in
      a line feed: that one is lost. */
  lemma {:induction false} LineNumbersKept(tokens: seq<Token>)
    requires WellFormed(tokens)
    ensures |Newlines(Text(tokens))| == |Newlines(Render(tokens))|
                                        + if tokens != [] && LosesAFeed(tokens[|tokens| - 1]) then 1 else 0
    decreases |tokens|
  {
    if tokens != [] {
      var t, rest := tokens[0], tokens[1..];
      LineNumbersKept(rest);
      TokenLineFeeds(t);
      NewlinesConcat(TokenText(t), Text(rest));
      NewlinesConcat(Rendered(t), Render(rest));
      if rest != [] {
        NotEmpty(rest);
        assert !Unfinished(t);
      }
    }
  }
}
