/** Server-sent events: the printer (httpx/encode.go), the parser
    (providers/shared/sse.go) and the standard they meet. */
module Sse {
  import opened Gage
  import opened Strings

  datatype SSEEvent = SSEEvent(event: string, data: string)

  // ---- lines ----

  function DropCR(s: string): string {
    if s != "" && s[|s| - 1] == '\r' then s[..|s| - 1] else s
  }

  /** The scanner's lines: cut at LF, one CR before it dropped, an unfinished last line
      included. `cur` is the line being read. */
  function Lines(s: string, cur: string): seq<string>
    decreases |s|
  {
    if s == "" then if cur == "" then [] else [DropCR(cur)]
    else if s[0] == '\n' then [DropCR(cur)] + Lines(s[1..], "")
    else Lines(s[1..], cur + [s[0]])
  }

  // ---- fields ----

  function IndexOfColon(line: string): nat {
    if line == "" || line[0] == ':' then 0 else 1 + IndexOfColon(line[1..])
  }

  /** Field and value; a single space after the colon is not part of the value. */
  function SplitField(line: string): (string, string)
  {
    var i := IndexOfColon(line);
    if i >= |line| then (line, "")
    else
      var v := line[i + 1..];
      (line[..i], if v != "" && v[0] == ' ' then v[1..] else v)
  }

  /** The event under construction after one more non-blank line. */
  function Field(line: string, name: string, data: string): (string, string) {
    if line != "" && line[0] == ':' then (name, data)
    else
      var (field, value) := SplitField(line);
      if field == "event" then (value, data)
      else if field == "data" then (name, data + value + "\n")
      else (name, data)
  }

  function TrimLF(data: string): string {
    if data != "" && data[|data| - 1] == '\n' then data[..|data| - 1] else data
  }

  // ---- the parser ----

  predicate IsDone(payload: string) {
    TrimSpace(payload) == "[DONE]"
  }

  /** Every event the parser comes upon, ends included. */
  function Parse(lines: seq<string>, name: string, data: string): seq<SSEEvent>
    decreases |lines|
  {
    var nothing := data == "" && name == "";
    var ev := SSEEvent(name, TrimLF(data));
    if lines == [] then if nothing then [] else [ev]
    else if lines[0] == "" then (if nothing then [] else [ev]) + Parse(lines[1..], "", "")
    else
      var (name', data') := Field(lines[0], name, data);
      Parse(lines[1..], name', data')
  }

  /** The events handed on, and the error that stopped it: handling ends at the done
      marker, which is not handed on, and at the first event refused. */
  function Handled(events: seq<SSEEvent>, fn: SSEEvent -> Option<string>): (seq<SSEEvent>, Option<string>) {
    if events == [] || IsDone(events[0].data) then ([], None)
    else
      var err := fn(events[0]);
      if err.Some? then ([events[0]], err)
      else
        var (rest, e) := Handled(events[1..], fn);
        ([events[0]] + rest, e)
  }

  /** What becomes of one more event. */
  lemma HandOn(delivered: seq<SSEEvent>, ev: SSEEvent, rest: seq<SSEEvent>, fn: SSEEvent -> Option<string>)
    ensures var (more, err) := Handled([ev] + rest, fn);
            (delivered + more, err) ==
              if IsDone(ev.data) then (delivered, None)
              else if fn(ev).Some? then (delivered + [ev], fn(ev))
              else (delivered + [ev] + Handled(rest, fn).0, Handled(rest, fn).1)
  {
    assert ([ev] + rest)[1..] == rest && delivered + [] == delivered;
    Assoc(delivered, [ev], Handled(rest, fn).0);
  }

  /** ScanSSE, as it runs over the lines. */
  method ScanSSE(s: string, fn: SSEEvent -> Option<string>) returns (delivered: seq<SSEEvent>, err: Option<string>)
    ensures (delivered, err) == Handled(Parse(Lines(s, ""), "", ""), fn)
  {
    delivered, err := [], None;
    var eventName, data := "", "";
    var lines := Lines(s, "");
    ghost var goal := Handled(Parse(lines, "", ""), fn);
    assert lines[0..] == lines && [] + goal.0 == goal.0;
    for i := 0 to |lines|
      invariant err.None?
      invariant goal == (delivered + Handled(Parse(lines[i..], eventName, data), fn).0,
                         Handled(Parse(lines[i..], eventName, data), fn).1)
    {
      var line := lines[i];
      assert lines[i..][0] == line && lines[i..][1..] == lines[i + 1..];
      if line == "" {
        if data == "" && eventName == "" {
          assert [] + Parse(lines[i + 1..], "", "") == Parse(lines[i + 1..], "", "");
          continue;
        }
        var ev := SSEEvent(eventName, TrimLF(data));
        HandOn(delivered, ev, Parse(lines[i + 1..], "", ""), fn);
        eventName, data := "", "";
        if IsDone(ev.data) {
          return;
        }
        delivered := delivered + [ev];
        err := fn(ev);
        if err.Some? {
          return;
        }
      } else {
        var (name', data') := Field(line, eventName, data);
        eventName, data := name', data';
      }
    }
    assert lines[|lines|..] == [];
    if data == "" && eventName == "" {
      assert delivered + [] == delivered;
      return;
    }
    var ev := SSEEvent(eventName, TrimLF(data));
    HandOn(delivered, ev, [], fn);
    assert [ev] + [] == [ev];
    if IsDone(ev.data) {
      return;
    }
    delivered := delivered + [ev];
    err := fn(ev);
  }

  // ---- the printer ----

  function Frame(event: string, payload: string): string {
    "event: " + event + "\n" + "data: " + payload + "\n\n"
  }

  /** An output that may stop accepting writes. */
  class Writer {
    const accepts: nat -> bool
    var calls: nat
    var written: string

    constructor (accepts: nat -> bool)
      ensures this.accepts == accepts && calls == 0 && written == ""
    {
      this.accepts, calls, written := accepts, 0, "";
    }

    method Write(s: string) returns (ok: bool)
      modifies this
      ensures calls == old(calls) + 1 && ok == accepts(old(calls))
      ensures written == if ok then old(written) + s else old(written)
    {
      ok := accepts(calls);
      calls := calls + 1;
      if ok {
        written := written + s;
      }
    }
  }

  /** One frame in four writes; a failed write ends it, leaving part of the frame. */
  method WriteSSE(w: Writer, event: string, payload: string) returns (ok: bool)
    modifies w
    ensures ok ==> w.written == old(w.written) + Frame(event, payload)
    ensures !ok ==> old(w.written) <= w.written <= old(w.written) + Frame(event, payload)
    ensures ok <==>
              && w.accepts(old(w.calls)) && w.accepts(old(w.calls) + 1)
              && w.accepts(old(w.calls) + 2) && w.accepts(old(w.calls) + 3)
  {
    ghost var head := "event: " + event + "\n";
    assert Frame(event, payload) == head + ("data: " + (payload + "\n\n"));
    ok := w.Write("event: " + event + "\n");
    if !ok {
      return;
    }
    ok := w.Write("data: ");
    if !ok {
      return;
    }
    ok := w.Write(payload);
    if !ok {
      return;
    }
    ok := w.Write("\n\n");
  }

  // ---- round trip ----

  predicate OneLine(s: string) {
    '\n' !in s && '\r' !in s
  }

  function Frames(events: seq<SSEEvent>): string {
    if events == [] then "" else Frame(events[0].event, events[0].data) + Frames(events[1..])
  }

  lemma {:induction false} LinesTake(line: string, rest: string, cur: string)
    requires '\n' !in line
    ensures Lines(line + "\n" + rest, cur) == [DropCR(cur + line)] + Lines(rest, "")
    decreases |line|
  {
    if line == "" {
      assert line + "\n" + rest == "\n" + rest && ("\n" + rest)[1..] == rest;
      assert cur + line == cur;
    } else {
      var s := line + "\n" + rest;
      assert s[0] == line[0] && s[1..] == line[1..] + "\n" + rest;
      LinesTake(line[1..], rest, cur + [line[0]]);
      assert cur + [line[0]] + line[1..] == cur + line;
    }
  }

  lemma FrameLines(event: string, payload: string, rest: string)
    requires OneLine(event) && OneLine(payload)
    ensures Lines(Frame(event, payload) + rest, "") == ["event: " + event, "data: " + payload, ""] + Lines(rest, "")
  {
    var l1, l2 := "event: " + event, "data: " + payload;
    var after2 := "" + "\n" + rest;
    var after1 := l2 + "\n" + after2;
    assert Frame(event, payload) + rest == l1 + "\n" + after1;
    LinesTake(l1, after1, "");
    LinesTake(l2, after2, "");
    LinesTake("", rest, "");
    assert "" + l1 == l1 && "" + l2 == l2;
    NoCR("event: ", event);
    NoCR("data: ", payload);
  }

  lemma NoCR(prefix: string, s: string)
    requires '\r' !in prefix && '\r' !in s && prefix != ""
    ensures DropCR(prefix + s) == prefix + s
  {
    var t := prefix + s;
    assert t[|t| - 1] == if s == "" then prefix[|prefix| - 1] else s[|s| - 1];
  }

  lemma FieldsOfFrame(event: string, payload: string)
    ensures Field("event: " + event, "", "") == (event, "")
    ensures Field("data: " + payload, event, "") == (event, payload + "\n")
  {
    var l1, l2 := "event: " + event, "data: " + payload;
    ColonAt(l1, 5);
    ColonAt(l2, 4);
    assert l1[..5] == "event" && l1[6..] == " " + event && (" " + event)[1..] == event;
    assert "" + payload + "\n" == payload + "\n";
    assert l2[..4] == "data" && l2[5..] == " " + payload && (" " + payload)[1..] == payload;
  }

  lemma {:induction false} ColonAt(line: string, k: nat)
    requires k < |line| && line[k] == ':' && forall j :: 0 <= j < k ==> line[j] != ':'
    ensures IndexOfColon(line) == k
  {
    if k > 0 {
      ColonAt(line[1..], k - 1);
    }
  }

  /** The lines of a frame parse back to the event it was printed for. */
  lemma {:induction false} FramesParse(events: seq<SSEEvent>, rest: string)
    requires forall k :: 0 <= k < |events| ==> OneLine(events[k].event) && OneLine(events[k].data)
    ensures Parse(Lines(Frames(events) + rest, ""), "", "") == events + Parse(Lines(rest, ""), "", "")
    decreases |events|
  {
    if events == [] {
      assert Frames(events) + rest == rest;
    } else {
      var e, others := events[0], events[1..];
      Assoc(Frame(e.event, e.data), Frames(others), rest);
      FrameAhead(e, Frames(others) + rest);
      FramesParse(others, rest);
      Assoc([e], others, Parse(Lines(rest, ""), "", ""));
      assert events == [e] + others;
    }
  }

  lemma FrameAhead(e: SSEEvent, more: string)
    requires OneLine(e.event) && OneLine(e.data)
    ensures Parse(Lines(Frame(e.event, e.data) + more, ""), "", "") == [e] + Parse(Lines(more, ""), "", "")
  {
    FrameLines(e.event, e.data, more);
    FieldsOfFrame(e.event, e.data);
    ThreeLines(e, "event: " + e.event, "data: " + e.data, Lines(more, ""));
  }

  lemma ThreeLines(e: SSEEvent, first: string, second: string, lines: seq<string>)
    requires first != "" && Field(first, "", "") == (e.event, "")
    requires second != "" && Field(second, e.event, "") == (e.event, e.data + "\n")
    ensures Parse([first, second, ""] + lines, "", "") == [e] + Parse(lines, "", "")
  {
    var all := [first, second, ""] + lines;
    var two, one := [second, ""] + lines, [""] + lines;
    assert all[1..] == two && two[1..] == one && one[1..] == lines;
    assert TrimLF(e.data + "\n") == e.data;
    assert Parse(one, e.event, e.data + "\n") == [e] + Parse(lines, "", "");
    assert Parse(two, e.event, "") == Parse(one, e.event, e.data + "\n");
  }

  /** Printing and scanning: whatever events are written, one frame after another, are
      handed on exactly as written, up to the first done marker or refusal. */
  lemma RoundTrip(events: seq<SSEEvent>, fn: SSEEvent -> Option<string>)
    requires forall k :: 0 <= k < |events| ==> OneLine(events[k].event) && OneLine(events[k].data)
    ensures Handled(Parse(Lines(Frames(events), ""), "", ""), fn) == Handled(events, fn)
  {
    FramesParse(events, "");
    assert Frames(events) + "" == Frames(events) && events + [] == events;
  }

  /** So, unless a payload is the done marker or the handler refuses, all of them are. */
  lemma {:induction false} AllHandedOn(events: seq<SSEEvent>, fn: SSEEvent -> Option<string>)
    ensures Handled(events, fn) == (events, None) <==>
              forall k :: 0 <= k < |events| ==> !IsDone(events[k].data) && fn(events[k]).None?
  {
    if events != [] {
      AllHandedOn(events[1..], fn);
      assert events == [events[0]] + events[1..];
      assert forall k :: 1 <= k < |events| ==> events[k] == events[1..][k - 1];
      if Handled(events, fn) == (events, None) && !IsDone(events[0].data) && fn(events[0]).None? {
        assert ([events[0]] + Handled(events[1..], fn).0)[1..] == Handled(events[1..], fn).0;
      }
    }
  }

  // ---- cutting a stream ----

  /** The stream ends where an event would: after a blank line. */
  predicate EndsBlank(s: string) {
    s == "" || (s[|s| - 1] == '\n' && Lines(s, "") != [] && Lines(s, "")[|Lines(s, "")| - 1] == "")
  }

  lemma {:induction false} LinesConcat(a: string, b: string, cur: string)
    requires a != "" && a[|a| - 1] == '\n'
    ensures Lines(a + b, cur) == Lines(a, cur) + Lines(b, "")
    decreases |a|
  {
    assert (a + b)[0] == a[0] && (a + b)[1..] == a[1..] + b;
    if |a| == 1 {
      assert a[1..] + b == b;
    } else if a[0] == '\n' {
      LinesConcat(a[1..], b, "");
    } else {
      LinesConcat(a[1..], b, cur + [a[0]]);
    }
  }

  lemma {:induction false} ParseConcat(a: seq<string>, b: seq<string>, name: string, data: string)
    requires a != [] && a[|a| - 1] == ""
    ensures Parse(a + b, name, data) == Parse(a, name, data) + Parse(b, "", "")
    decreases |a|
  {
    assert (a + b)[0] == a[0] && (a + b)[1..] == a[1..] + b;
    if |a| == 1 {
      assert a[1..] == [] && a[1..] + b == b;
      assert Parse([], "", "") == [];
    } else if a[0] == "" {
      ParseConcat(a[1..], b, "", "");
    } else {
      var (name', data') := Field(a[0], name, data);
      ParseConcat(a[1..], b, name', data');
    }
  }

  lemma {:induction false} HandledConcat(a: seq<SSEEvent>, b: seq<SSEEvent>, fn: SSEEvent -> Option<string>)
    ensures Handled(a + b, fn) ==
              if Handled(a, fn) == (a, None) then (a + Handled(b, fn).0, Handled(b, fn).1) else Handled(a, fn)
  {
    if a == [] {
      assert a + b == b && a + Handled(b, fn).0 == Handled(b, fn).0;
    } else {
      assert (a + b)[0] == a[0] && (a + b)[1..] == a[1..] + b;
      HandledConcat(a[1..], b, fn);
      if !IsDone(a[0].data) && fn(a[0]).None? {
        var rest, more := Handled(a[1..], fn), Handled(b, fn);
        assert Handled(a, fn) == ([a[0]] + rest.0, rest.1);
        assert a == [a[0]] + a[1..] && ([a[0]] + rest.0)[1..] == rest.0;
        assert [a[0]] + (a[1..] + more.0) == a + more.0;
      }
    }
  }

  /** Scanning distributes over concatenation at a blank line: the second part is
      scanned as if it came alone, unless the first part already ended it. */
  lemma ScanDistributes(a: string, b: string, fn: SSEEvent -> Option<string>)
    requires EndsBlank(a)
    ensures var first := Parse(Lines(a, ""), "", "");
            var second := Parse(Lines(b, ""), "", "");
            Handled(Parse(Lines(a + b, ""), "", ""), fn) ==
              if Handled(first, fn) == (first, None) then (first + Handled(second, fn).0, Handled(second, fn).1)
              else Handled(first, fn)
  {
    var first, second := Parse(Lines(a, ""), "", ""), Parse(Lines(b, ""), "", "");
    if a == "" {
      assert a + b == b;
      assert [] + second == second && [] + Handled(second, fn).0 == Handled(second, fn).0;
    } else {
      LinesConcat(a, b, "");
      ParseConcat(Lines(a, ""), Lines(b, ""), "", "");
      HandledConcat(first, second, fn);
    }
  }

  // ---- the standard ----

  /** Lines as section 9.2.6 of the WHATWG HTML Living Standard has them: CRLF, LF and
      CR each end a line. */
  function StandardLines(s: string, cur: string): seq<string>
    decreases |s|
  {
    if s == "" then if cur == "" then [] else [cur]
    else if s[0] == '\n' then [cur] + StandardLines(s[1..], "")
    else if s[0] == '\r' then [cur] + StandardLines(if |s| > 1 && s[1] == '\n' then s[2..] else s[1..], "")
    else StandardLines(s[1..], cur + [s[0]])
  }

  /** A line up to its first colon. */
  function FieldName(line: string): (name: string)
    ensures |name| <= |line|
  {
    if line == "" || line[0] == ':' then "" else [line[0]] + FieldName(line[1..])
  }

  /** What follows the colon, without one leading space; nothing if there is no colon. */
  function FieldValue(line: string): string {
    var after := line[|FieldName(line)|..];
    if after == "" then ""
    else if |after| > 1 && after[1] == ' ' then after[2..]
    else after[1..]
  }

  /** The event type buffer and the data buffer after one more line that is not blank: a
      comment changes nothing, `event` sets the one, `data` adds its value and a line feed
      to the other, and other fields are ignored here. */
  function Buffered(line: string, name: string, data: string): (string, string) {
    if line != "" && line[0] == ':' then (name, data)
    else
      match FieldName(line)
      case "event" => (FieldValue(line), data)
      case "data" => (name, data + FieldValue(line) + "\n")
      case _ => (name, data)
  }

  /** Dispatch as the standard has it: a blank line dispatches the event if it has any
      data, less one line feed at its end, and an event the stream breaks off in is
      dropped. The default type is left empty here. */
  function StandardParse(lines: seq<string>, name: string, data: string): seq<SSEEvent>
    decreases |lines|
  {
    if lines == [] then []
    else if lines[0] == "" then
      (if data == "" then []
       else [SSEEvent(name, if data[|data| - 1] == '\n' then data[..|data| - 1] else data)])
      + StandardParse(lines[1..], "", "")
    else
      var (name', data') := Buffered(lines[0], name, data);
      StandardParse(lines[1..], name', data')
  }

  lemma {:induction false} NameIsPrefix(line: string)
    ensures |FieldName(line)| <= |line| && FieldName(line) == line[..|FieldName(line)|]
    ensures |FieldName(line)| == IndexOfColon(line)
    ensures |FieldName(line)| < |line| ==> line[|FieldName(line)|] == ':'
  {
    if line != "" && line[0] != ':' {
      NameIsPrefix(line[1..]);
      var n := |FieldName(line[1..])|;
      assert line[..n + 1] == [line[0]] + line[1..][..n];
    }
  }

  /** The parser reads a line as the standard does. */
  lemma FieldAsStandard(line: string, name: string, data: string)
    ensures Field(line, name, data) == Buffered(line, name, data)
  {
    NameIsPrefix(line);
    var i := IndexOfColon(line);
    if i < |line| {
      var after := line[i..];
      assert after[1..] == line[i + 1..];
      assert |after| > 1 ==> after[2..] == line[i + 1..][1..];
    } else {
      assert line[..|line|] == line;
    }
  }

  predicate NoLoneCR(s: string) {
    forall i :: 0 <= i < |s| && s[i] == '\r' ==> i + 1 < |s| && s[i + 1] == '\n'
  }

  lemma {:induction false} LinesAgree(s: string, cur: string)
    requires NoLoneCR(s) && '\r' !in cur
    ensures Lines(s, cur) == StandardLines(s, cur)
    decreases |s|
  {
    assert DropCR(cur) == cur;
    if s != "" {
      assert forall i :: 0 <= i < |s| - 1 ==> s[1..][i] == s[i + 1];
      if s[0] == '\n' {
        LinesAgree(s[1..], "");
      } else if s[0] == '\r' {
        assert s[1] == '\n' && s[1..][0] == '\n' && s[1..][1..] == s[2..];
        assert DropCR(cur + ['\r']) == cur;
        LinesAgree(s[2..], "");
      } else {
        LinesAgree(s[1..], cur + [s[0]]);
      }
    }
  }

  /** Every event that names itself or holds data has a data line, and is ended by a
      blank line. */
  predicate Complete(lines: seq<string>, name: string, data: string)
    decreases |lines|
  {
    if lines == [] then data == "" && name == ""
    else if lines[0] == "" then (data == "" ==> name == "") && Complete(lines[1..], "", "")
    else
      var (name', data') := Buffered(lines[0], name, data);
      Complete(lines[1..], name', data')
  }

  lemma {:induction false} NeverFewer(lines: seq<string>, name: string, data: string)
    ensures |Parse(lines, name, data)| >= |StandardParse(lines, name, data)|
    ensures Complete(lines, name, data) ==> Parse(lines, name, data) == StandardParse(lines, name, data)
    ensures !Complete(lines, name, data) ==> |Parse(lines, name, data)| > |StandardParse(lines, name, data)|
    decreases |lines|
  {
    if lines != [] {
      if lines[0] == "" {
        NeverFewer(lines[1..], "", "");
      } else {
        FieldAsStandard(lines[0], name, data);
        var (name', data') := Buffered(lines[0], name, data);
        NeverFewer(lines[1..], name', data');
      }
    }
  }

  /** On a stream without lone CRs and without a byte order mark the parser comes upon
      exactly the standard's events if and only if every event is complete; otherwise
      it comes upon more. */
  lemma MeetsTheStandardIff(s: string)
    requires NoLoneCR(s) && (s != "" ==> s[0] != '\U{FEFF}')
    ensures Parse(Lines(s, ""), "", "") == StandardParse(StandardLines(s, ""), "", "") <==>
            Complete(Lines(s, ""), "", "")
  {
    LinesAgree(s, "");
    NeverFewer(Lines(s, ""), "", "");
  }

  // ---- what is handed on, and what an event's data is ----

  predicate AllSpace(s: string) {
    forall k :: 0 <= k < |s| ==> IsSpace(s[k])
  }

  /** The done marker may have space around it. */
  lemma DoneIff(payload: string)
    ensures IsDone(payload) <==>
              exists a: string, b: string :: AllSpace(a) && AllSpace(b) && payload == a + "[DONE]" + b
  {
    var left := TrimLeft(payload);
    var a := LeftSpace(payload);
    var b := RightSpace(left);
    if IsDone(payload) {
      assert payload == a + (TrimRight(left) + b) == a + "[DONE]" + b;
    }
    if c: string, d: string :| AllSpace(c) && AllSpace(d) && payload == c + "[DONE]" + d {
      TrimmedLeft(c, "[DONE]" + d);
      assert c + ("[DONE]" + d) == payload;
      TrimmedRight("[DONE]", d);
    }
  }

  lemma {:induction false} LeftSpace(s: string) returns (a: string)
    ensures AllSpace(a) && s == a + TrimLeft(s)
    decreases |s|
  {
    if s != "" && IsSpace(s[0]) {
      var rest := LeftSpace(s[1..]);
      a := [s[0]] + rest;
      assert s == [s[0]] + s[1..];
      Assoc([s[0]], rest, TrimLeft(s[1..]));
    } else {
      a := "";
    }
  }

  lemma {:induction false} RightSpace(s: string) returns (b: string)
    ensures AllSpace(b) && s == TrimRight(s) + b
    decreases |s|
  {
    if s != "" && IsSpace(s[|s| - 1]) {
      var rest := RightSpace(s[..|s| - 1]);
      b := rest + [s[|s| - 1]];
      assert s == s[..|s| - 1] + [s[|s| - 1]];
      Assoc(TrimRight(s[..|s| - 1]), rest, [s[|s| - 1]]);
    } else {
      b := "";
    }
  }

  lemma {:induction false} TrimmedLeft(a: string, s: string)
    requires AllSpace(a) && s != "" && !IsSpace(s[0])
    ensures TrimLeft(a + s) == s
    decreases |a|
  {
    if a == "" {
      assert a + s == s;
    } else {
      assert (a + s)[0] == a[0] && (a + s)[1..] == a[1..] + s;
      TrimmedLeft(a[1..], s);
    }
  }

  lemma {:induction false} TrimmedRight(s: string, b: string)
    requires AllSpace(b) && s != "" && !IsSpace(s[|s| - 1])
    ensures TrimRight(s + b) == s
    decreases |b|
  {
    if b == "" {
      assert s + b == s;
    } else {
      var n := |b| - 1;
      assert (s + b)[|s + b| - 1] == b[n] && (s + b)[..|s + b| - 1] == s + b[..n];
      TrimmedRight(s, b[..n]);
    }
  }

  /** What is handed on: everything before the first event that is the done marker or
      refused, and the refused one itself. */
  lemma {:induction false} HandsOnUpTo(events: seq<SSEEvent>, fn: SSEEvent -> Option<string>, k: nat)
    requires k <= |events|
    requires forall j :: 0 <= j < k ==> !IsDone(events[j].data) && fn(events[j]).None?
    requires k < |events| ==> IsDone(events[k].data) || fn(events[k]).Some?
    ensures Handled(events, fn) ==
              if k == |events| || IsDone(events[k].data) then (events[..k], None)
              else (events[..k + 1], fn(events[k]))
    decreases k
  {
    if k == 0 {
      assert events[..0] == [];
      assert events != [] ==> events[..1] == [events[0]];
    } else {
      var rest := events[1..];
      assert forall j :: 0 <= j < |rest| ==> rest[j] == events[j + 1];
      HandsOnUpTo(rest, fn, k - 1);
      assert [events[0]] + rest[..k - 1] == events[..k];
      assert k < |events| ==> [events[0]] + rest[..k] == events[..k + 1];
    }
  }

  /** The lines give these values of data fields, and beside them only comments and fields
      other than `event`. */
  predicate GivesData(lines: seq<string>, values: seq<string>)
    decreases |lines|
  {
    if lines == [] then values == []
    else
      || (lines[0] != "" && lines[0][0] == ':' && GivesData(lines[1..], values))
      || (':' !in lines[0] && lines[0] !in {"", "event", "data"} && GivesData(lines[1..], values))
      || (values != [] && lines[0] == "data: " + values[0] && GivesData(lines[1..], values[1..]))
  }

  function Feed(values: seq<string>): string {
    if values == [] then "" else values[0] + "\n" + Feed(values[1..])
  }

  /** An event of several data lines, comments and unknown fields anywhere between, has
      their values as its data, one to a line. */
  lemma DataLinesJoined(lines: seq<string>, values: seq<string>, rest: seq<string>)
    requires GivesData(lines, values) && values != []
    ensures Parse(lines + [""] + rest, "", "") == [SSEEvent("", TrimLF(Feed(values)))] + Parse(rest, "", "")
    ensures Feed(values) == TrimLF(Feed(values)) + "\n"
  {
    Assoc(lines, [""], rest);
    DataLinesBuffered(lines, values, [""] + rest, "");
    assert "" + Feed(values) == Feed(values);
    FeedEnds(values);
    Dispatched(Feed(values), rest);
  }

  lemma Dispatched(data: string, rest: seq<string>)
    requires data != "" && data[|data| - 1] == '\n'
    ensures Parse([""] + rest, "", data) == [SSEEvent("", TrimLF(data))] + Parse(rest, "", "")
    ensures data == TrimLF(data) + "\n"
  {
    assert ([""] + rest)[1..] == rest;
  }

  lemma {:induction false} FeedEnds(values: seq<string>)
    requires values != []
    ensures Feed(values) != "" && Feed(values)[|Feed(values)| - 1] == '\n'
  {
    if |values| > 1 {
      FeedEnds(values[1..]);
    }
  }

  lemma {:induction false} DataLinesBuffered(lines: seq<string>, values: seq<string>, after: seq<string>, data: string)
    requires GivesData(lines, values)
    ensures Parse(lines + after, "", data) == Parse(after, "", data + Feed(values))
    decreases |lines|
  {
    if lines == [] {
      assert lines + after == after && data + "" == data;
    } else {
      var line, more := lines[0], lines[1..];
      assert (lines + after)[0] == line && (lines + after)[1..] == more + after;
      FieldAsStandard(line, "", data);
      if line != "" && line[0] == ':' && GivesData(more, values) {
        DataLinesBuffered(more, values, after, data);
      } else if ':' !in line && line !in {"", "event", "data"} && GivesData(more, values) {
        NameOfWhole(line);
        DataLinesBuffered(more, values, after, data);
      } else {
        DataLine(values[0]);
        DataLinesBuffered(more, values[1..], after, data + values[0] + "\n");
        assert data + values[0] + "\n" + Feed(values[1..]) == data + Feed(values);
      }
    }
  }

  lemma {:induction false} NameOfWhole(line: string)
    requires ':' !in line
    ensures FieldName(line) == line
  {
    if line != "" {
      NameOfWhole(line[1..]);
    }
  }

  lemma DataLine(value: string)
    ensures var line := "data: " + value; FieldName(line) == "data" && FieldValue(line) == value
  {
    var line := "data: " + value;
    NameIsPrefix(line);
    ColonAt(line, 4);
    assert line[..4] == "data";
    assert line[4..][2..] == value;
  }
}
