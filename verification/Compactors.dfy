/** The two compactors (agent/compact.go) and the contract the loop relies on. */
module Compactors {
  import opened Gage
  import opened Numerals
  import opened AgentLoop
  import opened Pairing

  /** Where the kept tail starts: past any tool messages at `from`. */
  function CutFrom(msgs: seq<Message>, from: nat): nat
    requires from <= |msgs|
    decreases |msgs| - from
  {
    if from < |msgs| && msgs[from].role.RoleTool? then CutFrom(msgs, from + 1) else from
  }

  /** The cut, or nothing when there is nothing worth dropping. */
  function Cut(keep: int, msgs: seq<Message>): Option<nat> {
    if keep <= 0 || |msgs| <= keep + 1 then None
    else
      var cut := CutFrom(msgs, |msgs| - keep);
      if cut <= 1 || cut >= |msgs| then None else Some(cut)
  }

  /** The first message, a note in place of the dropped part, and the kept tail. */
  function Elide(msgs: seq<Message>, cut: nat, note: string): seq<Message>
    requires 0 < cut <= |msgs|
  {
    [msgs[0], UserText(note)] + msgs[cut..]
  }

  function ElidedNote(n: nat): string {
    "[" + Decimal(n) + " earlier messages elided to fit the context window]"
  }

  lemma {:induction false} CutFromSpec(msgs: seq<Message>, from: nat)
    requires from <= |msgs|
    ensures var cut := CutFrom(msgs, from);
            && from <= cut <= |msgs|
            && (cut < |msgs| ==> !msgs[cut].role.RoleTool?)
            && (forall k :: from <= k < cut ==> msgs[k].role.RoleTool?)
    decreases |msgs| - from
  {
    if from < |msgs| && msgs[from].role.RoleTool? {
      CutFromSpec(msgs, from + 1);
    }
  }

  /** What an elided history is: it opens as before, ends in the longest tail of at
      most `keep` messages that does not open on a tool result, and drops at least
      one message (its note stands for at least one). */
  lemma CutSpec(keep: int, msgs: seq<Message>, note: string)
    ensures var cut := Cut(keep, msgs);
            cut.Some? ==>
              && 1 < cut.value < |msgs|
              && |msgs| - cut.value <= keep
              && !msgs[cut.value].role.RoleTool?
              && (forall k :: |msgs| - keep <= k < cut.value ==> msgs[k].role.RoleTool?)
              && |Elide(msgs, cut.value, note)| <= |msgs|
  {
    if keep > 0 && |msgs| > keep + 1 {
      CutFromSpec(msgs, |msgs| - keep);
    }
  }

  /** Eliding never separates a tool use from its results, whatever the note says. */
  lemma ElideKeepsPairing(keep: int, msgs: seq<Message>, note: string)
    requires WellKept(msgs)
    ensures Cut(keep, msgs).Some? ==> WellKept(Elide(msgs, Cut(keep, msgs).value, note))
  {
    CutSpec(keep, msgs, note);
    var cut := Cut(keep, msgs);
    if cut.Some? {
      PairedSuffix(msgs, cut.value);
      assert Uses(msgs[0]) == [] && Uses(UserText(note)) == [];
      PairedTurn(msgs[0], []);
      PairedTurn(UserText(note), []);
      PairedConcat([msgs[0]] + ToolResultMessages([]), [UserText(note)] + ToolResultMessages([]));
      var head := [msgs[0], UserText(note)];
      assert head == ([msgs[0]] + ToolResultMessages([])) + ([UserText(note)] + ToolResultMessages([]));
      PairedConcat(head, msgs[cut.value..]);
    }
  }

  function Trimmed(keep: int, msgs: seq<Message>): seq<Message> {
    var cut := Cut(keep, msgs);
    if cut.None? then msgs else Elide(msgs, cut.value, ElidedNote(cut.value - 1))
  }

  /** Trim, as it advances its cut. */
  method Trim(keep: int, msgs: seq<Message>) returns (out: seq<Message>)
    ensures out == Trimmed(keep, msgs)
    ensures WellKept(msgs) ==> WellKept(out)
  {
    if keep <= 0 || |msgs| <= keep + 1 {
      return msgs;
    }
    var cut := |msgs| - keep;
    while cut < |msgs| && msgs[cut].role.RoleTool?
      invariant 0 < cut <= |msgs|
      invariant CutFrom(msgs, cut) == CutFrom(msgs, |msgs| - keep)
    {
      cut := cut + 1;
    }
    if cut <= 1 || cut >= |msgs| {
      return msgs;
    }
    out := [msgs[0]];
    out := out + [UserText(ElidedNote(cut - 1))];
    out := out + msgs[cut..];
    if WellKept(msgs) {
      ElideKeepsPairing(keep, msgs, ElidedNote(cut - 1));
    }
  }

  datatype Digest = Summary(text: string, used: Usage) | NoSummary(err: Err, used: Usage)

  /** Collecting the summary stream. A failing stream ends it. */
  function Collect(events: seq<Event>, text: string, used: Usage): Digest
    decreases |events|
  {
    if events == [] then Summary(text, used)
    else
      match events[0]
      case TextDelta(s) => Collect(events[1..], text + s, used)
      case UsageEvent(u) => Collect(events[1..], text, u)
      case ErrorEvent(err, msg) => NoSummary(Wrapped("summarize compaction", ErrorOf(events[0])), used)
      case _ => Collect(events[1..], text, used)
  }

  const SUMMARY_HEADER := "[Summary of the elided earlier conversation]\n"

  /** What the summarizing compactor replies, given what the model streams for the
      elided messages and whether the context died meanwhile. */
  function Summarized(keep: int, msgs: seq<Message>, summarizer: seq<Message> -> StreamReply,
                      ctxErr: Option<Err>): CompactReply {
    var cut := Cut(keep, msgs);
    if cut.None? then Shrunk(msgs, ZERO_USAGE)
    else
      match summarizer(msgs[1..cut.value])
      case Refused(err) => CompactFailed(Wrapped("summarize compaction", err))
      case Streaming(events) =>
        match Collect(events, "", ZERO_USAGE)
        case NoSummary(err, _) => CompactFailed(err)
        case Summary(text, used) =>
          if ctxErr.Some? then CompactFailed(ctxErr.value)
          else Shrunk(Elide(msgs, cut.value, SUMMARY_HEADER + text), used)
  }

  method Summarize(keep: int, msgs: seq<Message>, summarizer: seq<Message> -> StreamReply, ctxErr: Option<Err>)
    returns (reply: CompactReply)
    ensures reply == Summarized(keep, msgs, summarizer, ctxErr)
    ensures WellKept(msgs) && reply.Shrunk? ==> WellKept(reply.messages)
  {
    if keep <= 0 || |msgs| <= keep + 1 {
      return Shrunk(msgs, ZERO_USAGE);
    }
    var cut := |msgs| - keep;
    while cut < |msgs| && msgs[cut].role.RoleTool?
      invariant 0 < cut <= |msgs|
      invariant CutFrom(msgs, cut) == CutFrom(msgs, |msgs| - keep)
    {
      cut := cut + 1;
    }
    if cut <= 1 || cut >= |msgs| {
      return Shrunk(msgs, ZERO_USAGE);
    }
    var stream := summarizer(msgs[1..cut]);
    if stream.Refused? {
      return CompactFailed(Wrapped("summarize compaction", stream.err));
    }
    var summary, used := "", ZERO_USAGE;
    for i := 0 to |stream.events|
      invariant Collect(stream.events[i..], summary, used) == Collect(stream.events, "", ZERO_USAGE)
    {
      var ev := stream.events[i];
      assert stream.events[i..][0] == ev && stream.events[i..][1..] == stream.events[i + 1..];
      match ev {
        case TextDelta(s) => summary := summary + s;
        case UsageEvent(u) => used := u;
        case ErrorEvent(_, _) =>
          return CompactFailed(Wrapped("summarize compaction", ErrorOf(ev)));
        case _ =>
      }
    }
    if ctxErr.Some? {
      return CompactFailed(ctxErr.value);
    }
    reply := Shrunk([msgs[0], UserText(SUMMARY_HEADER + summary)] + msgs[cut..], used);
    if WellKept(msgs) {
      ElideKeepsPairing(keep, msgs, SUMMARY_HEADER + summary);
    }
  }

  /** Trim as the loop calls it. */
  function Trimming(keep: int): (nat, seq<Message>, Usage) -> CompactReply {
    (moment: nat, msgs: seq<Message>, reported: Usage) => Shrunk(Trimmed(keep, msgs), ZERO_USAGE)
  }

  /** Summarize as the loop calls it. */
  function Summarizing(keep: int, summarizer: seq<Message> -> StreamReply, ctxErr: nat -> Option<Err>):
      (nat, seq<Message>, Usage) -> CompactReply {
    (moment: nat, msgs: seq<Message>, reported: Usage) => Summarized(keep, msgs, summarizer, ctxErr(moment))
  }

  lemma SummarizedKeepsPairing(keep: int, msgs: seq<Message>, summarizer: seq<Message> -> StreamReply,
                               ctxErr: Option<Err>)
    requires WellKept(msgs)
    ensures var reply := Summarized(keep, msgs, summarizer, ctxErr);
            reply.Shrunk? ==> WellKept(reply.messages)
  {
    var cut := Cut(keep, msgs);
    if cut.Some? {
      match summarizer(msgs[1..cut.value])
      case Refused(_) =>
      case Streaming(events) =>
        match Collect(events, "", ZERO_USAGE)
        case Summary(text, _) => ElideKeepsPairing(keep, msgs, SUMMARY_HEADER + text);
        case NoSummary(_, _) =>
    }
  }

  /** Both compactors honour the contract, so the whole-run theorem covers agents
      configured with either. */
  lemma CompactorsHonourContract(w: World, keep: int, summarizer: seq<Message> -> StreamReply)
    requires w.compactor == Some(Trimming(keep)) || w.compactor == Some(Summarizing(keep, summarizer, w.ctxErr))
    ensures CompactorKeeps(w)
  {
    forall n: nat, msgs: seq<Message>, u: Usage | WellKept(msgs) && w.compactor.value(n, msgs, u).Shrunk?
      ensures WellKept(w.compactor.value(n, msgs, u).messages)
    {
      if w.compactor == Some(Trimming(keep)) {
        assert w.compactor.value(n, msgs, u) == Shrunk(Trimmed(keep, msgs), ZERO_USAGE);
        if Cut(keep, msgs).Some? {
          ElideKeepsPairing(keep, msgs, ElidedNote(Cut(keep, msgs).value - 1));
        }
      } else {
        assert w.compactor.value(n, msgs, u) == Summarized(keep, msgs, summarizer, w.ctxErr(n));
        SummarizedKeepsPairing(keep, msgs, summarizer, w.ctxErr(n));
      }
    }
  }
}
