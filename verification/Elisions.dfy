/** What the compactors put in place of what they drop, said over the conversation and the
    summarizer's stream. */
module Elisions {
  import opened Gage
  import opened Numerals
  import opened AgentLoop
  import opened Compactors
  import Retries
  import Reports
  import Transcripts

  /** The first message apart, exactly those before `cut` are left out: at most `keep` stay,
      from the first of them that is not a tool message, and some are left out and some
      stay. */
  predicate LeavesOut(keep: int, msgs: seq<Message>, cut: nat) {
    && 0 < keep < |msgs| - 1 && 1 < cut < |msgs|
    && |msgs| - keep <= cut && msgs[cut].role != RoleTool
    && forall k :: |msgs| - keep <= k < cut ==> msgs[k].role == RoleTool
  }

  lemma OneCut(keep: int, msgs: seq<Message>, cut: nat)
    ensures Cut(keep, msgs) == Some(cut) <==> LeavesOut(keep, msgs, cut)
  {
    CutSpec(keep, msgs, "");
    if LeavesOut(keep, msgs, cut) {
      CutFromSpec(msgs, |msgs| - keep);
    }
  }

  lemma NothingLeftOut(keep: int, msgs: seq<Message>)
    ensures Cut(keep, msgs).None? <==> forall cut: nat :: !LeavesOut(keep, msgs, cut)
  {
    if Cut(keep, msgs).Some? {
      OneCut(keep, msgs, Cut(keep, msgs).value);
    }
    forall cut: nat | LeavesOut(keep, msgs, cut)
      ensures Cut(keep, msgs).Some?
    {
      OneCut(keep, msgs, cut);
    }
  }

  /** A numeral read back. */
  function Value(s: string): int {
    if s == "" then 0 else 10 * Value(s[..|s| - 1]) + (s[|s| - 1] as int - '0' as int)
  }

  lemma {:induction false} DecimalReads(n: nat)
    ensures Value(Decimal(n)) == n && forall k :: 0 <= k < |Decimal(n)| ==> '0' <= Decimal(n)[k] <= '9'
  {
    if n < 10 {
      assert Decimal(n)[..0] == "";
    } else {
      DecimalReads(n / 10);
      assert Decimal(n)[..|Decimal(n)| - 1] == Decimal(n / 10);
    }
  }

  /** Trim: the first message and the kept tail, and between them a note with the number of
      the messages left out; the conversation as it is if none are. */
  lemma TrimSays(keep: int, msgs: seq<Message>)
    ensures (forall cut: nat :: !LeavesOut(keep, msgs, cut)) ==> Trimmed(keep, msgs) == msgs
    ensures forall cut: nat :: LeavesOut(keep, msgs, cut) ==>
              exists numeral: string :: Value(numeral) == |msgs[1..cut]| &&
                Trimmed(keep, msgs) == [
                  msgs[0],
                  Message(RoleUser, [TextPart("[" + numeral + " earlier messages elided to fit the context window]")])
                ] + msgs[cut..]
  {
    NothingLeftOut(keep, msgs);
    forall cut: nat | LeavesOut(keep, msgs, cut)
      ensures exists numeral: string :: Value(numeral) == |msgs[1..cut]| &&
                Trimmed(keep, msgs) == [
                  msgs[0],
                  Message(RoleUser, [TextPart("[" + numeral + " earlier messages elided to fit the context window]")])
                ] + msgs[cut..]
    {
      OneCut(keep, msgs, cut);
      DecimalReads(cut - 1);
      assert Value(Decimal(cut - 1)) == |msgs[1..cut]|;
    }
  }

  /** Collecting a summary is hearing the stream out up to its first error. */
  lemma {:induction false} CollectHears(events: seq<Event>, i: nat, text: string, used: Usage)
    requires i <= |events| && text == Reports.TextSaid(events[..i]) && used == Reports.UsageReported(events[..i])
    requires Transcripts.NoErrors(events[..i])
    ensures var r, stop := Collect(events[i..], text, used), Retries.ErrorAt(events);
            if stop < |events| then r.NoSummary? && r.err == Wrapped("summarize compaction", ErrorOf(events[stop]))
            else r == Summary(Reports.TextSaid(events), Reports.UsageReported(events))
    decreases |events| - i
  {
    ErrorFrom(events, i);
    if i == |events| {
      assert events[..i] == events;
    } else if !events[i].ErrorEvent? {
      HeardMore(events, i);
      assert events[i..][0] == events[i] && events[i..][1..] == events[i + 1..];
      assert text + "" == text;
      CollectHears(events, i + 1, text + (if events[i].TextDelta? then events[i].text else ""),
                   if events[i].UsageEvent? then events[i].usage else used);
    }
  }

  lemma HeardMore(events: seq<Event>, i: nat)
    requires i < |events| && Transcripts.NoErrors(events[..i]) && !events[i].ErrorEvent?
    ensures Reports.TextSaid(events[..i + 1])
         == Reports.TextSaid(events[..i]) + if events[i].TextDelta? then events[i].text else ""
    ensures Reports.UsageReported(events[..i + 1])
         == if events[i].UsageEvent? then events[i].usage else Reports.UsageReported(events[..i])
    ensures Transcripts.NoErrors(events[..i + 1])
  {
    assert events[..i + 1][..i] == events[..i];
  }

  /** The first error, with none before `i`. */
  lemma {:induction false} ErrorFrom(events: seq<Event>, i: nat)
    requires i <= |events| && Transcripts.NoErrors(events[..i])
    ensures Retries.ErrorAt(events) >= i
    ensures i < |events| && events[i].ErrorEvent? ==> Retries.ErrorAt(events) == i
    decreases i
  {
    if i > 0 {
      assert events[..i][0] == events[0];
      assert events[1..][..i - 1] == events[..i][1..];
      ErrorFrom(events[1..], i - 1);
    }
  }

  /** Summarize: the messages between the first and the kept tail, and only those, are
      summarized; the note is the header and the text of the summarizer's stream, at the
      usage it reports last. It fails on a refusal, on the first error of the stream, or
      on the context's error once the stream is over. */
  lemma SummarySays(keep: int, msgs: seq<Message>, summarizer: seq<Message> -> StreamReply, ctxErr: Option<Err>)
    ensures var reply := Summarized(keep, msgs, summarizer, ctxErr);
            && ((forall cut: nat :: !LeavesOut(keep, msgs, cut)) ==> reply == Shrunk(msgs, Usage(0, 0, 0, 0, 0)))
            && forall first, dropped, kept ::
                 msgs == [first] + dropped + kept && LeavesOut(keep, msgs, 1 + |dropped|) ==>
                 SummaryOf(first, dropped, kept, summarizer, ctxErr, reply)
  {
    NothingLeftOut(keep, msgs);
    var reply := Summarized(keep, msgs, summarizer, ctxErr);
    forall first, dropped, kept | msgs == [first] + dropped + kept && LeavesOut(keep, msgs, 1 + |dropped|)
      ensures SummaryOf(first, dropped, kept, summarizer, ctxErr, reply)
    {
      OneCut(keep, msgs, 1 + |dropped|);
      assert msgs[1..1 + |dropped|] == dropped && msgs[1 + |dropped|..] == kept;
      match summarizer(dropped)
      case Refused(_) =>
      case Streaming(events) =>
        assert events[0..] == events;
        CollectHears(events, 0, "", ZERO_USAGE);
    }
  }

  predicate SummaryOf(first: Message, dropped: seq<Message>, kept: seq<Message>,
                      summarizer: seq<Message> -> StreamReply, ctxErr: Option<Err>, reply: CompactReply) {
    match summarizer(dropped)
    case Refused(err) => reply == CompactFailed(Wrapped("summarize compaction", err))
    case Streaming(events) =>
      var stop := Retries.ErrorAt(events);
      if stop < |events| then reply == CompactFailed(Wrapped("summarize compaction", ErrorOf(events[stop])))
      else if ctxErr.Some? then reply == CompactFailed(ctxErr.value)
      else
        var note := "[Summary of the elided earlier conversation]\n" + Reports.TextSaid(events);
        reply == Shrunk([first, Message(RoleUser, [TextPart(note)])] + kept, Reports.UsageReported(events))
  }
}
