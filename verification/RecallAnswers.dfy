/** What a recall answers, said of the memories themselves. */
module RecallAnswers {
  import opened Gage
  import opened Strings
  import opened Ordering
  import opened Recall
  import Numerals

  /** The memory is one the query asks for: of its namespace and user, if it names them, not
      expired unless that is asked for, and with each metadata value it names; a blank value
      asks for a key that is blank or missing. */
  predicate AskedFor(m: Memory, q: Query, now: int) {
    && q.namespace in {"", m.namespace} && q.userID in {"", m.userID}
    && (m.expiresAt != 0 && m.expiresAt <= now ==> q.includeExpired)
    && forall k :: k in q.metadata ==>
         if k in m.metadata then m.metadata[k] == q.metadata[k] else q.metadata[k] == ""
  }

  /** `a` ranks above `b`: a score beats none, a higher one a lower one; of equals the newer,
      and of those the one whose identifier is the smaller. */
  predicate Above(a: Scored, b: Scored) {
    || (a.score.Some? && b.score.None?)
    || (a.score.Some? && b.score.Some? && b.score.value < a.score.value)
    || (a.score == b.score && b.m.createdAt < a.m.createdAt)
    || (a.score == b.score && b.m.createdAt == a.m.createdAt && StringLess(a.m.id, b.m.id))
  }

  /** A text occurs in another. */
  predicate OccursIn(sub: string, s: string) {
    exists i :: 0 <= i <= |s| && sub <= s[i..]
  }

  lemma {:induction false} ContainsIff(s: string, sub: string)
    ensures Contains(s, sub) <==> OccursIn(sub, s)
  {
    if sub <= s {
      assert s[0..] == s;
    } else if s == "" {
      assert s[0..] == s;
    } else {
      ContainsIff(s[1..], sub);
      if OccursIn(sub, s[1..]) {
        var i :| 0 <= i <= |s[1..]| && sub <= s[1..][i..];
        assert s[i + 1..] == s[1..][i..];
      }
      if OccursIn(sub, s) {
        var i :| 0 <= i <= |s| && sub <= s[i..];
        assert i > 0 ==> s[i..] == s[1..][i - 1..];
      }
    }
  }

  /** The words of a query that occur in a memory. */
  ghost function WordsIn(terms: seq<string>, haystack: string): set<nat> {
    set k: nat | k < |terms| && OccursIn(terms[k], haystack)
  }

  lemma {:induction false} HitsCount(terms: seq<string>, haystack: string)
    ensures Hits(terms, haystack) == |WordsIn(terms, haystack)|
  {
    if terms == [] {
      assert WordsIn(terms, haystack) == {};
    } else {
      var n := |terms| - 1;
      HitsCount(terms[..n], haystack);
      ContainsIff(haystack, terms[n]);
      OneMoreWord(terms, haystack);
    }
  }

  lemma OneMoreWord(terms: seq<string>, haystack: string)
    requires terms != []
    ensures |WordsIn(terms, haystack)|
         == |WordsIn(terms[..|terms| - 1], haystack)|
            + if OccursIn(terms[|terms| - 1], haystack) then 1 else 0
  {
    var n := |terms| - 1;
    var before := WordsIn(terms[..n], haystack);
    assert n !in before;
    if OccursIn(terms[n], haystack) {
      assert WordsIn(terms, haystack) == before + {n};
    } else {
      assert WordsIn(terms, haystack) == before;
    }
  }

  /** The score of a memory: ten for the query as a whole, one for each of its words. A blank
      query scores one. */
  lemma ScoreCounts(query: string, m: Memory, lower: char -> char)
    ensures var q, text := Lower(TrimSpace(query), lower), Haystack(m, lower);
            Score(query, m, lower) ==
              if q == "" then 1
              else (if OccursIn(q, text) then 10 else 0) + |WordsIn(Fields(q, ""), text)|
  {
    var q, text := Lower(TrimSpace(query), lower), Haystack(m, lower);
    ContainsIff(text, q);
    HitsCount(Fields(q, ""), text);
  }

  /** The answer: memories the query asks for, each above the next; and what is asked for and
      scores, but is not in the answer, is below all of it and found no room. */
  lemma AnswerIs(records: map<string, Memory>, how: Search, limit: nat) returns (out: seq<Scored>)
    requires Keyed(records)
    ensures Best(records, how, limit) == Memories(out) && |out| <= limit
    ensures forall a :: a in out ==>
              && a.m in records.Values && AskedFor(a.m, how.query, how.now) && a.score == ScoreBy(a.m, how)
    ensures forall i, j :: 0 <= i < j < |out| ==> Above(out[i], out[j])
    ensures forall m :: m in records.Values && AskedFor(m, how.query, how.now) && Scored(m, ScoreBy(m, how)) !in out ==>
              NoPlace(out, m, how, limit)
  {
    out := BestIsTop(records, how, limit);
    forall m | m in records.Values && AskedFor(m, how.query, how.now) && Scored(m, ScoreBy(m, how)) !in out
      ensures NoPlace(out, m, how, limit)
    {
      LeftOutWhy(records, how, limit, out, m);
    }
  }

  /** The memory has no words of the query, or there was no room left for it. */
  ghost predicate NoPlace(out: seq<Scored>, m: Memory, how: Search, limit: nat) {
    || (how.ranker.ByWords? && TrimSpace(how.query.query) != "" && Score(how.query.query, m, how.lower) == 0)
    || (|out| == limit && forall a :: a in out ==> Above(a, Scored(m, ScoreBy(m, how))))
  }

  lemma LeftOutWhy(records: map<string, Memory>, how: Search, limit: nat, out: seq<Scored>, m: Memory)
    requires Keyed(records) && TopOf(out, Found(records, records.Keys, how), limit)
    requires m in records.Values && AskedFor(m, how.query, how.now) && Scored(m, ScoreBy(m, how)) !in out
    ensures NoPlace(out, m, how, limit)
  {
    BeforeOrders(records, how);
    if Wanted(m, how) {
      assert m == records[m.id];
      LeftOut(Found(records, records.Keys, how), out, limit, Scored(m, ScoreBy(m, how)));
    }
  }

  /** Something is left out only for want of room. */
  lemma LeftOut(found: set<Scored>, out: seq<Scored>, limit: nat, b: Scored)
    requires Orders(found, Before) && TopOf(out, found, limit) && b in found && b !in out
    ensures |out| == limit
  {
    var members := set a | a in out;
    Distinct(out, found, members);
    if |found| <= limit {
      Subset(members, found);
    }
  }

  /** Remembering: every other record is as it was, and the one remembered is the owner's
      memory, but for the identifier and the time if it came without. */
  lemma OneRemembered(s: Held, m: Memory, now: int)
    ensures var s', kept := After(s, Keep(m, now)), Stored(s, m, now);
            && s'.records.Keys == s.records.Keys + {kept.id} && s'.records[kept.id] == kept
            && (forall id :: id in s.records && id != kept.id ==> s'.records[id] == s.records[id])
            && kept.(id := m.id, createdAt := m.createdAt) == m
            && (m.id != "" ==> kept.id == m.id && s'.nextID == s.nextID)
            && (m.id == "" ==> kept.id == "mem_" + Numerals.Decimal(s'.nextID) && s'.nextID == s.nextID + 1)
            && kept.createdAt == if m.createdAt != 0 then m.createdAt else now
  {
    assert s.records[Stored(s, m, now).id := Stored(s, m, now)].Keys == s.records.Keys + {Stored(s, m, now).id};
  }
}
