/** The in-memory store of memories and its ranked recall (memory/store.go). */
module Recall {
  import opened Gage
  import opened Strings
  import opened Ordering
  import opened Numerals

  /** Times are instants counted from the zero time, which is 0. */
  datatype Memory = Memory(
    id: string,
    text: string,
    metadata: map<string, string>,
    createdAt: int,
    namespace: string,
    userID: string,
    provenance: string,
    sensitivity: string,
    confidence: real,
    expiresAt: int)

  datatype Query = Query(
    query: string,
    limit: int,
    metadata: map<string, string>,
    namespace: string,
    userID: string,
    includeExpired: bool)

  /** A vector of the embedder's; None is the nil vector. */
  type Vector = Option<seq<real>>

  /** A score is a number, or minus infinity for want of a vector. */
  datatype Scored = Scored(m: Memory, score: Option<real>)

  /** How memories are ranked: by the words of the query, or by how near their vectors
      are to the query's, for whatever similarity of vectors. */
  datatype Ranker =
    | ByWords
    | ByMeaning(vector: seq<real>, vectors: map<string, seq<real>>, similarity: (seq<real>, seq<real>) -> real)

  /** A recall under way. */
  datatype Search = Search(query: Query, now: int, lower: char -> char, ranker: Ranker)

  const DEFAULT_RECALL_LIMIT := 10

  // ---- which memories match, and how well ----

  /** Reading a missing key of a Go map gives the empty string. */
  function Get(meta: map<string, string>, k: string): string {
    if k in meta then meta[k] else ""
  }

  predicate MemoryMatches(m: Memory, q: Query, now: int) {
    && (q.namespace == "" || m.namespace == q.namespace)
    && (q.userID == "" || m.userID == q.userID)
    && (q.includeExpired || m.expiresAt == 0 || m.expiresAt > now)
    && forall k :: k in q.metadata ==> Get(m.metadata, k) == q.metadata[k]
  }

  /** The metadata as text, its keys in order. */
  ghost function MetadataText(meta: map<string, string>): string {
    StringOrder(meta.Keys);
    Entries(meta, Sorted(meta.Keys, StringLess))
  }

  function Entry(meta: map<string, string>, k: string): string {
    k + "=" + Get(meta, k) + " "
  }

  function Entries(meta: map<string, string>, keys: seq<string>): string {
    if keys == [] then "" else Entries(meta, keys[..|keys| - 1]) + Entry(meta, keys[|keys| - 1])
  }

  function Lower(s: string, lower: char -> char): string {
    seq(|s|, k requires 0 <= k < |s| => lower(s[k]))
  }

  ghost function Haystack(m: Memory, lower: char -> char): string {
    Lower(m.text + (" " + m.namespace + " " + m.userID + " " + m.provenance + " " + m.sensitivity + " "
                    + MetadataText(m.metadata)), lower)
  }

  function Hits(terms: seq<string>, haystack: string): nat {
    if terms == [] then 0
    else Hits(terms[..|terms| - 1], haystack) + if Contains(haystack, terms[|terms| - 1]) then 1 else 0
  }

  ghost function Score(query: string, m: Memory, lower: char -> char): nat {
    var q := Lower(TrimSpace(query), lower);
    if q == "" then 1
    else
      (if Contains(Haystack(m, lower), q) then 10 else 0) + Hits(Fields(q, ""), Haystack(m, lower))
  }

  /** The memory belongs in the answer, whatever its rank. */
  ghost predicate Wanted(m: Memory, how: Search) {
    && MemoryMatches(m, how.query, how.now)
    && (how.ranker.ByWords? ==> TrimSpace(how.query.query) == "" || Score(how.query.query, m, how.lower) > 0)
  }

  ghost function ScoreBy(m: Memory, how: Search): Option<real> {
    match how.ranker
    case ByWords => Some(Score(how.query.query, m, how.lower) as real)
    case ByMeaning(vector, vectors, similarity) => Nearness(m.id, vector, vectors, similarity)
  }

  function Nearness(id: string, vector: seq<real>, vectors: map<string, seq<real>>,
                    similarity: (seq<real>, seq<real>) -> real): Option<real> {
    if id in vectors then Some(similarity(vector, vectors[id])) else None
  }

  method MetadataString(meta: map<string, string>) returns (s: string)
    ensures s == MetadataText(meta)
  {
    if |meta| == 0 {
      assert meta.Keys == {};
      return "";
    }
    var keys := SortedKeys(meta);
    s := Written(meta, keys);
  }

  method Written(meta: map<string, string>, keys: seq<string>) returns (s: string)
    ensures s == Entries(meta, keys)
  {
    s := "";
    for i := 0 to |keys|
      invariant s == Entries(meta, keys[..i])
    {
      assert keys[..i + 1][..i] == keys[..i];
      s := s + Entry(meta, keys[i]);
    }
    assert keys[..|keys|] == keys;
  }

  /** The keys, met in any order, then sorted. */
  method SortedKeys(meta: map<string, string>) returns (keys: seq<string>)
    ensures Orders(meta.Keys, StringLess) && keys == Sorted(meta.Keys, StringLess)
  {
    StringOrder(meta.Keys);
    keys := [];
    var rest := meta.Keys;
    while rest != {}
      invariant rest <= meta.Keys
      invariant forall k :: k in keys <==> k in meta.Keys && k !in rest
      invariant forall i, j :: 0 <= i < j < |keys| ==> keys[i] != keys[j]
      decreases |rest|
    {
      var k :| k in rest;
      keys := keys + [k];
      rest := rest - {k};
    }
    keys := Sort(keys, meta.Keys, StringLess);
  }

  method MemoryScore(query: string, m: Memory, lower: char -> char) returns (score: nat)
    ensures score == Score(query, m, lower)
  {
    var q := Lower(TrimSpace(query), lower);
    if q == "" {
      return 1;
    }
    var meta := MetadataString(m.metadata);
    var haystack := Lower(m.text + (" " + m.namespace + " " + m.userID + " " + m.provenance + " "
                                    + m.sensitivity + " " + meta), lower);
    score := 0;
    if Contains(haystack, q) {
      score := score + 10;
    }
    ghost var base := score;
    var terms := Fields(q, "");
    for i := 0 to |terms|
      invariant score == base + Hits(terms[..i], haystack)
    {
      assert terms[..i + 1][..i] == terms[..i];
      if Contains(haystack, terms[i]) {
        score := score + 1;
      }
    }
    assert terms[..|terms|] == terms;
  }

  /** The body of the keyword loop: whether the memory is an answer, and its score. */
  method Consider(m: Memory, q: Query, now: int, lower: char -> char) returns (wanted: bool, score: nat)
    ensures wanted <==> Wanted(m, Search(q, now, lower, ByWords))
    ensures wanted ==> score == Score(q.query, m, lower)
  {
    if !MemoryMatches(m, q, now) {
      return false, 0;
    }
    score := MemoryScore(q.query, m, lower);
    wanted := TrimSpace(q.query) == "" || score != 0;
  }

  // ---- the ranking ----

  /** Better score first, then newer, then the smaller identifier. */
  predicate Before(a: Scored, b: Scored) {
    if a.score != b.score then a.score.Some? && (b.score.None? || a.score.value > b.score.value)
    else if a.m.createdAt != b.m.createdAt then a.m.createdAt > b.m.createdAt
    else StringLess(a.m.id, b.m.id)
  }

  /** Every record is held under its own identifier. */
  ghost predicate Keyed(records: map<string, Memory>) {
    forall id :: id in records ==> records[id].id == id
  }

  /** The wanted records among `ids`, scored. */
  ghost function Found(records: map<string, Memory>, ids: set<string>, how: Search): set<Scored>
    requires ids <= records.Keys
  {
    set id | id in ids && Wanted(records[id], how) :: Scored(records[id], ScoreBy(records[id], how))
  }

  lemma BeforeOrders(records: map<string, Memory>, how: Search)
    requires Keyed(records)
    ensures Orders(Found(records, records.Keys, how), Before)
  {
    var s := Found(records, records.Keys, how);
    forall a, b | a in s && b in s
      ensures !Before(a, a) && (a != b ==> Before(a, b) || Before(b, a))
    {
      StringsCompare(a.m.id, b.m.id);
    }
    forall a, b, c | a in s && b in s && c in s && Before(a, b) && Before(b, c)
      ensures Before(a, c)
    {
      if StringLess(a.m.id, b.m.id) && StringLess(b.m.id, c.m.id) {
        StringsChain(a.m.id, b.m.id, c.m.id);
      }
    }
  }

  /** The whole ranking. */
  ghost function Ranking(records: map<string, Memory>, how: Search): seq<Scored>
    requires Keyed(records)
  {
    BeforeOrders(records, how);
    Sorted(Found(records, records.Keys, how), Before)
  }

  function Memories(found: seq<Scored>): seq<Memory> {
    seq(|found|, k requires 0 <= k < |found| => found[k].m)
  }

  function Cut(ranking: seq<Scored>, limit: nat): seq<Scored> {
    if |ranking| > limit then ranking[..limit] else ranking
  }

  /** The first `limit` of the ranking. */
  ghost function Best(records: map<string, Memory>, how: Search, limit: nat): seq<Memory>
    requires Keyed(records)
  {
    Memories(Cut(Ranking(records, how), limit))
  }

  // ---- what the store holds ----

  /** The records, and how many identifiers were made up. */
  datatype Held = Held(nextID: nat, records: map<string, Memory>)

  const EMPTY := Held(0, map[])

  /** A request that is not refused. */
  datatype Request = Keep(m: Memory, now: int) | Drop(id: string)

  function GeneratedID(n: nat): string {
    "mem_" + Decimal(n)
  }

  /** The memory as stored: named and dated if it was not. */
  function Stored(s: Held, m: Memory, now: int): Memory {
    m.(id := if m.id == "" then GeneratedID(s.nextID + 1) else m.id,
       createdAt := if m.createdAt == 0 then now else m.createdAt)
  }

  function After(s: Held, r: Request): Held {
    match r
    case Keep(m, now) =>
      var stored := Stored(s, m, now);
      Held(s.nextID + (if m.id == "" then 1 else 0), s.records[stored.id := stored])
    case Drop(id) => s.(records := s.records - {id})
  }

  // ---- the store ----

  class Store {
    const embedder: Option<string -> Outcome<seq<Vector>, Err>>
    const similarity: (seq<real>, seq<real>) -> real
    const lower: char -> char
    var nextID: nat
    var records: map<string, Memory>
    var vectors: map<string, seq<real>>

    ghost predicate Valid()
      reads this
    {
      Keyed(records) && vectors.Keys <= records.Keys
    }

    constructor (embedder: Option<string -> Outcome<seq<Vector>, Err>>, similarity: (seq<real>, seq<real>) -> real,
                 lower: char -> char)
      ensures Valid() && Contents() == EMPTY && vectors == map[]
      ensures this.embedder == embedder && this.similarity == similarity && this.lower == lower
    {
      this.embedder, this.similarity, this.lower := embedder, similarity, lower;
      nextID, records, vectors := 0, map[], map[];
    }

    function Contents(): Held
      reads this
    {
      Held(nextID, records)
    }

    /** The vector to keep for `text`: none without an embedder. */
    function Embedding(text: string): Outcome<Vector, Err> {
      if embedder.None? then Ok(None)
      else
        match embedder.value(text)
        case Fail(err) => Fail(Wrapped("memory: embed", err))
        case Ok(vecs) =>
          if |vecs| != 1 then Fail(OtherError("memory: embed: got " + Decimal(|vecs|) + " vectors for 1 input"))
          else Ok(vecs[0])
    }

    /** What is wrong with a memory to be stored, in the order it is looked for. */
    function Refusal(m: Memory, canceled: Option<Err>): Option<Err> {
      if canceled.Some? then canceled
      else if TrimSpace(m.text) == "" then Some(OtherError("memory: text is required"))
      else if m.confidence < 0.0 || m.confidence > 1.0 then
        Some(OtherError("memory: confidence must be between 0 and 1"))
      else if Embedding(m.text).Fail? then Some(Embedding(m.text).error)
      else None
    }

    method Remember(m: Memory, canceled: Option<Err>, now: int) returns (r: Outcome<Memory, Err>)
      requires Valid()
      modifies this
      ensures Valid()
      ensures Refusal(m, canceled).Some? ==>
                && r == Fail(Refusal(m, canceled).value)
                && records == old(records) && vectors == old(vectors) && nextID == old(nextID)
      ensures Refusal(m, canceled).None? ==>
                && r == Ok(Stored(old(Contents()), m, now))
                && Contents() == After(old(Contents()), Keep(m, now))
                && vectors == (match Embedding(m.text).value
                               case Some(v) => old(vectors)[r.value.id := v]
                               case None => old(vectors) - {r.value.id})
    {
      if canceled.Some? {
        return Fail(canceled.value);
      }
      if TrimSpace(m.text) == "" {
        return Fail(OtherError("memory: text is required"));
      }
      if m.confidence < 0.0 || m.confidence > 1.0 {
        return Fail(OtherError("memory: confidence must be between 0 and 1"));
      }
      var vec: Vector := None;
      if embedder.Some? {
        var answer := embedder.value(m.text);
        if answer.Fail? {
          return Fail(Wrapped("memory: embed", answer.error));
        }
        if |answer.value| != 1 {
          return Fail(OtherError("memory: embed: got " + Decimal(|answer.value|) + " vectors for 1 input"));
        }
        vec := answer.value[0];
      }
      var stored := m;
      if stored.createdAt == 0 {
        stored := stored.(createdAt := now);
      }
      if stored.id == "" {
        nextID := nextID + 1;
        stored := stored.(id := GeneratedID(nextID));
      }
      records := records[stored.id := stored];
      if vec.Some? {
        vectors := vectors[stored.id := vec.value];
      } else {
        vectors := vectors - {stored.id};
      }
      r := Ok(stored);
    }

    method Forget(id: string, canceled: Option<Err>) returns (err: Option<Err>)
      requires Valid()
      modifies this
      ensures Valid()
      ensures err == if canceled.Some? then canceled
                     else if id == "" then Some(OtherError("memory: id is required")) else None
      ensures Contents() == if err.Some? then old(Contents()) else After(old(Contents()), Drop(id))
      ensures vectors == if err.Some? then old(vectors) else old(vectors) - {id}
    {
      if canceled.Some? {
        return canceled;
      }
      if id == "" {
        return Some(OtherError("memory: id is required"));
      }
      records := records - {id};
      vectors := vectors - {id};
      err := None;
    }

    /** The records are visited in any order. `ctx(n)` is what the n-th look at the
        context finds. */
    method RecallKeyword(q: Query, ctx: nat -> Option<Err>, now: int, limit: nat) returns (r: Outcome<seq<Memory>, Err>)
      requires Valid()
      ensures r.Ok? ==> r.value == Best(records, Search(q, now, lower, ByWords), limit)
      ensures r.Fail? ==> exists n :: ctx(n) == Some(r.error)
    {
      ghost var how := Search(q, now, lower, ByWords);
      var found: seq<Scored> := [];
      var rest, looks := records.Keys, 0;
      while rest != {}
        invariant rest <= records.Keys
        invariant EachOnce(found, Found(records, records.Keys - rest, how))
        decreases |rest|
      {
        var id :| id in rest;
        ghost var seen := records.Keys - rest;
        rest := rest - {id};
        assert records.Keys - rest == seen + {id};
        var canceled := ctx(looks);
        looks := looks + 1;
        if canceled.Some? {
          return Fail(canceled.value);
        }
        var wanted, score := Consider(records[id], q, now, lower);
        OneMoreFound(found, records, seen, id, how);
        if !wanted {
          continue;
        }
        found := found + [Scored(records[id], Some(score as real))];
      }
      assert records.Keys - rest == records.Keys;
      r := Ranked(found, how, limit);
    }

    /** The same by vectors; a record without one ranks last. */
    method RecallSemantic(q: Query, ctx: nat -> Option<Err>, now: int, vector: seq<real>, limit: nat)
      returns (r: Outcome<seq<Memory>, Err>)
      requires Valid()
      ensures r.Ok? ==> r.value == Best(records, Search(q, now, lower, ByMeaning(vector, vectors, similarity)), limit)
      ensures r.Fail? ==> exists n :: ctx(n) == Some(r.error)
    {
      ghost var how := Search(q, now, lower, ByMeaning(vector, vectors, similarity));
      var found: seq<Scored> := [];
      var rest, looks := records.Keys, 0;
      while rest != {}
        invariant rest <= records.Keys
        invariant EachOnce(found, Found(records, records.Keys - rest, how))
        decreases |rest|
      {
        var id :| id in rest;
        ghost var seen := records.Keys - rest;
        rest := rest - {id};
        assert records.Keys - rest == seen + {id};
        var canceled := ctx(looks);
        looks := looks + 1;
        if canceled.Some? {
          return Fail(canceled.value);
        }
        OneMoreFound(found, records, seen, id, how);
        if !MemoryMatches(records[id], q, now) {
          continue;
        }
        found := found + [Scored(records[id], Nearness(id, vector, vectors, similarity))];
      }
      assert records.Keys - rest == records.Keys;
      r := Ranked(found, how, limit);
    }

    /** Sort what was found and cut it off. */
    method Ranked(found: seq<Scored>, ghost how: Search, limit: nat) returns (r: Outcome<seq<Memory>, Err>)
      requires Valid() && EachOnce(found, Found(records, records.Keys, how))
      ensures r == Ok(Best(records, how, limit))
    {
      BeforeOrders(records, how);
      var ranking := Sort(found, Found(records, records.Keys, how), Before);
      if |ranking| > limit {
        ranking := ranking[..limit];
      }
      r := Ok(Memories(ranking));
    }

    /** How a query is ranked: by its vector if there is an embedder, the query is not
        blank and it embeds, and by its words otherwise. */
    function RankerFor(q: Query): Ranker
      reads this
    {
      if embedder.None? || TrimSpace(q.query) == "" then ByWords
      else
        var answer := embedder.value(q.query);
        if answer.Ok? && |answer.value| == 1 then
          ByMeaning(if answer.value[0].Some? then answer.value[0].value else [], vectors, similarity)
        else ByWords
    }

    method Recall(q: Query, ctx: nat -> Option<Err>, now: int) returns (r: Outcome<seq<Memory>, Err>)
      requires Valid()
      ensures r.Ok? ==> r.value == Best(records, Search(q, now, lower, RankerFor(q)),
                                        if q.limit > 0 then q.limit else 10)
      ensures r.Fail? ==> exists n :: ctx(n) == Some(r.error)
    {
      var canceled := ctx(0);
      if canceled.Some? {
        return Fail(canceled.value);
      }
      var limit := q.limit;
      if limit <= 0 {
        limit := DEFAULT_RECALL_LIMIT;
      }
      if embedder.Some? && TrimSpace(q.query) != "" {
        var answer := embedder.value(q.query);
        if answer.Ok? && |answer.value| == 1 {
          var vector := if answer.value[0].Some? then answer.value[0].value else [];
          r := RecallSemantic(q, (n: nat) => ctx(n + 1), now, vector, limit);
          return;
        }
      }
      r := RecallKeyword(q, (n: nat) => ctx(n + 1), now, limit);
    }
  }

  ghost predicate EachOnce(found: seq<Scored>, s: set<Scored>) {
    Lists(found, s) && forall i, j :: 0 <= i < j < |found| ==> found[i] != found[j]
  }

  /** Visiting one more record. */
  lemma OneMoreFound(found: seq<Scored>, records: map<string, Memory>, seen: set<string>, id: string, how: Search)
    requires Keyed(records) && seen <= records.Keys && id in records && id !in seen
    requires EachOnce(found, Found(records, seen, how))
    ensures var one := Scored(records[id], ScoreBy(records[id], how));
            EachOnce(if Wanted(records[id], how) then found + [one] else found,
                     Found(records, seen + {id}, how))
  {
    FoundMore(records, seen, id, how);
    EachOnceMore(found, Found(records, seen, how), Scored(records[id], ScoreBy(records[id], how)));
  }

  lemma FoundMore(records: map<string, Memory>, seen: set<string>, id: string, how: Search)
    requires Keyed(records) && seen <= records.Keys && id in records && id !in seen
    ensures var one := Scored(records[id], ScoreBy(records[id], how));
            && one !in Found(records, seen, how)
            && Found(records, seen + {id}, how)
               == Found(records, seen, how) + if Wanted(records[id], how) then {one} else {}
  {
  }

  lemma EachOnceMore(found: seq<Scored>, s: set<Scored>, x: Scored)
    requires EachOnce(found, s)
    ensures x !in s ==> EachOnce(found + [x], s + {x})
    ensures EachOnce(found, s + {})
  {
    assert s + {} == s;
  }

  // ---- what the answer is ----

  /** The best memories, no more than asked for, in order, and none left out that comes
      before one returned. */
  ghost predicate TopOf(out: seq<Scored>, found: set<Scored>, limit: nat) {
    && |out| == (if |found| > limit then limit else |found|)
    && Ascending(out, Before)
    && (forall a :: a in out ==> a in found)
    && (forall a, b :: a in out && b in found && b !in out ==> Before(a, b))
  }

  lemma BestIsTop(records: map<string, Memory>, how: Search, limit: nat) returns (out: seq<Scored>)
    requires Keyed(records)
    ensures Best(records, how, limit) == Memories(out)
    ensures TopOf(out, Found(records, records.Keys, how), limit)
  {
    var found := Found(records, records.Keys, how);
    BeforeOrders(records, how);
    out := Cut(Sorted(found, Before), limit);
    CutIsTop(found, limit);
  }

  lemma CutIsTop(found: set<Scored>, limit: nat)
    requires Orders(found, Before)
    ensures TopOf(Cut(Sorted(found, Before), limit), found, limit)
  {
    var ranking := Sorted(found, Before);
    var out := Cut(ranking, limit);
    forall a | a in out
      ensures a in found
    {
      assert a in ranking;
    }
    forall a, b | a in out && b in found && b !in out
      ensures Before(a, b)
    {
      BeyondCut(ranking, limit, a, b);
    }
  }

  lemma BeyondCut(ranking: seq<Scored>, limit: nat, a: Scored, b: Scored)
    requires Ascending(ranking, Before)
    requires a in Cut(ranking, limit) && b in ranking && b !in Cut(ranking, limit)
    ensures Before(a, b)
  {
    var cut := Cut(ranking, limit);
    var left := ranking[|cut|..];
    assert ranking == cut + left && b in left;
    var i :| 0 <= i < |cut| && cut[i] == a;
    var j :| 0 <= j < |left| && left[j] == b;
    assert ranking[i] == a && ranking[|cut| + j] == b;
  }

  /** Nothing else is a best answer: the order in which records are visited cannot show. */
  lemma OneBest(records: map<string, Memory>, how: Search, limit: nat,
                a: seq<Scored>, b: seq<Scored>)
    requires Keyed(records)
    requires TopOf(a, Found(records, records.Keys, how), limit)
    requires TopOf(b, Found(records, records.Keys, how), limit)
    ensures a == b
  {
    var found := Found(records, records.Keys, how);
    BeforeOrders(records, how);
    SameTop(found, limit, a, b);
    SameTop(found, limit, b, a);
    var both := set x | x in a;
    assert Lists(a, both) && Lists(b, both);
    assert both <= found;
    OnlyOneOrder(a, both, Before);
    OnlyOneOrder(b, both, Before);
  }

  lemma SameTop(found: set<Scored>, limit: nat, a: seq<Scored>, b: seq<Scored>)
    requires Orders(found, Before) && TopOf(a, found, limit) && TopOf(b, found, limit)
    ensures forall x :: x in a ==> x in b
  {
    forall x | x in a
      ensures x in b
    {
      if x !in b {
        MissesOne(a, b, found, x);
      }
    }
  }

  /** As long a list that lacks `x` has something `a` lacks, which cannot be. */
  lemma MissesOne(a: seq<Scored>, b: seq<Scored>, found: set<Scored>, x: Scored)
    requires Orders(found, Before)
    requires |a| == |b| && TopOf(a, found, |a|) && TopOf(b, found, |b|)
    requires x in a
    ensures x in b
  {
    var inA, inB := set y | y in a, set y | y in b;
    Distinct(a, found, inA);
    Distinct(b, found, inB);
    if inB <= inA {
      Subset(inB, inA);
      assert x in inA;
    } else {
      var y :| y in inB && y !in inA;
      assert Before(x, y);
      assert x !in b ==> Before(y, x);
    }
  }

  lemma Subset<T>(small: set<T>, big: set<T>)
    requires small <= big && |small| == |big|
    ensures small == big
  {
    assert big == small + (big - small);
  }

  lemma {:induction false} Distinct(xs: seq<Scored>, s: set<Scored>, members: set<Scored>)
    requires Orders(s, Before) && Ascending(xs, Before) && (forall x :: x in xs ==> x in s)
    requires members == set x | x in xs
    ensures |members| == |xs|
    decreases |xs|
  {
    if xs != [] {
      var rest := xs[1..];
      assert xs[0] !in rest;
      assert members == {xs[0]} + set x | x in rest;
      Distinct(rest, s, set x | x in rest);
    } else {
      assert members == {};
    }
  }

  // ---- identifiers over a history ----

  /** Two identifiers the store makes up are never the same. */
  lemma GeneratedIDsDiffer(j: nat, k: nat)
    requires j != k
    ensures GeneratedID(j) != GeneratedID(k)
  {
    assert GeneratedID(j)[4..] == Decimal(j) && GeneratedID(k)[4..] == Decimal(k);
    if Decimal(j) == Decimal(k) {
      DecimalInjective(j, k);
    }
  }

  lemma NoneIsBlank(n: nat)
    ensures GeneratedID(n) != ""
  {
  }

  /** A memory stored without an identifier is one more beside all others if and only if
      the identifier it gets is not held; otherwise it takes that record's place. */
  lemma AnonymousAddsIff(s: Held, m: Memory, now: int)
    requires m.id == ""
    ensures var s', id := After(s, Keep(m, now)), GeneratedID(s.nextID + 1);
            && (id !in s.records <==> |s'.records| == |s.records| + 1)
            && (id !in s.records ==> forall i :: i in s.records ==> i in s'.records && s'.records[i] == s.records[i])
            && (id in s.records ==> s'.records.Keys == s.records.Keys && s'.records[id] == Stored(s, m, now))
  {
    Put(s.records, GeneratedID(s.nextID + 1), Stored(s, m, now));
  }

  lemma Put(records: map<string, Memory>, id: string, m: Memory)
    ensures |records[id := m]| == |records| + if id in records then 0 else 1
    ensures id in records ==> records[id := m].Keys == records.Keys
  {
    assert records[id := m].Keys == records.Keys + {id};
    if id in records {
      assert records.Keys + {id} == records.Keys;
    }
    assert |records[id := m]| == |records[id := m].Keys|;
  }

  function AfterAll(s: Held, requests: seq<Request>): Held
    decreases |requests|
  {
    if requests == [] then s else AfterAll(After(s, requests[0]), requests[1..])
  }

  predicate Anonymous(r: Request) {
    r.Keep? && r.m.id == ""
  }

  /** No memory stored without an identifier takes the place of a record. */
  predicate NothingReplaced(s: Held, requests: seq<Request>)
    decreases |requests|
  {
    requests == [] ||
    (&& (Anonymous(requests[0]) ==> GeneratedID(s.nextID + 1) !in s.records)
     && NothingReplaced(After(s, requests[0]), requests[1..]))
  }

  /** Identifiers the store has yet to make up are not held. */
  ghost predicate Ahead(s: Held) {
    forall n: nat :: n > s.nextID ==> GeneratedID(n) !in s.records
  }

  /** The owner names no memory by an identifier the store has yet to make up. */
  ghost predicate Careful(s: Held, requests: seq<Request>)
    decreases |requests|
  {
    requests == [] ||
    (&& (requests[0].Keep? ==> forall n: nat :: n > s.nextID ==> requests[0].m.id != GeneratedID(n))
     && Careful(After(s, requests[0]), requests[1..]))
  }

  lemma StaysAhead(s: Held, r: Request)
    requires Ahead(s)
    requires r.Keep? ==> forall n: nat :: n > s.nextID ==> r.m.id != GeneratedID(n)
    ensures Ahead(After(s, r))
  {
    forall n: nat | n > After(s, r).nextID
      ensures GeneratedID(n) !in After(s, r).records
    {
      if Anonymous(r) {
        GeneratedIDsDiffer(n, s.nextID + 1);
      }
    }
  }

  /** Over any history of a careful owner, remembering and forgetting, nothing is ever
      replaced. */
  lemma {:induction false} CarefulOwnersLoseNothing(s: Held, requests: seq<Request>)
    requires Ahead(s) && Careful(s, requests)
    ensures NothingReplaced(s, requests) && Ahead(AfterAll(s, requests))
    decreases |requests|
  {
    if requests != [] {
      StaysAhead(s, requests[0]);
      CarefulOwnersLoseNothing(After(s, requests[0]), requests[1..]);
    }
  }

  lemma {:induction false} AnonymousIsCareful(s: Held, requests: seq<Request>)
    requires forall k :: 0 <= k < |requests| ==> Anonymous(requests[k])
    ensures Careful(s, requests)
    decreases |requests|
  {
    if requests != [] {
      forall n: nat | n > s.nextID
        ensures requests[0].m.id != GeneratedID(n)
      {
        NoneIsBlank(n);
        assert Anonymous(requests[0]);
      }
      AnonymousIsCareful(After(s, requests[0]), requests[1..]);
    }
  }

  /** With such an identifier held, enough memories without one get to it. */
  lemma {:induction false} GetsThere(s: Held, m: Memory, n: nat)
    requires m.id == "" && n > s.nextID && GeneratedID(n) in s.records
    ensures !NothingReplaced(s, seq(n - s.nextID, _ => Keep(m, 0)))
    decreases n - s.nextID
  {
    var requests := seq(n - s.nextID, _ => Keep(m, 0));
    if n > s.nextID + 1 {
      assert requests[1..] == seq(n - (s.nextID + 1), _ => Keep(m, 0));
      GetsThere(After(s, requests[0]), m, n);
    }
  }

  /** From here on no memory stored without an identifier can take a record's place if
      and only if no identifier still to be made up is held. */
  lemma NeverReplacesIff(s: Held)
    ensures (forall requests: seq<Request> :: (forall k :: 0 <= k < |requests| ==> Anonymous(requests[k])) ==>
               NothingReplaced(s, requests))
       <==> Ahead(s)
  {
    if Ahead(s) {
      forall requests: seq<Request> | forall k :: 0 <= k < |requests| ==> Anonymous(requests[k])
        ensures NothingReplaced(s, requests)
      {
        AnonymousIsCareful(s, requests);
        CarefulOwnersLoseNothing(s, requests);
      }
    } else {
      var n: nat :| n > s.nextID && GeneratedID(n) in s.records;
      var m := Memory("", "text", map[], 0, "", "", "", "", 0.0, 0);
      GetsThere(s, m, n);
      var requests := seq(n - s.nextID, _ => Keep(m, 0));
      assert forall k :: 0 <= k < |requests| ==> Anonymous(requests[k]);
    }
  }

  /** The least such history: an owner's own mem_1, and one memory without a name. */
  lemma OwnersRecordReplaced(mine: Memory, other: Memory, now: int)
    requires mine.id == "mem_1" && other.id == ""
    ensures var s := AfterAll(EMPTY, [Keep(mine, now), Keep(other, now)]);
            s.records.Keys == {"mem_1"} && s.records["mem_1"].text == other.text
  {
    var requests := [Keep(mine, now), Keep(other, now)];
    assert Decimal(1) == "1" && GeneratedID(1) == "mem_1";
    assert requests[1..] == [Keep(other, now)] && requests[1..][1..] == [];
    var s := After(EMPTY, requests[0]);
    assert AfterAll(EMPTY, requests) == AfterAll(s, requests[1..]) == After(s, Keep(other, now));
  }

  // ---- finding what was written ----

  lemma {:induction false} ContainsAhead(s: string, t: string, sub: string)
    requires Contains(s, sub)
    ensures Contains(s + t, sub)
    decreases |s|
  {
    if sub <= s {
      assert sub <= s + t;
    } else {
      assert (s + t)[1..] == s[1..] + t;
      ContainsAhead(s[1..], t, sub);
    }
  }

  lemma {:induction false} ContainsLower(s: string, sub: string, lower: char -> char)
    requires Contains(s, sub)
    ensures Contains(Lower(s, lower), Lower(sub, lower))
    decreases |s|
  {
    if sub <= s {
      assert Lower(sub, lower) <= Lower(s, lower);
    } else {
      assert Lower(s, lower)[1..] == Lower(s[1..], lower);
      ContainsLower(s[1..], sub, lower);
    }
  }

  /** A query that occurs in a memory's text, whatever the case of its letters, scores the
      ten points of a whole match. */
  lemma OwnTextIsFound(m: Memory, query: string, lower: char -> char, part: string)
    requires Contains(m.text, part) && Lower(part, lower) == Lower(TrimSpace(query), lower)
    requires part != ""
    ensures Score(query, m, lower) >= 10
  {
    var rest := " " + m.namespace + " " + m.userID + " " + m.provenance + " " + m.sensitivity + " "
                + MetadataText(m.metadata);
    ContainsAhead(m.text, rest, part);
    ContainsLower(m.text + rest, part, lower);
    assert |Lower(part, lower)| == |part|;
  }
}
