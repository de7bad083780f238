/** Hybrid search results: merging the two channels and re-ranking them by maximal marginal relevance. */
module Mmr {
  import opened Text
  import opened Sorting

  const DEFAULT_LAMBDA: real := 0.7

  datatype Candidate = Candidate(
    key: string, text: string, lexical: real, field: string, semantic: real, vector: seq<real>,
    query: real, final: real)

  type Similarity = (Candidate, Candidate) -> real

  // ---------------------------------------------------------------------------
  // Re-ranking
  // ---------------------------------------------------------------------------

  function Lambda(weight: real): (r: real)
    ensures 0.0 < r <= 1.0
  {
    if weight <= 0.0 then DEFAULT_LAMBDA else if weight > 1.0 then 1.0 else weight
  }

  function Limit(limit: int, size: nat): (r: nat)
    ensures r <= size
  {
    if limit <= 0 || limit > size then size else limit
  }

  function MaxSimilarity(c: Candidate, picked: seq<Candidate>, sim: Similarity): (r: real)
    ensures r >= 0.0
  {
    if picked == [] then 0.0
    else
      var before, last := MaxSimilarity(c, picked[..|picked| - 1], sim), sim(c, picked[|picked| - 1]);
      if last > before then last else before
  }

  function Score(c: Candidate, picked: seq<Candidate>, weight: real, sim: Similarity): real {
    weight * c.final - (1.0 - weight) * MaxSimilarity(c, picked, sim)
  }

  predicate ByScore(a: Candidate, b: Candidate) {
    a.final > b.final || (a.final == b.final && Less(a.key, b.key))
  }

  predicate Better(a: Candidate, b: Candidate, picked: seq<Candidate>, weight: real, sim: Similarity) {
    var x, y := Score(a, picked, weight, sim), Score(b, picked, weight, sim);
    x > y || (x == y && ByScore(a, b))
  }

  predicate Used(picked: seq<Candidate>, key: string) {
    exists i :: 0 <= i < |picked| && picked[i].key == key
  }

  /** `c` is a best candidate among those whose key is still unused. */
  ghost predicate IsPick(candidates: seq<Candidate>, picked: seq<Candidate>, weight: real, sim: Similarity,
                         c: Candidate) {
    && c in candidates && !Used(picked, c.key)
    && forall d :: d in candidates && !Used(picked, d.key) ==> !Better(d, c, picked, weight, sim)
  }

  /** Greedy choice, one best candidate at a time, until the limit or the keys run out. */
  ghost predicate IsRanking(candidates: seq<Candidate>, weight: real, limit: nat, sim: Similarity,
                            ranked: seq<Candidate>) {
    && |ranked| <= limit
    && (|ranked| < limit ==> forall c :: c in candidates ==> Used(ranked, c.key))
    && forall i :: 0 <= i < |ranked| ==> PickedAt(candidates, weight, sim, ranked, i)
  }

  ghost predicate PickedAt(candidates: seq<Candidate>, weight: real, sim: Similarity, ranked: seq<Candidate>, i: nat)
    requires i < |ranked|
  {
    IsPick(candidates, ranked[..i], weight, sim, ranked[i])
  }

  lemma BetterTransitive(a: Candidate, b: Candidate, c: Candidate, picked: seq<Candidate>, weight: real,
                         sim: Similarity)
    requires !Better(b, a, picked, weight, sim) && !Better(c, b, picked, weight, sim)
    ensures !Better(c, a, picked, weight, sim)
  {
    LessTotal(a.key, b.key);
    LessTotal(b.key, c.key);
    LessTotal(a.key, c.key);
    if Less(c.key, a.key) && Less(a.key, b.key) { LessTransitive(c.key, a.key, b.key); }
    if Less(b.key, c.key) && Less(c.key, a.key) { LessTransitive(b.key, c.key, a.key); }
  }

  method MaxSimilarityTo(candidate: Candidate, selected: seq<Candidate>, sim: Similarity) returns (max: real)
    ensures max == MaxSimilarity(candidate, selected, sim)
  {
    max := 0.0;
    for i := 0 to |selected|
      invariant max == MaxSimilarity(candidate, selected[..i], sim)
    {
      assert selected[..i + 1][..i] == selected[..i];
      var similarity := sim(candidate, selected[i]);
      if similarity > max { max := similarity; }
    }
    assert selected[..|selected|] == selected;
  }

  /** The inner loop: the index of the best unused candidate, or -1 when every key is used. */
  method BestUnused(candidates: seq<Candidate>, selected: seq<Candidate>, used: set<string>, weight: real,
                    sim: Similarity) returns (best: int)
    requires forall k :: k in used <==> Used(selected, k)
    ensures -1 <= best < |candidates|
    ensures best >= 0 ==> IsPick(candidates, selected, weight, sim, candidates[best])
    ensures best >= 0 ==> HoldsAgainstAll(candidates, selected, weight, sim, candidates[best])
    ensures best < 0 ==> forall c :: c in candidates ==> Used(selected, c.key)
  {
    best := -1;
    var bestScore := 0.0;
    for i := 0 to |candidates|
      invariant -1 <= best < i
      invariant best < 0 ==> forall k :: 0 <= k < i ==> Used(selected, candidates[k].key)
      invariant best >= 0 ==> !Used(selected, candidates[best].key)
      invariant best >= 0 ==> bestScore == Score(candidates[best], selected, weight, sim)
      invariant best >= 0 ==> forall k :: 0 <= k < i && !Used(selected, candidates[k].key) ==>
                  !Better(candidates[k], candidates[best], selected, weight, sim)
    {
      var candidate := candidates[i];
      if candidate.key in used { continue; }
      var maxSimilarity := MaxSimilarityTo(candidate, selected, sim);
      var score := weight * candidate.final - (1.0 - weight) * maxSimilarity;
      LessTotal(candidate.key, candidate.key);
      var last := best;
      if best < 0 || score > bestScore {
        best, bestScore := i, score;
      } else if score == bestScore {
        if candidate.final > candidates[best].final ||
           (candidate.final == candidates[best].final && Less(candidate.key, candidates[best].key)) {
          best := i;
        }
      }
      if last >= 0 {
        LessTotal(candidate.key, candidates[last].key);
        Improved(candidates, selected, weight, sim, i, last, best);
      }
    }
    if best >= 0 { PickIff(candidates, selected, weight, sim, candidates[best]); }
  }

  lemma Improved(candidates: seq<Candidate>, selected: seq<Candidate>, weight: real, sim: Similarity, i: nat,
                 last: nat, best: nat)
    requires last < i < |candidates| && best <= i
    requires forall k :: 0 <= k < i && !Used(selected, candidates[k].key) ==>
             !Better(candidates[k], candidates[last], selected, weight, sim)
    requires best == last || !Better(candidates[last], candidates[best], selected, weight, sim)
    ensures forall k :: 0 <= k < i && !Used(selected, candidates[k].key) ==>
            !Better(candidates[k], candidates[best], selected, weight, sim)
  {
    forall k | 0 <= k < i && !Used(selected, candidates[k].key)
      ensures !Better(candidates[k], candidates[best], selected, weight, sim)
    {
      if best != last { BetterTransitive(candidates[best], candidates[last], candidates[k], selected, weight, sim); }
    }
  }

  method RerankCandidates(candidates: seq<Candidate>, weight: real, limit: int, sim: Similarity)
    returns (selected: seq<Candidate>)
    ensures IsRanking(candidates, Lambda(weight), Limit(limit, |candidates|), sim, selected)
    ensures var w := if weight <= 0.0 then 0.7 else if weight <= 1.0 then weight else 1.0;
            forall i :: 0 <= i < |selected| ==> HoldsAgainstAll(candidates, selected[..i], w, sim, selected[i])
  {
    selected := [];
    var used: set<string> := {};
    while |selected| < Limit(limit, |candidates|)
      invariant |selected| <= Limit(limit, |candidates|)
      invariant forall k :: k in used <==> Used(selected, k)
      invariant forall i :: 0 <= i < |selected| ==> PickedAt(candidates, Lambda(weight), sim, selected, i)
      decreases Limit(limit, |candidates|) - |selected|
    {
      var best := BestUnused(candidates, selected, used, Lambda(weight), sim);
      if best < 0 { break; }
      used := used + {candidates[best].key};
      UsedSnoc(selected, candidates[best]);
      ghost var before := selected;
      selected := selected + [candidates[best]];
      assert selected[..|before|] == before;
      forall i | 0 <= i < |selected| ensures PickedAt(candidates, Lambda(weight), sim, selected, i) {
        if i < |before| {
          assert PickedAt(candidates, Lambda(weight), sim, before, i);
          assert selected[..i] == before[..i];
        }
      }
    }
    RankingTradesOff(candidates, weight, limit, sim, selected,
                     if weight <= 0.0 then 0.7 else if weight <= 1.0 then weight else 1.0);
  }

  lemma UsedSnoc(picked: seq<Candidate>, c: Candidate)
    ensures forall k :: Used(picked + [c], k) <==> Used(picked, k) || k == c.key
  {
    forall k ensures Used(picked + [c], k) <==> Used(picked, k) || k == c.key {
      if Used(picked, k) {
        var i :| 0 <= i < |picked| && picked[i].key == k;
        assert (picked + [c])[i].key == k;
      }
      assert (picked + [c])[|picked|].key == c.key;
    }
  }

  // ---------------------------------------------------------------------------
  // What a ranking is
  // ---------------------------------------------------------------------------

  ghost predicate KeysDetermine(candidates: seq<Candidate>) {
    forall a, b :: a in candidates && b in candidates && a.key == b.key ==> a == b
  }

  ghost function Keys(candidates: seq<Candidate>): set<string> {
    set i | 0 <= i < |candidates| :: candidates[i].key
  }

  lemma PickIsUnique(these: seq<Candidate>, those: seq<Candidate>, picked: seq<Candidate>, weight: real,
                     sim: Similarity, a: Candidate, b: Candidate)
    requires KeysDetermine(these) && forall x :: x in these <==> x in those
    requires IsPick(these, picked, weight, sim, a) && IsPick(those, picked, weight, sim, b)
    ensures a == b
  {
    LessTotal(a.key, b.key);
  }

  lemma {:induction false} RankingsAgree(these: seq<Candidate>, those: seq<Candidate>, weight: real, limit: nat,
                                         sim: Similarity, first: seq<Candidate>, second: seq<Candidate>, n: nat)
    requires KeysDetermine(these) && forall x :: x in these <==> x in those
    requires IsRanking(these, weight, limit, sim, first) && IsRanking(those, weight, limit, sim, second)
    requires n <= |first| && n <= |second|
    ensures first[..n] == second[..n]
  {
    if n > 0 {
      var m := n - 1;
      RankingsAgree(these, those, weight, limit, sim, first, second, m);
      assert PickedAt(these, weight, sim, first, m) && PickedAt(those, weight, sim, second, m);
      PickIsUnique(these, those, first[..m], weight, sim, first[m], second[m]);
      assert first[..n] == first[..m] + [first[m]] && second[..n] == second[..m] + [second[m]];
    }
  }

  lemma NotLonger(these: seq<Candidate>, those: seq<Candidate>, weight: real, limit: nat, sim: Similarity,
                  first: seq<Candidate>, second: seq<Candidate>)
    requires KeysDetermine(these) && forall x :: x in these <==> x in those
    requires IsRanking(these, weight, limit, sim, first) && IsRanking(those, weight, limit, sim, second)
    ensures |second| <= |first|
  {
    if |first| < |second| {
      var n := |first|;
      RankingsAgree(these, those, weight, limit, sim, first, second, n);
      assert first[..n] == first;
      NextIsUnused(those, weight, limit, sim, second, n);
    }
  }

  lemma NextIsUnused(candidates: seq<Candidate>, weight: real, limit: nat, sim: Similarity, ranked: seq<Candidate>,
                     n: nat)
    requires IsRanking(candidates, weight, limit, sim, ranked) && n < |ranked|
    ensures ranked[n] in candidates && !Used(ranked[..n], ranked[n].key)
  {
    assert PickedAt(candidates, weight, sim, ranked, n);
  }

  /** The order of the input, and the iteration order of maps behind it, cannot be seen in the output. */
  lemma RankingIgnoresInputOrder(these: seq<Candidate>, those: seq<Candidate>, weight: real, limit: nat,
                                 sim: Similarity, first: seq<Candidate>, second: seq<Candidate>)
    requires KeysDetermine(these) && forall x :: x in these <==> x in those
    requires IsRanking(these, weight, limit, sim, first) && IsRanking(those, weight, limit, sim, second)
    ensures first == second
  {
    NotLonger(these, those, weight, limit, sim, first, second);
    NotLonger(those, these, weight, limit, sim, second, first);
    RankingsAgree(these, those, weight, limit, sim, first, second, |first|);
    assert first[..|first|] == first && second[..|first|] == second;
  }

  lemma NoRepeatedKey(candidates: seq<Candidate>, weight: real, limit: nat, sim: Similarity, ranked: seq<Candidate>)
    requires IsRanking(candidates, weight, limit, sim, ranked)
    ensures forall i, j :: 0 <= i < j < |ranked| ==> ranked[i].key != ranked[j].key
  {
    forall i, j | 0 <= i < j < |ranked| ensures ranked[i].key != ranked[j].key {
      NextIsUnused(candidates, weight, limit, sim, ranked, j);
      assert ranked[..j][i].key == ranked[i].key;
    }
  }

  lemma {:induction false} DistinctKeysCount(s: seq<Candidate>)
    requires forall i, j :: 0 <= i < j < |s| ==> s[i].key != s[j].key
    ensures |Keys(s)| == |s|
  {
    if s != [] {
      var n := |s| - 1;
      DistinctKeysCount(s[..n]);
      assert Keys(s) == Keys(s[..n]) + {s[n].key} by {
        forall i | 0 <= i < n ensures s[..n][i].key == s[i].key { }
        assert forall k :: k in Keys(s[..n]) ==> k in Keys(s);
      }
      assert s[n].key !in Keys(s[..n]);
    }
  }

  lemma {:induction false} SubsetSize(a: set<string>, b: set<string>)
    requires a <= b
    ensures |a| <= |b|
  {
    if a != {} {
      var x :| x in a;
      SubsetSize(a - {x}, b - {x});
    }
  }

  /** A ranking has as many entries as the limit and the distinct keys allow. */
  lemma RankingLength(candidates: seq<Candidate>, weight: real, limit: nat, sim: Similarity, ranked: seq<Candidate>)
    requires IsRanking(candidates, weight, limit, sim, ranked)
    ensures |ranked| == if limit <= |Keys(candidates)| then limit else |Keys(candidates)|
  {
    NoRepeatedKey(candidates, weight, limit, sim, ranked);
    DistinctKeysCount(ranked);
    forall i | 0 <= i < |ranked| ensures ranked[i].key in Keys(candidates) {
      NextIsUnused(candidates, weight, limit, sim, ranked, i);
    }
    SubsetSize(Keys(ranked), Keys(candidates));
    if |ranked| < limit {
      forall i | 0 <= i < |candidates| ensures candidates[i].key in Keys(ranked) {
        assert candidates[i] in candidates;
      }
      SubsetSize(Keys(candidates), Keys(ranked));
    }
  }

  /** With lambda 1 a ranking is the start of the list sorted by score. */
  lemma {:induction false} LambdaOneTakesTheTop(candidates: seq<Candidate>, limit: nat, sim: Similarity,
                                                ranked: seq<Candidate>,
                                                byScore: seq<Candidate>, n: nat)
    requires KeysDetermine(candidates) && IsRanking(candidates, 1.0, limit, sim, ranked)
    requires Sorted(ByScore, byScore) && forall x :: x in byScore <==> x in candidates
    requires n <= |ranked|
    ensures n <= |byScore| && ranked[..n] == byScore[..n]
  {
    if n > 0 {
      var m := n - 1;
      LambdaOneTakesTheTop(candidates, limit, sim, ranked, byScore, m);
      assert PickedAt(candidates, 1.0, sim, ranked, m);
      PickIsTop(candidates, sim, byScore, m, ranked[m]);
      assert ranked[..n] == ranked[..m] + [ranked[m]] && byScore[..n] == byScore[..m] + [byScore[m]];
    }
  }

  lemma UsedAt(s: seq<Candidate>, m: nat, j: nat)
    requires j < m <= |s|
    ensures Used(s[..m], s[j].key)
  {
    assert s[..m][j] == s[j];
  }

  lemma PickIsTop(candidates: seq<Candidate>, sim: Similarity, byScore: seq<Candidate>, m: nat, c: Candidate)
    requires KeysDetermine(candidates) && Sorted(ByScore, byScore) && forall x :: x in byScore <==> x in candidates
    requires m <= |byScore| && IsPick(candidates, byScore[..m], 1.0, sim, c)
    ensures m < |byScore| && c == byScore[m]
  {
    var j :| 0 <= j < |byScore| && byScore[j] == c;
    if j < m { UsedAt(byScore, m, j); }
    TopIsPick(candidates, sim, byScore, m, j);
  }

  lemma TopIsPick(candidates: seq<Candidate>, sim: Similarity, byScore: seq<Candidate>, m: nat, j: nat)
    requires KeysDetermine(candidates) && Sorted(ByScore, byScore) && forall x :: x in byScore <==> x in candidates
    requires m <= j < |byScore| && IsPick(candidates, byScore[..m], 1.0, sim, byScore[j])
    ensures m == j
  {
    if m < j {
      var top := byScore[m];
      assert ByScore(top, byScore[j]);
      assert top in candidates;
      forall i | 0 <= i < m ensures byScore[..m][i].key != top.key {
        LessTotal(top.key, top.key);
        assert ByScore(byScore[i], top) && byScore[i] in candidates;
      }
      assert !Used(byScore[..m], top.key);
      assert Better(top, byScore[j], byScore[..m], 1.0, sim);
    }
  }

  // ---------------------------------------------------------------------------
  // Relevance against repetition
  // ---------------------------------------------------------------------------

  /** `m` is how much `c` repeats what is picked: the largest similarity to a picked candidate, or 0 when
      none is positive. */
  ghost predicate Repeats(c: Candidate, picked: seq<Candidate>, sim: Similarity, m: real) {
    && m >= 0.0
    && (forall i :: 0 <= i < |picked| ==> sim(c, picked[i]) <= m)
    && (m == 0.0 || exists i :: 0 <= i < |picked| && sim(c, picked[i]) == m)
  }

  lemma {:induction false} RepeatsIsMaxSimilarity(c: Candidate, picked: seq<Candidate>, sim: Similarity, m: real)
    ensures Repeats(c, picked, sim, m) <==> m == MaxSimilarity(c, picked, sim)
  {
    if picked != [] {
      var n := |picked| - 1;
      var before := MaxSimilarity(c, picked[..n], sim);
      RepeatsIsMaxSimilarity(c, picked[..n], sim, before);
      assert forall i :: 0 <= i < n ==> picked[..n][i] == picked[i];
      assert sim(c, picked[n]) <= MaxSimilarity(c, picked, sim);
    }
  }

  /** Relevance less repetition, weighed: `d` does not come out above `c`. A tie goes to the more relevant
      candidate, then to the one whose key is not later. */
  predicate HoldsAgainst(c: Candidate, repeatsC: real, d: Candidate, repeatsD: real, weight: real) {
    var x, y := weight * c.final - (1.0 - weight) * repeatsC, weight * d.final - (1.0 - weight) * repeatsD;
    y < x || (y == x && (d.final < c.final || (d.final == c.final && !Less(d.key, c.key))))
  }

  ghost predicate HoldsAgainstAll(candidates: seq<Candidate>, picked: seq<Candidate>, weight: real, sim: Similarity,
                                  c: Candidate) {
    forall d, mc, md ::
      d in candidates && !Used(picked, d.key) && Repeats(c, picked, sim, mc) && Repeats(d, picked, sim, md)
      ==> HoldsAgainst(c, mc, d, md, weight)
  }

  /** Who is picked: the unused candidate that holds against every other, relevance weighed against how
      much each repeats what is already picked. */
  lemma PickIff(candidates: seq<Candidate>, picked: seq<Candidate>, weight: real, sim: Similarity, c: Candidate)
    ensures IsPick(candidates, picked, weight, sim, c) <==>
              && c in candidates && !Used(picked, c.key)
              && HoldsAgainstAll(candidates, picked, weight, sim, c)
  {
    var atC := MaxSimilarity(c, picked, sim);
    RepeatsIsMaxSimilarity(c, picked, sim, atC);
    forall d | d in candidates
      ensures Repeats(d, picked, sim, MaxSimilarity(d, picked, sim))
      ensures HoldsAgainst(c, atC, d, MaxSimilarity(d, picked, sim), weight)
              <==> !Better(d, c, picked, weight, sim)
    {
      RepeatsIsMaxSimilarity(d, picked, sim, MaxSimilarity(d, picked, sim));
    }
    forall d, m ensures Repeats(d, picked, sim, m) ==> m == MaxSimilarity(d, picked, sim) {
      RepeatsIsMaxSimilarity(d, picked, sim, m);
    }
  }

  /** What an unused candidate would gain in relevance over the one picked never outweighs what it repeats
      more; where they balance, the picked one is the more relevant, or equally relevant and not later by key. */
  lemma PickTradesOff(candidates: seq<Candidate>, picked: seq<Candidate>, weight: real, sim: Similarity,
                      c: Candidate, d: Candidate, mc: real, md: real)
    requires IsPick(candidates, picked, weight, sim, c) && d in candidates && !Used(picked, d.key)
    requires Repeats(c, picked, sim, mc) && Repeats(d, picked, sim, md)
    ensures weight * (d.final - c.final) <= (1.0 - weight) * (md - mc)
    ensures weight * (d.final - c.final) == (1.0 - weight) * (md - mc) ==>
              d.final < c.final || (d.final == c.final && !Less(d.key, c.key))
  {
    PickIff(candidates, picked, weight, sim, c);
    assert HoldsAgainst(c, mc, d, md, weight);
    ScoresCompare(weight, d.final, c.final, md, mc);
  }

  lemma ScoresCompare(w: real, x: real, y: real, p: real, q: real)
    ensures w * (x - y) < (1.0 - w) * (p - q) <==> w * x - (1.0 - w) * p < w * y - (1.0 - w) * q
    ensures w * (x - y) == (1.0 - w) * (p - q) <==> w * x - (1.0 - w) * p == w * y - (1.0 - w) * q
  {
    Distributes(w, x, y);
    Distributes(1.0 - w, p, q);
  }

  lemma Distributes(w: real, x: real, y: real)
    ensures w * (x - y) == w * x - w * y
  {
  }

  /** Of two candidates equally relevant, the one that repeats more is never taken first. */
  lemma DuplicatesWait(candidates: seq<Candidate>, picked: seq<Candidate>, weight: real, sim: Similarity,
                       c: Candidate, d: Candidate, mc: real, md: real)
    requires weight < 1.0 && IsPick(candidates, picked, weight, sim, c)
    requires d in candidates && !Used(picked, d.key) && d.final == c.final
    requires Repeats(c, picked, sim, mc) && Repeats(d, picked, sim, md)
    ensures mc <= md
  {
    PickIff(candidates, picked, weight, sim, c);
    assert HoldsAgainst(c, mc, d, md, weight);
    if md < mc { RepetitionDecides(1.0 - weight, weight * d.final, weight * c.final, md, mc); }
  }

  lemma RepetitionDecides(w: real, x: real, y: real, p: real, q: real)
    requires w > 0.0 && x == y && p < q
    ensures x - w * p > y - w * q
  {
  }

  /** Every entry of a ranking holds against every candidate whose key was free when it was taken. The
      weight is the one asked for, 0.7 when none is, and at most 1; the length is what the limit allows. */
  lemma RankingTradesOff(candidates: seq<Candidate>, asked: real, limit: int, sim: Similarity,
                         ranked: seq<Candidate>, weight: real)
    requires IsRanking(candidates, Lambda(asked), Limit(limit, |candidates|), sim, ranked)
    requires weight == if asked <= 0.0 then 0.7 else if asked <= 1.0 then asked else 1.0
    ensures forall i :: 0 <= i < |ranked| ==> HoldsAgainstAll(candidates, ranked[..i], weight, sim, ranked[i])
    ensures |ranked| == if 0 < limit <= |Keys(candidates)| then limit else |Keys(candidates)|
  {
    forall i | 0 <= i < |ranked| ensures HoldsAgainstAll(candidates, ranked[..i], weight, sim, ranked[i]) {
      assert PickedAt(candidates, Lambda(asked), sim, ranked, i);
      PickIff(candidates, ranked[..i], weight, sim, ranked[i]);
    }
    RankingLength(candidates, Lambda(asked), Limit(limit, |candidates|), sim, ranked);
    KeysAtMost(candidates);
  }

  lemma {:induction false} KeysAtMost(s: seq<Candidate>)
    ensures |Keys(s)| <= |s|
  {
    if s != [] {
      var n := |s| - 1;
      KeysAtMost(s[..n]);
      assert Keys(s) == Keys(s[..n]) + {s[n].key} by {
        assert forall i :: 0 <= i < n ==> s[..n][i].key == s[i].key;
        assert forall k :: k in Keys(s[..n]) ==> k in Keys(s);
      }
    }
  }

  // ---------------------------------------------------------------------------
  // Merging the lexical and the semantic channel
  // ---------------------------------------------------------------------------

  function Combined(current: Candidate, c: Candidate): Candidate {
    var lex := if c.lexical > current.lexical then current.(lexical := c.lexical, field := c.field) else current;
    var both := if c.semantic > current.semantic then lex.(semantic := c.semantic, vector := c.vector) else lex;
    both.(text := c.text)
  }

  function MergeOne(merged: map<string, Candidate>, c: Candidate): map<string, Candidate> {
    merged[c.key := if c.key in merged then Combined(merged[c.key], c) else c]
  }

  function Merged(candidates: seq<Candidate>): map<string, Candidate> {
    if candidates == [] then map[] else MergeOne(Merged(candidates[..|candidates| - 1]), candidates[|candidates| - 1])
  }

  /** The field of the first candidate that attains the key's best lexical score. */
  ghost predicate BestLexical(m: Candidate, all: seq<Candidate>) {
    && (forall c :: c in all && c.key == m.key ==> c.lexical <= m.lexical)
    && exists i :: 0 <= i < |all| && all[i].key == m.key && all[i].lexical == m.lexical && all[i].field == m.field
         && forall j :: 0 <= j < i && all[j].key == m.key ==> all[j].lexical < m.lexical
  }

  /** The vector of the first candidate that attains the key's best semantic score. */
  ghost predicate BestSemantic(m: Candidate, all: seq<Candidate>) {
    && (forall c :: c in all && c.key == m.key ==> c.semantic <= m.semantic)
    && exists i :: 0 <= i < |all| && all[i].key == m.key && all[i].semantic == m.semantic && all[i].vector == m.vector
         && forall j :: 0 <= j < i && all[j].key == m.key ==> all[j].semantic < m.semantic
  }

  ghost predicate LastText(m: Candidate, all: seq<Candidate>) {
    exists i :: 0 <= i < |all| && all[i].key == m.key && all[i].text == m.text
      && forall j :: i < j < |all| ==> all[j].key != m.key
  }

  ghost predicate IsBestOf(m: Candidate, all: seq<Candidate>) {
    BestLexical(m, all) && BestSemantic(m, all) && LastText(m, all)
  }

  lemma {:induction false} MergedIsBestPerKey(candidates: seq<Candidate>, k: string)
    ensures k in Merged(candidates) <==> Used(candidates, k)
    ensures k in Merged(candidates) ==> Merged(candidates)[k].key == k && IsBestOf(Merged(candidates)[k], candidates)
  {
    if candidates != [] {
      var init, c := candidates[..|candidates| - 1], candidates[|candidates| - 1];
      assert candidates == init + [c];
      MergedIsBestPerKey(init, k);
      UsedSnoc(init, c);
      if k in Merged(candidates) {
        if c.key == k && k in Merged(init) {
          CombinedIsBest(Merged(init)[k], init, c);
        } else if c.key != k {
          BestOfMore(Merged(init)[k], init, c);
        } else {
          OnlyOneIsBest(init, c);
        }
      }
    }
  }

  lemma BestOfMore(m: Candidate, init: seq<Candidate>, c: Candidate)
    requires IsBestOf(m, init) && c.key != m.key
    ensures IsBestOf(m, init + [c])
  {
    var all := init + [c];
    assert forall i :: 0 <= i < |init| ==> all[i] == init[i];
  }

  lemma CombinedLexical(m: Candidate, init: seq<Candidate>, c: Candidate)
    requires BestLexical(m, init) && c.key == m.key
    ensures BestLexical(Combined(m, c), init + [c])
  {
    var all := init + [c];
    assert forall i :: 0 <= i < |init| ==> all[i] == init[i];
    assert all[|init|] == c;
    forall i | 0 <= i < |init| && init[i].key == m.key ensures init[i].lexical <= m.lexical { assert init[i] in init; }
  }

  lemma CombinedSemantic(m: Candidate, init: seq<Candidate>, c: Candidate)
    requires BestSemantic(m, init) && c.key == m.key
    ensures BestSemantic(Combined(m, c), init + [c])
  {
    var all := init + [c];
    assert forall i :: 0 <= i < |init| ==> all[i] == init[i];
    assert all[|init|] == c;
    forall i | 0 <= i < |init| && init[i].key == m.key
        ensures init[i].semantic <= m.semantic { assert init[i] in init; }
  }

  lemma CombinedIsBest(m: Candidate, init: seq<Candidate>, c: Candidate)
    requires IsBestOf(m, init) && c.key == m.key
    ensures IsBestOf(Combined(m, c), init + [c])
  {
    CombinedLexical(m, init, c);
    CombinedSemantic(m, init, c);
    assert (init + [c])[|init|] == c;
  }

  lemma OnlyOneIsBest(init: seq<Candidate>, c: Candidate)
    requires !Used(init, c.key)
    ensures IsBestOf(c, init + [c])
  {
    assert (init + [c])[|init|] == c;
  }

  predicate MergeOrder(a: Candidate, b: Candidate) {
    a.final > b.final || (a.final == b.final &&
      (a.query > b.query || (a.query == b.query && Less(a.key, b.key))))
  }

  /** One list that merging may return: the map's candidates, rescored and sorted, in whatever order it was iterated. */
  ghost predicate IsMergeOutput(merged: map<string, Candidate>, rescore: Candidate -> Candidate, out: seq<Candidate>) {
    && Sorted(MergeOrder, out)
    && (forall k :: k in merged ==> rescore(merged[k]) in out)
    && (forall c :: c in out ==> exists k :: k in merged && c == rescore(merged[k]))
  }

  lemma MergeOrderAsymmetric()
    ensures Asymmetric(MergeOrder)
  {
    forall a, b | MergeOrder(a, b) ensures !MergeOrder(b, a) { LessTotal(a.key, b.key); }
  }

  lemma MergeOutputIsUnique(merged: map<string, Candidate>, rescore: Candidate -> Candidate, a: seq<Candidate>,
                            b: seq<Candidate>)
    requires IsMergeOutput(merged, rescore, a) && IsMergeOutput(merged, rescore, b)
    ensures a == b
  {
    MergeOrderAsymmetric();
    SortedIsUnique(MergeOrder, a, b);
  }

  /** Merging returns the best score first, equal scores by the query score, then by key. */
  lemma MergeOutputIsBestFirst(merged: map<string, Candidate>, rescore: Candidate -> Candidate, out: seq<Candidate>,
                               i: nat, j: nat)
    requires IsMergeOutput(merged, rescore, out) && i < j < |out|
    ensures out[i].final >= out[j].final
    ensures out[i].final == out[j].final ==> out[i].query >= out[j].query
    ensures out[i].final == out[j].final && out[i].query == out[j].query ==> Less(out[i].key, out[j].key)
  {
    assert MergeOrder(out[i], out[j]);
  }

  lemma MergeOutputKeys(candidates: seq<Candidate>, rescore: Candidate -> Candidate, out: seq<Candidate>)
    requires forall c :: rescore(c).key == c.key
    requires IsMergeOutput(Merged(candidates), rescore, out)
    ensures forall c :: c in out ==> Used(candidates, c.key)
    ensures KeysDetermine(out)
  {
    var merged := Merged(candidates);
    forall c | c in out ensures Used(candidates, c.key) && c.key in merged && c == rescore(merged[c.key]) {
      var k :| k in merged && c == rescore(merged[k]);
      MergedIsBestPerKey(candidates, k);
    }
  }

  /** The search has one answer for each pair of channels, whatever the iteration order of its maps. */
  lemma SearchIsDeterministic(lexical: seq<Candidate>, semantic: seq<Candidate>, rescore: Candidate -> Candidate,
                              weight: real, limit: int, sim: Similarity,
                              a: seq<Candidate>, b: seq<Candidate>, first: seq<Candidate>, second: seq<Candidate>)
    requires forall c :: rescore(c).key == c.key
    requires IsMergeOutput(Merged(lexical + semantic), rescore, a)
             && IsMergeOutput(Merged(lexical + semantic), rescore, b)
    requires IsRanking(a, Lambda(weight), Limit(limit, |a|), sim, first)
    requires IsRanking(b, Lambda(weight), Limit(limit, |b|), sim, second)
    ensures first == second
    ensures forall c :: c in first ==> Used(lexical + semantic, c.key)
  {
    MergeOutputIsUnique(Merged(lexical + semantic), rescore, a, b);
    MergeOutputKeys(lexical + semantic, rescore, a);
    RankingIgnoresInputOrder(a, b, Lambda(weight), Limit(limit, |a|), sim, first, second);
    forall c | c in first ensures c in a {
      var i :| 0 <= i < |first| && first[i] == c;
      NextIsUnused(a, Lambda(weight), Limit(limit, |a|), sim, first, i);
    }
  }

  /** The merge loop over both channels. */
  method MergeChannels(lexical: seq<Candidate>, semantic: seq<Candidate>) returns (merged: map<string, Candidate>)
    ensures merged == Merged(lexical + semantic)
  {
    merged := map[];
    var all := lexical + semantic;
    for i := 0 to |all|
      invariant merged == Merged(all[..i])
    {
      assert all[..i + 1][..i] == all[..i];
      var c := if i < |lexical| then lexical[i] else semantic[i - |lexical|];
      merged := merged[c.key := if c.key in merged then Combined(merged[c.key], c) else c];
    }
    assert all[..|all|] == all;
  }

  ghost predicate NoKeyTwice(s: seq<Candidate>) {
    forall i, j :: 0 <= i < j < |s| ==> s[i].key != s[j].key
  }

  /** The map's candidates, rescored, each once. */
  ghost predicate Enumerates(merged: map<string, Candidate>, rescore: Candidate -> Candidate, out: seq<Candidate>) {
    && NoKeyTwice(out)
    && (forall k :: k in merged ==> rescore(merged[k]) in out)
    && (forall c :: c in out ==> exists k :: k in merged && c == rescore(merged[k]))
  }

  /** Iterates the map in an order of the runtime's choosing. */
  method Enumerate(merged: map<string, Candidate>, rescore: Candidate -> Candidate) returns (out: seq<Candidate>)
    requires forall k :: k in merged ==> rescore(merged[k]).key == k
    ensures Enumerates(merged, rescore, out)
  {
    out := [];
    var rest := merged.Keys;
    while rest != {}
      invariant rest <= merged.Keys
      invariant NoKeyTwice(out) && forall c :: c in out ==> c.key !in rest
      invariant forall k :: k in merged && k !in rest ==> rescore(merged[k]) in out
      invariant forall c :: c in out ==> exists k :: k in merged && c == rescore(merged[k])
    {
      var k :| k in rest;
      assert forall c :: c in out ==> c.key != k;
      rest := rest - {k};
      out := out + [rescore(merged[k])];
    }
  }

  lemma MergeOrderIsWeakOrder()
    ensures WeakOrder(MergeOrder)
  {
    MergeOrderAsymmetric();
    forall a, b, c | MergeOrder(a, c) ensures MergeOrder(a, b) || MergeOrder(b, c) {
      LessTotal(a.key, b.key);
      if Less(b.key, a.key) && Less(a.key, c.key) { LessTransitive(b.key, a.key, c.key); }
    }
  }

  lemma {:induction false} InsertKeepsKeys(x: Candidate, s: seq<Candidate>)
    requires NoKeyTwice(s) && forall c :: c in s ==> c.key != x.key
    ensures NoKeyTwice(Insert(MergeOrder, x, s))
  {
    if s != [] && !MergeOrder(x, s[0]) {
      var rest := Insert(MergeOrder, x, s[1..]);
      InsertKeepsKeys(x, s[1..]);
      InsertMembers(MergeOrder, x, s[1..]);
      forall j | 0 <= j < |rest| ensures rest[j].key != s[0].key {
        assert rest[j] in multiset(rest);
        assert rest[j] == x || rest[j] in s[1..];
      }
    }
  }

  lemma {:induction false} SortKeepsKeys(s: seq<Candidate>)
    requires NoKeyTwice(s)
    ensures NoKeyTwice(Sort(MergeOrder, s))
  {
    if s != [] {
      var rest := Sort(MergeOrder, s[1..]);
      SortKeepsKeys(s[1..]);
      MergeOrderIsWeakOrder();
      SortSorts(MergeOrder, s[1..]);
      forall j | 0 <= j < |rest| ensures rest[j].key != s[0].key {
        assert rest[j] in multiset(rest);
        assert rest[j] in s[1..];
      }
      InsertKeepsKeys(s[0], rest);
    }
  }

  /** Sorting an enumeration gives the one output that the merge can have. */
  lemma SortedEnumerationIsOutput(merged: map<string, Candidate>, rescore: Candidate -> Candidate, out: seq<Candidate>)
    requires Enumerates(merged, rescore, out)
    ensures IsMergeOutput(merged, rescore, Sort(MergeOrder, out))
  {
    var sorted := Sort(MergeOrder, out);
    MergeOrderIsWeakOrder();
    SortSorts(MergeOrder, out);
    SortKeepsKeys(out);
    forall i, j | 0 <= i < j < |sorted| ensures MergeOrder(sorted[i], sorted[j]) {
      LessTotal(sorted[i].key, sorted[j].key);
    }
    forall c ensures c in sorted <==> c in out {
      assert c in sorted <==> c in multiset(sorted);
      assert c in out <==> c in multiset(out);
    }
  }

  method MergeSearchCandidates(lexical: seq<Candidate>, semantic: seq<Candidate>, rescore: Candidate -> Candidate)
    returns (out: seq<Candidate>)
    requires forall c :: rescore(c).key == c.key
    ensures IsMergeOutput(Merged(lexical + semantic), rescore, out)
  {
    var merged := MergeChannels(lexical, semantic);
    forall k | k in merged ensures rescore(merged[k]).key == k { MergedIsBestPerKey(lexical + semantic, k); }
    out := Enumerate(merged, rescore);
    SortedEnumerationIsOutput(merged, rescore, out);
    out := Sort(MergeOrder, out);
  }

  /** Merge and re-ranking, as the hybrid search runs them. */
  method RankChannels(lexical: seq<Candidate>, semantic: seq<Candidate>, rescore: Candidate -> Candidate,
                      weight: real, limit: int, sim: Similarity) returns (hits: seq<Candidate>)
    requires forall c :: rescore(c).key == c.key
    ensures exists out :: IsMergeOutput(Merged(lexical + semantic), rescore, out)
                          && IsRanking(out, Lambda(weight), Limit(limit, |out|), sim, hits)
                          && var w := if weight <= 0.0 then 0.7 else if weight <= 1.0 then weight else 1.0;
                             forall i :: 0 <= i < |hits| ==> HoldsAgainstAll(out, hits[..i], w, sim, hits[i])
  {
    var out := MergeSearchCandidates(lexical, semantic, rescore);
    hits := RerankCandidates(out, weight, limit, sim);
  }
}
