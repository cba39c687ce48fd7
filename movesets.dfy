/**
 * Moveset assembly: the in-place shuffle of the candidate move URLs, the
 * pick of at most four damaging moves, the tackle fallback and the padding
 * to exactly four; and the battle instance built from a species record.
 */
module Movesets {
  import opened Wrappers
  import opened Stats
  import opened Creatures

  // ---------------------------------------------------------------------------
  // Fisher-Yates shuffle
  // ---------------------------------------------------------------------------

  predicate ValidDraws(draws: seq<real>)
  {
    forall i :: 0 <= i < |draws| ==> 0.0 <= draws[i] < 1.0
  }

  /** `Math.floor(draw * (i + 1))`: an index in 0..i for a draw in [0, 1). */
  function SwapIndex(draw: real, i: nat): (j: nat)
    requires 0.0 <= draw < 1.0
    ensures j <= i
  {
    var n := (i + 1) as real;
    var x := draw * n;
    ScaledDrawBelow(draw, n);
    x.Floor
  }

  /** A draw in [0, 1) scaled by a positive n lies in [0, n). */
  lemma ScaledDrawBelow(draw: real, n: real)
    requires 0.0 <= draw < 1.0 && n > 0.0
    ensures 0.0 <= draw * n < n
  {
    assert n - draw * n == (1.0 - draw) * n;
    assert (1.0 - draw) * n > 0.0;
  }

  function Swap<T>(s: seq<T>, i: nat, j: nat): (r: seq<T>)
    requires i < |s| && j < |s|
    ensures |r| == |s|
    ensures r[i] == s[j] && r[j] == s[i]
    ensures forall k :: 0 <= k < |s| && k != i && k != j ==> r[k] == s[k]
  {
    s[i := s[j]][j := s[i]]
  }

  lemma SwapPermutes<T>(s: seq<T>, i: nat, j: nat)
    requires i < |s| && j < |s|
    ensures multiset(Swap(s, i, j)) == multiset(s)
  {
  }

  /** The sequence after the swaps for the positions i, i - 1, ..., 1, using `draws[i]` at position i. */
  function ShuffleDown<T>(s: seq<T>, draws: seq<real>, i: nat): (r: seq<T>)
    requires i < |s| && |draws| >= |s| && ValidDraws(draws)
    ensures |r| == |s|
    decreases i
  {
    if i == 0 then s
    else ShuffleDown(Swap(s, i, SwapIndex(draws[i], i)), draws, i - 1)
  }

  /** The order a shuffle with these draws leaves `s` in. */
  function Shuffled<T>(s: seq<T>, draws: seq<real>): seq<T>
    requires |draws| >= |s| && ValidDraws(draws)
  {
    if |s| == 0 then s else ShuffleDown(s, draws, |s| - 1)
  }

  lemma {:induction false} ShuffleDownPermutes<T>(s: seq<T>, draws: seq<real>, i: nat)
    requires i < |s| && |draws| >= |s| && ValidDraws(draws)
    ensures multiset(ShuffleDown(s, draws, i)) == multiset(s)
    decreases i
  {
    if i > 0 {
      SwapPermutes(s, i, SwapIndex(draws[i], i));
      ShuffleDownPermutes(Swap(s, i, SwapIndex(draws[i], i)), draws, i - 1);
    }
  }

  /** Shuffling only reorders: the result is a permutation of the input. */
  lemma ShuffledPermutes<T>(s: seq<T>, draws: seq<real>)
    requires |draws| >= |s| && ValidDraws(draws)
    ensures |Shuffled(s, draws)| == |s|
    ensures multiset(Shuffled(s, draws)) == multiset(s)
  {
    if |s| > 0 {
      ShuffleDownPermutes(s, draws, |s| - 1);
    }
  }

  /** shuffle: swaps cell i with a drawn cell at or below it, from the last cell down to cell 1. */
  method Shuffle<T>(a: array<T>, draws: seq<real>)
    requires |draws| >= a.Length && ValidDraws(draws)
    modifies a
    ensures a[..] == Shuffled(old(a[..]), draws)
  {
    if a.Length == 0 {
      return;
    }
    var i := a.Length - 1;
    while i > 0
      invariant 0 <= i < a.Length
      invariant ShuffleDown(a[..], draws, i) == ShuffleDown(old(a[..]), draws, a.Length - 1)
    {
      var j := SwapIndex(draws[i], i);
      ghost var before := a[..];
      a[i], a[j] := a[j], a[i];
      assert a[..] == Swap(before, i, j);
      i := i - 1;
    }
  }

  // ---------------------------------------------------------------------------
  // Picking the moves
  // ---------------------------------------------------------------------------

  /** A move record as the data provider returns it; absent fields are null there. */
  datatype MoveDetail = MoveDetail(
    name: string, power: Option<nat>, accuracy: Option<nat>, pp: Option<nat>,
    moveType: string, damageClass: Option<string>)

  /** A move deals damage when it has a non-zero power and a damage class other than status. */
  predicate IsDamaging(d: MoveDetail)
  {
    d.power.Some? && d.power.value != 0 && d.damageClass.Some? && d.damageClass.value != "status"
  }

  /** `pp || 20`. */
  function PpOf(d: MoveDetail): (p: nat)
    ensures p > 0
    ensures d.pp.Some? && d.pp.value > 0 ==> p == d.pp.value
    ensures d.pp.None? || d.pp.value == 0 ==> p == 20
  {
    match d.pp
    case Some(p) => if p == 0 then 20 else p
    case None => 20
  }

  /** The move slot built from a damaging record, at full PP. */
  function ToMove(d: MoveDetail): (m: Move)
    requires IsDamaging(d)
    ensures m.name == d.name && m.power == d.power && m.accuracy == d.accuracy
    ensures m.moveType == d.moveType && m.damageClass == d.damageClass.value
    ensures m.currentPp == m.maxPp == PpOf(d)
  {
    Move(d.name, d.power, d.accuracy, d.moveType, d.damageClass.value, PpOf(d), PpOf(d))
  }

  /** The fallback moveset's only move. */
  const Tackle: Move := Move("tackle", Some(40), Some(100), "normal", "physical", 35, 35)

  /** Whether the record fetched from `url` yields a move. */
  predicate Yields(fetch: string -> Option<MoveDetail>, url: string)
  {
    fetch(url).Some? && IsDamaging(fetch(url).value)
  }

  /**
   * The moves the candidates yield, in candidate order: a failed fetch
   * (`None`) and a non-damaging record are skipped.
   */
  function Picks(urls: seq<string>, fetch: string -> Option<MoveDetail>): (r: seq<Move>)
    ensures |r| <= |urls|
    ensures forall i :: 0 <= i < |r| ==> r[i].currentPp == r[i].maxPp
  {
    if |urls| == 0 then []
    else
      var n := |urls| - 1;
      Picks(urls[..n], fetch) + (if Yields(fetch, urls[n]) then [ToMove(fetch(urls[n]).value)] else [])
  }

  /** Looking at fewer candidates yields a prefix of the moves. */
  lemma {:induction false} PicksPrefix(urls: seq<string>, fetch: string -> Option<MoveDetail>, i: nat)
    requires i <= |urls|
    ensures Picks(urls[..i], fetch) <= Picks(urls, fetch)
    decreases |urls|
  {
    if i < |urls| {
      var n := |urls| - 1;
      assert urls[..n][..i] == urls[..i];
      PicksPrefix(urls[..n], fetch, i);
    } else {
      assert urls[..i] == urls;
    }
  }

  /** Every picked move comes from a damaging record of some candidate. */
  lemma {:induction false} PicksAreDamaging(urls: seq<string>, fetch: string -> Option<MoveDetail>, k: nat)
    requires k < |Picks(urls, fetch)|
    ensures exists i :: 0 <= i < |urls| && Yields(fetch, urls[i]) && Picks(urls, fetch)[k] == ToMove(fetch(urls[i]).value)
  {
    var n := |urls| - 1;
    var init := Picks(urls[..n], fetch);
    if k < |init| {
      PicksAreDamaging(urls[..n], fetch, k);
      var i :| 0 <= i < n && Yields(fetch, urls[..n][i]) && init[k] == ToMove(fetch(urls[..n][i]).value);
      assert urls[i] == urls[..n][i];
    } else {
      assert Yields(fetch, urls[n]);
    }
  }

  /** At most four moves: `slice(0, 4)`. */
  function Take4(p: seq<Move>): (r: seq<Move>)
    ensures |r| <= 4 && r <= p
    ensures |p| <= 4 ==> r == p
  {
    if |p| <= 4 then p else p[..4]
  }

  /** Appends copies of the first move, restored to full PP, until there are four. */
  function Pad(p: seq<Move>): (r: seq<Move>)
    requires 1 <= |p| <= 4
    ensures |r| == 4 && p <= r
    ensures forall i :: |p| <= i < 4 ==> r[i] == p[0].(currentPp := p[0].maxPp)
    decreases 4 - |p|
  {
    if |p| == 4 then p else Pad(p + [p[0].(currentPp := p[0].maxPp)])
  }

  /**
   * The moveset built from the moves the shuffled candidates yield: the
   * first four of them, or tackle when there are none, padded to four.
   */
  function Assemble(picks: seq<Move>): (moves: seq<Move>)
    ensures |moves| == 4
    ensures |picks| == 0 ==> forall i :: 0 <= i < 4 ==> moves[i] == Tackle
    ensures forall i :: 0 <= i < |picks| && i < 4 ==> moves[i] == picks[i]
    ensures |picks| > 0 ==> forall i :: |picks| <= i < 4 ==> moves[i] == picks[0].(currentPp := picks[0].maxPp)
  {
    var p := Take4(picks);
    if |p| == 0 then Pad([Tackle]) else Pad(p)
  }

  /** Every move of an assembled moveset starts at full PP. */
  lemma AssembledAtFullPp(picks: seq<Move>, i: nat)
    requires forall k :: 0 <= k < |picks| ==> picks[k].currentPp == picks[k].maxPp
    requires i < 4
    ensures Assemble(picks)[i].currentPp == Assemble(picks)[i].maxPp
  {
  }

  /** The pick loop: walks the candidates until four moves are picked. */
  method PickMoves(urls: seq<string>, fetch: string -> Option<MoveDetail>) returns (picked: seq<Move>)
    ensures picked == Take4(Picks(urls, fetch))
  {
    picked := [];
    var i := 0;
    while i < |urls| && |picked| < 4
      invariant 0 <= i <= |urls|
      invariant picked == Picks(urls[..i], fetch)
      invariant |picked| <= 4
    {
      assert urls[..i + 1][..i] == urls[..i];
      var detail := fetch(urls[i]);
      if detail.Some? && IsDamaging(detail.value) {
        picked := picked + [ToMove(detail.value)];
      }
      i := i + 1;
    }
    PicksPrefix(urls, fetch, i);
    if i == |urls| {
      assert urls[..i] == urls;
    }
  }

  /** The fallback and padding loop. */
  method CompleteMoveset(picked: seq<Move>) returns (moves: seq<Move>)
    requires |picked| <= 4
    ensures moves == (if |picked| == 0 then Pad([Tackle]) else Pad(picked))
  {
    moves := picked;
    if |moves| == 0 {
      moves := [Tackle];
    }
    ghost var base := moves;
    while |moves| < 4
      invariant 1 <= |moves| <= 4
      invariant Pad(moves) == Pad(base)
      decreases 4 - |moves|
    {
      moves := moves + [moves[0].(currentPp := moves[0].maxPp)];
    }
  }

  /** buildRandomMoves over the records `fetch` returns for each candidate URL. */
  method BuildRandomMoves(candidates: seq<string>, draws: seq<real>, fetch: string -> Option<MoveDetail>)
    returns (moves: seq<Move>)
    requires |draws| >= |candidates| && ValidDraws(draws)
    ensures moves == Assemble(Picks(Shuffled(candidates, draws), fetch))
  {
    var a := new string[|candidates|](i requires 0 <= i < |candidates| => candidates[i]);
    assert a[..] == candidates;
    Shuffle(a, draws);
    var picked := PickMoves(a[..], fetch);
    moves := CompleteMoveset(picked);
  }

  /** A battle instance starts at full HP and full PP with exactly four moves. */
  predicate Fresh(c: Creature)
  {
    c.stats.currentHp == c.stats.maxHp && |c.moves| == 4
    && forall i :: 0 <= i < 4 ==> c.moves[i].currentPp == c.moves[i].maxPp
  }

  /** createPokemonBattleInstance: the species' stats at `level` and a random moveset. */
  method CreateBattleInstance(species: Species, level: nat, draws: seq<real>, fetch: string -> Option<MoveDetail>)
    returns (c: Creature)
    requires |draws| >= |species.candidateMoves| && ValidDraws(draws)
    ensures c.name == species.name && c.types == species.types && c.level == level
    ensures c.stats == StatsOf(species.stats, level)
    ensures c.moves == Assemble(Picks(Shuffled(species.candidateMoves, draws), fetch))
    ensures Fresh(c)
  {
    var stats := ComputeStatsAtLevel(species.stats, level);
    var moves := BuildRandomMoves(species.candidateMoves, draws, fetch);
    StatsStartAtFullHp(species.stats, level);
    forall i | 0 <= i < 4
      ensures moves[i].currentPp == moves[i].maxPp
    {
      AssembledAtFullPp(Picks(Shuffled(species.candidateMoves, draws), fetch), i);
    }
    c := Creature(species.name, species.types, level, stats, moves);
  }
}
