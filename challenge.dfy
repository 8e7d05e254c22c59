/**
 * Challenge generation (`AppComponent.generateChallenge` with its inner
 * `genSet` and the `shuffle` helper): a target sum drawn from a range that
 * widens with the level, two positive solutions that add up to it, and for
 * each solution a set of twelve distinct numbers seeded with it and padded
 * with random distractors, in shuffled order.
 *
 * Every `Math.random()` draw is an input: a real in [0, 1) for the target and
 * for the first solution, a finite supply of such reals for each distractor
 * loop, and a list of choices that fixes the order the randomised sort puts a
 * set in.
 */
module Challenge {
  import opened Wrappers
  import JsMath

  /** The number of values on a reel, and so the size of each generated set. */
  const SetSize := 12

  /** A generated puzzle: the target and the two number sequences of the reels. */
  datatype Challenge = Challenge(targetSum: int, numbers1: seq<int>, numbers2: seq<int>)

  /** Every random input one call of `generateChallenge` consumes. */
  datatype ChallengeDraws = ChallengeDraws(
    targetDraw: real,
    solutionDraw: real,
    fill1: seq<real>,
    fill2: seq<real>,
    order1: seq<nat>,
    order2: seq<nat>)

  predicate IsDraw(r: real) { 0.0 <= r < 1.0 }

  predicate AllDraws(rs: seq<real>) { forall i :: 0 <= i < |rs| ==> IsDraw(rs[i]) }

  /** Each draw lies where `Math.random()` puts it. */
  predicate DrawsInRange(d: ChallengeDraws)
  {
    IsDraw(d.targetDraw) && IsDraw(d.solutionDraw) && AllDraws(d.fill1) && AllDraws(d.fill2)
  }

  /** `Math.floor(draw * n)`: a uniform pick from [0, n) when `n` is positive. */
  function Pick(draw: real, n: int): (k: int)
    requires IsDraw(draw)
    ensures n > 0 ==> 0 <= k < n
  {
    var x := draw * n as real;
    if n > 0 then
      ScaleDraw(draw, n as real);
      assert x.Floor as real <= x < n as real;
      x.Floor
    else
      x.Floor
  }

  /** A draw in [0, 1) scaled by a positive `m` lies in [0, m). */
  lemma ScaleDraw(draw: real, m: real)
    requires IsDraw(draw) && m > 0.0
    ensures 0.0 <= draw * m < m
  {
    assert 0.0 <= draw * m;
    assert draw * m < 1.0 * m;
  }

  /** The lower bound `min` of the target range at `level`. */
  function MinTarget(level: int): int { 10 + level * 2 }

  /** The exclusive upper bound `max` of the target range at `level`. */
  function MaxTarget(level: int): int { 25 + level * 4 }

  /** The target sum: `Math.floor(Math.random() * (max - min)) + min`. */
  function TargetFor(level: int, draw: real): (target: int)
    requires IsDraw(draw)
    ensures MinTarget(level) < MaxTarget(level) ==> MinTarget(level) <= target < MaxTarget(level)
  {
    Pick(draw, MaxTarget(level) - MinTarget(level)) + MinTarget(level)
  }

  /**
   * The two solutions: `sol1 = Math.floor(Math.random() * (target - 2)) + 1`
   * and `sol2 = target - sol1`. They add up to the target and, for a target
   * above 2, both are positive and below it.
   */
  function Solutions(target: int, draw: real): (sols: (int, int))
    requires IsDraw(draw)
    ensures sols.0 + sols.1 == target
    ensures target > 2 ==> 1 <= sols.0 <= target - 2 && 2 <= sols.1 <= target - 1
  {
    var sol1 := Pick(draw, target - 2) + 1;
    (sol1, target - sol1)
  }

  /** The exclusive bound of the distractor draws: `target + 15 + level * 5`. */
  function DistractorRange(target: int, level: int): int { target + 15 + level * 5 }

  predicate Distinct(s: seq<int>)
  {
    forall i, j :: 0 <= i < j < |s| ==> s[i] != s[j]
  }

  predicate InRange(s: seq<int>, bound: int)
  {
    forall i :: 0 <= i < |s| ==> 0 <= s[i] < bound
  }

  /**
   * `Set.add` on a JavaScript `Set`, kept as the sequence of its elements in
   * insertion order (the order `Array.from` reads them in).
   */
  function AddDistinct(s: seq<int>, x: int): (r: seq<int>)
    ensures |r| == if x in s then |s| else |s| + 1
    ensures x in r && r[..|s|] == s
    ensures forall y :: y in r ==> y in s || y == x
    ensures Distinct(s) ==> Distinct(r)
  {
    if x in s then s else s + [x]
  }

  /**
   * The set `genSet` collects: starting from `s`, add `Math.floor(draw * range)`
   * for each draw in turn while fewer than twelve distinct values are held.
   * The supply of draws is finite here; the result falls short of twelve only
   * when the supply runs out first, and then every draw's value is in it.
   */
  function Fill(s: seq<int>, range: int, draws: seq<real>): (r: seq<int>)
    requires AllDraws(draws)
    ensures |s| <= |r| && r[..|s|] == s
    ensures |s| <= SetSize ==> |r| <= SetSize
    ensures |r| < SetSize ==> forall k :: 0 <= k < |draws| ==> Pick(draws[k], range) in r
    decreases |draws|
  {
    if |s| >= SetSize || draws == [] then s
    else
      var s' := AddDistinct(s, Pick(draws[0], range));
      var r := Fill(s', range, draws[1..]);
      assert r[..|s|] == r[..|s'|][..|s|];
      r
  }

  /** The distractor loop keeps a set of distinct values distinct, and the values below `range`. */
  lemma {:induction false} FillKeepsSet(s: seq<int>, range: int, draws: seq<real>)
    requires AllDraws(draws)
    ensures Distinct(s) ==> Distinct(Fill(s, range, draws))
    ensures range > 0 && InRange(s, range) ==> InRange(Fill(s, range, draws), range)
    decreases |draws|
  {
    if |s| < SetSize && draws != [] {
      var x := Pick(draws[0], range);
      FillKeepsSet(AddDistinct(s, x), range, draws[1..]);
      if range > 0 && InRange(s, range) {
        assert 0 <= x < range;
        assert InRange(AddDistinct(s, x), range);
      }
    }
  }

  /**
   * The `genSet` loop itself: the set starts as `{sol}` and grows by one draw
   * at a time while it holds fewer than twelve values (and, here, while
   * draws remain).
   */
  method GenSet(sol: int, range: int, draws: seq<real>) returns (s: seq<int>)
    requires AllDraws(draws)
    ensures s == Fill([sol], range, draws)
  {
    s := [sol];
    var i := 0;
    while |s| < SetSize && i < |draws|
      invariant 0 <= i <= |draws|
      invariant Fill(s, range, draws[i..]) == Fill([sol], range, draws)
    {
      FillStep(s, range, draws[i..]);
      assert draws[i..][0] == draws[i] && draws[i..][1..] == draws[i + 1..];
      s := AddDistinct(s, Pick(draws[i], range));
      i := i + 1;
    }
  }

  /** One round of the `genSet` loop, as `Fill` takes it. */
  lemma FillStep(s: seq<int>, range: int, draws: seq<real>)
    requires AllDraws(draws) && |s| < SetSize && draws != []
    ensures Fill(s, range, draws) == Fill(AddDistinct(s, Pick(draws[0], range)), range, draws[1..])
  {
  }

  /**
   * `shuffle`: `array.sort(() => Math.random() - 0.5)` returns some
   * permutation of its input. Which one is fixed here by `choices`: the value
   * at position `choices[0]` comes first, then the rest is ordered by the
   * remaining choices (a missing or out-of-range choice counts as 0).
   */
  function Shuffle(a: seq<int>, choices: seq<nat>): (r: seq<int>)
    ensures |r| == |a| && multiset(r) == multiset(a)
    decreases |a|
  {
    if a == [] then []
    else
      var k := FirstChoice(choices, |a|);
      var rest := a[..k] + a[k + 1..];
      assert a == a[..k] + [a[k]] + a[k + 1..];
      [a[k]] + Shuffle(rest, if choices == [] then [] else choices[1..])
  }

  /** Taking one element out of a set of distinct values leaves distinct values without it. */
  lemma RemoveDistinct(a: seq<int>, k: nat)
    requires Distinct(a) && k < |a|
    ensures Distinct(a[..k] + a[k + 1..]) && a[k] !in a[..k] + a[k + 1..]
  {
    var rest := a[..k] + a[k + 1..];
    forall i | 0 <= i < |rest| ensures rest[i] == a[if i < k then i else i + 1] {
    }
  }

  function FirstChoice(choices: seq<nat>, n: nat): (k: nat)
    requires n > 0
    ensures k < n
  {
    if choices != [] && choices[0] < n then choices[0] else 0
  }

  /** Shuffling keeps the elements of a set pairwise distinct. */
  lemma {:induction false} ShufflePreservesDistinct(a: seq<int>, choices: seq<nat>)
    requires Distinct(a)
    ensures Distinct(Shuffle(a, choices))
    decreases |a|
  {
    if a != [] {
      var k := FirstChoice(choices, |a|);
      var rest := a[..k] + a[k + 1..];
      var tail := if choices == [] then [] else choices[1..];
      RemoveDistinct(a, k);
      ShufflePreservesDistinct(rest, tail);
      NotInShuffle(a[k], rest, tail);
      ConsDistinct(a[k], Shuffle(rest, tail));
      assert Shuffle(a, choices) == [a[k]] + Shuffle(rest, tail);
    }
  }

  lemma NotInShuffle(x: int, a: seq<int>, choices: seq<nat>)
    requires x !in a
    ensures x !in Shuffle(a, choices)
  {
    assert x !in multiset(a);
  }

  lemma ConsDistinct(x: int, r: seq<int>)
    requires Distinct(r) && x !in r
    ensures Distinct([x] + r)
  {
    var c := [x] + r;
    forall i, j | 0 <= i < j < |c| ensures c[i] != c[j] {
      assert c[j] == r[j - 1];
      if i > 0 { assert c[i] == r[i - 1]; }
    }
  }

  /**
   * `generateChallenge` as a value: the target, the two solutions and the two
   * shuffled sets, or `None` when a distractor supply ran out before its set
   * reached twelve values.
   */
  function Generate(level: int, d: ChallengeDraws): (c: Option<Challenge>)
    requires DrawsInRange(d)
  {
    var target := TargetFor(level, d.targetDraw);
    var sols := Solutions(target, d.solutionDraw);
    Assemble(target, sols.0, sols.1, DistractorRange(target, level), d)
  }

  /** The two `genSet` calls of `generateChallenge`, for the solutions `sol1` and `sol2`. */
  function Assemble(target: int, sol1: int, sol2: int, range: int, d: ChallengeDraws): (c: Option<Challenge>)
    requires DrawsInRange(d)
  {
    var set1 := Fill([sol1], range, d.fill1);
    var set2 := Fill([sol2], range, d.fill2);
    if |set1| == SetSize && |set2| == SetSize then
      Some(Challenge(target, Shuffle(set1, d.order1), Shuffle(set2, d.order2)))
    else
      None
  }

  /**
   * The computation of `generateChallenge`: the target, the two solutions,
   * and the two `genSet` loops with the shuffle of each result.
   */
  method MakeChallenge(level: int, d: ChallengeDraws) returns (c: Option<Challenge>)
    requires DrawsInRange(d)
    ensures c == Generate(level, d)
  {
    var target := TargetFor(level, d.targetDraw);
    var sols := Solutions(target, d.solutionDraw);
    var sol1, sol2 := sols.0, sols.1;
    var range := DistractorRange(target, level);
    var set1 := GenSet(sol1, range, d.fill1);
    var set2 := GenSet(sol2, range, d.fill2);
    if |set1| == SetSize && |set2| == SetSize {
      c := Some(Challenge(target, Shuffle(set1, d.order1), Shuffle(set2, d.order2)));
    } else {
      c := None;
    }
  }

  /** Some value of the first sequence plus some value of the second hits the target. */
  predicate Solvable(c: Challenge)
  {
    exists i, j :: 0 <= i < |c.numbers1| && 0 <= j < |c.numbers2| && c.numbers1[i] + c.numbers2[j] == c.targetSum
  }

  /** What a challenge for `level` guarantees the player. */
  predicate WellFormed(level: int, c: Challenge)
  {
    && MinTarget(level) <= c.targetSum < MaxTarget(level)
    && |c.numbers1| == SetSize && |c.numbers2| == SetSize
    && Distinct(c.numbers1) && Distinct(c.numbers2)
    && InRange(c.numbers1, DistractorRange(c.targetSum, level))
    && InRange(c.numbers2, DistractorRange(c.targetSum, level))
    && Solvable(c)
  }

  /** One shuffled `genSet` result: twelve distinct values in range, among them the seed. */
  lemma {:induction false} SetProperties(sol: int, range: int, draws: seq<real>, order: seq<nat>)
    requires AllDraws(draws) && 0 <= sol < range
    requires |Fill([sol], range, draws)| == SetSize
    ensures GoodSet(Shuffle(Fill([sol], range, draws), order), range, sol)
  {
    var s := Fill([sol], range, draws);
    assert Distinct([sol]) && InRange([sol], range);
    FillKeepsSet([sol], range, draws);
    assert s[..1] == [sol];
    assert sol in s by { assert s[0] == sol; }
    ShufflePreservesDistinct(s, order);
    ShuffleKeepsValues(s, order, range, sol);
  }

  /** Shuffling keeps every value, and so keeps `x` and the bound on the values. */
  lemma ShuffleKeepsValues(s: seq<int>, order: seq<nat>, range: int, x: int)
    requires InRange(s, range) && x in s
    ensures InRange(Shuffle(s, order), range) && x in Shuffle(s, order)
  {
    var r := Shuffle(s, order);
    assert x in multiset(r);
    forall i | 0 <= i < |r| ensures 0 <= r[i] < range {
      assert r[i] in multiset(s);
    }
  }

  /**
   * Whenever generation completes, for any level from 1 up: the target lies
   * in [10 + 2L, 25 + 4L), both sets have twelve distinct values below the
   * distractor bound, and the two solutions make the puzzle solvable.
   */
  lemma GenerateWellFormed(level: int, d: ChallengeDraws)
    requires level >= 1 && DrawsInRange(d)
    requires Generate(level, d).Some?
    ensures WellFormed(level, Generate(level, d).value)
  {
    var target := TargetFor(level, d.targetDraw);
    var sols := Solutions(target, d.solutionDraw);
    AssembleWellFormed(level, target, sols.0, sols.1, d);
  }

  lemma AssembleWellFormed(level: int, target: int, sol1: int, sol2: int, d: ChallengeDraws)
    requires level >= 1 && DrawsInRange(d)
    requires MinTarget(level) <= target < MaxTarget(level)
    requires 0 < sol1 && 0 < sol2 && sol1 + sol2 == target
    requires Assemble(target, sol1, sol2, DistractorRange(target, level), d).Some?
    ensures WellFormed(level, Assemble(target, sol1, sol2, DistractorRange(target, level), d).value)
  {
    var range := DistractorRange(target, level);
    var set1 := Fill([sol1], range, d.fill1);
    var set2 := Fill([sol2], range, d.fill2);
    assert |set1| == SetSize && |set2| == SetSize;
    var n1 := Shuffle(set1, d.order1);
    var n2 := Shuffle(set2, d.order2);
    assert Assemble(target, sol1, sol2, range, d).value == Challenge(target, n1, n2);
    SetProperties(sol1, range, d.fill1, d.order1);
    SetProperties(sol2, range, d.fill2, d.order2);
    WellFormedIntro(level, target, sol1, sol2, n1, n2);
  }

  lemma WellFormedIntro(level: int, target: int, sol1: int, sol2: int, n1: seq<int>, n2: seq<int>)
    requires MinTarget(level) <= target < MaxTarget(level) && sol1 + sol2 == target
    requires GoodSet(n1, DistractorRange(target, level), sol1)
    requires GoodSet(n2, DistractorRange(target, level), sol2)
    ensures WellFormed(level, Challenge(target, n1, n2))
  {
    SolvableByWitness(Challenge(target, n1, n2), sol1, sol2);
  }

  /** The shape of one reel's numbers: twelve distinct values in range, among them `sol`. */
  predicate GoodSet(r: seq<int>, range: int, sol: int)
  {
    |r| == SetSize && Distinct(r) && InRange(r, range) && sol in r
  }

  lemma SolvableByWitness(c: Challenge, x: int, y: int)
    requires x in c.numbers1 && y in c.numbers2 && x + y == c.targetSum
    ensures Solvable(c)
  {
    var i :| 0 <= i < |c.numbers1| && c.numbers1[i] == x;
    var j :| 0 <= j < |c.numbers2| && c.numbers2[j] == y;
  }
}
