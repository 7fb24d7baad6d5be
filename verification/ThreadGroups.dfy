/** The thread-group search of the renderer
    (`ComputeThreadCountPerThreadGroup`, Scripts/PointCloudRenderer.cs).

    Three nested loops count each candidate down from the group limit `M`,
    skip candidates that do not divide the corresponding maximum, and keep the
    first triple whose product is at most `M` with a strictly smaller error
    `M - product`, stopping at once on an error of 0. After each level that is
    not skipped the loop variable is decremented twice (once in the body, once
    by the `for`), so the divisor right below an accepted one is never
    visited: `Level` lists the values each loop actually visits.

    The products are the source's unchecked 32-bit `int` arithmetic
    (`Wrap32`); they are exact as long as `M <= 1290`, which covers the limit
    1024 the renderer passes. */
module ThreadGroups {

  const Int32Max: int := 0x7FFF_FFFF
  const UInt32Modulus: int := 0x1_0000_0000

  /** Two's-complement truncation of an integer to 32 bits. */
  function Wrap32(v: int): (w: int)
    ensures -0x8000_0000 <= w <= Int32Max
    ensures -0x8000_0000 <= v <= Int32Max ==> w == v
  {
    var m := v % UInt32Modulus;
    if m > Int32Max then m - UInt32Modulus else m
  }

  datatype Triple = Triple(x: int, y: int, z: int)

  /** The values one loop visits, from `c` down: a value that does not divide
      `m` is stepped over by one, a divisor is visited and stepped over by two. */
  function Level(m: int, c: int): (l: seq<int>)
    ensures forall i :: 0 <= i < |l| ==> 1 <= l[i] <= c && m % l[i] == 0
    decreases c
  {
    if c <= 0 then []
    else if m % c != 0 then Level(m, c - 1)
    else [c] + Level(m, c - 2)
  }

  /** Candidates (x, y, zs[k]) in the innermost loop's order. */
  function ZRow(x: int, y: int, zs: seq<int>): (row: seq<Triple>)
    ensures |row| == |zs|
    ensures forall k :: 0 <= k < |zs| ==> row[k] == Triple(x, y, zs[k])
  {
    if zs == [] then [] else [Triple(x, y, zs[0])] + ZRow(x, y, zs[1..])
  }

  /** Candidates with first component `x`, in the two inner loops' order. */
  function YBlock(x: int, ys: seq<int>, zs: seq<int>): seq<Triple>
  {
    if ys == [] then [] else ZRow(x, ys[0], zs) + YBlock(x, ys[1..], zs)
  }

  /** All candidates, in the order the three loops visit them. */
  function Cross(xs: seq<int>, ys: seq<int>, zs: seq<int>): seq<Triple>
  {
    if xs == [] then [] else YBlock(xs[0], ys, zs) + Cross(xs[1..], ys, zs)
  }

  /** Every visited candidate is made of visited values of each loop. */
  lemma {:induction false} CrossMembers(xs: seq<int>, ys: seq<int>, zs: seq<int>, t: Triple)
    requires t in Cross(xs, ys, zs)
    ensures t.x in xs && t.y in ys && t.z in zs
  {
    if xs != [] {
      if t in YBlock(xs[0], ys, zs) {
        YBlockMembers(xs[0], ys, zs, t);
      } else {
        CrossMembers(xs[1..], ys, zs, t);
      }
    }
  }

  lemma {:induction false} YBlockMembers(x: int, ys: seq<int>, zs: seq<int>, t: Triple)
    requires t in YBlock(x, ys, zs)
    ensures t.x == x && t.y in ys && t.z in zs
  {
    if ys != [] {
      if t !in ZRow(x, ys[0], zs) {
        YBlockMembers(x, ys[1..], zs, t);
      }
    }
  }

  /** The search state: the best triple so far, its error, and whether the
      search has returned. */
  datatype Search = Search(best: Triple, minError: int, done: bool)

  const Start: Search := Search(Triple(1, 1, 1), Int32Max, false)

  /** The 32-bit product the source compares with the limit. */
  function Product32(t: Triple): int
  {
    Wrap32(t.x * t.y * t.z)
  }

  /** One candidate examined by the innermost loop body. */
  function Step(s: Search, t: Triple, limit: int): Search
  {
    if s.done then s
    else if Product32(t) <= limit then
      var error := Wrap32(limit - Product32(t));
      if error < s.minError then Search(t, error, error == 0) else s
    else s
  }

  /** The search over a sequence of candidates, in order. */
  function Fold(s: Search, ts: seq<Triple>, limit: int): Search
    decreases |ts|
  {
    if ts == [] then s else Fold(Step(s, ts[0], limit), ts[1..], limit)
  }

  lemma {:induction false} FoldAppend(s: Search, a: seq<Triple>, b: seq<Triple>, limit: int)
    ensures Fold(s, a + b, limit) == Fold(Fold(s, a, limit), b, limit)
    decreases |a|
  {
    if a == [] {
      assert a + b == b;
    } else {
      assert (a + b)[0] == a[0] && (a + b)[1..] == a[1..] + b;
      FoldAppend(Step(s, a[0], limit), a[1..], b, limit);
    }
  }

  /** Once the search has returned, later candidates change nothing. */
  lemma {:induction false} FoldDone(s: Search, ts: seq<Triple>, limit: int)
    requires s.done
    ensures Fold(s, ts, limit) == s
    decreases |ts|
  {
    if ts != [] {
      FoldDone(s, ts[1..], limit);
    }
  }

  /** What `ComputeThreadCountPerThreadGroup(maxX, maxY, maxZ, limit)` returns. */
  function ThreadCount(maxX: int, maxY: int, maxZ: int, limit: int): Triple
  {
    Fold(Start, Cross(Level(maxX, limit), Level(maxY, limit), Level(maxZ, limit)), limit).best
  }

  // ---------------------------------------------------------------------------
  // Properties of the search

  ghost predicate Divides(t: Triple, maxX: int, maxY: int, maxZ: int)
  {
    t.x >= 1 && t.y >= 1 && t.z >= 1 && maxX % t.x == 0 && maxY % t.y == 0 && maxZ % t.z == 0
  }

  /** The kept triple is always made of divisors visited by the loops, or is
      the initial (1, 1, 1). */
  lemma {:induction false} FoldKeepsDivisors(s: Search, ts: seq<Triple>, limit: int, maxX: int, maxY: int, maxZ: int)
    requires Divides(s.best, maxX, maxY, maxZ)
    requires forall k :: 0 <= k < |ts| ==> Divides(ts[k], maxX, maxY, maxZ)
    ensures Divides(Fold(s, ts, limit).best, maxX, maxY, maxZ)
    decreases |ts|
  {
    if ts != [] {
      FoldKeepsDivisors(Step(s, ts[0], limit), ts[1..], limit, maxX, maxY, maxZ);
    }
  }

  /** Each returned component is at least 1 and divides its maximum. */
  lemma ThreadCountDivides(maxX: int, maxY: int, maxZ: int, limit: int)
    ensures Divides(ThreadCount(maxX, maxY, maxZ, limit), maxX, maxY, maxZ)
  {
    var xs, ys, zs := Level(maxX, limit), Level(maxY, limit), Level(maxZ, limit);
    var ts := Cross(xs, ys, zs);
    forall k | 0 <= k < |ts|
      ensures Divides(ts[k], maxX, maxY, maxZ)
    {
      CrossMembers(xs, ys, zs, ts[k]);
    }
    FoldKeepsDivisors(Start, ts, limit, maxX, maxY, maxZ);
  }

  /** Candidates whose product cannot overflow: every component in [1, limit]
      with `limit <= 1290`, so the product is below 2^31. */
  ghost predicate Small(t: Triple, limit: int)
  {
    1 <= t.x <= limit && 1 <= t.y <= limit && 1 <= t.z <= limit
  }

  lemma {:induction false} MulMonotone(a: nat, b: nat, c: nat)
    requires a <= b
    ensures a * c <= b * c
  {
    if c > 0 {
      MulMonotone(a, b, c - 1);
      assert a * c == a * (c - 1) + a && b * c == b * (c - 1) + b;
    }
  }

  lemma SmallProductExact(t: Triple, limit: int)
    requires limit <= 1290 && Small(t, limit)
    ensures 1 <= t.x * t.y * t.z < Int32Max
    ensures Product32(t) == t.x * t.y * t.z
  {
    MulMonotone(t.x, 1290, t.y);
    MulMonotone(t.y, 1290, 1290);
    assert t.x * t.y <= 1290 * 1290;
    MulMonotone(t.x * t.y, 1290 * 1290, t.z);
    MulMonotone(t.z, 1290, 1290 * 1290);
    MulMonotone(1, t.x, t.y);
    MulMonotone(1, t.x * t.y, t.z);
  }

  /** The number of threads a triple asks for. */
  function Volume(t: Triple): int
  {
    t.x * t.y * t.z
  }

  /** The product is at most the limit; its error is `limit - Volume(t)`. */
  ghost predicate Fits(t: Triple, limit: int)
  {
    Volume(t) <= limit
  }

  /** `ts[i]` is the first of the candidates that fit with the largest volume,
      that is with the smallest error. */
  ghost predicate FirstBest(ts: seq<Triple>, i: int, limit: int)
  {
    0 <= i < |ts| && Fits(ts[i], limit) &&
    (forall k :: 0 <= k < |ts| && Fits(ts[k], limit) ==> Volume(ts[k]) <= Volume(ts[i])) &&
    (forall k :: 0 <= k < i && Fits(ts[k], limit) ==> Volume(ts[k]) < Volume(ts[i]))
  }

  /** The search returns the first candidate, in visiting order, with the
      smallest error among those that fit, having returned early exactly when
      that error is 0; when no candidate fits it keeps (1, 1, 1). The index of
      the returned candidate is `i`, or -1 when none fits. */
  lemma {:induction false} FoldFindsFirstBest(ts: seq<Triple>, limit: int) returns (i: int)
    requires 1 <= limit <= 1290
    requires forall k :: 0 <= k < |ts| ==> Small(ts[k], limit)
    ensures -1 <= i < |ts|
    ensures i < 0 ==> (forall k :: 0 <= k < |ts| ==> !Fits(ts[k], limit)) && Fold(Start, ts, limit) == Start
    ensures i >= 0 ==>
      FirstBest(ts, i, limit) &&
      Fold(Start, ts, limit) == Search(ts[i], limit - Volume(ts[i]), Volume(ts[i]) == limit)
    decreases |ts|
  {
    if ts == [] {
      return -1;
    }
    var init, t := ts[..|ts| - 1], ts[|ts| - 1];
    assert ts == init + [t];
    assert forall k :: 0 <= k < |init| ==> ts[k] == init[k];
    FoldAppend(Start, init, [t], limit);
    var j := FoldFindsFirstBest(init, limit);
    var s := Fold(Start, init, limit);
    assert Fold(Start, ts, limit) == Step(s, t, limit);
    SmallProductExact(t, limit);
    if j < 0 {
      i := if Fits(t, limit) then |ts| - 1 else -1;
    } else {
      SmallProductExact(init[j], limit);
      if Fits(t, limit) && Volume(t) > Volume(init[j]) {
        i := |ts| - 1;
      } else {
        i := j;
      }
    }
  }

  /** The kept triple keeps fitting the limit. */
  lemma {:induction false} FoldKeepsFit(s: Search, ts: seq<Triple>, limit: int)
    requires 1 <= limit <= 1290
    requires Small(s.best, limit) && Fits(s.best, limit)
    requires forall k :: 0 <= k < |ts| ==> Small(ts[k], limit)
    ensures Small(Fold(s, ts, limit).best, limit) && Fits(Fold(s, ts, limit).best, limit)
    decreases |ts|
  {
    if ts != [] {
      SmallProductExact(ts[0], limit);
      FoldKeepsFit(Step(s, ts[0], limit), ts[1..], limit);
    }
  }

  /** With a limit of at least 1, the returned product never exceeds it. */
  lemma ThreadCountWithinLimit(maxX: int, maxY: int, maxZ: int, limit: int)
    requires 1 <= limit <= 1290
    ensures var t := ThreadCount(maxX, maxY, maxZ, limit); 1 <= t.x * t.y * t.z <= limit
  {
    var xs, ys, zs := Level(maxX, limit), Level(maxY, limit), Level(maxZ, limit);
    var ts := Cross(xs, ys, zs);
    forall k | 0 <= k < |ts|
      ensures Small(ts[k], limit)
    {
      CrossMembers(xs, ys, zs, ts[k]);
    }
    FoldKeepsFit(Start, ts, limit);
    SmallProductExact(Fold(Start, ts, limit).best, limit);
  }

  /** A maximum of 1 forces a component of 1: the fill kernel's z. */
  lemma UnitMaximumGivesUnitComponent(maxX: int, maxY: int, limit: int)
    ensures ThreadCount(maxX, maxY, 1, limit).z == 1
  {
    ThreadCountDivides(maxX, maxY, 1, limit);
  }

  lemma ExampleLevels()
    ensures Level(6, 8) == [6, 3, 1] && Level(4, 8) == [4, 2] && Level(1, 8) == [1]
  {
    assert Level(6, 1) == [1];
    assert Level(6, 3) == [3, 1];
    assert Level(6, 6) == [6, 3, 1];
    assert Level(4, 2) == [2];
    assert Level(4, 4) == [4, 2];
    assert Level(1, 1) == [1];
    assert Level(1, 3) == [1];
    assert Level(1, 5) == [1];
    assert Level(1, 7) == [1];
  }

  lemma ExampleCandidates()
    ensures Cross([6, 3, 1], [4, 2], [1]) ==
      [Triple(6, 4, 1), Triple(6, 2, 1), Triple(3, 4, 1), Triple(3, 2, 1), Triple(1, 4, 1), Triple(1, 2, 1)]
  {
    assert YBlock(6, [4, 2], [1]) == [Triple(6, 4, 1), Triple(6, 2, 1)];
    assert YBlock(3, [4, 2], [1]) == [Triple(3, 4, 1), Triple(3, 2, 1)];
    assert YBlock(1, [4, 2], [1]) == [Triple(1, 4, 1), Triple(1, 2, 1)];
  }

  lemma ExampleSteps()
    ensures Step(Start, Triple(6, 4, 1), 8) == Start
    ensures Step(Start, Triple(6, 2, 1), 8) == Start
    ensures Step(Start, Triple(3, 4, 1), 8) == Start
    ensures Step(Start, Triple(3, 2, 1), 8) == Search(Triple(3, 2, 1), 2, false)
    ensures Step(Search(Triple(3, 2, 1), 2, false), Triple(1, 4, 1), 8) == Search(Triple(3, 2, 1), 2, false)
    ensures Step(Search(Triple(3, 2, 1), 2, false), Triple(1, 2, 1), 8) == Search(Triple(3, 2, 1), 2, false)
  {
    assert Product32(Triple(6, 4, 1)) == 24;
    assert Product32(Triple(6, 2, 1)) == 12;
    assert Product32(Triple(3, 4, 1)) == 12;
    assert Product32(Triple(3, 2, 1)) == 6;
    assert Product32(Triple(1, 4, 1)) == 4;
    assert Product32(Triple(1, 2, 1)) == 2;
  }

  /** The skipped divisors matter: with the limit 8 and maxima (6, 4, 1) the
      search never visits x = 2 (it steps from 3 to 1) and returns (3, 2, 1),
      although (2, 4, 1) divides the maxima and fills the group exactly. */
  lemma SkippedDivisorExample()
    ensures ThreadCount(6, 4, 1, 8) == Triple(3, 2, 1)
    ensures Divides(Triple(2, 4, 1), 6, 4, 1) && 2 * 4 * 1 == 8
  {
    ExampleLevels();
    ExampleCandidates();
    ExampleSteps();
    var found := Search(Triple(3, 2, 1), 2, false);
    var ts := [Triple(6, 4, 1), Triple(6, 2, 1), Triple(3, 4, 1), Triple(3, 2, 1), Triple(1, 4, 1), Triple(1, 2, 1)];
    FoldAppend(Start, ts[..4], ts[4..], 8);
    assert ts[..4] + ts[4..] == ts;
    assert Fold(Start, ts[..4], 8) == found;
    assert Fold(found, ts[4..], 8) == found;
  }

  // ---------------------------------------------------------------------------
  // The source's loops

  /** A non-divisor is passed over. */
  lemma LevelSkip(m: int, c: int)
    requires c > 0 && m % c != 0
    ensures Level(m, c) == Level(m, c - 1)
  {
  }

  /** Visiting a divisor `c` in the innermost loop examines one candidate and
      steps on to `c - 2`. */
  lemma VisitZ(s: Search, x: int, y: int, maxZ: int, c: int, limit: int)
    requires c > 0 && maxZ % c == 0
    ensures Fold(s, ZRow(x, y, Level(maxZ, c)), limit) ==
      Fold(Step(s, Triple(x, y, c), limit), ZRow(x, y, Level(maxZ, c - 2)), limit)
  {
    assert ZRow(x, y, Level(maxZ, c)) == [Triple(x, y, c)] + ZRow(x, y, Level(maxZ, c - 2));
  }

  /** Visiting a divisor `c` in the middle loop runs the innermost loop over
      `zs`, then steps on to `c - 2`. */
  lemma VisitY(s: Search, x: int, maxY: int, c: int, zs: seq<int>, limit: int)
    requires c > 0 && maxY % c == 0
    ensures Fold(s, YBlock(x, Level(maxY, c), zs), limit) ==
      Fold(Fold(s, ZRow(x, c, zs), limit), YBlock(x, Level(maxY, c - 2), zs), limit)
  {
    assert Level(maxY, c) == [c] + Level(maxY, c - 2);
    assert YBlock(x, Level(maxY, c), zs) == ZRow(x, c, zs) + YBlock(x, Level(maxY, c - 2), zs);
    FoldAppend(s, ZRow(x, c, zs), YBlock(x, Level(maxY, c - 2), zs), limit);
  }

  /** Visiting a divisor `c` in the outer loop runs the two inner loops, then
      steps on to `c - 2`. */
  lemma VisitX(s: Search, maxX: int, c: int, ys: seq<int>, zs: seq<int>, limit: int)
    requires c > 0 && maxX % c == 0
    ensures Fold(s, Cross(Level(maxX, c), ys, zs), limit) ==
      Fold(Fold(s, YBlock(c, ys, zs), limit), Cross(Level(maxX, c - 2), ys, zs), limit)
  {
    assert Level(maxX, c) == [c] + Level(maxX, c - 2);
    assert Cross(Level(maxX, c), ys, zs) == YBlock(c, ys, zs) + Cross(Level(maxX, c - 2), ys, zs);
    FoldAppend(s, YBlock(c, ys, zs), Cross(Level(maxX, c - 2), ys, zs), limit);
  }

  /** The innermost loop of `ComputeThreadCountPerThreadGroup` for the
      candidates `candidateX` and `candidateY`: updates the best triple and its
      error, and says whether the search returns. */
  method ScanZ(x: int, y: int, z: int, minError: int, candidateX: int, candidateY: int, maxZ: int, limit: int)
    returns (x': int, y': int, z': int, minError': int, returned: bool)
    ensures Fold(Search(Triple(x, y, z), minError, false), ZRow(candidateX, candidateY, Level(maxZ, limit)), limit) ==
      Search(Triple(x', y', z'), minError', returned)
  {
    x', y', z', minError' := x, y, z, minError;
    var candidateZ := limit;
    while candidateZ > 0
      invariant Fold(Search(Triple(x', y', z'), minError', false), ZRow(candidateX, candidateY, Level(maxZ, candidateZ)), limit) ==
        Fold(Search(Triple(x, y, z), minError, false), ZRow(candidateX, candidateY, Level(maxZ, limit)), limit)
      decreases candidateZ
    {
      if maxZ % candidateZ == 0 {
        VisitZ(Search(Triple(x', y', z'), minError', false), candidateX, candidateY, maxZ, candidateZ, limit);
        var product := Product32(Triple(candidateX, candidateY, candidateZ));
        if product <= limit {
          var error := Wrap32(limit - product);
          if error < minError' {
            x', y', z' := candidateX, candidateY, candidateZ;
            minError' := error;
            if error == 0 {
              FoldDone(Search(Triple(x', y', z'), minError', true), ZRow(candidateX, candidateY, Level(maxZ, candidateZ - 2)), limit);
              return x', y', z', minError', true;
            }
          }
        }
        candidateZ := candidateZ - 1;
      }
      candidateZ := candidateZ - 1;
    }
    returned := false;
  }

  /** The middle loop's body for a divisor `candidateY`: the innermost loop,
      then on to `candidateY - 2` unless the search returned. */
  method VisitCandidateY(x: int, y: int, z: int, minError: int, candidateX: int, candidateY: int, maxY: int, maxZ: int, limit: int)
    returns (x': int, y': int, z': int, minError': int, returned: bool)
    requires candidateY > 0 && maxY % candidateY == 0
    ensures var zs := Level(maxZ, limit);
      Fold(Search(Triple(x, y, z), minError, false), YBlock(candidateX, Level(maxY, candidateY), zs), limit) ==
      Fold(Search(Triple(x', y', z'), minError', returned), YBlock(candidateX, Level(maxY, candidateY - 2), zs), limit)
  {
    ghost var zs := Level(maxZ, limit);
    ghost var before := Search(Triple(x, y, z), minError, false);
    VisitY(before, candidateX, maxY, candidateY, zs, limit);
    x', y', z', minError', returned := ScanZ(x, y, z, minError, candidateX, candidateY, maxZ, limit);
  }

  /** The middle loop of `ComputeThreadCountPerThreadGroup` for the candidate
      `candidateX`, running the innermost loop for each divisor it visits. */
  method ScanY(x: int, y: int, z: int, minError: int, candidateX: int, maxY: int, maxZ: int, limit: int)
    returns (x': int, y': int, z': int, minError': int, returned: bool)
    ensures Fold(Search(Triple(x, y, z), minError, false), YBlock(candidateX, Level(maxY, limit), Level(maxZ, limit)), limit) ==
      Search(Triple(x', y', z'), minError', returned)
  {
    ghost var zs := Level(maxZ, limit);
    ghost var result := Fold(Search(Triple(x, y, z), minError, false), YBlock(candidateX, Level(maxY, limit), zs), limit);
    x', y', z', minError' := x, y, z, minError;
    var candidateY := limit;
    while candidateY > 0
      invariant Fold(Search(Triple(x', y', z'), minError', false), YBlock(candidateX, Level(maxY, candidateY), zs), limit) == result
      decreases candidateY
    {
      if maxY % candidateY == 0 {
        x', y', z', minError', returned := VisitCandidateY(x', y', z', minError', candidateX, candidateY, maxY, maxZ, limit);
        if returned {
          FoldDone(Search(Triple(x', y', z'), minError', true), YBlock(candidateX, Level(maxY, candidateY - 2), zs), limit);
          return;
        }
        candidateY := candidateY - 1;
      } else {
        LevelSkip(maxY, candidateY);
      }
      candidateY := candidateY - 1;
    }
    returned := false;
  }

  /** The outer loop's body for a divisor `candidateX`: the two inner loops,
      then on to `candidateX - 2` unless the search returned. */
  method VisitCandidateX(x: int, y: int, z: int, minError: int, candidateX: int, maxX: int, maxY: int, maxZ: int, limit: int)
    returns (x': int, y': int, z': int, minError': int, returned: bool)
    requires candidateX > 0 && maxX % candidateX == 0
    ensures var ys, zs := Level(maxY, limit), Level(maxZ, limit);
      Fold(Search(Triple(x, y, z), minError, false), Cross(Level(maxX, candidateX), ys, zs), limit) ==
      Fold(Search(Triple(x', y', z'), minError', returned), Cross(Level(maxX, candidateX - 2), ys, zs), limit)
  {
    ghost var ys, zs := Level(maxY, limit), Level(maxZ, limit);
    ghost var before := Search(Triple(x, y, z), minError, false);
    VisitX(before, maxX, candidateX, ys, zs, limit);
    x', y', z', minError', returned := ScanY(x, y, z, minError, candidateX, maxY, maxZ, limit);
  }

  /** `ComputeThreadCountPerThreadGroup`: the outer loop, running the two inner
      loops for each divisor it visits. A `continue` on a non-divisor only skips
      to the loop's own decrement; a divisor's body ends with one more. */
  method ComputeThreadCountPerThreadGroup(maxX: int, maxY: int, maxZ: int, limit: int) returns (t: Triple)
    ensures t == ThreadCount(maxX, maxY, maxZ, limit)
  {
    ghost var ys, zs := Level(maxY, limit), Level(maxZ, limit);
    ghost var result := Fold(Start, Cross(Level(maxX, limit), ys, zs), limit);

    var x, y, z := 1, 1, 1;
    var minError := Int32Max;

    var candidateX := limit;
    while candidateX > 0
      invariant Fold(Search(Triple(x, y, z), minError, false), Cross(Level(maxX, candidateX), ys, zs), limit) == result
      decreases candidateX
    {
      if maxX % candidateX == 0 {
        var returned;
        x, y, z, minError, returned := VisitCandidateX(x, y, z, minError, candidateX, maxX, maxY, maxZ, limit);
        if returned {
          FoldDone(Search(Triple(x, y, z), minError, true), Cross(Level(maxX, candidateX - 2), ys, zs), limit);
          return Triple(x, y, z);
        }
        candidateX := candidateX - 1;
      } else {
        LevelSkip(maxX, candidateX);
      }
      candidateX := candidateX - 1;
    }
    return Triple(x, y, z);
  }
}
