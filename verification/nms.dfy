/** Non-maximum suppression and box area of the face-detection plugins' utils.py (the two
    plugin directories hold identical copies). Boxes are integer corner coordinates; the
    overlap ratio is a `real`. */
module Nms {

  datatype Box = Box(x1: int, y1: int, x2: int, y2: int)

  /** `box_area`: width times height without the +1 pixel convention. */
  function BoxArea(b: Box): int
  {
    (b.x2 - b.x1) * (b.y2 - b.y1)
  }

  /** The area NMS divides by: inclusive pixel counts, (x2 - x1 + 1)(y2 - y1 + 1). */
  function PixelArea(b: Box): int
  {
    (b.x2 - b.x1 + 1) * (b.y2 - b.y1 + 1)
  }

  /** A well-formed box has a pixel area above its `box_area`, so the overlap ratio never
      divides by zero for it; it overlaps itself with ratio 1, so a duplicate detection is
      deleted at every threshold below 1 and kept at 1 and above. */
  lemma SelfOverlap(b: Box, threshold: real)
    requires b.x1 <= b.x2 && b.y1 <= b.y2
    ensures 0 <= BoxArea(b) < PixelArea(b)
    ensures Intersection(b, b) == PixelArea(b)
    ensures Suppresses(b, b, threshold) <==> threshold < 1.0
  {
    var w, h := b.x2 - b.x1, b.y2 - b.y1;
    assert PixelArea(b) == w * h + w + h + 1 by {
      assert (w + 1) * (h + 1) == w * (h + 1) + (h + 1);
      assert w * (h + 1) == w * h + w;
    }
    assert 0 <= w * h;
    var area := PixelArea(b) as real;
    assert area > 0.0;
    assert area / area == 1.0;
  }

  function Max(a: int, b: int): int
  {
    if a >= b then a else b
  }

  function Min(a: int, b: int): int
  {
    if a <= b then a else b
  }

  /** Pixels shared by two boxes: each side of the intersection is clamped at 0. */
  function Intersection(a: Box, b: Box): (r: int)
    ensures r >= 0
  {
    var w := Max(0, Min(a.x2, b.x2) - Max(a.x1, b.x1) + 1);
    var h := Max(0, Min(a.y2, b.y2) - Max(a.y1, b.y1) + 1);
    w * h
  }

  /** The intersection does not depend on which box is picked. */
  lemma IntersectionSymmetric(a: Box, b: Box)
    ensures Intersection(a, b) == Intersection(b, a)
  {
  }

  /** Whether picking `kept` deletes `other`: intersection over the pixel area of `other`
      strictly above the threshold. A zero area divides as IEEE floats do: a positive
      intersection gives +inf (deleted), a zero one gives NaN (kept). */
  predicate Suppresses(kept: Box, other: Box, threshold: real)
  {
    var area := PixelArea(other);
    var inter := Intersection(kept, other);
    if area == 0 then inter > 0 else (inter as real) / (area as real) > threshold
  }

  /** An overlap equal to the threshold never suppresses. */
  lemma OverlapAtThresholdSurvives(kept: Box, other: Box, threshold: real)
    requires PixelArea(other) != 0
    requires (Intersection(kept, other) as real) / (PixelArea(other) as real) == threshold
    ensures !Suppresses(kept, other, threshold)
  {
  }

  predicate ValidIndices(boxes: seq<Box>, s: seq<nat>)
  {
    forall k :: 0 <= k < |s| ==> s[k] < |boxes|
  }

  predicate Distinct(s: seq<nat>)
  {
    forall a, b :: 0 <= a < b < |s| ==> s[a] != s[b]
  }

  predicate SortedByY2(boxes: seq<Box>, s: seq<nat>)
    requires ValidIndices(boxes, s)
  {
    forall a, b :: 0 <= a < b < |s| ==> boxes[s[a]].y2 <= boxes[s[b]].y2
  }

  /** What `np.argsort(y2)` returns: every row index once, ascending by y2 (the order of
      ties is not specified). */
  predicate IsArgsortByY2(boxes: seq<Box>, order: seq<nat>)
  {
    && |order| == |boxes|
    && ValidIndices(boxes, order)
    && Distinct(order)
    && SortedByY2(boxes, order)
    && (forall j :: 0 <= j < |boxes| ==> j in order)
  }

  /** The first position of `x` in `order`; `|order|` when `x` is absent. */
  function Position(order: seq<nat>, x: nat): (r: nat)
    ensures r <= |order|
    ensures r < |order| <==> x in order
    ensures r < |order| ==> order[r] == x
  {
    if order == [] then 0
    else if order[0] == x then 0
    else
      assert forall y :: y in order[1..] ==> y in order;
      assert x in order ==> x in order[1..];
      1 + Position(order[1..], x)
  }

  /** In a list without repeats every element is found at its own position. */
  lemma PositionsOfDistinct(order: seq<nat>)
    requires Distinct(order)
    ensures forall k :: 0 <= k < |order| ==> Position(order, order[k]) == k
  {
    forall k | 0 <= k < |order|
      ensures Position(order, order[k]) == k
    {
    }
  }

  /** `x` comes before `y` in `order`. */
  predicate Before(order: seq<nat>, x: nat, y: nat)
  {
    Position(order, x) < Position(order, y)
  }

  /** The indices of `s` appear in `s` in the order they have in `order`. */
  predicate InOrder(order: seq<nat>, s: seq<nat>)
  {
    forall k1, k2 :: 0 <= k1 < k2 < |s| ==> Before(order, s[k1], s[k2])
  }

  /** The deletion test of the loop: `exceeds(picked, other)` says whether picking the first
      box deletes the second. The loop is proved for any such test. */
  type OverlapTest = (Box, Box) -> bool

  /** The index list after `np.delete(idxs, where(overlap > threshold))` on `idxs[:last]`. */
  function Survivors(boxes: seq<Box>, i: nat, rest: seq<nat>, exceeds: OverlapTest): (r: seq<nat>)
    requires i < |boxes| && ValidIndices(boxes, rest)
    ensures ValidIndices(boxes, r) && |r| <= |rest|
    ensures forall j :: j in r <==> j in rest && !exceeds(boxes[i], boxes[j])
  {
    if rest == [] then []
    else
      var tail := Survivors(boxes, i, rest[1..], exceeds);
      assert forall j :: j in rest[1..] ==> j in rest;
      if exceeds(boxes[i], boxes[rest[0]]) then tail else [rest[0]] + tail
  }

  /** Deleting entries keeps a list without repeats. */
  lemma {:induction false} SurvivorsDistinct(boxes: seq<Box>, i: nat, rest: seq<nat>, exceeds: OverlapTest)
    requires i < |boxes| && ValidIndices(boxes, rest) && Distinct(rest)
    ensures Distinct(Survivors(boxes, i, rest, exceeds))
    decreases |rest|
  {
    if rest != [] {
      assert Distinct(rest[1..]) by {
        forall a, b | 0 <= a < b < |rest[1..]|
          ensures rest[1..][a] != rest[1..][b]
        {
          assert rest[1..][a] == rest[a + 1] && rest[1..][b] == rest[b + 1];
        }
      }
      SurvivorsDistinct(boxes, i, rest[1..], exceeds);
      assert rest[0] !in rest[1..] by {
        forall k | 0 <= k < |rest[1..]|
          ensures rest[1..][k] != rest[0]
        {
          assert rest[1..][k] == rest[k + 1];
        }
      }
    }
  }

  /** Deleting entries keeps a list ascending by y2. */
  lemma {:induction false} SurvivorsSorted(boxes: seq<Box>, i: nat, rest: seq<nat>, exceeds: OverlapTest)
    requires i < |boxes| && ValidIndices(boxes, rest) && SortedByY2(boxes, rest)
    ensures SortedByY2(boxes, Survivors(boxes, i, rest, exceeds))
    decreases |rest|
  {
    if rest != [] {
      var t := rest[1..];
      SortedTail(boxes, rest);
      SurvivorsSorted(boxes, i, t, exceeds);
      var tail := Survivors(boxes, i, t, exceeds);
      forall k | 0 <= k < |tail|
        ensures boxes[rest[0]].y2 <= boxes[tail[k]].y2
      {
        assert tail[k] in t;
        var m :| 0 <= m < |t| && t[m] == tail[k];
        assert t[m] == rest[m + 1];
      }
      SortedCons(boxes, rest[0], tail);
    }
  }

  lemma SortedTail(boxes: seq<Box>, s: seq<nat>)
    requires s != [] && ValidIndices(boxes, s) && SortedByY2(boxes, s)
    ensures ValidIndices(boxes, s[1..]) && SortedByY2(boxes, s[1..])
  {
    var t := s[1..];
    forall a, b | 0 <= a < b < |t|
      ensures boxes[t[a]].y2 <= boxes[t[b]].y2
    {
      assert t[a] == s[a + 1] && t[b] == s[b + 1];
    }
  }

  lemma SortedCons(boxes: seq<Box>, h: nat, t: seq<nat>)
    requires h < |boxes| && ValidIndices(boxes, t) && SortedByY2(boxes, t)
    requires forall k :: 0 <= k < |t| ==> boxes[h].y2 <= boxes[t[k]].y2
    ensures ValidIndices(boxes, [h] + t) && SortedByY2(boxes, [h] + t)
  {
    var r := [h] + t;
    forall a, b | 0 <= a < b < |r|
      ensures boxes[r[a]].y2 <= boxes[r[b]].y2
    {
      assert r[b] == t[b - 1];
      if a > 0 {
        assert r[a] == t[a - 1];
      }
    }
  }

  /** Deleting entries keeps a list in argsort order. */
  lemma {:induction false} SurvivorsInOrder(boxes: seq<Box>, i: nat, rest: seq<nat>, exceeds: OverlapTest, order: seq<nat>)
    requires i < |boxes| && ValidIndices(boxes, rest) && InOrder(order, rest)
    ensures InOrder(order, Survivors(boxes, i, rest, exceeds))
    decreases |rest|
  {
    if rest != [] {
      var t := rest[1..];
      assert InOrder(order, t) by {
        forall k1, k2 | 0 <= k1 < k2 < |t|
          ensures Position(order, t[k1]) < Position(order, t[k2])
        {
          assert t[k1] == rest[k1 + 1] && t[k2] == rest[k2 + 1];
        }
      }
      assert ValidIndices(boxes, t);
      SurvivorsInOrder(boxes, i, t, exceeds, order);
      var tail := Survivors(boxes, i, t, exceeds);
      forall k | 0 <= k < |tail|
        ensures Position(order, rest[0]) < Position(order, tail[k])
      {
        assert tail[k] in t;
        var m :| 0 <= m < |t| && t[m] == tail[k];
        assert t[m] == rest[m + 1];
      }
      var r := Survivors(boxes, i, rest, exceeds);
      if r != tail {
        assert r == [rest[0]] + tail;
        forall k1, k2 | 0 <= k1 < k2 < |r|
          ensures Position(order, r[k1]) < Position(order, r[k2])
        {
          assert r[k2] == tail[k2 - 1];
          if k1 > 0 {
            assert r[k1] == tail[k1 - 1];
          }
        }
      }
    }
  }

  /** The result of `non_max_suppression`: `[]` for no boxes, else `(boxes[pick], pick)`. */
  datatype Suppression = NoBoxes | Picked(boxes: seq<Box>, pick: seq<nat>)

  /** `non_max_suppression(boxes, threshold)`, given the argsort of the boxes by y2: the loop
      runs with the overlap test of `Suppresses` at the given threshold. */
  method NonMaxSuppression(boxes: seq<Box>, threshold: real, order: seq<nat>) returns (r: Suppression)
    requires IsArgsortByY2(boxes, order)
    ensures r.NoBoxes? <==> |boxes| == 0
    ensures r.Picked? ==> |r.pick| > 0 && ValidIndices(boxes, r.pick) && Distinct(r.pick)
    ensures r.Picked? ==> |r.boxes| == |r.pick| && forall k :: 0 <= k < |r.pick| ==> r.boxes[k] == boxes[r.pick[k]]
    // picks come out by non-increasing y2, the first one with the largest y2 of all
    ensures r.Picked? ==> forall a, b :: 0 <= a < b < |r.pick| ==> boxes[r.pick[a]].y2 >= boxes[r.pick[b]].y2
    ensures r.Picked? ==> forall j :: 0 <= j < |boxes| ==> boxes[r.pick[0]].y2 >= boxes[j].y2
    // no pick is suppressed by an earlier pick ...
    ensures r.Picked? ==> forall a, b :: 0 <= a < b < |r.pick| ==> !Suppresses(boxes[r.pick[a]], boxes[r.pick[b]], threshold)
    // ... and every box left out is suppressed by a pick made while it was still listed,
    // one after it in the argsort; picks come out in reverse argsort order
    ensures r.Picked? ==> forall j :: 0 <= j < |boxes| && j !in r.pick ==>
      exists a :: 0 <= a < |r.pick| && Position(order, j) < Position(order, r.pick[a])
        && Suppresses(boxes[r.pick[a]], boxes[j], threshold)
    ensures r.Picked? ==> forall a, b :: 0 <= a < b < |r.pick| ==> Position(order, r.pick[b]) < Position(order, r.pick[a])
  {
    if |boxes| == 0 {
      return NoBoxes;
    }
    var pick := PickLoop(boxes, order, (kept, other) => Suppresses(kept, other, threshold));
    r := Picked(seq(|pick|, k requires 0 <= k < |pick| => boxes[pick[k]]), pick);
  }

  /** The `while len(idxs) > 0` loop of `non_max_suppression`: pick the last listed index,
      then drop it and every listed index its box deletes. */
  method PickLoop(boxes: seq<Box>, order: seq<nat>, exceeds: OverlapTest) returns (pick: seq<nat>)
    requires IsArgsortByY2(boxes, order) && |boxes| > 0
    ensures |pick| > 0 && ValidIndices(boxes, pick) && Distinct(pick)
    ensures forall a, b :: 0 <= a < b < |pick| ==> boxes[pick[a]].y2 >= boxes[pick[b]].y2
    ensures forall j :: 0 <= j < |boxes| ==> boxes[pick[0]].y2 >= boxes[j].y2
    ensures forall a, b :: 0 <= a < b < |pick| ==> !exceeds(boxes[pick[a]], boxes[pick[b]])
    ensures forall j :: 0 <= j < |boxes| && j !in pick ==>
      exists a :: 0 <= a < |pick| && Position(order, j) < Position(order, pick[a]) && exceeds(boxes[pick[a]], boxes[j])
    ensures forall a, b :: 0 <= a < b < |pick| ==> Position(order, pick[b]) < Position(order, pick[a])
  {
    pick := [];
    var idxs := order;
    assert Progress(boxes, exceeds, order, pick, idxs) by {
      PositionsOfDistinct(order);
    }
    while |idxs| > 0
      invariant Progress(boxes, exceeds, order, pick, idxs)
      decreases |idxs|
    {
      var last := |idxs| - 1;
      var i := idxs[last];
      var rest := Survivors(boxes, i, idxs[..last], exceeds);
      Step(boxes, exceeds, order, pick, idxs, i, rest);
      pick := pick + [i];
      idxs := rest;
    }
    Finished(boxes, exceeds, order, pick);
  }

  /** The loop invariant: what holds of the picks and the listed indices after every pass. */
  predicate Progress(boxes: seq<Box>, exceeds: OverlapTest, order: seq<nat>, pick: seq<nat>, idxs: seq<nat>)
  {
    && Listing(boxes, pick, idxs)
    && Kept(boxes, exceeds, pick, idxs)
    && Ranked(order, pick, idxs)
    && Covered(boxes, exceeds, order, pick, idxs)
  }

  /** One pass of the loop keeps the invariant. */
  lemma Step(boxes: seq<Box>, exceeds: OverlapTest, order: seq<nat>, pick: seq<nat>, idxs: seq<nat>, i: nat, rest: seq<nat>)
    requires |idxs| > 0 && Progress(boxes, exceeds, order, pick, idxs) && i == idxs[|idxs| - 1]
    requires i < |boxes| && ValidIndices(boxes, idxs[..|idxs| - 1])
    requires rest == Survivors(boxes, i, idxs[..|idxs| - 1], exceeds)
    ensures Progress(boxes, exceeds, order, pick + [i], rest)
  {
    StepListing(boxes, exceeds, pick, idxs);
    StepKept(boxes, exceeds, pick, idxs);
    StepRanked(boxes, exceeds, order, pick, idxs);
    StepCovers(boxes, exceeds, order, pick, idxs);
  }

  /** With nothing left listed, the invariant is what the loop promises. */
  lemma Finished(boxes: seq<Box>, exceeds: OverlapTest, order: seq<nat>, pick: seq<nat>)
    requires IsArgsortByY2(boxes, order) && |boxes| > 0 && Progress(boxes, exceeds, order, pick, [])
    ensures |pick| > 0 && ValidIndices(boxes, pick) && Distinct(pick)
    ensures forall j :: 0 <= j < |boxes| ==> boxes[pick[0]].y2 >= boxes[j].y2
    ensures forall a, b :: 0 <= a < b < |pick| ==> boxes[pick[a]].y2 >= boxes[pick[b]].y2
    ensures forall a, b :: 0 <= a < b < |pick| ==> !exceeds(boxes[pick[a]], boxes[pick[b]])
    ensures forall j :: 0 <= j < |boxes| && j !in pick ==>
      exists a :: 0 <= a < |pick| && Position(order, j) < Position(order, pick[a]) && exceeds(boxes[pick[a]], boxes[j])
    ensures forall a, b :: 0 <= a < b < |pick| ==> Position(order, pick[b]) < Position(order, pick[a])
  {
    forall j | 0 <= j < |boxes| && j !in pick
      ensures exists a :: 0 <= a < |pick| && Position(order, j) < Position(order, pick[a]) && exceeds(boxes[pick[a]], boxes[j])
    {
      assert Accounted(boxes, exceeds, order, pick, [], j);
    }
    forall a, b | 0 <= a < b < |pick|
      ensures boxes[pick[a]].y2 >= boxes[pick[b]].y2
    {
      RankedY2(boxes, order, pick[b], pick[a]);
    }
    assert Accounted(boxes, exceeds, order, pick, [], 0);
    forall j | 0 <= j < |boxes|
      ensures boxes[pick[0]].y2 >= boxes[j].y2
    {
      assert Accounted(boxes, exceeds, order, pick, [], j);
      if j in pick {
        var a :| 0 <= a < |pick| && pick[a] == j;
        if a > 0 {
          assert Before(order, pick[a], pick[0]);
          RankedY2(boxes, order, j, pick[0]);
        }
      } else {
        var a :| 0 <= a < |pick| && Position(order, j) < Position(order, pick[a]) && exceeds(boxes[pick[a]], boxes[j]);
        if a > 0 {
          assert Before(order, pick[a], pick[0]);
        }
        RankedY2(boxes, order, j, pick[0]);
      }
    }
  }

  /** A box later in the argsort has a y2 at least as large. */
  lemma RankedY2(boxes: seq<Box>, order: seq<nat>, x: nat, y: nat)
    requires IsArgsortByY2(boxes, order) && x < |boxes| && y < |boxes|
    requires Position(order, x) < Position(order, y)
    ensures boxes[x].y2 <= boxes[y].y2
  {
    assert x in order && y in order;
  }

  /** Picked and listed indices are valid, each list without repeats and the two disjoint;
      the listed ones stay ascending by y2. */
  predicate Listing(boxes: seq<Box>, pick: seq<nat>, idxs: seq<nat>)
  {
    && ValidIndices(boxes, idxs) && Distinct(idxs) && SortedByY2(boxes, idxs)
    && ValidIndices(boxes, pick) && Distinct(pick)
    && (forall a :: 0 <= a < |pick| ==> pick[a] !in idxs)
  }

  /** No pick deletes a later pick or a box still listed. */
  predicate Kept(boxes: seq<Box>, exceeds: OverlapTest, pick: seq<nat>, idxs: seq<nat>)
    requires ValidIndices(boxes, pick) && ValidIndices(boxes, idxs)
  {
    && (forall a, b :: 0 <= a < b < |pick| ==> !exceeds(boxes[pick[a]], boxes[pick[b]]))
    && (forall a, k :: 0 <= a < |pick| && 0 <= k < |idxs| ==> !exceeds(boxes[pick[a]], boxes[idxs[k]]))
  }

  /** The listed indices keep their argsort order, picks go down it, and every pick comes
      after every listed index. */
  predicate Ranked(order: seq<nat>, pick: seq<nat>, idxs: seq<nat>)
  {
    && InOrder(order, idxs)
    && (forall a, b :: 0 <= a < b < |pick| ==> Before(order, pick[b], pick[a]))
    && (forall a, k :: 0 <= a < |pick| && 0 <= k < |idxs| ==> Before(order, idxs[k], pick[a]))
  }

  /** Every box is listed, picked, or deleted by a pick that comes after it in the argsort. */
  predicate Covered(boxes: seq<Box>, exceeds: OverlapTest, order: seq<nat>, pick: seq<nat>, idxs: seq<nat>)
    requires ValidIndices(boxes, pick)
  {
    forall j :: 0 <= j < |boxes| ==> Accounted(boxes, exceeds, order, pick, idxs, j)
  }

  /** Box `j` is listed, picked, or deleted by a pick that comes after it in the argsort. */
  predicate Accounted(boxes: seq<Box>, exceeds: OverlapTest, order: seq<nat>, pick: seq<nat>, idxs: seq<nat>, j: nat)
    requires ValidIndices(boxes, pick) && j < |boxes|
  {
    j in idxs || j in pick ||
    exists a :: 0 <= a < |pick| && Position(order, j) < Position(order, pick[a]) && exceeds(boxes[pick[a]], boxes[j])
  }

  lemma StepListing(boxes: seq<Box>, exceeds: OverlapTest, pick: seq<nat>, idxs: seq<nat>)
    requires |idxs| > 0 && Listing(boxes, pick, idxs)
    ensures var i := idxs[|idxs| - 1];
      Listing(boxes, pick + [i], Survivors(boxes, i, idxs[..|idxs| - 1], exceeds))
  {
    var last := |idxs| - 1;
    var front := idxs[..last];
    assert ValidIndices(boxes, front) && Distinct(front) && SortedByY2(boxes, front);
    assert idxs[last] !in front;
    SurvivorsDistinct(boxes, idxs[last], front, exceeds);
    SurvivorsSorted(boxes, idxs[last], front, exceeds);
  }

  lemma StepKept(boxes: seq<Box>, exceeds: OverlapTest, pick: seq<nat>, idxs: seq<nat>)
    requires |idxs| > 0 && Listing(boxes, pick, idxs) && Kept(boxes, exceeds, pick, idxs)
    ensures var i := idxs[|idxs| - 1];
      Listing(boxes, pick + [i], Survivors(boxes, i, idxs[..|idxs| - 1], exceeds))
      && Kept(boxes, exceeds, pick + [i], Survivors(boxes, i, idxs[..|idxs| - 1], exceeds))
  {
    var last := |idxs| - 1;
    var front := idxs[..last];
    StepListing(boxes, exceeds, pick, idxs);
    assert ValidIndices(boxes, front);
  }

  /** The last index of the argsort has the largest y2 of all boxes. */
  lemma LastIsHighest(boxes: seq<Box>, order: seq<nat>)
    requires IsArgsortByY2(boxes, order) && |order| > 0
    ensures forall j :: 0 <= j < |boxes| ==> boxes[order[|order| - 1]].y2 >= boxes[j].y2
  {
    forall j | 0 <= j < |boxes|
      ensures boxes[order[|order| - 1]].y2 >= boxes[j].y2
    {
      assert j in order;
      var k :| 0 <= k < |order| && order[k] == j;
    }
  }

  /** A pass of the loop keeps the argsort ranks of picked and listed indices. */
  lemma StepRanked(boxes: seq<Box>, exceeds: OverlapTest, order: seq<nat>, pick: seq<nat>, idxs: seq<nat>)
    requires |idxs| > 0 && ValidIndices(boxes, idxs) && Ranked(order, pick, idxs)
    ensures var i := idxs[|idxs| - 1];
      Ranked(order, pick + [i], Survivors(boxes, i, idxs[..|idxs| - 1], exceeds))
  {
    var last := |idxs| - 1;
    var i := idxs[last];
    var front := idxs[..last];
    var pick' := pick + [i];
    assert ValidIndices(boxes, front);
    assert InOrder(order, front) by {
      forall k1, k2 | 0 <= k1 < k2 < |front|
        ensures Position(order, front[k1]) < Position(order, front[k2])
      {
        assert front[k1] == idxs[k1] && front[k2] == idxs[k2];
      }
    }
    SurvivorsInOrder(boxes, i, front, exceeds, order);
    var idxs' := Survivors(boxes, i, front, exceeds);
    forall a, k | 0 <= a < |pick'| && 0 <= k < |idxs'|
      ensures Position(order, idxs'[k]) < Position(order, pick'[a])
    {
      assert idxs'[k] in front;
      var m :| 0 <= m < |front| && front[m] == idxs'[k];
      assert front[m] == idxs[m];
      if a == |pick| {
        assert pick'[a] == idxs[last];
      } else {
        assert pick'[a] == pick[a];
      }
    }
    forall a, b | 0 <= a < b < |pick'|
      ensures Position(order, pick'[b]) < Position(order, pick'[a])
    {
      assert pick'[a] == pick[a];
      if b == |pick| {
        assert pick'[b] == idxs[last];
      } else {
        assert pick'[b] == pick[b];
      }
    }
  }

  /** A pass of the loop leaves every box listed, picked or deleted by a pick after it. */
  lemma StepCovers(boxes: seq<Box>, exceeds: OverlapTest, order: seq<nat>, pick: seq<nat>, idxs: seq<nat>)
    requires |idxs| > 0 && ValidIndices(boxes, idxs) && ValidIndices(boxes, pick)
    requires InOrder(order, idxs)
    requires Covered(boxes, exceeds, order, pick, idxs)
    ensures var i := idxs[|idxs| - 1];
      ValidIndices(boxes, pick + [i])
      && Covered(boxes, exceeds, order, pick + [i], Survivors(boxes, i, idxs[..|idxs| - 1], exceeds))
  {
    var last := |idxs| - 1;
    var i := idxs[last];
    var pick' := pick + [i];
    var front := idxs[..last];
    assert ValidIndices(boxes, front);
    var idxs' := Survivors(boxes, i, front, exceeds);
    forall j | 0 <= j < |boxes|
      ensures Accounted(boxes, exceeds, order, pick', idxs', j)
    {
      assert Accounted(boxes, exceeds, order, pick, idxs, j);
      if j in idxs {
        var k :| 0 <= k < |idxs| && idxs[k] == j;
        if k == last {
          assert pick'[|pick|] == j;
        } else {
          assert j in front;
          if j !in idxs' {
            assert Position(order, j) < Position(order, pick'[|pick|]);
            assert exceeds(boxes[pick'[|pick|]], boxes[j]);
          }
        }
      } else if j in pick {
        var a :| 0 <= a < |pick| && pick[a] == j;
        assert pick'[a] == j;
      } else {
        var a :| 0 <= a < |pick| && Position(order, j) < Position(order, pick[a]) && exceeds(boxes[pick[a]], boxes[j]);
        assert pick'[a] == pick[a];
      }
    }
  }
}
