// The free U segments of a rack, computed in one scan over its positions.

module ULayout {

  datatype Span = Span(startU: int, endU: int)

  datatype Free = Free(startU: int, endU: int, heightU: int)

  /** The scan's input: positions in ascending order of their first U, none of them empty. */
  ghost predicate Scannable(spans: seq<Span>) {
    && (forall i :: 0 <= i < |spans| ==> spans[i].startU <= spans[i].endU)
    && (forall i, j :: 0 <= i < j < |spans| ==> spans[i].startU <= spans[j].startU)
  }

  ghost predicate Occupied(spans: seq<Span>, u: int) {
    exists i :: 0 <= i < |spans| && spans[i].startU <= u <= spans[i].endU
  }

  /** Some position starts above `u`. */
  ghost predicate Below(spans: seq<Span>, u: int) {
    exists i :: 0 <= i < |spans| && u < spans[i].startU
  }

  ghost predicate Covers(free: seq<Free>, u: int) {
    exists k :: 0 <= k < |free| && free[k].startU <= u <= free[k].endU
  }

  /** Segments in ascending order with an occupied U between any two, so none could be longer. */
  ghost predicate Maximal(free: seq<Free>) {
    && (forall k :: 0 <= k < |free| ==>
          1 <= free[k].startU <= free[k].endU && free[k].heightU == free[k].endU - free[k].startU + 1)
    && (forall k, l :: 0 <= k < l < |free| ==> free[k].endU + 1 < free[l].startU)
  }

  /** The scan has seen the first `i` positions: `free` is settled below `next`, and nothing seen reaches it. */
  ghost predicate Scanned(spans: seq<Span>, i: nat, free: seq<Free>, next: int)
    requires i <= |spans|
  {
    && 1 <= next && Maximal(free)
    && (free != [] ==> i > 0 && free[|free| - 1].endU < spans[i - 1].startU < next)
    && (forall k :: 0 <= k < i ==> spans[k].endU < next)
    && (forall u :: Covers(free, u) <==> 1 <= u < next && !Occupied(spans[..i], u))
  }

  /**
   * The scan returns maximal segments that cover exactly the unoccupied U's of the rack and, if a position
   * lies above the rack, those below that position.
   */
  method FreeSegments(spans: seq<Span>, uHeight: int) returns (free: seq<Free>)
    requires Scannable(spans)
    ensures Maximal(free)
    ensures forall u :: Covers(free, u) <==> 1 <= u && !Occupied(spans, u) && (u <= uHeight || Below(spans, u))
  {
    free := [];
    var next := 1;
    assert Scanned(spans, 0, free, next);
    hide Scanned, Maximal, Covers, Occupied;
    for i := 0 to |spans|
      invariant Scanned(spans, i, free, next)
    {
      ghost var before := free;
      if spans[i].startU > next {
        free := free + [Free(next, spans[i].startU - 1, spans[i].startU - next)];
      }
      var next' := if spans[i].endU + 1 > next then spans[i].endU + 1 else next;
      ScanStep(spans, i, before, free, next, next');
      next := next';
    }
    ghost var before := free;
    if uHeight >= next {
      free := free + [Free(next, uHeight, uHeight - next + 1)];
    }
    ScanEnd(spans, uHeight, before, free, next);
  }

  lemma MaximalAppend(free: seq<Free>, lo: int, hi: int)
    requires Maximal(free) && 1 <= lo <= hi && (free != [] ==> free[|free| - 1].endU + 1 < lo)
    ensures Maximal(free + [Free(lo, hi, hi - lo + 1)])
  {
  }

  lemma BelowLast(free: seq<Free>, u: int)
    requires Maximal(free) && Covers(free, u)
    ensures free != [] && u <= free[|free| - 1].endU
  {
  }

  lemma ScanStep(spans: seq<Span>, i: nat, before: seq<Free>, free: seq<Free>, next: int, next': int)
    requires Scannable(spans) && i < |spans| && Scanned(spans, i, before, next)
    requires free == if spans[i].startU > next
                     then before + [Free(next, spans[i].startU - 1, spans[i].startU - next)] else before
    requires next' == if spans[i].endU + 1 > next then spans[i].endU + 1 else next
    ensures Scanned(spans, i + 1, free, next')
  {
    hide Maximal, Covers, Occupied;
    forall u | Covers(before, u)
      ensures u < spans[i].startU
    {
      BelowLast(before, u);
    }
    if spans[i].startU > next {
      MaximalAppend(before, next, spans[i].startU - 1);
    }
    CoverStep(spans, i, before, free, next, next');
  }

  lemma ScanEnd(spans: seq<Span>, uHeight: int, before: seq<Free>, free: seq<Free>, next: int)
    requires Scannable(spans) && Scanned(spans, |spans|, before, next)
    requires free == if uHeight >= next then before + [Free(next, uHeight, uHeight - next + 1)] else before
    ensures Maximal(free)
    ensures forall u :: Covers(free, u) <==> 1 <= u && !Occupied(spans, u) && (u <= uHeight || Below(spans, u))
  {
    forall u | Covers(before, u)
      ensures Below(spans, u)
    {
      BelowLast(before, u);
      assert u < spans[|spans| - 1].startU;
    }
    if uHeight >= next {
      MaximalAppend(before, next, uHeight);
    }
    hide Maximal, Covers, Occupied, Below;
    LastSegment(spans, uHeight, before, free, next);
  }

  lemma LastSegment(spans: seq<Span>, uHeight: int, before: seq<Free>, free: seq<Free>, next: int)
    requires 1 <= next
    requires forall k :: 0 <= k < |spans| ==> spans[k].startU <= spans[k].endU < next
    requires forall u :: Covers(before, u) <==> 1 <= u < next && !Occupied(spans[..|spans|], u)
    requires forall u :: Covers(before, u) ==> Below(spans, u)
    requires free == if uHeight >= next then before + [Free(next, uHeight, uHeight - next + 1)] else before
    ensures forall u :: Covers(free, u) <==> 1 <= u && !Occupied(spans, u) && (u <= uHeight || Below(spans, u))
  {
    assert spans[..|spans|] == spans;
    forall u
      ensures Covers(free, u) <==> 1 <= u && !Occupied(spans, u) && (u <= uHeight || Below(spans, u))
    {
      if uHeight >= next {
        CoversAppend(before, free[|free| - 1], u);
      }
    }
  }

  lemma CoversAppend(free: seq<Free>, last: Free, u: int)
    ensures Covers(free + [last], u) <==> Covers(free, u) || last.startU <= u <= last.endU
  {
    if Covers(free, u) {
      var k :| 0 <= k < |free| && free[k].startU <= u <= free[k].endU;
      assert (free + [last])[k] == free[k];
    }
    if last.startU <= u <= last.endU {
      assert (free + [last])[|free|] == last;
    }
  }

  lemma OccupiedStep(spans: seq<Span>, i: nat, u: int)
    requires i < |spans|
    ensures Occupied(spans[..i + 1], u) <==> Occupied(spans[..i], u) || spans[i].startU <= u <= spans[i].endU
  {
    if Occupied(spans[..i], u) {
      var k :| 0 <= k < |spans[..i]| && spans[..i][k].startU <= u <= spans[..i][k].endU;
      assert spans[..i + 1][k] == spans[..i][k];
    }
    if spans[i].startU <= u <= spans[i].endU {
      assert spans[..i + 1][i] == spans[i];
    }
  }

  lemma CoverStep(spans: seq<Span>, i: nat, before: seq<Free>, free: seq<Free>, next: int, next': int)
    requires Scannable(spans) && i < |spans| && 1 <= next
    requires forall k :: 0 <= k < i ==> spans[k].endU < next
    requires forall u :: Covers(before, u) ==> u < spans[i].startU
    requires forall u :: Covers(before, u) <==> 1 <= u < next && !Occupied(spans[..i], u)
    requires free == if spans[i].startU > next
                     then before + [Free(next, spans[i].startU - 1, spans[i].startU - next)] else before
    requires next' == if spans[i].endU + 1 > next then spans[i].endU + 1 else next
    ensures forall u :: Covers(free, u) <==> 1 <= u < next' && !Occupied(spans[..i + 1], u)
  {
    forall u
      ensures Covers(free, u) <==> 1 <= u < next' && !Occupied(spans[..i + 1], u)
    {
      OccupiedStep(spans, i, u);
      assert u >= next ==> !Occupied(spans[..i], u);
      if spans[i].startU > next {
        CoversAppend(before, free[|free| - 1], u);
      }
    }
  }

  // ----- when the scan is about the rack alone -----

  /**
   * The segments are exactly the rack's free U's if and only if no unoccupied U above the rack lies below a
   * position. Lowering a rack's height under a placed device can break this.
   */
  lemma ExactIffNothingFloats(spans: seq<Span>, uHeight: nat, free: seq<Free>)
    requires Maximal(free)
    requires forall u :: Covers(free, u) <==> 1 <= u && !Occupied(spans, u) && (u <= uHeight || Below(spans, u))
    ensures (forall u :: Covers(free, u) <==> 1 <= u <= uHeight && !Occupied(spans, u))
            <==> (forall u :: uHeight < u && Below(spans, u) ==> Occupied(spans, u))
  {
  }

  /** A position from U 10 in a rack of height 5: the scan reports U's 6 to 9, which do not exist. */
  lemma FloatingPosition(free: seq<Free>)
    requires forall u :: Covers(free, u) <==>
               1 <= u && !Occupied([Span(10, 12)], u) && (u <= 5 || Below([Span(10, 12)], u))
    ensures Covers(free, 9)
  {
    assert [Span(10, 12)][0].startU == 10;
  }

  // ----- conservation of height -----

  function TotalHeight(free: seq<Free>): int {
    if free == [] then 0 else TotalHeight(free[..|free| - 1]) + free[|free| - 1].heightU
  }

  function Range(lo: int, hi: int): (s: set<int>)
    ensures forall u :: u in s <==> lo <= u <= hi
    ensures lo <= hi + 1 ==> |s| == hi - lo + 1
    decreases hi - lo
  {
    if lo > hi then {} else Range(lo, hi - 1) + {hi}
  }

  /** The U's that the segments cover. */
  ghost function Covered(free: seq<Free>): set<int> {
    if free == [] then {} else Covered(free[..|free| - 1]) + Range(free[|free| - 1].startU, free[|free| - 1].endU)
  }

  lemma {:induction false} CoveredAre(free: seq<Free>, u: int)
    requires Maximal(free)
    ensures u in Covered(free) <==> Covers(free, u)
  {
    if free != [] {
      var front, last := free[..|free| - 1], free[|free| - 1];
      CoveredAre(front, u);
      CoversAppend(front, last, u);
      assert free == front + [last];
    }
  }

  lemma {:induction false} HeightsCount(free: seq<Free>)
    requires Maximal(free)
    ensures TotalHeight(free) == |Covered(free)|
  {
    if free != [] {
      var front, last := free[..|free| - 1], free[|free| - 1];
      HeightsCount(front);
      forall u | u in Covered(front)
        ensures u < last.startU
      {
        CoveredAre(front, u);
      }
      assert Covered(front) !! Range(last.startU, last.endU);
    }
  }

  /** The rack's U's that some position occupies. */
  ghost function Taken(spans: seq<Span>, uHeight: nat): set<int> {
    set u | u in Range(1, uHeight) && Occupied(spans, u)
  }

  /** The heights of the free segments add up to the rack's height less its occupied U's. */
  lemma HeightIsConserved(spans: seq<Span>, uHeight: nat, free: seq<Free>)
    requires Maximal(free)
    requires forall u :: Covers(free, u) <==> 1 <= u <= uHeight && !Occupied(spans, u)
    ensures TotalHeight(free) + |Taken(spans, uHeight)| == uHeight
  {
    HeightsCount(free);
    forall u
      ensures u in Covered(free) <==> u in Range(1, uHeight) - Taken(spans, uHeight)
    {
      CoveredAre(free, u);
    }
    assert Covered(free) == Range(1, uHeight) - Taken(spans, uHeight);
  }
}
