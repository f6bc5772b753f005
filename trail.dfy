/** The fading trail that every trajectory keeps behind its head: a history of visual positions,
    newest first, bounded at `PointTrailLen`, drawn as a chain of line segments whose
    intensity falls by a fixed decay per segment. */
module Trail {
  import opened Wrappers

  /** `POINT_TRAIL_LEN`: the number of positions a trail keeps. */
  const PointTrailLen: nat := 1000

  function Min(a: nat, b: nat): nat { if a <= b then a else b }

  /** `VecDeque::truncate`: keeps the first `n` elements, or all of them when there are fewer. */
  function Truncate<P>(s: seq<P>, n: nat): (r: seq<P>)
    ensures |r| == Min(n, |s|)
    ensures r <= s
  {
    if n < |s| then s[..n] else s
  }

  /** One tick of trail bookkeeping: `push_front` the new position, then truncate to `maxLen`. */
  function Pushed<P>(trail: seq<P>, p: P, maxLen: nat): (r: seq<P>)
    ensures |r| == Min(maxLen, |trail| + 1)
    ensures 0 < maxLen ==> r[0] == p
    ensures forall i :: 1 <= i < |r| ==> r[i] == trail[i - 1]
  {
    Truncate([p] + trail, maxLen)
  }

  /** Ticks the trail once per position of `ps`, in order. */
  function PushAll<P>(trail: seq<P>, ps: seq<P>, maxLen: nat): seq<P>
    decreases |ps|
  {
    if ps == [] then trail else PushAll(Pushed(trail, ps[0], maxLen), ps[1..], maxLen)
  }

  function Reversed<P>(s: seq<P>): (r: seq<P>)
    ensures |r| == |s|
    ensures forall i :: 0 <= i < |s| ==> r[i] == s[|s| - 1 - i]
  {
    if s == [] then [] else Reversed(s[1..]) + [s[0]]
  }

  /** Truncating twice to the same bound, around a prefix, is truncating once. */
  lemma TruncateAbsorbs<P>(front: seq<P>, back: seq<P>, n: nat)
    ensures Truncate(front + Truncate(back, n), n) == Truncate(front + back, n)
  {
  }

  /** One more tick after `PushAll` is `PushAll` with that position appended: each call of
      `Lorenz3d::step` extends the pushed sequence by one position. */
  lemma {:induction false} PushAllSnoc<P>(trail: seq<P>, ps: seq<P>, p: P, maxLen: nat)
    ensures PushAll(trail, ps + [p], maxLen) == Pushed(PushAll(trail, ps, maxLen), p, maxLen)
    decreases |ps|
  {
    if ps == [] {
      assert ps + [p] == [p];
      assert PushAll(Pushed(trail, p, maxLen), [], maxLen) == Pushed(trail, p, maxLen);
    } else {
      assert (ps + [p])[0] == ps[0] && (ps + [p])[1..] == ps[1..] + [p];
      PushAllSnoc(Pushed(trail, ps[0], maxLen), ps[1..], p, maxLen);
    }
  }

  /** After pushing the positions `ps` one by one, the trail holds them newest first, followed
      by the old trail, cut at `maxLen`: only the oldest positions are dropped. */
  lemma {:induction false} PushAllKeepsNewest<P>(trail: seq<P>, ps: seq<P>, maxLen: nat)
    requires |trail| <= maxLen
    ensures PushAll(trail, ps, maxLen) == Truncate(Reversed(ps) + trail, maxLen)
    decreases |ps|
  {
    if ps == [] {
      assert Reversed(ps) + trail == trail;
    } else {
      var p, rest := ps[0], ps[1..];
      var once := Pushed(trail, p, maxLen);
      assert |once| <= maxLen;
      PushAllKeepsNewest(once, rest, maxLen);
      assert PushAll(trail, ps, maxLen) == Truncate(Reversed(rest) + once, maxLen);
      TruncateAbsorbs(Reversed(rest), [p] + trail, maxLen);
      assert Reversed(ps) == Reversed(rest) + [p];
      assert Reversed(rest) + ([p] + trail) == Reversed(ps) + trail;
    }
  }

  /** Starting from an empty trail, pushing `k` positions leaves `min(k, maxLen)` of them,
      the most recent first. */
  lemma PushAllFromEmpty<P>(ps: seq<P>, maxLen: nat)
    ensures |PushAll([], ps, maxLen)| == Min(maxLen, |ps|)
    ensures forall i :: 0 <= i < |PushAll([], ps, maxLen)| ==> PushAll([], ps, maxLen)[i] == ps[|ps| - 1 - i]
  {
    PushAllKeepsNewest([], ps, maxLen);
    assert Reversed(ps) + [] == Reversed(ps);
  }

  /** One drawn line: from `from` to `to`, coloured after `decrements` intensity decrements. */
  datatype Segment<P> = Segment(from: P, to: P, decrements: nat)

  /** `lines` is the drawing of `trail`: one segment per consecutive pair, front to back, the
      `k`-th joining `trail[k]` to `trail[k + 1]` after exactly `k` decrements. */
  ghost predicate Drawing<P>(trail: seq<P>, lines: seq<Segment<P>>)
  {
    |lines| == (if |trail| == 0 then 0 else |trail| - 1) &&
    forall k :: 0 <= k < |lines| ==> lines[k] == Segment(trail[k], trail[k + 1], k)
  }

  /** The drawing loop of `Lorenz3d::step`: walks the trail front to back, remembering the last
      position, and emits a segment (then decrements the intensity) for every position after
      the first. */
  method DrawTrail<P>(trail: seq<P>) returns (lines: seq<Segment<P>>)
    ensures |lines| == (if |trail| == 0 then 0 else |trail| - 1)
    ensures forall k :: 0 <= k < |lines| ==> lines[k] == Segment(trail[k], trail[k + 1], k)
  {
    var decrements: nat := 0;
    var lastPoint: Option<P> := None;
    lines := [];
    for i := 0 to |trail|
      invariant lastPoint == if i == 0 then None else Some(trail[i - 1])
      invariant |lines| == (if i == 0 then 0 else i - 1)
      invariant decrements == |lines|
      invariant forall k :: 0 <= k < |lines| ==> lines[k] == Segment(trail[k], trail[k + 1], k)
    {
      var point := trail[i];
      if lastPoint.Some? {
        lines := lines + [Segment(lastPoint.value, point, decrements)];
        decrements := decrements + 1;
      }
      lastPoint := Some(point);
    }
  }

  /** The intensity (with exact arithmetic) after `decrements` steps of
      `POINT_TRAIL_INTENSITY_DECAY` = 1 / `PointTrailLen`, starting from 1. */
  function Intensity(decrements: nat): (r: real)
    ensures decrements == 0 ==> r == 1.0
    ensures decrements <= PointTrailLen ==> 0.0 <= r <= 1.0
    ensures decrements == PointTrailLen ==> r == 0.0
  {
    1.0 - (decrements as real) / (PointTrailLen as real)
  }

  /** Along a drawing of a bounded trail the intensity falls strictly from segment to segment
      and never reaches zero: the last segment of a full trail is drawn at 2 / `PointTrailLen`. */
  lemma DrawingFades<P>(trail: seq<P>, lines: seq<Segment<P>>)
    requires |trail| <= PointTrailLen
    requires Drawing(trail, lines)
    ensures forall j, k :: 0 <= j < k < |lines| ==> Intensity(lines[k].decrements) < Intensity(lines[j].decrements)
    ensures forall k :: 0 <= k < |lines| ==> Intensity(lines[k].decrements) >= 2.0 / (PointTrailLen as real)
  {
    forall j, k | 0 <= j < k < |lines|
      ensures Intensity(lines[k].decrements) < Intensity(lines[j].decrements)
    {
      assert lines[j] == Segment(trail[j], trail[j + 1], j);
      assert lines[k] == Segment(trail[k], trail[k + 1], k);
      IntensityFalls(j, k);
    }
    forall k | 0 <= k < |lines|
      ensures Intensity(lines[k].decrements) >= 2.0 / (PointTrailLen as real)
    {
      assert lines[k] == Segment(trail[k], trail[k + 1], k);
      IntensityFalls(k, PointTrailLen - 2);
      LastSegmentIntensity();
    }
  }

  lemma IntensityFalls(j: nat, k: nat)
    requires j <= k
    ensures Intensity(k) <= Intensity(j)
    ensures j < k ==> Intensity(k) < Intensity(j)
  {
  }

  /** The last segment of a full trail comes after `PointTrailLen - 2` decrements. */
  lemma LastSegmentIntensity()
    ensures Intensity(PointTrailLen - 2) == 2.0 / (PointTrailLen as real)
  {
  }
}
