/** The treemap layout, over real numbers (frontend/src/disktree.ts). */
module Treemaps {

  /** A rectangle, as `DirBox` is given it. */
  datatype Rect = Rect(left: real, top: real, width: real, height: real)

  function Sum(values: seq<real>): real {
    if values == [] then 0.0 else Sum(values[..|values| - 1]) + values[|values| - 1]
  }

  predicate Positive(values: seq<real>) {
    forall v | v in values :: v > 0.0
  }

  /** The two rectangles have an inner point in common. */
  predicate Overlap(a: Rect, b: Rect) {
    && a.left < b.left + b.width && b.left < a.left + a.width
    && a.top < b.top + b.height && b.top < a.top + a.height
  }

  predicate Inside(r: Rect, box: Rect) {
    && box.left <= r.left && r.left + r.width <= box.left + box.width
    && box.top <= r.top && r.top + r.height <= box.top + box.height
  }

  function Area(r: Rect): real {
    r.width * r.height
  }

  // ---- Sums ----

  lemma SumStep(values: seq<real>, lo: nat, hi: nat)
    requires lo <= hi < |values|
    ensures Sum(values[lo..hi + 1]) == Sum(values[lo..hi]) + values[hi]
  {
    assert values[lo..hi + 1][..hi - lo] == values[lo..hi];
  }

  lemma {:induction false} SumSplit(values: seq<real>, lo: nat, mid: nat, hi: nat)
    requires lo <= mid <= hi <= |values|
    ensures Sum(values[lo..hi]) == Sum(values[lo..mid]) + Sum(values[mid..hi])
    decreases hi
  {
    if mid < hi {
      SumSplit(values, lo, mid, hi - 1);
      SumStep(values, lo, hi - 1);
      SumStep(values, mid, hi - 1);
    }
  }

  lemma {:induction false} SumNotNegative(values: seq<real>, lo: nat, hi: nat)
    requires Positive(values) && lo <= hi <= |values|
    ensures Sum(values[lo..hi]) >= 0.0
    ensures lo < hi ==> Sum(values[lo..hi]) > 0.0
    decreases hi
  {
    if lo < hi {
      SumNotNegative(values, lo, hi - 1);
      SumStep(values, lo, hi - 1);
      assert values[hi - 1] in values;
    }
  }

  // ---- Shares of a length ----

  /** The part of a length that falls to `s` out of `t`. */
  function Share(w: real, s: real, t: real): real
    requires t > 0.0
  {
    w * s / t
  }

  lemma ShareIsScaled(w: real, s: real, t: real)
    requires t > 0.0
    ensures Share(w, s, t) == (w / t) * s
  {
  }

  lemma ShareAdds(w: real, a: real, b: real, t: real)
    requires t > 0.0
    ensures Share(w, a, t) + Share(w, b, t) == Share(w, a + b, t)
  {
    ShareIsScaled(w, a, t);
    ShareIsScaled(w, b, t);
    ShareIsScaled(w, a + b, t);
  }

  lemma ProductPositive(a: real, b: real)
    requires a > 0.0 && b > 0.0
    ensures a * b > 0.0
  {
  }

  lemma ShareGrows(w: real, a: real, b: real, t: real)
    requires t > 0.0 && w > 0.0 && a <= b
    ensures Share(w, a, t) <= Share(w, b, t)
    ensures Share(w, 0.0, t) == 0.0 && Share(w, t, t) == w
  {
    ShareIsScaled(w, a, t);
    ShareIsScaled(w, b, t);
    assert w / t > 0.0;
    Monotone(w / t, a, b);
  }

  lemma Monotone(k: real, a: real, b: real)
    requires k > 0.0 && a <= b
    ensures k * a <= k * b
  {
  }

  /** The area of one entry of a strip does not depend on the strip. */
  lemma StripArea(w: real, h: real, v: real, total: real, remaining: real)
    requires total > 0.0 && remaining > 0.0
    ensures Share(w, v, total) * Share(h, total, remaining) == (w * h / remaining) * v
  {
    ShareIsScaled(w, v, total);
    ShareIsScaled(h, total, remaining);
    var k := w / total;
    var j := h / remaining;
    assert k * total == w;
    calc {
      (k * v) * (j * total);
      == { Rearrange(k, v, j, total); }
      (k * total) * j * v;
      == w * (h / remaining) * v;
      == { assert w * (h / remaining) == w * h / remaining; }
      (w * h / remaining) * v;
    }
  }

  lemma Rearrange(k: real, v: real, j: real, t: real)
    ensures (k * v) * (j * t) == (k * t) * j * v
  {
  }

  // ---- One strip ----

  /** The box that is left, and the strip that is cut off it: the entries
      `values[pos..split]`, whose sum is `total`, out of `remaining`. */
  datatype Strip = Strip(left: real, top: real, width: real, height: real, isRow: bool,
                         pos: nat, split: nat, total: real, remaining: real)

  ghost predicate GoodStrip(values: seq<real>, s: Strip) {
    && Positive(values) && s.pos < s.split <= |values|
    && s.width > 0.0 && s.height > 0.0
    && s.total == Sum(values[s.pos..s.split]) && 0.0 < s.total <= s.remaining
  }

  function Before(values: seq<real>, s: Strip, i: nat): real
    requires s.pos <= i <= |values|
  {
    Sum(values[s.pos..i])
  }

  /** Where the entry `i` of the strip is put. */
  function Placed(values: seq<real>, s: Strip, i: nat): Rect
    requires s.pos <= i < |values| && s.total > 0.0 && s.remaining > 0.0
  {
    if s.isRow then
      Rect(s.left + Share(s.width, Before(values, s, i), s.total), s.top,
           Share(s.width, values[i], s.total), Share(s.height, s.total, s.remaining))
    else
      Rect(s.left, s.top + Share(s.height, Before(values, s, i), s.total),
           Share(s.width, s.total, s.remaining), Share(s.height, values[i], s.total))
  }

  lemma PlacedArea(values: seq<real>, s: Strip, i: nat)
    requires GoodStrip(values, s) && s.pos <= i < s.split
    ensures Area(Placed(values, s, i)) == (s.width * s.height / s.remaining) * values[i]
  {
    AreaOf(s.width, s.height, s.isRow, values[i], s.total, s.remaining);
  }

  lemma AreaOf(w: real, h: real, isRow: bool, v: real, total: real, remaining: real)
    requires total > 0.0 && remaining > 0.0
    ensures (if isRow then Share(w, v, total) * Share(h, total, remaining)
             else Share(w, total, remaining) * Share(h, v, total)) == (w * h / remaining) * v
  {
    if isRow {
      StripArea(w, h, v, total, remaining);
    } else {
      StripArea(h, w, v, total, remaining);
      assert w * h == h * w;
    }
  }

  /** How far along the strip an entry begins and ends. */
  lemma Along(w: real, values: seq<real>, s: Strip, i: nat)
    requires GoodStrip(values, s) && s.pos <= i < s.split && w > 0.0
    ensures 0.0 <= Share(w, Before(values, s, i), s.total)
    ensures Share(w, Before(values, s, i), s.total) + Share(w, values[i], s.total) ==
            Share(w, Before(values, s, i + 1), s.total) <= w
  {
    SumStep(values, s.pos, i);
    ShareAdds(w, Before(values, s, i), values[i], s.total);
    SumNotNegative(values, s.pos, i);
    ShareGrows(w, 0.0, Before(values, s, i), s.total);
    SumSplit(values, s.pos, i + 1, s.split);
    SumNotNegative(values, i + 1, s.split);
    ShareGrows(w, Before(values, s, i + 1), s.total, s.total);
  }

  /** The strip is as deep as its part of what is left. */
  lemma Across(h: real, s: Strip, values: seq<real>)
    requires GoodStrip(values, s) && h > 0.0
    ensures 0.0 <= Share(h, s.total, s.remaining) <= h
    ensures s.total == s.remaining ==> Share(h, s.total, s.remaining) == h
  {
    ShareGrows(h, 0.0, s.total, s.remaining);
    ShareGrows(h, s.total, s.remaining, s.remaining);
  }

  lemma PlacedInside(values: seq<real>, s: Strip, i: nat)
    requires GoodStrip(values, s) && s.pos <= i < s.split
    ensures Inside(Placed(values, s, i), Rect(s.left, s.top, s.width, s.height))
  {
    if s.isRow {
      Along(s.width, values, s, i);
      Across(s.height, s, values);
    } else {
      Along(s.height, values, s, i);
      Across(s.width, s, values);
    }
  }

  lemma PlacedApart(values: seq<real>, s: Strip, i: nat, j: nat)
    requires GoodStrip(values, s) && s.pos <= i < j < s.split
    ensures !Overlap(Placed(values, s, i), Placed(values, s, j))
  {
    var w := if s.isRow then s.width else s.height;
    Along(w, values, s, i);
    SumSplit(values, s.pos, i + 1, j);
    SumNotNegative(values, i + 1, j);
    ShareGrows(w, Before(values, s, i + 1), Before(values, s, j), s.total);
  }

  // ---- The layout so far ----

  /** Nothing of the rectangle is left in the box that begins at `left`, `top`. */
  predicate Outside(r: Rect, left: real, top: real) {
    r.left + r.width <= left || r.top + r.height <= top
  }

  /** The first entries have each got their part of the box, apart from each other
      and from what is left of it. */
  ghost predicate LaidOut(values: seq<real>, k: real, box: Rect, placed: seq<Rect>, left: real, top: real) {
    && |placed| <= |values|
    && (forall i | 0 <= i < |placed| :: Inside(placed[i], box) && Outside(placed[i], left, top))
    && (forall i | 0 <= i < |placed| :: Area(placed[i]) == k * values[i])
    && (forall i, j | 0 <= i < j < |placed| :: !Overlap(placed[i], placed[j]))
  }

  /** What stays the same: the area `k` that is left per value that is left. */
  ghost predicate Fair(values: seq<real>, k: real, box: Rect, pos: nat, left: real, top: real, remaining: real) {
    && pos <= |values| && remaining == Sum(values[pos..])
    && box.left <= left <= box.left + box.width && box.top <= top <= box.top + box.height
    && (box.left + box.width - left) * (box.top + box.height - top) == k * remaining
  }

  /** The strip of the current box. */
  ghost predicate StripOf(box: Rect, s: Strip) {
    && box.left <= s.left && box.top <= s.top
    && s.left + s.width == box.left + box.width && s.top + s.height == box.top + box.height
  }

  lemma StripAreas(values: seq<real>, k: real, s: Strip, i: nat)
    requires GoodStrip(values, s) && s.pos <= i < s.split && s.width * s.height == k * s.remaining
    ensures Area(Placed(values, s, i)) == k * values[i]
  {
    PlacedArea(values, s, i);
    Ratio(s.width * s.height, k, s.remaining);
  }

  lemma Ratio(a: real, k: real, r: real)
    requires r > 0.0 && a == k * r
    ensures a / r == k
  {
  }

  lemma StripIsLaidOut(values: seq<real>, box: Rect, s: Strip, i: nat)
    requires GoodStrip(values, s) && StripOf(box, s) && s.pos <= i < s.split
    ensures Inside(Placed(values, s, i), box)
    ensures Outside(Placed(values, s, i),
                    if s.isRow then s.left else s.left + Share(s.width, s.total, s.remaining),
                    if s.isRow then s.top + Share(s.height, s.total, s.remaining) else s.top)
  {
    PlacedInside(values, s, i);
  }

  // ---- The loops ----

  function Abs(x: real): real {
    if x < 0.0 then -x else x
  }

  lemma QuotientPositive(a: real, b: real)
    requires a > 0.0 && b > 0.0
    ensures a / b > 0.0
  {
  }

  /** The strip that the entries from `pos` up to `j` would make. */
  function StripTo(values: seq<real>, pos: nat, isRow: bool, w: real, h: real, remaining: real, j: nat): Strip
    requires pos < j <= |values|
  {
    Strip(0.0, 0.0, w, h, isRow, pos, j, Sum(values[pos..j]), remaining)
  }

  lemma StripToIsGood(values: seq<real>, pos: nat, isRow: bool, w: real, h: real, remaining: real, j: nat)
    requires Positive(values) && pos < j <= |values| && w > 0.0 && h > 0.0 && remaining == Sum(values[pos..])
    ensures remaining > 0.0 && GoodStrip(values, StripTo(values, pos, isRow, w, h, remaining, j))
    ensures Placed(values, StripTo(values, pos, isRow, w, h, remaining, j), j - 1).height > 0.0
  {
    assert values[pos..|values|] == values[pos..] && values[j - 1] in values;
    SumNotNegative(values, pos, j);
    SumNotNegative(values, j, |values|);
    SumSplit(values, pos, j, |values|);
    var t := Sum(values[pos..j]);
    ShareIsPositive(h, t, remaining);
    ShareIsPositive(h, values[j - 1], t);
  }

  lemma ShareIsPositive(w: real, s: real, t: real)
    requires w > 0.0 && s > 0.0 && t > 0.0
    ensures Share(w, s, t) > 0.0
  {
    ProductPositive(w, s);
    QuotientPositive(w * s, t);
  }

  /** How far the shape of the last of these entries, its width by its height, falls short
      of `phi`. */
  ghost function Short(values: seq<real>, pos: nat, isRow: bool, w: real, h: real, remaining: real, phi: real,
      j: nat): real
    requires Positive(values) && pos < j <= |values| && w > 0.0 && h > 0.0 && remaining == Sum(values[pos..])
  {
    StripToIsGood(values, pos, isRow, w, h, remaining, j);
    var last := Placed(values, StripTo(values, pos, isRow, w, h, remaining, j), j - 1);
    phi - last.width / last.height
  }

  /** The strip ends before the entry `j`: it would get a shape further from `phi` than
      the one before it has, and, in a column, that one is already wider than `phi`. */
  ghost predicate EndsAt(values: seq<real>, pos: nat, isRow: bool, w: real, h: real, remaining: real, phi: real, j: nat)
    requires Positive(values) && pos < j < |values| && w > 0.0 && h > 0.0 && remaining == Sum(values[pos..])
  {
    && (isRow || Short(values, pos, isRow, w, h, remaining, phi, j) < 0.0)
    && Abs(Short(values, pos, isRow, w, h, remaining, phi, j + 1)) >
       Abs(Short(values, pos, isRow, w, h, remaining, phi, j))
  }

  lemma ScaledShare(w: real, s: real, t: real)
    requires t > 0.0
    ensures w * (s / t) == Share(w, s, t)
  {
  }

  /** What the loop computes for an entry is that. */
  lemma ShortIs(values: seq<real>, pos: nat, isRow: bool, w: real, h: real, remaining: real, phi: real, j: nat,
      width: real, height: real)
    requires Positive(values) && pos < j <= |values| && w > 0.0 && h > 0.0 && remaining == Sum(values[pos..])
    requires remaining > 0.0 && Sum(values[pos..j]) > 0.0 && height > 0.0
    requires width == w * (if isRow then values[j - 1] / Sum(values[pos..j]) else Sum(values[pos..j]) / remaining)
    requires height == h * (if isRow then Sum(values[pos..j]) / remaining else values[j - 1] / Sum(values[pos..j]))
    ensures Short(values, pos, isRow, w, h, remaining, phi, j) == phi - width / height
  {
    var t := Sum(values[pos..j]);
    ScaledShare(w, values[j - 1], t);
    ScaledShare(w, t, remaining);
    ScaledShare(h, values[j - 1], t);
    ScaledShare(h, t, remaining);
  }

  /** The first entry alone. */
  lemma FirstShort(values: seq<real>, pos: nat, isRow: bool, w: real, h: real, remaining: real, phi: real)
    requires Positive(values) && pos < |values| && w > 0.0 && h > 0.0 && remaining == Sum(values[pos..])
    requires remaining > 0.0 && values[pos] > 0.0 && values[pos] / remaining > 0.0
    ensures Short(values, pos, isRow, w, h, remaining, phi, pos + 1) ==
            phi - w * (if isRow then 1.0 else values[pos] / remaining) /
                  Height(h, if isRow then values[pos] / remaining else 1.0)
  {
    SumStep(values, pos, pos);
    assert Sum(values[pos..pos + 1]) == values[pos] && values[pos] / values[pos] == 1.0;
    var ratio := values[pos] / remaining;
    ShortIs(values, pos, isRow, w, h, remaining, phi, pos + 1, w * (if isRow then 1.0 else ratio),
            Height(h, if isRow then ratio else 1.0));
  }

  /** How many entries go on the next strip: entries are added until one would get a
      worse shape than the one before it. */
  method ChooseSplit(values: seq<real>, pos: nat, isRow: bool, w: real, h: real, remaining: real, phi: real)
    returns (split: nat, total: real)
    requires Positive(values) && pos < |values| && w > 0.0 && h > 0.0 && remaining == Sum(values[pos..])
    ensures pos < split <= |values| && total == Sum(values[pos..split]) && 0.0 < total <= remaining
    ensures forall j | pos < j < split :: !EndsAt(values, pos, isRow, w, h, remaining, phi, j)
    ensures split < |values| ==> EndsAt(values, pos, isRow, w, h, remaining, phi, split)
  {
    hide Short;
    assert values[pos] in values && values[pos..|values|] == values[pos..];
    SumNotNegative(values, pos, |values|);
    SumStep(values, pos, pos);
    total, split := values[pos], pos + 1;
    var totalRatio := total / remaining;
    QuotientPositive(total, remaining);
    var lastDR := phi - w * (if isRow then 1.0 else totalRatio) / Height(h, if isRow then totalRatio else 1.0);
    FirstShort(values, pos, isRow, w, h, remaining, phi);
    var i := split;
    while i < |values|
      invariant split == i <= |values| && pos < i
      invariant total == Sum(values[pos..i]) && total > 0.0
      invariant lastDR == Short(values, pos, isRow, w, h, remaining, phi, i)
      invariant forall j | pos < j < i :: !EndsAt(values, pos, isRow, w, h, remaining, phi, j)
    {
      var more, next := AddNext(values, pos, isRow, w, h, remaining, phi, i, total);
      if (isRow || lastDR < 0.0) && Abs(more) > Abs(lastDR) {
        break;
      }
      lastDR := more;
      split := split + 1;
      total := next;
      i := i + 1;
    }
    SumSplit(values, pos, split, |values|);
    SumNotNegative(values, split, |values|);
  }

  /** The total and the shape with the entry `i` on the strip. */
  method AddNext(values: seq<real>, pos: nat, isRow: bool, w: real, h: real, remaining: real, phi: real, i: nat,
      total: real)
    returns (dRatio: real, nextTotal: real)
    requires Positive(values) && pos < i < |values| && w > 0.0 && h > 0.0 && remaining == Sum(values[pos..])
    requires remaining > 0.0 && total == Sum(values[pos..i]) && total > 0.0
    ensures nextTotal == Sum(values[pos..i + 1]) && nextTotal > 0.0
    ensures dRatio == Short(values, pos, isRow, w, h, remaining, phi, i + 1)
  {
    assert values[i] in values;
    SumStep(values, pos, i);
    nextTotal := total + values[i];
    QuotientPositive(nextTotal, remaining);
    QuotientPositive(values[i], nextTotal);
    var rowHeight := Height(h, if isRow then nextTotal / remaining else values[i] / nextTotal);
    var colWidth := w * (if isRow then values[i] / nextTotal else nextTotal / remaining);
    dRatio := phi - colWidth / rowHeight;
    ShortIs(values, pos, isRow, w, h, remaining, phi, i + 1, colWidth, rowHeight);
  }

  /** A height that can be divided by. */
  function Height(h: real, ratio: real): (r: real)
    requires h > 0.0 && ratio > 0.0
    ensures r > 0.0
  {
    ProductPositive(h, ratio);
    h * ratio
  }

  /** The loop that puts the entries of one strip. */
  method PlaceStrip(values: seq<real>, s: Strip) returns (rects: seq<Rect>)
    requires GoodStrip(values, s)
    ensures |rects| == s.split - s.pos
    ensures forall k | 0 <= k < |rects| :: rects[k] == Placed(values, s, s.pos + k)
  {
    rects := [];
    var d := if s.isRow then s.left else s.top;
    var depth := Share(if s.isRow then s.height else s.width, s.total, s.remaining);
    var along := if s.isRow then s.width else s.height;
    ShareGrows(along, 0.0, 0.0, s.total);
    var i := s.pos;
    while i < s.split
      invariant s.pos <= i <= s.split && |rects| == i - s.pos
      invariant d == (if s.isRow then s.left else s.top) + Share(along, Before(values, s, i), s.total)
      invariant forall k | 0 <= k < |rects| :: rects[k] == Placed(values, s, s.pos + k)
    {
      var extent := Share(along, values[i], s.total);
      Along(along, values, s, i);
      rects := rects + [if s.isRow then Rect(d, s.top, extent, depth) else Rect(s.left, d, depth, extent)];
      d := d + extent;
      i := i + 1;
    }
  }

  lemma LayMore(values: seq<real>, k: real, box: Rect, placed: seq<Rect>, s: Strip, rects: seq<Rect>)
    requires GoodStrip(values, s) && StripOf(box, s) && s.pos == |placed| && |rects| == s.split - s.pos
    requires forall j | 0 <= j < |rects| :: rects[j] == Placed(values, s, s.pos + j)
    requires LaidOut(values, k, box, placed, s.left, s.top)
    requires s.width * s.height == k * s.remaining
    ensures LaidOut(values, k, box, placed + rects, NextLeft(s), NextTop(s))
  {
    NextIsFurther(values, s);
    var all := placed + rects;
    forall i | |placed| <= i < |all| ensures all[i] == Placed(values, s, i) {
      assert all[i] == rects[i - |placed|];
    }
    forall i | 0 <= i < |all|
      ensures Inside(all[i], box) && Outside(all[i], NextLeft(s), NextTop(s)) && Area(all[i]) == k * values[i]
    {
      if i >= |placed| {
        StripIsLaidOut(values, box, s, i);
        StripAreas(values, k, s, i);
      }
    }
    forall i, j | 0 <= i < j < |all| ensures !Overlap(all[i], all[j]) {
      if j >= |placed| { NewIsApart(values, placed, s, all, i, j); }
    }
  }

  lemma NewIsApart(values: seq<real>, placed: seq<Rect>, s: Strip, all: seq<Rect>, i: nat, j: nat)
    requires GoodStrip(values, s) && s.pos == |placed| <= |all| == s.split && placed == all[..|placed|]
    requires forall e | |placed| <= e < |all| :: all[e] == Placed(values, s, e)
    requires forall e | 0 <= e < |placed| :: Outside(placed[e], s.left, s.top)
    requires i < j && |placed| <= j < |all|
    ensures !Overlap(all[i], all[j])
  {
    PlacedInside(values, s, j);
    if i >= |placed| {
      PlacedApart(values, s, i, j);
    } else {
      assert all[i] == placed[i];
    }
  }

  /** Where the box begins once the strip is cut off. */
  function NextLeft(s: Strip): real
    requires s.remaining > 0.0
  {
    if s.isRow then s.left else s.left + Share(s.width, s.total, s.remaining)
  }

  function NextTop(s: Strip): real
    requires s.remaining > 0.0
  {
    if s.isRow then s.top + Share(s.height, s.total, s.remaining) else s.top
  }

  lemma NextIsFurther(values: seq<real>, s: Strip)
    requires GoodStrip(values, s)
    ensures s.left <= NextLeft(s) <= s.left + s.width && s.top <= NextTop(s) <= s.top + s.height
    ensures s.total == s.remaining ==> NextLeft(s) == s.left + s.width || NextTop(s) == s.top + s.height
  {
    Across(if s.isRow then s.height else s.width, s, values);
  }

  /** Cutting a strip off takes area and value in the same proportion. */
  lemma StaysFair(values: seq<real>, k: real, s: Strip)
    requires GoodStrip(values, s) && s.width * s.height == k * s.remaining
    ensures (s.left + s.width - NextLeft(s)) * (s.top + s.height - NextTop(s)) == k * (s.remaining - s.total)
  {
    var d := if s.isRow then s.height else s.width;
    var w := if s.isRow then s.width else s.height;
    var cut := Share(d, s.total, s.remaining);
    assert w * d == k * s.remaining;
    CutProduct(w, d, s.total, s.remaining, k);
    assert (w * (d - cut)) == k * (s.remaining - s.total);
  }

  lemma CutProduct(w: real, d: real, total: real, remaining: real, k: real)
    requires remaining > 0.0 && w * d == k * remaining
    ensures w * (d - Share(d, total, remaining)) == k * (remaining - total)
  {
    ShareIsScaled(d, total, remaining);
    Ratio(w * d, k, remaining);
    var q := d / remaining;
    assert q * remaining == d;
    Distribute(w, q, remaining, total);
    Scale(w, q, remaining);
    assert (w * q) * remaining == k * remaining;
    Same(w * q, k, remaining);
  }

  lemma Distribute(w: real, q: real, r: real, t: real)
    ensures w * (q * r - q * t) == (w * q) * (r - t)
  {
  }

  lemma Scale(w: real, q: real, r: real)
    ensures w * (q * r) == (w * q) * r
  {
  }

  lemma Same(a: real, b: real, r: real)
    requires r > 0.0 && a * r == b * r
    ensures a == b
  {
    assert (a - b) * r == 0.0;
  }

  /** The strip that the loop cuts off next: across the box if that is not yet as wide as
      `phi` says, or at the start, and as long as no entry gets a worse shape. */
  ghost predicate NextStrip(values: seq<real>, box: Rect, phi: real, pos: nat, left: real, top: real, remaining: real,
      s: Strip)
  {
    && GoodStrip(values, s) && StripOf(box, s) && s.pos == pos && s.left == left && s.top == top
    && s.remaining == remaining == Sum(values[pos..])
    && s.isRow == (s.width / s.height < phi || pos == 0)
    && (forall j | pos < j < s.split :: !EndsAt(values, pos, s.isRow, s.width, s.height, remaining, phi, j))
    && (s.split < |values| ==> EndsAt(values, pos, s.isRow, s.width, s.height, remaining, phi, s.split))
  }

  method CutStrip(values: seq<real>, box: Rect, phi: real, pos: nat, left: real, top: real, remaining: real)
    returns (s: Strip)
    requires Positive(values) && pos < |values| && remaining == Sum(values[pos..])
    requires box.left <= left < box.left + box.width && box.top <= top < box.top + box.height
    ensures NextStrip(values, box, phi, pos, left, top, remaining, s)
  {
    hide EndsAt;
    var w, h := box.left + box.width - left, box.top + box.height - top;
    var isRow := w / h < phi || pos == 0;
    var split, total := ChooseSplit(values, pos, isRow, w, h, remaining, phi);
    s := Strip(left, top, w, h, isRow, pos, split, total, remaining);
  }

  lemma StripIs(values: seq<real>, box: Rect, phi: real, pos: nat, left: real, top: real, remaining: real, s: Strip)
    requires NextStrip(values, box, phi, pos, left, top, remaining, s)
    ensures GoodStrip(values, s) && StripOf(box, s) && pos < s.split <= |values|
    ensures s.pos == pos && s.left == left && s.top == top && s.remaining == remaining
  {
  }

  lemma FairHasRoom(values: seq<real>, k: real, box: Rect, pos: nat, left: real, top: real, remaining: real)
    requires Fair(values, k, box, pos, left, top, remaining)
    ensures pos <= |values| && remaining == Sum(values[pos..]) && box.left <= left && box.top <= top
  {
  }

  /** One turn of the loop in `buildTree`. */
  method LayStrip(values: seq<real>, ghost k: real, box: Rect, phi: real, placed: seq<Rect>, left: real, top: real,
      remaining: real)
    returns (placed': seq<Rect>, left': real, top': real, remaining': real, ghost s: Strip)
    requires Positive(values) && |placed| < |values|
    requires LaidOut(values, k, box, placed, left, top) && Fair(values, k, box, |placed|, left, top, remaining)
    requires box.left + box.width - left >= 1.0 && box.top + box.height - top >= 1.0
    ensures NextStrip(values, box, phi, |placed|, left, top, remaining, s)
    ensures |placed'| == s.split && placed <= placed'
    ensures forall i | |placed| <= i < |placed'| :: placed'[i] == Placed(values, s, i)
    ensures left' == NextLeft(s) && top' == NextTop(s) && remaining' == remaining - s.total
    ensures LaidOut(values, k, box, placed', left', top') && Fair(values, k, box, |placed'|, left', top', remaining')
    ensures |placed'| == |values| ==> left' == box.left + box.width || top' == box.top + box.height
  {
    hide *;
    FairHasRoom(values, k, box, |placed|, left, top, remaining);
    var cut := CutStrip(values, box, phi, |placed|, left, top, remaining);
    s := cut;
    StripIs(values, box, phi, |placed|, left, top, remaining, cut);
    var rects := PlaceStrip(values, cut);
    FairStrip(values, k, box, cut);
    LayMore(values, k, box, placed, cut, rects);
    StripIsFair(values, k, box, cut);
    placed' := placed + rects;
    left' := NextLeft(cut);
    top' := NextTop(cut);
    remaining' := remaining - cut.total;
  }

  lemma NothingIsLaidOut(values: seq<real>, box: Rect) returns (k: real)
    requires values != [] && Positive(values) && box.width >= 0.0 && box.height >= 0.0
    ensures Sum(values) > 0.0 && k == Area(box) / Sum(values)
    ensures LaidOut(values, k, box, [], box.left, box.top)
    ensures Fair(values, k, box, 0, box.left, box.top, Sum(values))
  {
    assert values[0..|values|] == values && values[0..] == values;
    SumNotNegative(values, 0, |values|);
    k := Area(box) / Sum(values);
    assert k * Sum(values) == Area(box);
  }

  /** A strip of the loop, cut off while at least one unit of width and height was left,
      and the rectangles in it. */
  ghost predicate StripAt(values: seq<real>, box: Rect, phi: real, placed: seq<Rect>, s: Strip) {
    && NextStrip(values, box, phi, s.pos, s.left, s.top, s.remaining, s) && s.width >= 1.0 && s.height >= 1.0
    && s.split <= |placed| && forall i | s.pos <= i < s.split :: placed[i] == Placed(values, s, i)
  }

  ghost predicate After(s: Strip, pos: nat, left: real, top: real) {
    s.remaining > 0.0 && pos == s.split && left == NextLeft(s) && top == NextTop(s)
  }

  /** The strips cut off so far, each where the one before ends. */
  ghost predicate Strips(values: seq<real>, box: Rect, phi: real, strips: seq<Strip>, placed: seq<Rect>, left: real,
      top: real)
  {
    && (forall s | s in strips :: StripAt(values, box, phi, placed, s))
    && (forall n | 0 < n < |strips| :: After(strips[n - 1], strips[n].pos, strips[n].left, strips[n].top))
    && (if strips == [] then placed == [] && left == box.left && top == box.top
        else
          && strips[0].pos == 0 && strips[0].left == box.left && strips[0].top == box.top
          && After(strips[|strips| - 1], |placed|, left, top))
  }

  lemma StripStays(values: seq<real>, box: Rect, phi: real, placed: seq<Rect>, placed': seq<Rect>, s: Strip)
    requires StripAt(values, box, phi, placed, s) && placed <= placed'
    ensures StripAt(values, box, phi, placed', s)
  {
    hide NextStrip, Placed, EndsAt;
  }

  lemma NextIsThere(values: seq<real>, box: Rect, phi: real, strips: seq<Strip>, placed: seq<Rect>, left: real,
      top: real,
      s: Strip, placed': seq<Rect>)
    requires Strips(values, box, phi, strips, placed, left, top)
    requires s.pos == |placed| && s.left == left && s.top == top && s.remaining > 0.0
    requires placed <= placed' && StripAt(values, box, phi, placed', s) && s.split == |placed'|
    ensures Strips(values, box, phi, strips + [s], placed', NextLeft(s), NextTop(s))
  {
    var all := strips + [s];
    forall x | x in all ensures StripAt(values, box, phi, placed', x) {
      if x != s { StripStays(values, box, phi, placed, placed', x); }
    }
    hide StripAt, NextLeft, NextTop;
  }

  /** `buildTree`. The rectangles are those of the first entries, each inside the
      box, apart from each other, and with an area in proportion to its value; the
      loop ends before it would look past the table, and leaves out entries only
      when less than one unit of width or height is left. */
  method BuildTree(values: seq<real>, box: Rect, phi: real)
    returns (placed: seq<Rect>, left: real, top: real, ghost strips: seq<Strip>)
    requires values != [] && Positive(values) && box.width >= 0.0 && box.height >= 0.0
    ensures Sum(values) > 0.0 && LaidOut(values, Area(box) / Sum(values), box, placed, left, top)
    ensures |placed| < |values| ==> box.left + box.width - left < 1.0 || box.top + box.height - top < 1.0
    ensures |placed| == |values| ==> left == box.left + box.width || top == box.top + box.height
    ensures Fair(values, Area(box) / Sum(values), box, |placed|, left, top, Sum(values[|placed|..]))
    ensures Strips(values, box, phi, strips, placed, left, top) && |placed| <= |values|
  {
    ghost var k := NothingIsLaidOut(values, box);
    var remaining := Total(values);
    var right, bottom := box.left + box.width, box.top + box.height;
    placed, left, top, strips := [], box.left, box.top, [];
    hide LaidOut, NextStrip, Placed, Sum, Strips;
    NoStrips(values, box, phi);
    while right - left >= 1.0 && bottom - top >= 1.0
      invariant LaidOut(values, k, box, placed, left, top)
      invariant Fair(values, k, box, |placed|, left, top, remaining)
      invariant |placed| == |values| ==> left == right || top == bottom
      invariant Strips(values, box, phi, strips, placed, left, top)
      decreases |values| - |placed|
    {
      ghost var before, l, t := placed, left, top;
      ghost var s;
      placed, left, top, remaining, s := LayStrip(values, k, box, phi, placed, left, top, remaining);
      StripHasRoom(values, box, phi, before, l, t, s.remaining, s, placed);
      NextIsThere(values, box, phi, strips, before, l, t, s, placed);
      strips := strips + [s];
    }
  }

  lemma NoStrips(values: seq<real>, box: Rect, phi: real)
    ensures Strips(values, box, phi, [], [], box.left, box.top)
  {
  }

  lemma StripHasRoom(values: seq<real>, box: Rect, phi: real, placed: seq<Rect>, left: real, top: real, remaining: real,
      s: Strip, placed': seq<Rect>)
    requires NextStrip(values, box, phi, |placed|, left, top, remaining, s) && |placed'| == s.split
    requires box.left + box.width - left >= 1.0 && box.top + box.height - top >= 1.0
    requires forall i | |placed| <= i < |placed'| :: placed'[i] == Placed(values, s, i)
    ensures s.pos == |placed| && s.left == left && s.top == top && s.remaining > 0.0
    ensures StripAt(values, box, phi, placed', s)
  {
    hide Placed, EndsAt;
  }

  /** What is left stays in proportion. */
  lemma StripIsFair(values: seq<real>, k: real, box: Rect, s: Strip)
    requires GoodStrip(values, s) && StripOf(box, s) && Fair(values, k, box, s.pos, s.left, s.top, s.remaining)
    ensures Fair(values, k, box, s.split, NextLeft(s), NextTop(s), s.remaining - s.total)
    ensures s.split == |values| ==> NextLeft(s) == box.left + box.width || NextTop(s) == box.top + box.height
  {
    FairStrip(values, k, box, s);
    NextIsFurther(values, s);
    StaysFair(values, k, s);
    RestOf(values, s.pos, s.split);
  }

  lemma FairStrip(values: seq<real>, k: real, box: Rect, s: Strip)
    requires StripOf(box, s) && Fair(values, k, box, s.pos, s.left, s.top, s.remaining)
    ensures s.width * s.height == k * s.remaining
  {
    assert s.width == box.left + box.width - s.left && s.height == box.top + box.height - s.top;
  }

  lemma RestOf(values: seq<real>, pos: nat, split: nat)
    requires pos <= split <= |values|
    ensures Sum(values[split..]) == Sum(values[pos..]) - Sum(values[pos..split])
    ensures split == |values| ==> Sum(values[pos..]) == Sum(values[pos..split])
  {
    SumSplit(values, pos, split, |values|);
    assert values[pos..|values|] == values[pos..] && values[split..|values|] == values[split..];
    if split == |values| { assert values[pos..split] == values[pos..]; }
  }

  method Total(values: seq<real>) returns (total: real)
    ensures total == Sum(values)
  {
    total := 0.0;
    for i := 0 to |values|
      invariant total == Sum(values[0..i])
    {
      SumStep(values, 0, i);
      total := total + values[i];
    }
    assert values[0..|values|] == values;
  }

  // ---- The filter ----

  const MAX_ENTRIES := 1000

  /** The places before `i` with a value. */
  function ValuedBefore(table: seq<real>, i: nat): set<nat>
    requires i <= |table|
  {
    set k: nat | k < i && table[k] > 0.0
  }

  /** `idx` are the places that are laid out: those with a value that have fewer than a
      thousand of these before them. */
  ghost predicate Chooses(table: seq<real>, idx: seq<nat>) {
    && (forall a | 0 <= a < |idx| :: idx[a] < |table|)
    && (forall a, b | 0 <= a < b < |idx| :: idx[a] < idx[b])
    && (forall i | 0 <= i < |table| :: i in idx <==> table[i] > 0.0 && |ValuedBefore(table, i)| < 1000)
    && |idx| == var n := |ValuedBefore(table, |table|)|; if n < 1000 then n else 1000
  }

  /** The values at these places, in order. */
  ghost predicate IsFiltered(table: seq<real>, filtered: seq<real>) {
    exists idx :: Chooses(table, idx) && ValuesAt(table, idx, filtered)
  }

  ghost predicate ValuesAt(table: seq<real>, idx: seq<nat>, filtered: seq<real>)
    requires forall a | 0 <= a < |idx| :: idx[a] < |table|
  {
    |filtered| == |idx| && forall a | 0 <= a < |idx| :: filtered[a] == table[idx[a]]
  }

  lemma ChosenIsPositive(table: seq<real>, idx: seq<nat>, filtered: seq<real>)
    requires Chooses(table, idx) && ValuesAt(table, idx, filtered)
    ensures Positive(filtered) && |filtered| <= MAX_ENTRIES
  {
    forall v | v in filtered ensures v > 0.0 {
      var a :| 0 <= a < |filtered| && filtered[a] == v;
      assert idx[a] in idx;
    }
  }

  lemma FilteredIsPositive(table: seq<real>, filtered: seq<real>)
    requires IsFiltered(table, filtered)
    ensures Positive(filtered) && |filtered| <= MAX_ENTRIES
  {
    var idx :| Chooses(table, idx) && ValuesAt(table, idx, filtered);
    ChosenIsPositive(table, idx, filtered);
  }

  lemma ValuedStep(table: seq<real>, i: nat)
    requires i < |table|
    ensures ValuedBefore(table, i + 1) == ValuedBefore(table, i) + if table[i] > 0.0 then {i} else {}
    ensures |ValuedBefore(table, i + 1)| == |ValuedBefore(table, i)| + if table[i] > 0.0 then 1 else 0
  {
    assert i !in ValuedBefore(table, i);
  }

  lemma {:induction false} ValuedGrows(table: seq<real>, i: nat, k: nat)
    requires i <= k <= |table|
    ensures |ValuedBefore(table, i)| <= |ValuedBefore(table, k)|
    decreases k
  {
    if i < k {
      ValuedGrows(table, i, k - 1);
      ValuedStep(table, k - 1);
    }
  }

  /** The places chosen among the first `i`. */
  ghost predicate ChosenBefore(table: seq<real>, idx: seq<nat>, i: nat)
    requires i <= |table|
  {
    && (forall a | 0 <= a < |idx| :: idx[a] < i)
    && (forall a, b | 0 <= a < b < |idx| :: idx[a] < idx[b])
    && (forall k | 0 <= k < i :: k in idx <==> table[k] > 0.0 && |ValuedBefore(table, k)| < 1000)
    && |idx| == var n := |ValuedBefore(table, i)|; if n < 1000 then n else 1000
  }

  lemma ChooseNext(table: seq<real>, idx: seq<nat>, i: nat)
    requires i < |table| && ChosenBefore(table, idx, i) && (table[i] > 0.0 ==> |idx| < 1000)
    ensures ChosenBefore(table, if table[i] > 0.0 then idx + [i] else idx, i + 1)
  {
    ValuedStep(table, i);
    hide ValuedBefore;
    var more := idx + [i];
    forall k: nat ensures k in more <==> k in idx || k == i {
    }
  }

  lemma {:induction false} NoneLeft(table: seq<real>, idx: seq<nat>, i: nat)
    requires i <= |table| && ChosenBefore(table, idx, i) && |idx| == 1000
    ensures Chooses(table, idx)
  {
    forall k | i <= k < |table| ensures |ValuedBefore(table, k)| >= 1000 && k !in idx {
      ValuedGrows(table, i, k);
    }
    ValuedGrows(table, i, |table|);
    hide ValuedBefore;
  }

  /** The filter of `buildTreeMap`: the first thousand entries with a value. */
  method FilterTable(table: seq<real>) returns (filtered: seq<real>)
    ensures IsFiltered(table, filtered)
  {
    hide IsFiltered, ChosenBefore, Chooses;
    filtered := [];
    var i := 0;
    ghost var idx: seq<nat> := [];
    NoneChosen(table);
    while i < |table|
      invariant 0 <= i <= |table| && ChosenBefore(table, idx, i) && |filtered| <= MAX_ENTRIES
      invariant (forall a | 0 <= a < |idx| :: idx[a] < |table|) && ValuesAt(table, idx, filtered)
    {
      if table[i] > 0.0 && |filtered| == MAX_ENTRIES {
        NoneLeft(table, idx, i);
        Filtered(table, idx, filtered);
        return;
      }
      ChooseNext(table, idx, i);
      if table[i] > 0.0 {
        filtered := filtered + [table[i]];
        idx := idx + [i];
      }
      i := i + 1;
    }
    AllChosen(table, idx);
    Filtered(table, idx, filtered);
  }

  lemma NoneChosen(table: seq<real>)
    ensures ChosenBefore(table, [], 0)
  {
    assert ValuedBefore(table, 0) == {};
  }

  lemma AllChosen(table: seq<real>, idx: seq<nat>)
    requires ChosenBefore(table, idx, |table|)
    ensures Chooses(table, idx)
  {
  }

  lemma Filtered(table: seq<real>, idx: seq<nat>, filtered: seq<real>)
    requires Chooses(table, idx) && ValuesAt(table, idx, filtered)
    ensures IsFiltered(table, filtered)
  {
  }

  // ---- `buildTreeMap` ----

  function Larger(a: real, b: real): real {
    if a < b then b else a
  }

  /** The entries of `filtered` from the first on, each in the box, apart from the others,
      with its share of the area; those left out have together no more of it than a strip
      one unit wide or high. */
  ghost predicate IsTreeMap(filtered: seq<real>, placed: seq<Rect>, width: real, height: real) {
    && |placed| <= |filtered|
    && (forall i | 0 <= i < |placed| ::
          Inside(placed[i], Rect(0.0, 0.0, width, height)) &&
            Area(placed[i]) * Sum(filtered) == width * height * filtered[i])
    && (forall i, j | 0 <= i < j < |placed| :: !Overlap(placed[i], placed[j]))
    && width * height * Sum(filtered[|placed|..]) <= Sum(filtered) * Larger(width, height)
  }

  /** `buildTreeMap`: the first thousand entries with a value are laid out, if there
      are any. */
  method BuildTreeMap(table: seq<real>, width: real, height: real, phi: real) returns (placed: seq<Rect>)
    requires width >= 0.0 && height >= 0.0
    ensures exists filtered :: IsFiltered(table, filtered) && IsTreeMap(filtered, placed, width, height)
  {
    hide *;
    var filtered := FilterTable(table);
    FilteredIsPositive(table, filtered);
    if filtered == [] {
      NothingToPlace(width, height);
      return [];
    }
    var box := Rect(0.0, 0.0, width, height);
    var left, top;
    ghost var strips;
    placed, left, top, strips := BuildTree(filtered, box, phi);
    Placing(filtered, width, height, placed, left, top);
  }

  lemma NothingToPlace(width: real, height: real)
    requires width >= 0.0 && height >= 0.0
    ensures IsTreeMap([], [], width, height)
  {
    var none: seq<real> := [];
    assert Sum(none) == 0.0 && none[0..] == none;
  }

  lemma RestArea(values: seq<real>, k: real, width: real, height: real, n: nat, left: real, top: real)
    requires n <= |values| && Fair(values, k, Rect(0.0, 0.0, width, height), n, left, top, Sum(values[n..]))
    ensures 0.0 <= left <= width && 0.0 <= top <= height && (width - left) * (height - top) == k * Sum(values[n..])
  {
  }

  lemma RestOfArea(k: real, area: real, t: real, r: real, w: real, h: real)
    requires t > 0.0 && k == area / t && w * h == k * r
    ensures (w * h) * t == area * r
  {
    Proportion(w * h, area, t, r);
  }

  lemma RestSmall(k: real, area: real, t: real, r: real, w: real, h: real, width: real, height: real)
    requires t > 0.0 && k == area / t && w * h == k * r && 0.0 <= w <= width && 0.0 <= h <= height
    requires r == 0.0 || w < 1.0 || h < 1.0
    ensures area * r <= t * Larger(width, height)
  {
    RestOfArea(k, area, t, r, w, h);
    LargerIsPositive(width, height);
    hide Larger;
    if r == 0.0 {
      Scaled(t, 0.0, Larger(width, height));
    } else {
      StripIsSmall(w, h, width, height);
      RestBound(w * h, t, area, r, Larger(width, height));
    }
  }

  /** What is left is no larger than one unit by the longer side. */
  lemma RestIsSmall(values: seq<real>, k: real, area: real, t: real, r: real, width: real, height: real, n: nat,
      left: real, top: real)
    requires width >= 0.0 && height >= 0.0 && t > 0.0 && n <= |values| && k == area / t && r == Sum(values[n..])
    requires Fair(values, k, Rect(0.0, 0.0, width, height), n, left, top, r)
    requires n < |values| ==> width - left < 1.0 || height - top < 1.0
    ensures area * r <= t * Larger(width, height)
  {
    RestArea(values, k, width, height, n, left, top);
    NoneIsNothing(values);
    hide *;
    RestSmall(k, area, t, r, width - left, height - top, width, height);
  }

  lemma NoneIsNothing(values: seq<real>)
    ensures Sum(values[|values|..]) == 0.0
  {
    assert values[|values|..] == [];
  }

  lemma LargerIsPositive(a: real, b: real)
    requires a >= 0.0 && b >= 0.0
    ensures Larger(a, b) >= 0.0
  {
  }

  lemma RestBound(a: real, t: real, area: real, r: real, l: real)
    requires t > 0.0 && a * t == area * r && a <= l
    ensures area * r <= t * l
  {
    Scaled(t, a, l);
  }

  lemma StripIsSmall(w: real, h: real, width: real, height: real)
    requires 0.0 <= w <= width && 0.0 <= h <= height && (w < 1.0 || h < 1.0)
    ensures w * h <= Larger(width, height)
  {
    if w < 1.0 { Scaled(h, w, 1.0); } else { Scaled(w, h, 1.0); }
  }

  lemma Scaled(t: real, a: real, b: real)
    requires t >= 0.0 && a <= b
    ensures t * a <= t * b
  {
  }

  lemma {:induction false} Placing(filtered: seq<real>, width: real, height: real, placed: seq<Rect>, left: real,
      top: real)
    requires width >= 0.0 && height >= 0.0 && Sum(filtered) > 0.0 && |placed| <= |filtered|
    requires var box := Rect(0.0, 0.0, width, height); var k := Area(box) / Sum(filtered);
             && LaidOut(filtered, k, box, placed, left, top)
             && Fair(filtered, k, box, |placed|, left, top, Sum(filtered[|placed|..]))
    requires |placed| < |filtered| ==> width - left < 1.0 || height - top < 1.0
    ensures IsTreeMap(filtered, placed, width, height)
  {
    var box := Rect(0.0, 0.0, width, height);
    BoxArea(width, height);
    hide *;
    Proportions(filtered, box, placed, left, top);
    var t, r := Sum(filtered), Sum(filtered[|placed|..]);
    RestIsSmall(filtered, Area(box) / t, Area(box), t, r, width, height, |placed|, left, top);
    ArePlaced(filtered, Area(box) / Sum(filtered), box, placed, left, top);
    MakesTreeMap(filtered, placed, width, height);
  }

  lemma BoxArea(width: real, height: real)
    ensures Area(Rect(0.0, 0.0, width, height)) == width * height
  {
  }

  lemma ArePlaced(values: seq<real>, k: real, box: Rect, placed: seq<Rect>, left: real, top: real)
    requires LaidOut(values, k, box, placed, left, top)
    ensures forall i | 0 <= i < |placed| :: Inside(placed[i], box)
    ensures forall i, j | 0 <= i < j < |placed| :: !Overlap(placed[i], placed[j])
  {
  }

  lemma {:induction false} MakesTreeMap(filtered: seq<real>, placed: seq<Rect>, width: real, height: real)
    requires |placed| <= |filtered|
    requires forall i | 0 <= i < |placed| :: Inside(placed[i], Rect(0.0, 0.0, width, height))
    requires forall i | 0 <= i < |placed| :: Area(placed[i]) * Sum(filtered) == width * height * filtered[i]
    requires forall i, j | 0 <= i < j < |placed| :: !Overlap(placed[i], placed[j])
    requires width * height * Sum(filtered[|placed|..]) <= Sum(filtered) * Larger(width, height)
    ensures IsTreeMap(filtered, placed, width, height)
  {
    hide Inside, Area, Sum, Overlap, Larger;
  }

  lemma {:induction false} Proportions(values: seq<real>, box: Rect, placed: seq<Rect>, left: real, top: real)
    requires Sum(values) > 0.0 && LaidOut(values, Area(box) / Sum(values), box, placed, left, top)
    ensures forall j | 0 <= j < |placed| :: Area(placed[j]) * Sum(values) == Area(box) * values[j]
  {
    hide Area, Sum;
    forall j | 0 <= j < |placed| ensures Area(placed[j]) * Sum(values) == Area(box) * values[j] {
      assert Area(placed[j]) == (Area(box) / Sum(values)) * values[j];
      Proportion(Area(placed[j]), Area(box), Sum(values), values[j]);
    }
  }

  lemma Proportion(a: real, b: real, t: real, v: real)
    requires t > 0.0 && a == (b / t) * v
    ensures a * t == b * v
  {
    var q := b / t;
    assert q * t == b;
    assert (q * v) * t == (q * t) * v;
  }
}
