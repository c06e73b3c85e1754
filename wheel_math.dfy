/**
  Pure arithmetic of one wheel column of the time picker: the wrapped labels of
  the rendered window, JavaScript's remainder, the snap to the nearest item, the
  wrap-around translation of the list and the offset-to-value resolution.
  Offsets are pixels; a more negative offset moves the list further up.
 */
module WheelMath {

  datatype Option<T> = None | Some(value: T)

  /** Padding entries around the real values: two before value 0, two after the last one. */
  const FakeCount: int := 4

  /** One column: `n` values (24 hours or 60 minutes) and the item height `h` in pixels. */
  datatype Config = Config(n: int, h: int) {
    /** The height is a positive even pixel count, so half an item is a whole number. */
    predicate Valid() {
      n >= 1 && h > 0 && h % 2 == 0
    }

    /** Height of the whole rendered window of `n + FakeCount` items. */
    function ListHeight(): int {
      h * (n + FakeCount)
    }
  }

  function Abs(x: int): nat {
    if x < 0 then -x else x
  }

  /** `Math.sign` on integers. */
  function Sign(x: int): int {
    if x > 0 then 1 else if x < 0 then -1 else 0
  }

  /** Multiplying by a positive height keeps the order of item numbers. */
  lemma MulMono(a: int, b: int, h: int)
    requires h > 0
    ensures a <= b ==> a * h <= b * h
    ensures a < b ==> a * h < b * h
  {
  }

  /** Uniqueness of quotient and remainder: the arithmetic fact most proofs below rest on. */
  lemma DivModUnique(a: int, b: int, q: int, r: int)
    requires b > 0 && 0 <= r < b && a == q * b + r
    ensures a / b == q && a % b == r
  {
    var d := q - a / b;
    assert d * b == a % b - r;
    MulMono(1, d, b);
    MulMono(d, -1, b);
  }

  /** A multiple of `h` is on the item grid, and its quotient is its item number. */
  lemma OnGrid(k: int, h: int)
    requires h > 0
    ensures (k * h) % h == 0 && (k * h) / h == k
  {
    DivModUnique(k * h, h, k, 0);
  }

  /** A grid point strictly between `lo * h - h` and `hi * h + h` lies on one of items lo..hi. */
  lemma GridSlot(t: int, h: int, lo: int, hi: int) returns (k: int)
    requires h > 0 && t % h == 0 && (lo - 1) * h < t < (hi + 1) * h
    ensures t == k * h && lo <= k <= hi
  {
    k := t / h;
    assert t == k * h;
    MulMono(k, lo - 1, h);
    MulMono(hi + 1, k, h);
  }

  /**
    The label of window entry `i` (`i` from -2 to n+1): one wrap of `i` into
    [0, n). For at least two values every entry is a value of the column that
    agrees with `i` modulo `n`; with a single value the padding falls outside.
   */
  function Label(n: int, i: int): (v: int)
    ensures n >= 2 && -FakeCount / 2 <= i < n + FakeCount / 2 ==> 0 <= v < n && v == i % n
  {
    if i < 0 then n + i else if i > n - 1 then i - n else i
  }

  /**
    JavaScript's `a % b` for a positive divisor: it truncates toward zero, so the
    remainder takes the dividend's sign (Dafny's `%` never is negative).
   */
  function JsRem(a: int, b: int): (r: int)
    requires b > 0
    ensures Abs(r) < b
    ensures a >= 0 ==> r >= 0
    ensures a <= 0 ==> r <= 0
    ensures (a - r) % b == 0
  {
    if a >= 0 then
      DivModUnique(a - a % b, b, a / b, 0);
      a % b
    else
      DivModUnique(a + (-a) % b, b, -((-a) / b), 0);
      -((-a) % b)
  }

  /** The bound past which the list wraps: half an item while dragging, a whole item otherwise. */
  function Bound(c: Config, dragging: bool): int {
    if dragging then c.h / 2 else c.h
  }

  /**
    The correction `_offsetToNearesItem` adds to move a non-positive offset onto
    the nearest item boundary. A half-way offset snaps further down the list
    (the correction is negative), so the correction lies in [-h/2, h/2), which
    determines it uniquely. An offset already on the grid needs no correction.
   */
  function Snap(c: Config, offset: int): (r: int)
    requires c.Valid()
    ensures -c.h / 2 <= r < c.h / 2
    ensures offset <= 0 ==> (offset + r) % c.h == 0
    ensures offset % c.h == 0 ==> r == 0
  {
    var scroll := Abs(JsRem(offset, c.h));
    ScrollOffset(c, offset);
    var r := if c.h - scroll > c.h / 2 then scroll else -(c.h - scroll);
    SnapOnGrid(c, offset, scroll, r);
    r
  }

  /** The distance `Math.abs(offset % h)` of an offset below the item boundary above it. */
  lemma ScrollOffset(c: Config, offset: int)
    requires c.Valid()
    ensures offset <= 0 ==> (offset + Abs(JsRem(offset, c.h))) % c.h == 0
    ensures offset % c.h == 0 ==> Abs(JsRem(offset, c.h)) == 0
  {
    var r := JsRem(offset, c.h);
    if offset % c.h == 0 {
      var q := offset / c.h;
      assert offset == q * c.h;
      if offset < 0 {
        DivModUnique(-offset, c.h, -q, 0);
      }
    }
  }

  /** Both snap directions from a non-positive offset land on the grid. */
  lemma SnapOnGrid(c: Config, offset: int, scroll: int, r: int)
    requires c.Valid() && 0 <= scroll < c.h
    requires offset <= 0 ==> (offset + scroll) % c.h == 0
    requires r == scroll || r == scroll - c.h
    ensures offset <= 0 ==> (offset + r) % c.h == 0
  {
    if offset <= 0 && r != scroll {
      var q := (offset + scroll) / c.h;
      assert offset + scroll == q * c.h;
      DivModUnique(offset + r, c.h, q - 1, 0);
    }
  }

  /**
    `_changeElTranslateY` on its integers: move the list by `delta`; past the top
    bound re-anchor near the bottom of the window, past the bottom bound
    re-anchor near the top. Inside the bounds this is the cyclic shift; past a
    bound it falls short of the cyclic shift by how far the offset was from
    that bound before the move.
   */
  function Translate(c: Config, offset: int, delta: int, dragging: bool): (r: int)
    requires c.Valid()
    ensures var b, t := Bound(c, dragging), offset + delta;
      -(c.n * c.h) - b <= t <= -b ==> r == TranslateCyclic(c, offset, delta, dragging)
    ensures var b, t := Bound(c, dragging), offset + delta;
      t > -b ==> r == TranslateCyclic(c, offset, delta, dragging) - (offset + b)
    ensures var b, t := Bound(c, dragging), offset + delta;
      t < -(c.n * c.h) - b ==> r == TranslateCyclic(c, offset, delta, dragging) - (offset + c.n * c.h + b)
  {
    var b := Bound(c, dragging);
    var t := offset + delta;
    assert c.ListHeight() - c.h * FakeCount == c.n * c.h;
    assert c.n * -c.h == -(c.n * c.h);
    if t > -b then delta - c.ListHeight() + c.h * FakeCount - b
    else if t < c.n * -c.h - b then delta - b
    else t
  }

  /** The three cases of Translate, with the window height written out. */
  lemma TranslateCases(c: Config, offset: int, delta: int, dragging: bool)
    requires c.Valid()
    ensures var b, t := Bound(c, dragging), offset + delta;
      Translate(c, offset, delta, dragging) ==
        if t > -b then delta - c.n * c.h - b
        else if t < -(c.n * c.h) - b then delta - b
        else t
  {
    assert c.ListHeight() - c.h * FakeCount == c.n * c.h;
    assert c.n * -c.h == -(c.n * c.h);
  }

  /**
    The wrap Translate evidently intends: shift by one whole cycle of `n` items,
    so the list keeps its position relative to the items it shows. The result
    differs from the plain move by a whole number of cycles, so it shows the
    same value, and inside the bounds it is the plain move.
   */
  function TranslateCyclic(c: Config, offset: int, delta: int, dragging: bool): (r: int)
    requires c.Valid()
    ensures (r - (offset + delta)) % (c.n * c.h) == 0
    ensures var b, t := Bound(c, dragging), offset + delta;
      -(c.n * c.h) - b <= t <= -b ==> r == t
  {
    var b := Bound(c, dragging);
    var t := offset + delta;
    MulMono(0, c.n, c.h);
    DivModUnique(-(c.n * c.h), c.n * c.h, -1, 0);
    DivModUnique(c.n * c.h, c.n * c.h, 1, 0);
    DivModUnique(0, c.n * c.h, 0, 0);
    assert c.n * -c.h == -(c.n * c.h);
    if t > -b then t - c.n * c.h
    else if t < c.n * -c.h - b then t + c.n * c.h
    else t
  }

  /**
    Translate's re-anchoring formulas are the cyclic shift taken from an offset
    that rests exactly on the bound it crosses; from anywhere else they differ.
   */
  lemma WrapsAgreeOnlyAtBound(c: Config, offset: int, delta: int, dragging: bool)
    requires c.Valid()
    ensures var b, t := Bound(c, dragging), offset + delta;
      t > -b ==> (Translate(c, offset, delta, dragging) == TranslateCyclic(c, offset, delta, dragging)
                  <==> offset == -b)
    ensures var b, t := Bound(c, dragging), offset + delta;
      t <= -b && t < -c.n * c.h - b ==> (Translate(c, offset, delta, dragging) == TranslateCyclic(c, offset, delta, dragging)
                  <==> offset == -c.n * c.h - b)
  {
    TranslateCases(c, offset, delta, dragging);
  }

  /**
    The index `_selectCurrentEl` reads, `|offset / h| + 1`. It is a whole number
    only on the item grid; off the grid the element lookup finds nothing.
   */
  function ItemIndex(c: Config, offset: int): (idx: Option<int>)
    requires c.Valid()
    ensures idx.Some? <==> offset % c.h == 0
    ensures idx.Some? ==> idx.value >= 1 && (idx.value - 1) * c.h == Abs(offset)
  {
    if offset % c.h == 0 then
      GridDistance(c, offset);
      Some(Abs(offset) / c.h + 1)
    else None
  }

  /** A grid offset is a whole number of items away from offset 0. */
  lemma GridDistance(c: Config, offset: int)
    requires c.Valid() && offset % c.h == 0
    ensures (Abs(offset) / c.h) * c.h == Abs(offset)
  {
    var q := offset / c.h;
    assert offset == q * c.h;
    if offset < 0 {
      DivModUnique(-offset, c.h, -q, 0);
    }
  }

  /**
    The value the column reports for an offset: the label of the window entry
    at ItemIndex, or nothing when that entry does not exist (a missing element
    whose `id` cannot be read).
   */
  function Resolve(c: Config, offset: int): (v: Option<int>)
    requires c.Valid()
    ensures v.Some? ==> offset % c.h == 0
    ensures v.Some? && c.n >= 2 ==> 0 <= v.value < c.n
  {
    match ItemIndex(c, offset)
    case None => None
    case Some(idx) =>
      if idx < c.n + FakeCount then Some(Label(c.n, idx - FakeCount / 2)) else None
  }

  /** Offset `-k * h` for item slots k = 1 .. n+1 shows value (k - 1) mod n at index k + 1. */
  lemma ResolveSlot(c: Config, k: int)
    requires c.Valid() && c.n >= 2 && 1 <= k <= c.n + 1
    ensures ItemIndex(c, -k * c.h) == Some(k + 1)
    ensures Resolve(c, -k * c.h) == Some((k - 1) % c.n)
  {
    OnGrid(-k, c.h);
    OnGrid(k, c.h);
    assert -k * c.h == (-k) * c.h;
  }

  /** `_getStartElOffset`'s clamp: a start index past the last value falls back to 0. */
  function StartSlot(n: int, start: int): int {
    if start + 1 > n then 0 else start
  }

  /** JavaScript truthiness of the optional start index: absent and 0 are both false. */
  predicate HasStart(start: Option<int>) {
    start.Some? && start.value != 0
  }

  /**
    The transform the window is first rendered with: item `start + 1` for a
    truthy start index (clamped), otherwise one item up, which centres value 0.
   */
  function InitialOffset(c: Config, start: Option<int>): int {
    if HasStart(start) then -(StartSlot(c.n, start.value) + 1) * c.h else -c.h
  }

  /**
    The column first shows its start index, or 0 when there is none or it is out
    of range (the out-of-range case is logged, not thrown).
   */
  lemma InitialShowsStart(c: Config, start: Option<int>)
    requires c.Valid()
    ensures c.n >= 2 && (start.Some? ==> start.value >= 0) ==>
      Resolve(c, InitialOffset(c, start)) ==
        Some(if start.None? || start.value >= c.n then 0 else start.value)
  {
    if c.n < 2 {
    } else if start.Some? && start.value < 0 {
    } else if HasStart(start) {
      var k := StartSlot(c.n, start.value) + 1;
      ResolveSlot(c, k);
      assert -k * c.h == -(StartSlot(c.n, start.value) + 1) * c.h;
    } else {
      ResolveSlot(c, 1);
    }
  }
}
