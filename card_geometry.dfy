/** The circular offset arithmetic of Banner.kt: where each card sits relative to the
    viewport, which card is centred, and how tick folds the shared offset back into
    the span of the card ring. All quantities are pixels; the width is a view width
    and therefore never negative. */
module CardGeometry {

  /** Card.getOffset: the card's position offset + width * index, moved by one whole
      ring (count * width) when it falls outside [-(count-1)*width, (count-1)*width].
      With fewer than two cards every card sits at 0. */
  function CardOffset(offset: int, width: nat, count: int, index: int): (r: int)
    ensures count < 2 ==> r == 0
    ensures count >= 2 ==>
      var raw := offset + width * index;
      r == raw || r == raw + count * width || r == raw - count * width
  {
    if count < 2 then 0
    else
      var raw := offset + width * index;
      var range := (count - 1) * width;
      if raw < -range then raw + count * width
      else if raw > range then raw - count * width
      else raw
  }

  /** Card.isSelectedCard and the gesture scans: the card offset lies in
      [-width/2, width/2), with width/2 rounded toward zero, so that for an odd
      width the window is one pixel short of a whole card. */
  predicate IsCentred(cardOffset: int, width: nat)
    ensures width % 2 == 0 ==> (IsCentred(cardOffset, width) <==> -(width as int) <= 2 * cardOffset < width)
    ensures width % 2 == 1 ==> (IsCentred(cardOffset, width) <==> -(width as int) < 2 * cardOffset < width as int - 1)
  {
    -(width / 2) <= cardOffset < width / 2
  }

  /** Kotlin's `%` on Int: the remainder of division truncated toward zero, which
      takes the sign of the dividend. */
  function TruncRem(a: int, m: int): (r: int)
    requires m > 0
    ensures -m < r < m
    ensures a >= 0 ==> r >= 0
    ensures a <= 0 ==> r <= 0
    ensures (a - r) % m == 0
    ensures -m < a < m ==> r == a
  {
    if a >= 0 then
      EuclidRem(a, m);
      a % m
    else
      EuclidRem(-a, m);
      NegatedRem(-a, m);
      -((-a) % m)
  }

  /** Negating a dividend and its remainder still leaves a multiple of m between them. */
  lemma NegatedRem(b: nat, m: int)
    requires m > 0
    ensures (b % m - b) % m == 0
  {
    EuclidRem(b, m);
    var q := b / m;
    assert b % m - b == (-q) * m;
    MultipleModZero(-q, m);
  }

  /** Dafny's `%` on a non-negative dividend: a remainder below m that leaves a
      multiple of m behind. */
  lemma EuclidRem(a: nat, m: int)
    requires m > 0
    ensures 0 <= a % m < m
    ensures a - a % m == (a / m) * m
    ensures (a - a % m) % m == 0
    ensures a < m ==> a % m == a
  {
    MultipleModZero(a / m, m);
  }

  /** A multiple of m leaves no remainder. */
  lemma MultipleModZero(q: int, m: int)
    requires m > 0
    ensures (q * m) % m == 0
  {
    var t := q * m;
    var d := t / m;
    assert t == d * m + t % m;
    assert (q - d) * m == t % m by {
      assert (q - d) * m == q * m - d * m;
    }
    SmallMultipleIsZero(q - d, m);
  }

  /** Kotlin's Float.toInt(), on an exact real: truncation toward zero. */
  function TruncateToInt(x: real): (n: int)
    ensures x >= 0.0 ==> 0 <= n && n as real <= x < n as real + 1.0
    ensures x < 0.0 ==> n <= 0 && n as real - 1.0 < x <= n as real
  {
    if x >= 0.0 then x.Floor else -((-x).Floor)
  }

  /** The normalisation at the end of tick: when the offset has left
      [-(count-1)*width, (count-1)*width] it is reduced by `%= count * width`.
      The result lies strictly within one ring of zero and moves the offset by a
      whole number of rings, so no card changes its place in the ring. */
  function Normalized(offset: int, width: nat, count: int): (r: int)
    requires count >= 2 && width > 0
    ensures -(count * width) < r < count * width
    ensures (offset - r) % (count * width) == 0
    ensures -((count - 1) * width) <= offset <= (count - 1) * width ==> r == offset
  {
    var range := (count - 1) * width;
    assert range < count * width;
    if offset < -range || offset > range then TruncRem(offset, count * width) else offset
  }

  /** A multiple of a positive number m strictly between -m and m is zero. */
  lemma {:induction false} SmallMultipleIsZero(k: int, m: int)
    requires m > 0 && -m < k * m < m
    ensures k == 0
  {
    if k >= 1 {
      MultiplyMonotone(1, k, m);
    } else if k <= -1 {
      MultiplyMonotone(k, -1, m);
    }
  }

  /** Multiplying by a non-negative number keeps the order. */
  lemma MultiplyMonotone(x: int, y: int, m: int)
    requires x <= y && m >= 0
    ensures x * m <= y * m
  {
    assert y * m - x * m == (y - x) * m;
  }

  /** When the offset lies within one ring of zero (as after Normalized), every
      card's offset lies in [-(count-1)*width, (count-1)*width]. */
  lemma NormalizedCardOffsetInRange(offset: int, width: nat, count: int, index: int)
    requires count >= 2 && 0 <= index < count
    requires -(count * width) < offset < count * width
    ensures -((count - 1) * width) <= CardOffset(offset, width, count, index) <= (count - 1) * width
  {
    RingBounds(width, count, index);
  }

  /** The products bounding a card's raw position within the ring. */
  lemma RingBounds(width: nat, count: int, index: int)
    requires count >= 2 && 0 <= index < count
    ensures (count - 1) * width == count * width - width
    ensures 0 <= width * index <= (count - 1) * width
    ensures width <= (count - 1) * width
  {
    MultiplyMonotone(0, index, width);
    MultiplyMonotone(index, count - 1, width);
    MultiplyMonotone(1, count - 1, width);
    assert width * index == index * width;
  }

  /** The number of whole rings getOffset adds to a card's raw position. */
  lemma WrapOf(offset: int, width: nat, count: int, index: int) returns (a: int)
    requires count >= 2
    ensures -1 <= a <= 1
    ensures CardOffset(offset, width, count, index) == offset + width * index + a * (count * width)
  {
    var r := CardOffset(offset, width, count, index);
    var raw := offset + width * index;
    if r == raw {
      a := 0;
    } else if r == raw + count * width {
      a := 1;
    } else {
      a := -1;
    }
  }

  /** The ring identity width*i + a*(count*width) == (i + a*count) * width. */
  lemma RingPosition(width: int, count: int, i: int, a: int)
    ensures width * i + a * (count * width) == (i + a * count) * width
  {
    assert a * (count * width) == (a * count) * width;
  }

  /** At most one card of the ring passes the centred test, so at most one dot is
      drawn in selectedDotColor and each gesture scan starts at most one target. */
  lemma AtMostOneCentred(offset: int, width: nat, count: int, i: int, j: int)
    requires count >= 2 && 0 <= i < count && 0 <= j < count
    requires IsCentred(CardOffset(offset, width, count, i), width)
    requires IsCentred(CardOffset(offset, width, count, j), width)
    ensures i == j
  {
    var a := WrapOf(offset, width, count, i);
    var b := WrapOf(offset, width, count, j);
    CloseRingPositions(CardOffset(offset, width, count, i), CardOffset(offset, width, count, j),
      offset, width, count, i, j, a, b);
  }

  /** Two positions of the ring less than a width apart belong to the same card. */
  lemma CloseRingPositions(ci: int, cj: int, offset: int, width: int, count: int, i: int, j: int, a: int, b: int)
    requires count >= 2 && width > 0 && 0 <= i < count && 0 <= j < count
    requires ci == offset + width * i + a * (count * width)
    requires cj == offset + width * j + b * (count * width)
    requires -width < ci - cj < width
    ensures i == j
  {
    var pi, pj := i + a * count, j + b * count;
    RingPosition(width, count, i, a);
    RingPosition(width, count, j, b);
    assert ci - cj == (pi - pj) * width by {
      assert pi * width - pj * width == (pi - pj) * width;
    }
    SmallMultipleIsZero(pi - pj, width);
    assert j - i == (a - b) * count;
    SmallMultipleIsZero(a - b, count);
  }

  /** With an even width and an offset within one ring of zero, some card passes
      the centred test (and by AtMostOneCentred exactly one does). */
  lemma SomeCardCentred(offset: int, width: nat, count: int) returns (i: int)
    requires count >= 2 && width > 0 && width % 2 == 0
    requires -(count * width) < offset < count * width
    ensures 0 <= i < count && IsCentred(CardOffset(offset, width, count, i), width)
  {
    var c, q := Representative(offset, width);
    var m;
    i, m := CardAtRepresentative(offset, width, count, c, q);
    WrappedOnce(offset, width, count, i, c, m);
  }

  /** A raw position at most one ring away from a centred representative c is
      wrapped by getOffset exactly onto c. */
  lemma WrappedOnce(offset: int, width: nat, count: int, index: int, c: int, m: int)
    requires count >= 2 && width > 0 && -1 <= m <= 1
    requires -(width / 2) <= c < width / 2
    requires offset + width * index == c - m * (count * width)
    ensures CardOffset(offset, width, count, index) == c
  {
    var nw := count * width;
    var raw := offset + width * index;
    var range := (count - 1) * width;
    assert range == nw - width;
    if m == -1 {
      assert raw == c + nw;
      assert raw > range;
    } else if m == 1 {
      assert raw == c - nw;
      assert raw < -range;
    } else {
      assert raw == c;
    }
  }

  /** The representative c of the offset modulo an even width in [-width/2, width/2). */
  lemma Representative(offset: int, width: int) returns (c: int, q: int)
    requires width > 0 && width % 2 == 0
    ensures offset == c + q * width
    ensures -(width / 2) <= c < width / 2
  {
    var h := width / 2;
    q := (offset + h) / width;
    c := (offset + h) % width - h;
  }

  /** The card whose raw position is the representative c plus at most one ring. */
  lemma CardAtRepresentative(offset: int, width: int, count: int, c: int, q: int) returns (i: int, m: int)
    requires count >= 2 && width > 0 && width % 2 == 0
    requires -(count * width) < offset < count * width
    requires offset == c + q * width && -(width / 2) <= c < width / 2
    ensures 0 <= i < count && -1 <= m <= 1
    ensures offset + width * i == c - m * (count * width)
  {
    var nw := count * width;
    i := (-q) % count;
    m := (-q) / count;
    var raw := offset + width * i;
    assert raw == c - m * nw by {
      assert i == -q - m * count;
      RingPosition(width, count, i, m);
      assert width * i + m * nw == (i + m * count) * width;
      assert (i + m * count) * width == -(q * width);
    }
    assert 0 <= width * i <= nw - width by {
      MultiplyMonotone(0, i, width);
      MultiplyMonotone(i, count - 1, width);
      assert (count - 1) * width == nw - width;
    }
    if m >= 2 {
      MultiplyMonotone(2, m, nw);
      assert false;
    } else if m <= -2 {
      MultiplyMonotone(m, -2, nw);
      assert false;
    }
  }

  /** With an odd width the centred window is one pixel narrower than a card, and
      some offsets leave no card centred at all. */
  lemma OddWidthCanLeaveNoCardCentred()
    ensures !IsCentred(CardOffset(540, 1081, 2, 0), 1081)
    ensures !IsCentred(CardOffset(540, 1081, 2, 1), 1081)
  {
  }
}
