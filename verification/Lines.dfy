/** The two line rasterisers of the stick firmware, and how far they agree. */
module Lines {
  import opened Arithmetic

  datatype Point = Point(x: int, y: int)

  function Abs(a: int): (r: int)
    ensures r >= 0
  {
    if a < 0 then -a else a
  }

  function Toward(a: int, b: int): int {
    if a < b then 1 else -1
  }

  // ----- The ideal line -----

  /** How far, in units of 1 / major, j minor steps are ahead of the ideal line
      after k major steps. */
  function Off(major: int, minor: int, k: int, j: int): int {
    j * major - k * minor
  }

  lemma OffStep(major: int, minor: int, k: int, j: int)
    ensures Off(major, minor, k + 1, j) == Off(major, minor, k, j) - minor
    ensures Off(major, minor, k, j + 1) == Off(major, minor, k, j) + major
    ensures Off(major, minor, k + 1, j + 1) == Off(major, minor, k, j) + major - minor
  {
    assert (k + 1) * minor == k * minor + minor;
    assert (j + 1) * major == j * major + major;
  }

  lemma OffOrder(major: int, minor: int, k: int, i: int, j: int)
    requires major > 0 && i < j
    ensures Off(major, minor, k, j) >= Off(major, minor, k, i) + major
  {
    Product(j - i - 1, major);
    assert (j - i - 1) * major == j * major - i * major - major;
  }

  lemma OffEnds(major: int, minor: int)
    ensures Off(major, minor, 0, 0) == 0 && Off(major, minor, major, minor) == 0
  {
    assert minor * major == major * minor;
  }

  lemma OffMirror(major: int, minor: int, k: int, j: int)
    ensures Off(major, minor, major - k, minor - j) == -Off(major, minor, k, j)
  {
    assert (minor - j) * major == minor * major - j * major;
    assert (major - k) * minor == major * minor - k * minor;
    assert minor * major == major * minor;
  }

  /** On a diagonal the line is never halfway. */
  lemma OffDiagonal(n: int, k: int, j: int)
    requires n > 0
    ensures 2 * Off(n, n, k, j) != -n
  {
    assert j * n - k * n == (j - k) * n;
    if j >= k {
      Product(j - k, n);
    } else {
      Product(k - j - 1, n);
      assert (k - j - 1) * n == -((j - k) * n) - n;
    }
  }

  /** When all minor steps are taken before the end, the line is ahead. */
  lemma OffAtTop(major: int, minor: int, k: int)
    requires k < major && minor >= 0
    ensures Off(major, minor, k, minor) >= minor
  {
    Product(minor, major - k - 1);
    assert minor * (major - k - 1) == minor * major - k * minor - minor;
  }

  /** j is a nearest whole number of minor steps after k major steps, and the smaller
      one where the ideal line is exactly halfway. */
  predicate Nearest(major: int, minor: int, k: int, j: int) {
    -major <= 2 * Off(major, minor, k, j) && (2 * Off(major, minor, k, j) < major || major == 0)
  }

  /** The nearest number of minor steps, in closed form. */
  function MinorSteps(major: int, minor: int, k: int): int
    requires major >= 0
  {
    if major == 0 then 0 else (2 * (k * minor) + major - 1) / (2 * major)
  }

  lemma NearestIsUnique(major: int, minor: int, k: int, i: int, j: int)
    requires major > 0 && Nearest(major, minor, k, i) && Nearest(major, minor, k, j)
    ensures i == j
  {
    hide Off;
    if i < j {
      OffOrder(major, minor, k, i, j);
    } else if j < i {
      OffOrder(major, minor, k, j, i);
    }
  }

  lemma MinorStepsIsNearest(major: int, minor: int, k: int)
    requires major > 0
    ensures Nearest(major, minor, k, MinorSteps(major, minor, k))
  {
    var j := MinorSteps(major, minor, k);
    var a := 2 * (k * minor) + major - 1;
    assert a == (2 * major) * j + a % (2 * major);
    assert (2 * major) * j == 2 * (j * major);
  }

  lemma IsMinorSteps(major: int, minor: int, k: int, j: int)
    requires major > 0 && Nearest(major, minor, k, j)
    ensures j == MinorSteps(major, minor, k)
  {
    MinorStepsIsNearest(major, minor, k);
    NearestIsUnique(major, minor, k, j, MinorSteps(major, minor, k));
  }

  lemma MinorStepsInRange(major: int, minor: int, k: int)
    requires 0 <= minor <= major && 0 <= k <= major && major > 0
    ensures 0 <= MinorSteps(major, minor, k) <= k
    ensures MinorSteps(major, minor, 0) == 0 && MinorSteps(major, minor, major) == minor
  {
    hide MinorSteps;
    var j := MinorSteps(major, minor, k);
    MinorStepsIsNearest(major, minor, k);
    OffEnds(major, minor);
    IsMinorSteps(major, minor, 0, 0);
    IsMinorSteps(major, minor, major, minor);
    OffOfSame(major, minor, k);
    hide Off;
    if j > k {
      OffOrder(major, minor, k, k, j);
    } else if j < 0 {
      OffOrder(major, minor, k, j, 0);
    }
  }

  lemma OffOfSame(major: int, minor: int, k: int)
    requires minor <= major && 0 <= k && 0 <= minor
    ensures Off(major, minor, k, k) >= 0 && Off(major, minor, k, 0) <= 0
  {
    Product(k, major - minor);
    Product(k, minor);
    assert k * (major - minor) == k * major - k * minor;
  }

  /** The k-th pixel on the way from one end to the other. */
  function LinePoint(x0: int, y0: int, x1: int, y1: int, k: int): Point {
    var dx, dy := Abs(x1 - x0), Abs(y1 - y0);
    var m := MinorSteps(Max(dx, dy), Min(dx, dy), k);
    if dx >= dy then At(x0, y0, x1, y1, k, m) else At(x0, y0, x1, y1, m, k)
  }

  /** The pixel i steps along x and j steps along y from one end toward the other. */
  function At(x0: int, y0: int, x1: int, y1: int, i: int, j: int): Point {
    Point(if x0 < x1 then x0 + i else x0 - i, if y0 < y1 then y0 + j else y0 - j)
  }

  /** The line runs from end to end, and i steps along x and j along y it is within
      half a pixel of the ideal line. */
  lemma LineIsAccurate(x0: int, y0: int, x1: int, y1: int, k: int)
    requires 0 <= k <= Max(Abs(x1 - x0), Abs(y1 - y0))
    ensures var dx, dy := Abs(x1 - x0), Abs(y1 - y0);
            var p := LinePoint(x0, y0, x1, y1, k);
            var i, j := Abs(p.x - x0), Abs(p.y - y0);
            2 * Abs(j * dx - i * dy) <= Max(dx, dy) && Max(i, j) == k && p == At(x0, y0, x1, y1, i, j)
    ensures LinePoint(x0, y0, x1, y1, 0) == Point(x0, y0)
    ensures LinePoint(x0, y0, x1, y1, Max(Abs(x1 - x0), Abs(y1 - y0))) == Point(x1, y1)
  {
    hide MinorSteps;
    var dx, dy := Abs(x1 - x0), Abs(y1 - y0);
    var major, minor := Max(dx, dy), Min(dx, dy);
    if major == 0 {
      MinorStepsOfPoint(0);
    } else {
      var m := MinorSteps(major, minor, k);
      MinorStepsIsNearest(major, minor, k);
      MinorStepsInRange(major, minor, k);
      assert Off(major, minor, k, m) == m * major - k * minor;
    }
  }

  lemma MinorStepsOfPoint(minor: int)
    ensures MinorSteps(0, minor, 0) == 0
  {}

  // ----- Display.draw_line -----

  /** The pixels in the order they are drawn. */
  method DrawLine(x0: int, y0: int, x1: int, y1: int) returns (trace: seq<Point>)
    ensures |trace| == Max(Abs(x1 - x0), Abs(y1 - y0)) + 1
    ensures forall k | 0 <= k < |trace| :: trace[k] == LinePoint(x0, y0, x1, y1, k)
  {
    hide Off, MinorSteps;
    var dx, dy := Abs(x1 - x0), Abs(y1 - y0);
    var sx, sy := Toward(x0, x1), Toward(y0, y1);
    var x, y, err := x0, y0, dx - dy;
    ghost var i, j := 0, 0;
    trace := [];
    OffEnds(dx, dy);
    OffEnds(dy, dx);
    while true
      invariant Point(x, y) == At(x0, y0, x1, y1, i, j) && 0 <= i <= dx && 0 <= j <= dy
      invariant if dx >= dy then i == |trace| && Nearest(dx, dy, i, j) else j == |trace| && Nearest(dy, dx, j, i)
      invariant err == dx - dy + (if dx >= dy then Off(dx, dy, i, j) else -Off(dy, dx, j, i))
      invariant forall k | 0 <= k < |trace| :: trace[k] == LinePoint(x0, y0, x1, y1, k)
      decreases dx - i + dy - j
    {
      assert Point(x, y) == LinePoint(x0, y0, x1, y1, |trace|) by {
        if dx >= dy { SameStep(dx, dy, i, j); } else { SameStep(dy, dx, j, i); }
      }
      trace := trace + [Point(x, y)];
      if x == x1 && y == y1 {
        break;
      }
      if dx >= dy { PassStep(dx, dy, i, j); } else { PassStep(dy, dx, j, i); }
      var e2 := 2 * err;
      if e2 > -dy {
        err := err - dy;
        x := x + sx;
        i := i + 1;
      }
      if e2 < dx {
        err := err + dx;
        y := y + sy;
        j := j + 1;
      }
    }
  }

  lemma SameStep(major: int, minor: int, k: int, j: int)
    requires 0 <= minor <= major && Nearest(major, minor, k, j) && 0 <= j <= minor && 0 <= k <= major
    ensures j == MinorSteps(major, minor, k)
  {
    if major > 0 {
      IsMinorSteps(major, minor, k, j);
    }
  }

  /** One pass of the loop, told along the major axis: the major step is always
      taken, the minor one exactly when that stays nearest. */
  lemma PassStep(major: int, minor: int, k: int, j: int)
    requires 0 <= minor <= major && 0 <= k <= major && 0 <= j <= minor && !(k == major && j == minor)
    requires Nearest(major, minor, k, j)
    ensures k < major
    ensures Off(major, minor, k + 1, j) == Off(major, minor, k, j) - minor
    ensures Off(major, minor, k + 1, j + 1) == Off(major, minor, k, j) + major - minor
    ensures var off := Off(major, minor, k, j);
            && 2 * (off + major - minor) > -minor
            && (2 * off + major < 2 * minor ==> j < minor && Nearest(major, minor, k + 1, j + 1))
            && (2 * off + major >= 2 * minor ==> Nearest(major, minor, k + 1, j))
  {
    hide Off;
    var off := Off(major, minor, k, j);
    OffStep(major, minor, k, j);
    if k == major && major > 0 {
      OffEnds(major, minor);
      NearestIsUnique(major, minor, k, j, minor);
    }
    if major == minor && major > 0 {
      OffDiagonal(major, k, j);
    }
    if j == minor && k < major {
      OffAtTop(major, minor, k);
    }
  }

  // ----- ST7789.line -----

  /** Whether the second rasteriser starts at the other end: it always goes
      toward larger coordinates on the major axis. */
  predicate Reversed(x0: int, y0: int, x1: int, y1: int) {
    if Abs(y1 - y0) > Abs(x1 - x0) then y0 > y1 else x0 > x1
  }

  function StickLinePoint(x0: int, y0: int, x1: int, y1: int, k: int): Point {
    if Reversed(x0, y0, x1, y1) then LinePoint(x1, y1, x0, y0, k) else LinePoint(x0, y0, x1, y1, k)
  }

  method StickLine(xa: int, ya: int, xb: int, yb: int) returns (trace: seq<Point>)
    ensures |trace| == Max(Abs(xb - xa), Abs(yb - ya)) + 1
    ensures forall k | 0 <= k < |trace| :: trace[k] == StickLinePoint(xa, ya, xb, yb, k)
  {
    hide Off, MinorSteps;
    var x0, y0, x1, y1 := xa, ya, xb, yb;
    var steep := Abs(y1 - y0) > Abs(x1 - x0);
    if steep {
      x0, y0 := y0, x0;
      x1, y1 := y1, x1;
    }
    if x0 > x1 {
      x0, x1 := x1, x0;
      y0, y1 := y1, y0;
    }
    var dx := x1 - x0;
    var dy := Abs(y1 - y0);
    var err := dx / 2;
    var ystep := if y0 < y1 then 1 else -1;
    ghost var left, low, high, j := x0, y0, y1, 0;
    trace := [];
    OffEnds(dx, dy);
    while x0 <= x1
      invariant x0 == left + |trace| && |trace| <= dx + 1
      invariant y0 == if low < high then low + j else low - j
      invariant err == dx / 2 + Off(dx, dy, |trace|, j)
      invariant 0 <= err && (err < dx || dx == 0) && (dx == 0 ==> j == 0)
      invariant forall k | 0 <= k < |trace| :: trace[k] == StickLinePoint(xa, ya, xb, yb, k)
    {
      ghost var k := |trace|;
      assert j == MinorSteps(dx, dy, k) by {
        if dx > 0 { IsMinorSteps(dx, dy, k, j); } else { MinorStepsOfPoint(dy); }
      }
      if steep {
        trace := trace + [Point(y0, x0)];
      } else {
        trace := trace + [Point(x0, y0)];
      }
      assert trace[k] == StickLinePoint(xa, ya, xb, yb, k);
      OffStep(dx, dy, k, j);
      err := err - dy;
      if err < 0 {
        y0 := y0 + ystep;
        err := err + dx;
        j := j + 1;
      }
      x0 := x0 + 1;
    }
  }

  // ----- How far they agree -----

  /** The ideal line is exactly halfway between two pixels after k major steps. */
  predicate Halfway(major: int, minor: int, k: int) {
    major > 0 && (2 * (k * minor)) % (2 * major) == major
  }

  lemma HalfwayMeans(major: int, minor: int, k: int)
    requires major > 0
    ensures Halfway(major, minor, k) <==> 2 * Off(major, minor, k, MinorSteps(major, minor, k)) == -major
  {
    MinorStepsIsNearest(major, minor, k);
    var j := MinorSteps(major, minor, k);
    var a, b := 2 * (k * minor), 2 * major;
    var q, r := a / b, a % b;
    assert a == q * b + r;
    assert 2 * (j * major) == j * b;
    SameQuotient(b, q, j, r, a - j * b);
  }

  /** Division with a remainder from 0 to b - 1, and one from -b/2 + 1 to b/2. */
  lemma SameQuotient(b: int, q: int, j: int, r: int, s: int)
    requires b > 0 && q * b + r == j * b + s && 0 <= r < b && -b < 2 * s <= b
    ensures 2 * r == b <==> 2 * s == b
  {
    assert (q - j) * b == s - r;
    assert (q - j - 1) * b == (q - j) * b - b;
    if q < j {
      Product(j - q - 1, b);
      assert (j - q - 1) * b == -((q - j) * b) - b;
      assert s - r <= -b;
    } else if q > j {
      Product(q - j - 1, b);
      assert false;
    }
  }

  /** Walking from the other end gives the same pixel, unless the line is halfway there. */
  lemma BackwardSteps(major: int, minor: int, k: int)
    requires major > 0 && 0 <= k <= major && 0 <= minor <= major
    ensures Halfway(major, minor, k) <==> MinorSteps(major, minor, major - k) != minor - MinorSteps(major, minor, k)
  {
    hide Off, MinorSteps, Halfway;
    var j := MinorSteps(major, minor, k);
    MinorStepsIsNearest(major, minor, k);
    MinorStepsIsNearest(major, minor, major - k);
    HalfwayMeans(major, minor, k);
    OffMirror(major, minor, k, j);
    if !Halfway(major, minor, k) {
      IsMinorSteps(major, minor, major - k, minor - j);
    }
  }

  /** At every step along the major axis the two rasterisers draw the same pixel, except
      where they walk in opposite directions and the ideal line is exactly halfway. */
  lemma RasterisersAgree(x0: int, y0: int, x1: int, y1: int, k: int)
    requires 0 <= k <= Max(Abs(x1 - x0), Abs(y1 - y0))
    ensures var major, minor := Max(Abs(x1 - x0), Abs(y1 - y0)), Min(Abs(x1 - x0), Abs(y1 - y0));
            var reversed := Reversed(x0, y0, x1, y1);
            var at := if reversed then major - k else k;
            LinePoint(x0, y0, x1, y1, k) == StickLinePoint(x0, y0, x1, y1, at)
            <==> !(reversed && Halfway(major, minor, k))
  {
    hide MinorSteps, Halfway;
    var major, minor := Max(Abs(x1 - x0), Abs(y1 - y0)), Min(Abs(x1 - x0), Abs(y1 - y0));
    if Reversed(x0, y0, x1, y1) {
      BackwardSteps(major, minor, k);
      assert Abs(x0 - x1) == Abs(x1 - x0) && Abs(y0 - y1) == Abs(y1 - y0);
      if minor == 0 {
        FlatSteps(major, k);
        FlatSteps(major, major - k);
      }
    }
  }

  lemma FlatSteps(major: int, k: int)
    requires major > 0
    ensures MinorSteps(major, 0, k) == 0 && !Halfway(major, 0, k)
  {
    assert k * 0 == 0;
  }
}
