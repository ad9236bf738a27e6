/** The midpoint circle of the stick display. */
module Circle {
  import opened Arithmetic
  import opened Lines

  /** (x, y) belongs to the octant arc: x is the whole part of the distance at which
      the circle crosses the row, counted so that x² + (y + 1)² <= r² + 1. */
  ghost predicate OnArc(r: int, x: int, y: int) {
    && 0 <= x && 0 <= y
    && Error(r, x, y) <= 0 < Error(r, x + 1, y)
  }

  function Error(r: int, x: int, y: int): int {
    x * x + y * y + 2 * y - r * r
  }

  lemma ErrorSteps(r: int, x: int, y: int)
    ensures Error(r, x, y + 1) == Error(r, x, y) + 2 * (y + 1) + 1
    ensures Error(r, x - 1, y) == Error(r, x, y) - (2 * (x - 1) + 1)
    ensures Error(r, x + 1, y) == Error(r, x, y) + 2 * x + 1
  {}

  lemma ErrorGrows(r: int, x: int, y: int, u: int, v: int)
    requires 0 <= x <= u && 0 <= y <= v
    ensures Error(r, x, y) <= Error(r, u, v)
  {
    Product(u - x, u + x);
    Product(v - y, v + y);
    assert (u - x) * (u + x) == u * u - x * x;
    assert (v - y) * (v + y) == v * v - y * y;
  }

  /** A row has at most one point of the arc. */
  lemma ArcIsUnique(r: int, x: int, u: int, y: int)
    requires OnArc(r, x, y) && OnArc(r, u, y)
    ensures x == u
  {
    hide Error;
    if x < u {
      ErrorGrows(r, x + 1, y, u, y);
    } else if u < x {
      ErrorGrows(r, u + 1, y, x, y);
    }
  }

  /** The arc lies around the ideal circle. */
  lemma ArcIsAccurate(r: int, x: int, y: int)
    requires OnArc(r, x, y)
    ensures x * x + y * y + 2 * y <= r * r <= x * x + y * y + 2 * x + 2 * y
  {
    ErrorSteps(r, x, y);
  }

  /** The eight mirror images of an arc point, in the order they are drawn. */
  function Images(x0: int, y0: int, x: int, y: int): seq<Point> {
    [Point(x0 + x, y0 + y), Point(x0 + y, y0 + x), Point(x0 - y, y0 + x), Point(x0 - x, y0 + y),
     Point(x0 - x, y0 - y), Point(x0 - y, y0 - x), Point(x0 + y, y0 - x), Point(x0 + x, y0 - y)]
  }

  /** The images of arc points xs[0], xs[1], ... on rows 0, 1, ... */
  function AllImages(x0: int, y0: int, xs: seq<int>): seq<Point> {
    if xs == [] then []
    else AllImages(x0, y0, xs[..|xs| - 1]) + Images(x0, y0, xs[|xs| - 1], |xs| - 1)
  }

  lemma AllImagesSnoc(x0: int, y0: int, xs: seq<int>, x: int)
    ensures AllImages(x0, y0, xs + [x]) == AllImages(x0, y0, xs) + Images(x0, y0, x, |xs|)
  {
    assert (xs + [x])[..|xs|] == xs;
  }

  /** The distance of a coordinate from the centre. */
  function Apart(a: int, b: int): int {
    if a < b then b - a else a - b
  }

  lemma ImagesAreMirrors(x0: int, y0: int, x: int, y: int, p: Point)
    requires 0 <= x && 0 <= y
    ensures p in Images(x0, y0, x, y) <==>
              (Apart(p.x, x0) == x && Apart(p.y, y0) == y) || (Apart(p.x, x0) == y && Apart(p.y, y0) == x)
  {
    var dx, dy := p.x - x0, p.y - y0;
    assert p == Point(x0 + dx, y0 + dy);
  }

  lemma {:induction false} AllImagesAreMirrors(x0: int, y0: int, xs: seq<int>, p: Point)
    requires forall y | 0 <= y < |xs| :: 0 <= xs[y]
    ensures p in AllImages(x0, y0, xs) <==>
              exists y :: 0 <= y < |xs| && ((Apart(p.x, x0) == xs[y] && Apart(p.y, y0) == y)
                                            || (Apart(p.x, x0) == y && Apart(p.y, y0) == xs[y]))
    decreases |xs|
  {
    hide Images, Apart;
    if xs != [] {
      var last := |xs| - 1;
      AllImagesAreMirrors(x0, y0, xs[..last], p);
      ImagesAreMirrors(x0, y0, xs[last], last, p);
    }
  }

  /** A pixel is drawn exactly when its distances from the centre, the longer one first, are a
      point of the arc: so the eight mirror images of every drawn pixel are drawn. */
  lemma DrawnIsOnArc(x0: int, y0: int, r: int, xs: seq<int>, p: Point)
    requires forall y | 0 <= y < |xs| :: OnArc(r, xs[y], y) && y <= xs[y]
    requires forall x, y | OnArc(r, x, y) && y <= x :: y < |xs| && xs[y] == x
    ensures var dx, dy := Apart(p.x, x0), Apart(p.y, y0);
            p in AllImages(x0, y0, xs) <==> OnArc(r, Max(dx, dy), Min(dx, dy))
  {
    hide AllImages, Images, Error;
    AllImagesAreMirrors(x0, y0, xs, p);
    var dx, dy := Apart(p.x, x0), Apart(p.y, y0);
    if OnArc(r, Max(dx, dy), Min(dx, dy)) {
      assert 0 <= Min(dx, dy) < |xs| && xs[Min(dx, dy)] == Max(dx, dy);
    }
  }

  /** One pass of the loop from an arc point to the next row. */
  lemma NextRow(r: int, x: int, y: int)
    requires OnArc(r, x, y) && y <= x
    ensures var e := Error(r, x, y) + 2 * (y + 1) + 1;
            && e == Error(r, x, y + 1)
            && 0 < Error(r, x + 1, y + 1)
            && (e <= 0 ==> OnArc(r, x, y + 1))
            && (e > 0 ==> e - (2 * (x - 1) + 1) == Error(r, x - 1, y + 1)
                          && (y + 1 <= x - 1 ==> OnArc(r, x - 1, y + 1)))
  {
    hide Error;
    ErrorSteps(r, x, y);
    ErrorSteps(r, x + 1, y);
    ErrorSteps(r, x, y + 1);
  }

  /** Beyond the last drawn row the arc has left the octant. */
  lemma NoMoreRows(r: int, x: int, y: int, u: int, v: int)
    requires -1 <= x < y <= v <= u && 0 < Error(r, x + 1, y)
    ensures !OnArc(r, u, v)
  {
    hide Error;
    ErrorGrows(r, x + 1, y, u, v);
  }

  /** Draws the images of exactly the arc points with y <= x, row by row; `xs` are their x, and
      `errs` the values of the error variable when they are drawn, never positive. */
  method DrawCircle(x0: int, y0: int, r: int) returns (pixels: seq<Point>, xs: seq<int>, ghost errs: seq<int>)
    ensures |errs| == |xs| && forall y | 0 <= y < |xs| :: errs[y] == Error(r, xs[y], y) <= 0
    ensures pixels == AllImages(x0, y0, xs)
    ensures forall y | 0 <= y < |xs| :: OnArc(r, xs[y], y) && y <= xs[y] <= r
    ensures forall y | 0 < y < |xs| :: xs[y - 1] - 1 <= xs[y] <= xs[y - 1]
    ensures r < 0 ==> xs == []
    ensures r >= 0 ==> forall x, y | OnArc(r, x, y) && y <= x :: y < |xs| && xs[y] == x
    ensures r >= 0 ==> forall p :: p in pixels <==>
              var dx, dy := Apart(p.x, x0), Apart(p.y, y0); OnArc(r, Max(dx, dy), Min(dx, dy))
  {
    hide Error, AllImages, Images, OnArc;
    var x, y, err := r, 0, 0;
    pixels, xs, errs := [], [], [];
    FirstRow(r);
    NoImages(x0, y0);
    while x >= y
      invariant y == |xs| && pixels == AllImages(x0, y0, xs)
      invariant err == Error(r, x, y)
      invariant |errs| == |xs| && forall v | 0 <= v < |xs| :: errs[v] == Error(r, xs[v], v) <= 0
      invariant x >= y ==> OnArc(r, x, y) && x <= r
      invariant r >= 0 ==> x >= -1 && 0 < Error(r, x + 1, y)
      invariant forall v | 0 <= v < |xs| :: OnArc(r, xs[v], v) && v <= xs[v] <= r
      invariant forall v | 0 < v < |xs| :: xs[v - 1] - 1 <= xs[v] <= xs[v - 1]
      invariant xs != [] ==> r >= 0 && xs[y - 1] - 1 <= x <= xs[y - 1]
      decreases x - y
    {
      pixels := pixels + Images(x0, y0, x, y);
      AllImagesSnoc(x0, y0, xs, x);
      xs, errs := xs + [x], errs + [err];
      SignsOnArc(r, x, y, err);
      NextRow(r, x, y);
      if err <= 0 {
        y := y + 1;
        err := err + 2 * y + 1;
      }
      if err > 0 {
        x := x - 1;
        err := err - (2 * x + 1);
      }
    }
    if r >= 0 {
      forall u, v | OnArc(r, u, v) && v <= u ensures 0 <= v < |xs| && xs[v] == u {
        SignsOnArc(r, u, v, Error(r, u, v));
        if v < |xs| {
          ArcIsUnique(r, u, xs[v], v);
        } else {
          NoMoreRows(r, x, y, u, v);
        }
      }
      forall p {
        DrawnIsOnArc(x0, y0, r, xs, p);
      }
    }
  }

  /** The signs on the arc. */
  lemma SignsOnArc(r: int, x: int, y: int, err: int)
    requires OnArc(r, x, y) && err == Error(r, x, y)
    ensures err <= 0 && 0 <= x && 0 <= y
  {}

  lemma FirstRow(r: int)
    ensures Error(r, r, 0) == 0
    ensures r >= 0 ==> OnArc(r, r, 0) && 0 < Error(r, r + 1, 0)
  {
    ErrorSteps(r, r, 0);
  }

  lemma NoImages(x0: int, y0: int)
    ensures AllImages(x0, y0, []) == []
  {}
}
