/**
 * RoadMap.intersectionTest: where the infinite lines through two edges cross.
 *
 * Each line is put in implicit form A·x + B·y = C from its endpoints, and the
 * 2x2 system is solved by Cramer's rule unless |A1·B2 − A2·B1| < 0.001. The
 * computation is over `real`; the source computes in floating point. No check
 * is made that the point lies within either segment.
 */
module LineIntersection {

  import opened Options
  import opened GlMatrix

  /** The implicit line a·x + b·y = c. */
  datatype Line = Line(a: real, b: real, c: real)

  /** Below this |determinant| the lines count as parallel. */
  const Epsilon: real := 0.001

  predicate OnLine(l: Line, x: real, y: real) {
    l.a * x + l.b * y == l.c
  }

  /** A = y2 − y1, B = x1 − x2, C = A·x1 + B·y1: the line through both endpoints. */
  function LineThrough(p1: V3, p2: V3): Line {
    var a := p2.y - p1.y;
    var b := p1.x - p2.x;
    Line(a, b, a * p1.x + b * p1.y)
  }

  /** Both endpoints of an edge lie on the line computed for it. */
  lemma LineThroughEndpoints(p1: V3, p2: V3)
    ensures OnLine(LineThrough(p1, p2), p1.x, p1.y) && OnLine(LineThrough(p1, p2), p2.x, p2.y)
  {
  }

  function Det(l1: Line, l2: Line): real {
    l1.a * l2.b - l2.a * l1.b
  }

  function Abs(r: real): real {
    if r < 0.0 then -r else r
  }

  /** Cramer's rule gives a point on both lines whenever the determinant is not zero. */
  lemma CramerSolves(l1: Line, l2: Line)
    requires Det(l1, l2) != 0.0
    ensures var d := Det(l1, l2);
            var x := (l2.b * l1.c - l1.b * l2.c) / d;
            var y := (l1.a * l2.c - l2.a * l1.c) / d;
            OnLine(l1, x, y) && OnLine(l2, x, y)
  {
    var d := Det(l1, l2);
    var x := (l2.b * l1.c - l1.b * l2.c) / d;
    var y := (l1.a * l2.c - l2.a * l1.c) / d;
    assert l1.a * x * d + l1.b * y * d == l1.c * d by {
      assert x * d == l2.b * l1.c - l1.b * l2.c;
      assert y * d == l1.a * l2.c - l2.a * l1.c;
      calc {
        l1.a * x * d + l1.b * y * d;
        l1.a * (l2.b * l1.c - l1.b * l2.c) + l1.b * (l1.a * l2.c - l2.a * l1.c);
        l1.c * d;
      }
    }
    assert l2.a * x * d + l2.b * y * d == l2.c * d by {
      assert x * d == l2.b * l1.c - l1.b * l2.c;
      assert y * d == l1.a * l2.c - l2.a * l1.c;
      calc {
        l2.a * x * d + l2.b * y * d;
        l2.a * (l2.b * l1.c - l1.b * l2.c) + l2.b * (l1.a * l2.c - l2.a * l1.c);
        l2.c * d;
      }
    }
    CancelNonZero(l1.a * x + l1.b * y, l1.c, d);
    CancelNonZero(l2.a * x + l2.b * y, l2.c, d);
  }

  lemma CancelNonZero(u: real, v: real, d: real)
    requires d != 0.0 && u * d == v * d
    ensures u == v
  {
    assert (u - v) * d == 0.0;
  }

  /** Cramer's rule on two implicit lines; nothing when |det| < 0.001. */
  function Solve(l1: Line, l2: Line): (r: Option<V3>)
    ensures r.None? <==> Abs(Det(l1, l2)) < Epsilon
    ensures r.Some? ==> r.value.z == 0.0 && OnLine(l1, r.value.x, r.value.y) && OnLine(l2, r.value.x, r.value.y)
  {
    var det := Det(l1, l2);
    if Abs(det) < Epsilon then None
    else
      CramerSolves(l1, l2);
      Some(V3((l2.b * l1.c - l1.b * l2.c) / det, (l1.a * l2.c - l2.a * l1.c) / det, 0.0))
  }

  /**
   * intersectionTest(e, f) for e = e1–e2 and f = f1–f2: Solve on the lines
   * through the two edges.
   */
  function IntersectionTest(e1: V3, e2: V3, f1: V3, f2: V3): Option<V3> {
    Solve(LineThrough(e1, e2), LineThrough(f1, f2))
  }

  /** Any x, y that clear the denominators of Cramer's rule are what Solve returns. */
  lemma SolveAt(l1: Line, l2: Line, x: real, y: real)
    requires Abs(Det(l1, l2)) >= Epsilon
    requires x * Det(l1, l2) == l2.b * l1.c - l1.b * l2.c
    requires y * Det(l1, l2) == l1.a * l2.c - l2.a * l1.c
    ensures Solve(l1, l2) == Some(V3(x, y, 0.0))
  {
    var d := Det(l1, l2);
    var nx, ny := l2.b * l1.c - l1.b * l2.c, l1.a * l2.c - l2.a * l1.c;
    assert d != 0.0;
    assert (nx / d) * d == nx;
    assert (ny / d) * d == ny;
    CancelNonZero(x, nx / d, d);
    CancelNonZero(y, ny / d, d);
    var r := Solve(l1, l2);
    assert r.Some? && r.value.x == nx / d && r.value.y == ny / d && r.value.z == 0.0;
  }

  /** A 2x2 homogeneous system with a non-zero determinant has only the zero solution. */
  lemma OnlyZeroSolution(l1: Line, l2: Line, dx: real, dy: real)
    requires Det(l1, l2) != 0.0
    requires l1.a * dx + l1.b * dy == 0.0 && l2.a * dx + l2.b * dy == 0.0
    ensures dx == 0.0 && dy == 0.0
  {
    var d := Det(l1, l2);
    assert d * dx == 0.0 by {
      calc {
        d * dx;
        l2.b * (l1.a * dx + l1.b * dy) - l1.b * (l2.a * dx + l2.b * dy);
        0.0;
      }
    }
    assert d * dy == 0.0 by {
      calc {
        d * dy;
        l1.a * (l2.a * dx + l2.b * dy) - l2.a * (l1.a * dx + l1.b * dy);
        0.0;
      }
    }
  }

  /** The difference of two points on a line solves the line's homogeneous equation. */
  lemma DifferenceOnLine(l: Line, x: real, y: real, u: real, v: real)
    requires OnLine(l, x, y) && OnLine(l, u, v)
    ensures l.a * (x - u) + l.b * (y - v) == 0.0
  {
    assert l.a * (x - u) == l.a * x - l.a * u;
    assert l.b * (y - v) == l.b * y - l.b * v;
  }

  /** When the lines are not parallel, the returned point is their only common point. */
  lemma IntersectionIsUnique(e1: V3, e2: V3, f1: V3, f2: V3, x: real, y: real)
    requires IntersectionTest(e1, e2, f1, f2).Some?
    requires OnLine(LineThrough(e1, e2), x, y) && OnLine(LineThrough(f1, f2), x, y)
    ensures IntersectionTest(e1, e2, f1, f2).value == V3(x, y, 0.0)
  {
    var l1, l2 := LineThrough(e1, e2), LineThrough(f1, f2);
    var p := Solve(l1, l2).value;
    DifferenceOnLine(l1, x, y, p.x, p.y);
    DifferenceOnLine(l2, x, y, p.x, p.y);
    OnlyZeroSolution(l1, l2, x - p.x, y - p.y);
  }

  /** Testing e against f or f against e finds the same point, or none in both cases. */
  lemma IntersectionTestSymmetric(e1: V3, e2: V3, f1: V3, f2: V3)
    ensures IntersectionTest(e1, e2, f1, f2) == IntersectionTest(f1, f2, e1, e2)
  {
    var l1, l2 := LineThrough(e1, e2), LineThrough(f1, f2);
    assert Det(l2, l1) == -Det(l1, l2);
    var r := IntersectionTest(e1, e2, f1, f2);
    if r.Some? {
      IntersectionIsUnique(f1, f2, e1, e2, r.value.x, r.value.y);
    }
  }

  lemma RisingDiagonal()
    ensures LineThrough(V3(0.0, 0.0, 0.0), V3(1.0, 1.0, 0.0)) == Line(1.0, -1.0, 0.0)
  {
  }

  lemma FallingDiagonal()
    ensures LineThrough(V3(0.0, 1.0, 0.0), V3(1.0, 0.0, 0.0)) == Line(-1.0, -1.0, -1.0)
  {
  }

  lemma DiagonalsSolve()
    ensures Solve(Line(1.0, -1.0, 0.0), Line(-1.0, -1.0, -1.0)) == Some(V3(0.5, 0.5, 0.0))
  {
    SolveAt(Line(1.0, -1.0, 0.0), Line(-1.0, -1.0, -1.0), 0.5, 0.5);
  }

  /** Crossing diagonals of the unit square meet at its centre. */
  lemma DiagonalsMeetAtCentre()
    ensures IntersectionTest(V3(0.0, 0.0, 0.0), V3(1.0, 1.0, 0.0), V3(0.0, 1.0, 0.0), V3(1.0, 0.0, 0.0))
         == Some(V3(0.5, 0.5, 0.0))
  {
    RisingDiagonal();
    FallingDiagonal();
    DiagonalsSolve();
  }

  lemma LowerHorizontal()
    ensures LineThrough(V3(0.0, 0.0, 0.0), V3(1.0, 0.0, 0.0)) == Line(0.0, -1.0, 0.0)
  {
  }

  lemma UpperHorizontal()
    ensures LineThrough(V3(0.0, 1.0, 0.0), V3(1.0, 1.0, 0.0)) == Line(0.0, -1.0, -1.0)
  {
  }

  lemma HorizontalsSolve()
    ensures Solve(Line(0.0, -1.0, 0.0), Line(0.0, -1.0, -1.0)).None?
  {
  }

  /** Two horizontal edges are parallel: no intersection. */
  lemma ParallelEdgesGiveNothing()
    ensures IntersectionTest(V3(0.0, 0.0, 0.0), V3(1.0, 0.0, 0.0), V3(0.0, 1.0, 0.0), V3(1.0, 1.0, 0.0)).None?
  {
    LowerHorizontal();
    UpperHorizontal();
    HorizontalsSolve();
  }

  lemma VerticalAtTwo()
    ensures LineThrough(V3(2.0, -1.0, 0.0), V3(2.0, 1.0, 0.0)) == Line(2.0, 0.0, 4.0)
  {
  }

  lemma ApartSolve()
    ensures Solve(Line(0.0, -1.0, 0.0), Line(2.0, 0.0, 4.0)) == Some(V3(2.0, 0.0, 0.0))
  {
    SolveAt(Line(0.0, -1.0, 0.0), Line(2.0, 0.0, 4.0), 2.0, 0.0);
  }

  /** The test is on infinite lines: segments that do not touch still give a point. */
  lemma DisjointSegmentsStillMeet()
    ensures IntersectionTest(V3(0.0, 0.0, 0.0), V3(1.0, 0.0, 0.0), V3(2.0, -1.0, 0.0), V3(2.0, 1.0, 0.0))
         == Some(V3(2.0, 0.0, 0.0))
  {
    LowerHorizontal();
    VerticalAtTwo();
    ApartSolve();
  }

}
