/**
 * RoadMap, Edge and Intersection: the generator's state and its imperative
 * operations.
 *
 * Edges and intersections keep references to vec3 objects, not copies: every
 * highway edge's `start` is the walking turtle's own position object, and so is
 * the position of the intersection recorded when that turtle was seeded, so
 * all of them follow the turtle as it moves.
 */
module RoadMaps {

  import opened Options
  import opened GlMatrix
  import opened Raster
  import opened Turtles
  import opened Highway
  import LineIntersection

  /** The width every highway edge is given. */
  const EdgeWidth := 0.01

  /** Positions of the three turtles initialTurtles adds, in push order. */
  const SeedPositions := [V3(0.5, 2.0, 0.0), V3(-1.0, 1.0, 0.0), V3(0.0, 0.1, 0.0)]

  /** The pose the last-seeded turtle, the only one the highway pass moves, starts from. */
  const WalkStart := Pose(V3(0.0, 0.1, 0.0), [])

  /** The branching factor the constructor sets. */
  const DefaultBranches := 2

  /** Edge.getTranformation: align (0,1,0) with the edge, centre it, scale to (width, length, 1). */
  function EdgeTransform(gl: Library, start: V3, end: V3, width: real): Mat4 {
    var dir := Sub(end, start);
    gl.alignedTransform(dir, Midpoint(start, end), V3(width, gl.length(dir), 1.0))
  }

  /** (x, y, 0) at a point: where an edge's end intersection is recorded. */
  function Ground(p: V3): V3 {
    V3(p.x, p.y, 0.0)
  }

  /** Regrouping a concatenation, stated once so that Lay's proof stays small. */
  lemma AppendAssoc<T>(a: seq<T>, b: seq<T>, c: seq<T>)
    ensures (a + b) + c == a + (b + c)
  {
  }

  /** getPopDensity on a fixed raster, as a function value. */
  function DensityOf(img: Image): V3 -> Option<int> {
    (p: V3) => Density(img, p)
  }

  /** The transforms of the first k highway edges along trail: edge i joins trail[i] to trail[i + 1]. */
  function HighwayTransforms(gl: Library, trail: seq<Pose>, k: nat): seq<Mat4>
    requires k < |trail|
  {
    if k == 0 then []
    else HighwayTransforms(gl, trail, k - 1) + [EdgeTransform(gl, trail[k - 1].pos, trail[k].pos, EdgeWidth)]
  }

  class Edge {
    const start: Vec3
    const end: Vec3
    const width: real

    /** Keeps both vec3 objects by reference. */
    constructor (start: Vec3, end: Vec3, width: real)
      ensures this.start == start && this.end == end && this.width == width
    {
      this.start, this.end, this.width := start, end, width;
    }

    /** getTranformation, at the current coordinates of start and end. */
    function Transformation(gl: Library): (m: Mat4)
      reads start, end
      ensures m == EdgeTransform(gl, start.Value(), end.Value(), width)
    {
      EdgeTransform(gl, start.Value(), end.Value(), width)
    }
  }

  class Intersection {
    const position: Vec3

    constructor (position: Vec3)
      ensures this.position == position
    {
      this.position := position;
    }
  }

  class RoadMap {
    var turtle: Turtle
    var turtleStack: seq<Turtle>
    const pixels: array<byte>  // `map` in the source (a keyword here)
    const height: nat
    const width: nat
    const gl: Library
    var branches: int
    var transforms: seq<Mat4>
    var edges: seq<Edge>
    var highwayEdges: seq<Edge>
    var intersections: seq<Intersection>

    /** Every edge is a highway edge, and there is one transform per edge. */
    ghost predicate Valid()
      reads this
    {
      highwayEdges == edges && |transforms| == |edges|
    }

    /** The raster as the density functions see it. */
    function Texture(): Image
      reads pixels
    {
      Image(pixels[..], width, height)
    }

    /** getPopDensity */
    function GetPopDensity(pos: V3): (d: Option<int>)
      reads pixels
      ensures d.Some? <==> 0 <= Index(Texture(), pos, WaterChannel) < pixels.Length
      ensures d.Some? ==> d.value == pixels[Index(Texture(), pos, WaterChannel)] as int
    {
      Density(Texture(), pos)
    }

    /** inWater */
    function InWater(pos: V3): (w: bool)
      reads pixels
      ensures w <==> var wi, li := Index(Texture(), pos, WaterChannel), Index(Texture(), pos, LandChannel);
                     0 <= wi < pixels.Length && 0 <= li < pixels.Length && pixels[wi] > pixels[li]
    {
      Raster.InWater(Texture(), pos)
    }

    /** How the highway pass commits an angle on this map's raster. */
    function Rule(): Chooser
      reads pixels
    {
      ProbeChoice(gl, DensityOf(Texture()))
    }

    /** getTransforms: the transform list itself. */
    function GetTransforms(): seq<Mat4>
      reads this
    {
      transforms
    }

    /**
     * The seed turtles t1, t2, t3 stand on position and orientation objects of
     * their own, x1, x2, x3 record those position objects themselves, and the
     * two that the highway pass never moves are still at their seed positions
     * with the identity orientation.
     */
    ghost predicate Seeds(t1: Turtle, t2: Turtle, t3: Turtle, x1: Intersection, x2: Intersection, x3: Intersection)
      reads t1.position, t2.position, t1.orientation, t2.orientation
    {
      && x1.position == t1.position && x2.position == t2.position && x3.position == t3.position
      && t1.position != t2.position && t1.position != t3.position && t2.position != t3.position
      && t1.orientation != t3.orientation && t2.orientation != t3.orientation
      && t1.position.Value() == SeedPositions[0] && t1.orientation.factors == []
      && t2.position.Value() == SeedPositions[1] && t2.orientation.factors == []
    }

    /**
     * After k iterations walked by t along trail: the edges, intersections and
     * transforms are the old ones followed by one per iteration, every new
     * edge starts at t's own position object and ends where the walk was
     * after it.
     */
    ghost predicate Laid(e0: seq<Edge>, x0: seq<Intersection>, t0: seq<Mat4>,
                         es: seq<Edge>, xs: seq<Intersection>, ts: seq<Mat4>, t: Turtle, trail: seq<Pose>, k: nat)
      requires k < |trail|
      reads set e | e in es :: e.end
      reads set x | x in xs :: x.position
    {
      && |es| == |e0| + k && es[..|e0|] == e0
      && |xs| == |x0| + k && xs[..|x0|] == x0
      && ts == t0 + HighwayTransforms(gl, trail, k)
      && (forall i :: |e0| <= i < |es| ==>
            && es[i].start == t.position && es[i].end != t.position
            && es[i].width == EdgeWidth
            && es[i].end.Value() == trail[i - |e0| + 1].pos)
      && (forall i :: |x0| <= i < |xs| ==>
            && xs[i].position != t.position
            && xs[i].position.Value() == Ground(trail[i - |x0| + 1].pos))
    }

    /** Laid, with t standing at trail[k]. */
    ghost predicate Grown(e0: seq<Edge>, x0: seq<Intersection>, t0: seq<Mat4>,
                          es: seq<Edge>, xs: seq<Intersection>, ts: seq<Mat4>, t: Turtle, trail: seq<Pose>, k: nat)
      requires k < |trail|
      reads t.position, t.orientation
      reads set e | e in es :: e.end
      reads set x | x in xs :: x.position
    {
      Laid(e0, x0, t0, es, xs, ts, t, trail, k) && t.State() == trail[k]
    }

    /**
     * Copies the raster, seeds the root turtle at a random point, records it,
     * then runs the highway pass (which seeds three more) and the grid pass.
     * rx, ry are the two Math.random() draws for the root; draws are those of
     * the highway pass.
     */
    constructor (texture: array<byte>, width: nat, height: nat, gl: Library, rx: real, ry: real, draws: seq<real>)
      requires |draws| == DrawsPerIteration * Iterations
      ensures fresh(pixels) && pixels[..] == texture[..]
      ensures this.width == width && this.height == height && this.gl == gl
      ensures branches == DefaultBranches
      ensures Valid() && |edges| == |highwayEdges| == |transforms| == Iterations
      ensures |turtleStack| == 4 && turtle == turtleStack[3]
      ensures |intersections| == 4 + Iterations
      ensures turtleStack[0].State() == Pose(V3(rx * 2.0 - 1.0, ry * 2.0 - 1.0, 0.0), [])
      ensures intersections[0].position == turtleStack[0].position
      ensures Seeds(turtleStack[1], turtleStack[2], turtleStack[3], intersections[1], intersections[2], intersections[3])
      ensures Grown([], intersections[..4], [], edges, intersections, transforms, turtle, Trail(gl, Rule(), WalkStart, draws, Iterations), Iterations)
    {
      var copy := CopyOf(texture);
      pixels := copy;
      this.width, this.height, this.gl := width, height, gl;
      var root := NewTurtle(V3(rx * 2.0 - 1.0, ry * 2.0 - 1.0, 0.0));
      turtle := root;
      turtleStack := [root];
      var intersection := new Intersection(root.position);
      intersections := [intersection];
      branches := DefaultBranches;
      edges, highwayEdges, transforms := [], [], [];
      new;
      Generate(draws, root, intersection);
    }

    /** The constructor's last two calls, on a map holding only the root turtle and its intersection. */
    method Generate(draws: seq<real>, ghost root: Turtle, ghost x: Intersection)
      requires Valid() && turtleStack == [root] && intersections == [x] && edges == [] && transforms == []
      requires |draws| == DrawsPerIteration * Iterations
      modifies this
      ensures unchanged(pixels)
      ensures Valid() && branches == old(branches)
      ensures |turtleStack| == 4 && turtleStack[0] == root && turtle == turtleStack[3]
      ensures |intersections| == 4 + Iterations && intersections[0] == x
      ensures Seeds(turtleStack[1], turtleStack[2], turtleStack[3], intersections[1], intersections[2], intersections[3])
      ensures Grown([], intersections[..4], [], edges, intersections, transforms, turtle, Trail(gl, Rule(), WalkStart, draws, Iterations), Iterations)
    {
      DrawHighways(draws);
      assert turtleStack[..1] == [root] && intersections[..1] == [x];
      DrawGrids();
    }

    /** The copy of the raster the map keeps. */
    static method CopyOf(texture: array<byte>) returns (copy: array<byte>)
      ensures fresh(copy) && copy[..] == texture[..]
    {
      copy := new byte[texture.Length];
      for i := 0 to texture.Length
        invariant copy[..i] == texture[..i]
      {
        copy[i] := texture[i];
      }
    }

    /** A turtle on fresh objects: vec3.fromValues(p) and quat.create(). */
    static method NewTurtle(p: V3) returns (t: Turtle)
      ensures fresh(t) && fresh(t.position) && fresh(t.orientation)
      ensures t.State() == Pose(p, [])
    {
      var position := new Vec3(p.x, p.y, p.z);
      var orientation := new Quat.Identity();
      t := new Turtle(position, orientation);
    }

    /**
     * The highway pass: seeds three turtles, then 101 times pops the top
     * turtle, probes two random headings, commits one, emits an edge and
     * pushes the turtle back. The stack never empties, so the pass always
     * ends by its count, and only the last-seeded turtle ever moves: it walks
     * the highway from WalkStart, one step of Walk per iteration.
     */
    method DrawHighways(draws: seq<real>)
      requires Valid()
      requires |draws| == DrawsPerIteration * Iterations
      modifies this
      ensures Valid()
      ensures branches == old(branches)
      ensures |turtleStack| == |old(turtleStack)| + 3 && turtleStack[..|old(turtleStack)|] == old(turtleStack)
      ensures |intersections| == |old(intersections)| + 3 + Iterations
      ensures intersections[..|old(intersections)|] == old(intersections)
      ensures var n, m := |old(turtleStack)|, |old(intersections)|;
              && fresh(turtleStack[n]) && fresh(turtleStack[n + 1]) && fresh(turtleStack[n + 2])
              && turtle == turtleStack[n + 2]
              && Seeds(turtleStack[n], turtleStack[n + 1], turtleStack[n + 2],
                       intersections[m], intersections[m + 1], intersections[m + 2])
              && Grown(old(edges), intersections[..m + 3], old(transforms), edges, intersections, transforms, turtle, Trail(gl, Rule(), WalkStart, draws, Iterations), Iterations)
    {
      ghost var rule := Rule();
      InitialTurtles();
      ghost var trail := Trail(gl, rule, WalkStart, draws, Iterations);
      TrailFollows(gl, rule, WalkStart, draws);
      Loop(draws, old(edges), intersections, old(transforms), trail);
      assert Rule() == rule;
    }

    /**
     * drawHighways' loop, run with the walking turtle on top of the stack:
     * 101 iterations, each popping that turtle and pushing it back, after
     * which the pass returns. Nothing but the map and that turtle's two
     * objects changes.
     */
    method Loop(draws: seq<real>, ghost e0: seq<Edge>, ghost x0: seq<Intersection>, ghost t0: seq<Mat4>, ghost trail: seq<Pose>)
      requires Valid() && |turtleStack| > 0
      requires |draws| == DrawsPerIteration * Iterations && Follows(gl, Rule(), trail, draws)
      requires Grown(e0, x0, t0, edges, intersections, transforms, turtleStack[|turtleStack| - 1], trail, 0)
      modifies this, turtleStack[|turtleStack| - 1].position, turtleStack[|turtleStack| - 1].orientation
      ensures Valid() && branches == old(branches)
      ensures turtleStack == old(turtleStack) && turtle == turtleStack[|turtleStack| - 1]
      ensures Grown(e0, x0, t0, edges, intersections, transforms, turtle, trail, Iterations)
    {
      ghost var stack, walker, rule := turtleStack, turtleStack[|turtleStack| - 1], Rule();
      var count := 0;
      while |turtleStack| > 0
        invariant 0 <= count <= Iterations
        invariant Valid() && branches == old(branches)
        invariant turtleStack == stack
        invariant Rule() == rule
        invariant count > 0 ==> turtle == walker
        invariant Grown(e0, x0, t0, edges, intersections, transforms, walker, trail, count)
        decreases Iterations - count
      {
        if count > MaxCount {
          break;
        }
        Iteration(draws, count, walker, rule, e0, x0, t0, trail);
        count := count + 1;
      }
    }

    /**
     * One pass of drawHighways' loop, iteration k: pop the top turtle, draw
     * its two random angles, turn it, add its edge and push it back. With the
     * walking turtle on top, k iterations along trail, the map grows by the
     * next edge of that walk.
     */
    method Iteration(draws: seq<real>, k: nat, ghost walker: Turtle, ghost rule: Chooser,
                     ghost e0: seq<Edge>, ghost x0: seq<Intersection>, ghost t0: seq<Mat4>, ghost trail: seq<Pose>)
      requires Valid() && |turtleStack| > 0 && turtleStack[|turtleStack| - 1] == walker
      requires |draws| == DrawsPerIteration * Iterations && k < Iterations && k + 1 < |trail|
      requires rule == Rule() && trail[k + 1] == Next(gl, rule, trail[k], Rot1(draws, k), Rot2(draws, k))
      requires Grown(e0, x0, t0, edges, intersections, transforms, walker, trail, k)
      modifies this, walker.position, walker.orientation
      ensures Valid() && branches == old(branches)
      ensures turtleStack == old(turtleStack) && turtle == walker
      ensures Grown(e0, x0, t0, edges, intersections, transforms, walker, trail, k + 1)
    {
      ghost var stack := turtleStack;
      turtle := turtleStack[|turtleStack| - 1];
      turtleStack := turtleStack[..|turtleStack| - 1];
      var rot1 := RandomAngle(draws[DrawsPerIteration * k]);
      var rot2 := RandomAngle(draws[DrawsPerIteration * k + 1]);
      assert rot1 == Rot1(draws, k) && rot2 == Rot2(draws, k);
      Advance(rot1, rot2, e0, x0, t0, trail, k);
      turtleStack := turtleStack + [turtle];
      assert stack[..|stack| - 1] + [stack[|stack| - 1]] == stack;
    }

    /**
     * The popped turtle's part of an iteration: turn, then add its edge.
     * The walk along trail advances from step k to step k + 1.
     */
    method Advance(rot1: real, rot2: real, ghost e0: seq<Edge>, ghost x0: seq<Intersection>, ghost t0: seq<Mat4>,
                   ghost trail: seq<Pose>, ghost k: nat)
      requires Valid() && k + 1 < |trail|
      requires Grown(e0, x0, t0, edges, intersections, transforms, turtle, trail, k)
      requires trail[k + 1] == Next(gl, Rule(), trail[k], rot1, rot2)
      modifies this, turtle.position, turtle.orientation
      ensures Valid() && branches == old(branches)
      ensures turtleStack == old(turtleStack) && turtle == old(turtle)
      ensures Grown(e0, x0, t0, edges, intersections, transforms, turtle, trail, k + 1)
    {
      Turn(rot1, rot2);
      assert turtle.State() == trail[k + 1].(pos := trail[k].pos);
      Lay(e0, x0, t0, trail, k);
    }

    /**
     * addHighwayEdge, on a turtle that has turned for iteration k: the map
     * gains the walk's next edge, and the turtle steps onto trail[k + 1].
     */
    method Lay(ghost e0: seq<Edge>, ghost x0: seq<Intersection>, ghost t0: seq<Mat4>, ghost trail: seq<Pose>, ghost k: nat)
      requires Valid() && k + 1 < |trail|
      requires Laid(e0, x0, t0, edges, intersections, transforms, turtle, trail, k)
      requires turtle.State() == trail[k + 1].(pos := trail[k].pos)
      requires trail[k + 1].pos == Advanced(gl, trail[k].pos, trail[k + 1].orient, GlobalUp, StepLength)
      modifies this, turtle.position
      ensures Valid() && branches == old(branches)
      ensures turtleStack == old(turtleStack) && turtle == old(turtle)
      ensures Laid(e0, x0, t0, edges, intersections, transforms, turtle, trail, k + 1)
      ensures turtle.State() == trail[k + 1]
    {
      ghost var edges0, intersections0 := edges, intersections;
      AddHighwayEdge();
      assert transforms == t0 + HighwayTransforms(gl, trail, k + 1) by {
        ghost var laid := HighwayTransforms(gl, trail, k);
        ghost var next := EdgeTransform(gl, trail[k].pos, trail[k + 1].pos, EdgeWidth);
        assert HighwayTransforms(gl, trail, k + 1) == laid + [next];
        assert transforms == (t0 + laid) + [next];
        AppendAssoc(t0, laid, [next]);
      }
      assert forall i :: |e0| <= i < |edges| ==>
               && edges[i].start == turtle.position && edges[i].end != turtle.position
               && edges[i].width == EdgeWidth
               && edges[i].end.Value() == trail[i - |e0| + 1].pos
      by {
        forall i | |e0| <= i < |edges|
          ensures edges[i].start == turtle.position && edges[i].end != turtle.position
          ensures edges[i].width == EdgeWidth && edges[i].end.Value() == trail[i - |e0| + 1].pos
        {
          if i < |edges0| {
            assert edges[i] == edges0[i] && edges0[i].end != turtle.position;
            assert edges0[i].end.Value() == old(edges0[i].end.Value()) == trail[i - |e0| + 1].pos;
          } else {
            assert i - |e0| + 1 == k + 1 && edges[i].end.Value() == trail[k + 1].pos;
          }
        }
      }
      assert forall i :: |x0| <= i < |intersections| ==>
               && intersections[i].position != turtle.position
               && intersections[i].position.Value() == Ground(trail[i - |x0| + 1].pos)
      by {
        forall i | |x0| <= i < |intersections|
          ensures intersections[i].position != turtle.position
          ensures intersections[i].position.Value() == Ground(trail[i - |x0| + 1].pos)
        {
          if i < |intersections0| {
            assert intersections[i] == intersections0[i] && intersections0[i].position != turtle.position;
            assert intersections0[i].position.Value() == old(intersections0[i].position.Value());
          } else {
            assert i - |x0| + 1 == k + 1 && intersections[i].position.Value() == Ground(trail[k + 1].pos);
          }
        }
      }
    }

    /**
     * The probing and the commit: two candidates sharing the turtle's
     * orientation object turn it by rot1 and then by rot2, and the turtle
     * turns once more, by rot1 when the first candidate reads strictly
     * denser and by rot2 otherwise. The position does not move.
     */
    method Turn(rot1: real, rot2: real)
      modifies turtle.orientation
      ensures turtle.orientation.factors == old(turtle.orientation.factors) + Block(Rule(), old(turtle.State()), rot1, rot2)
    {
      ghost var before := turtle.State();
      var popDens1 := Probe(rot1);
      var popDens2 := Probe(rot2);
      ghost var chosen := Rule()(before, rot1, rot2);
      if JsGreater(popDens1, popDens2) {
        turtle.Rotate(rot1, 0.0, 0.0);
      } else {
        turtle.Rotate(rot2, 0.0, 0.0);
      }
      assert before.orient + [AboutX(rot1)] + [AboutX(rot2)] + [AboutX(chosen)]
          == before.orient + [AboutX(rot1), AboutX(rot2), AboutX(chosen)];
    }

    /**
     * One candidate: a turtle on a copy of the current turtle's position and
     * on its orientation object itself, rotated by rot (so the current
     * turtle's orientation turns too) and moved one step; the population
     * density where it lands. The source creates both candidates before
     * rotating either; as creating one copies a position nothing has moved
     * yet, that order is not observable.
     */
    method Probe(rot: real) returns (density: Option<int>)
      modifies turtle.orientation
      ensures turtle.orientation.factors == old(turtle.orientation.factors) + [AboutX(rot)]
      ensures density == Density(Texture(), Advanced(gl, turtle.position.Value(), turtle.orientation.factors, GlobalUp, StepLength))
    {
      var candidate := Candidate();
      candidate.Rotate(rot, 0.0, 0.0);
      candidate.MoveForward(StepLength, gl);
      density := GetPopDensity(candidate.position.Value());
    }

    /** A candidate turtle: a copy of the current turtle's position on the same orientation object. */
    method Candidate() returns (c: Turtle)
      ensures fresh(c) && fresh(c.position)
      ensures c.position.Value() == turtle.position.Value() && c.orientation == turtle.orientation
    {
      var position := new Vec3(turtle.position.x, turtle.position.y, turtle.position.z);
      c := new Turtle(position, turtle.orientation);
    }

    /**
     * Appends one edge from the turtle's position object to a fresh point one
     * step ahead, to both edge lists, with its transform taken before the
     * turtle moves and an intersection at (end.x, end.y, 0); then moves the
     * turtle that step, so the edge's start ends up where its end is.
     */
    method AddHighwayEdge()
      requires Valid()
      modifies this, turtle.position
      ensures Valid()
      ensures turtle == old(turtle) && turtleStack == old(turtleStack) && branches == old(branches)
      ensures |edges| == |old(edges)| + 1 && |intersections| == |old(intersections)| + 1
      ensures var e, x := edges[|old(edges)|], intersections[|old(intersections)|];
              && edges == old(edges) + [e] && intersections == old(intersections) + [x]
              && fresh(e) && fresh(e.end) && fresh(x) && fresh(x.position)
              && e.start == turtle.position && e.width == EdgeWidth
              && e.end.Value() == Advanced(gl, old(turtle.position.Value()), turtle.orientation.factors, GlobalUp, StepLength)
              && turtle.position.Value() == e.end.Value()
              && x.position.Value() == Ground(e.end.Value())
              && transforms == old(transforms) + [EdgeTransform(gl, old(turtle.position.Value()), e.end.Value(), EdgeWidth)]
    {
      ghost var p0 := turtle.position.Value();
      var testTurtle := Candidate();
      testTurtle.MoveForward(StepLength, gl);
      ghost var end := testTurtle.position.Value();
      assert end == Advanced(gl, p0, turtle.orientation.factors, GlobalUp, StepLength);
      var edge := new Edge(turtle.position, testTurtle.position, EdgeWidth);
      edges := edges + [edge];
      highwayEdges := highwayEdges + [edge];
      var interPos := new Vec3(edge.end.x, edge.end.y, 0.0);
      var inter := new Intersection(interPos);
      intersections := intersections + [inter];
      var transform := edge.Transformation(gl);
      assert transform == EdgeTransform(gl, p0, end, EdgeWidth);
      transforms := transforms + [transform];
      turtle.MoveForward(StepLength, gl);
      assert edge.end.Value() == end && interPos.Value() == Ground(end);
    }

    /** drawGrids: its loop over the highway edges has an empty body, so it changes nothing. */
    method DrawGrids()
    {
    }

    /** Pushes the three fixed seed turtles and records one intersection at each one's position object. */
    method InitialTurtles()
      requires Valid()
      modifies this
      ensures Valid()
      ensures turtle == old(turtle) && branches == old(branches)
      ensures edges == old(edges) && transforms == old(transforms)
      ensures |turtleStack| == |old(turtleStack)| + 3 && turtleStack[..|old(turtleStack)|] == old(turtleStack)
      ensures |intersections| == |old(intersections)| + 3 && intersections[..|old(intersections)|] == old(intersections)
      ensures var n, m := |old(turtleStack)|, |old(intersections)|;
              && fresh(turtleStack[n]) && fresh(turtleStack[n + 1]) && fresh(turtleStack[n + 2])
              && fresh(turtleStack[n + 2].position) && fresh(turtleStack[n + 2].orientation)
              && Seeds(turtleStack[n], turtleStack[n + 1], turtleStack[n + 2],
                       intersections[m], intersections[m + 1], intersections[m + 2])
              && turtleStack[n + 2].State() == WalkStart
    {
      var turtle1 := NewTurtle(SeedPositions[0]);
      var turtle2 := NewTurtle(SeedPositions[1]);
      var turtle3 := NewTurtle(SeedPositions[2]);
      turtleStack := turtleStack + [turtle1, turtle2, turtle3];
      var inter1 := new Intersection(turtle1.position);
      var inter2 := new Intersection(turtle2.position);
      var inter3 := new Intersection(turtle3.position);
      intersections := intersections + [inter1, inter2, inter3];
    }

    /** intersectionTest on two edges' current endpoints; a fresh Intersection when the lines cross. */
    method IntersectionTest(e: Edge, f: Edge) returns (r: Option<Intersection>)
      ensures var p := LineIntersection.IntersectionTest(e.start.Value(), e.end.Value(), f.start.Value(), f.end.Value());
              && (r.None? <==> p.None?)
              && (r.Some? ==> fresh(r.value) && fresh(r.value.position) && r.value.position.Value() == p.value)
    {
      var p := LineIntersection.IntersectionTest(e.start.Value(), e.end.Value(), f.start.Value(), f.end.Value());
      if p.None? {
        r := None;
      } else {
        var pos := new Vec3(p.value.x, p.value.y, p.value.z);
        var inter := new Intersection(pos);
        r := Some(inter);
      }
    }

    /** setBranches: only the branching factor changes; nothing reads it during generation. */
    method SetBranches(num: int)
      modifies this`branches
      ensures branches == num
    {
      branches := num;
    }

    /**
     * reset: empties every collection and the stack and puts a fresh root
     * turtle at a random point, without pushing or recording it and without
     * regenerating. The raster and the branching factor stay.
     */
    method Reset(rx: real, ry: real)
      modifies this
      ensures Valid()
      ensures edges == [] && intersections == [] && highwayEdges == [] && transforms == [] && turtleStack == []
      ensures fresh(turtle) && fresh(turtle.position) && fresh(turtle.orientation)
      ensures turtle.State() == Pose(V3(rx * 2.0 - 1.0, ry * 2.0 - 1.0, 0.0), [])
      ensures branches == old(branches)
    {
      edges := [];
      intersections := [];
      highwayEdges := [];
      transforms := [];
      turtleStack := [];
      turtle := NewTurtle(V3(rx * 2.0 - 1.0, ry * 2.0 - 1.0, 0.0));
    }
  }

}
