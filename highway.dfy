/**
 * The highway pass of RoadMap.drawHighways, one iteration at a time, as
 * functions over pose values.
 *
 * An iteration starts from the popped turtle's position p and orientation q.
 * Both candidate turtles share q's object, so rotating the second candidate
 * rotates on top of the first candidate's rotation, and the commit rotates on
 * top of both: the orientation leaves the iteration as
 * q · R(rot1) · R(rot2) · R(chosen), with R(a) = fromEuler(a, 0, 0).
 */
module Highway {

  import opened Options
  import opened GlMatrix
  import opened Raster
  import opened Turtles

  /** drawHighways stops when count > 100, so count runs 0..100. */
  const MaxCount := 100
  const Iterations := MaxCount + 1
  /** Two random angles are drawn per iteration. */
  const DrawsPerIteration := 2
  /** moveForward(0.1) for candidates, the edge probe and the commit. */
  const StepLength := 0.1

  /** randomAngle: 150 * Math.random() − 50. */
  function RandomAngle(r: real): (a: real)
    ensures 0.0 <= r < 1.0 ==> -50.0 <= a < 100.0
  {
    150.0 * r - 50.0
  }

  /** A rotation about x only, as every rotate call of the highway pass makes. */
  function AboutX(a: real): Euler {
    Euler(a, 0.0, 0.0)
  }

  /** Where the first candidate samples: p moved along q · R(rot1). */
  function FirstProbe(gl: Library, pose: Pose, rot1: real): V3 {
    Advanced(gl, pose.pos, pose.orient + [AboutX(rot1)], GlobalUp, StepLength)
  }

  /** Where the second candidate samples: p moved along q · R(rot1) · R(rot2). */
  function SecondProbe(gl: Library, pose: Pose, rot1: real, rot2: real): V3 {
    Advanced(gl, pose.pos, pose.orient + [AboutX(rot1)] + [AboutX(rot2)], GlobalUp, StepLength)
  }

  /** The committed angle: rot1 only when its density is strictly greater. */
  function Chosen(gl: Library, density: V3 -> Option<int>, pose: Pose, rot1: real, rot2: real): real {
    if JsGreater(density(FirstProbe(gl, pose, rot1)), density(SecondProbe(gl, pose, rot1, rot2)))
    then rot1 else rot2
  }

  /** A rule that commits an angle, given the popped pose and the two drawn angles. */
  type Chooser = (Pose, real, real) -> real

  /** The rule drawHighways applies: Chosen, with the library and the density read fixed. */
  function ProbeChoice(gl: Library, density: V3 -> Option<int>): Chooser {
    (pose: Pose, rot1: real, rot2: real) => Chosen(gl, density, pose, rot1, rot2)
  }

  /** The three rotations one iteration applies to the shared quaternion: rot1, rot2, then the committed angle. */
  function Block(choose: Chooser, pose: Pose, rot1: real, rot2: real): seq<Euler> {
    [AboutX(rot1), AboutX(rot2), AboutX(choose(pose, rot1, rot2))]
  }

  /** The pose after one iteration: three rotations on one quaternion, then one step. */
  function Next(gl: Library, choose: Chooser, pose: Pose, rot1: real, rot2: real): Pose {
    var q := pose.orient + Block(choose, pose, rot1, rot2);
    Pose(Advanced(gl, pose.pos, q, GlobalUp, StepLength), q)
  }

  /** The first and second angle of iteration i. */
  function Rot1(draws: seq<real>, i: nat): real
    requires DrawsPerIteration * i + 1 < |draws|
  {
    RandomAngle(draws[DrawsPerIteration * i])
  }

  function Rot2(draws: seq<real>, i: nat): real
    requires DrawsPerIteration * i + 1 < |draws|
  {
    RandomAngle(draws[DrawsPerIteration * i + 1])
  }

  /** The pose of the walking turtle after k iterations. */
  function Walk(gl: Library, choose: Chooser, start: Pose, draws: seq<real>, k: nat): Pose
    requires DrawsPerIteration * k <= |draws|
  {
    if k == 0 then start
    else
      var prev := Walk(gl, choose, start, draws, k - 1);
      Next(gl, choose, prev, Rot1(draws, k - 1), Rot2(draws, k - 1))
  }

  /**
   * The poses of the walk after 0, 1, ..., k iterations: each one the Next of
   * the one before it.
   */
  function Trail(gl: Library, choose: Chooser, start: Pose, draws: seq<real>, k: nat): (t: seq<Pose>)
    requires DrawsPerIteration * k <= |draws|
    ensures |t| == k + 1 && t[0] == start && t[k] == Walk(gl, choose, start, draws, k)
  {
    if k == 0 then [start] else Trail(gl, choose, start, draws, k - 1) + [Walk(gl, choose, start, draws, k)]
  }

  /** trail is the walk choose makes from the draws: each pose is one iteration after the one before. */
  ghost predicate Follows(gl: Library, choose: Chooser, trail: seq<Pose>, draws: seq<real>) {
    && |trail| == Iterations + 1 && |draws| == DrawsPerIteration * Iterations
    && forall k :: 0 <= k < Iterations ==> trail[k + 1] == Next(gl, choose, trail[k], Rot1(draws, k), Rot2(draws, k))
  }

  /** Every pose of a trail is the Next of the one before it, and the walk's pose at its index. */
  lemma {:induction false} TrailStep(gl: Library, choose: Chooser, start: Pose, draws: seq<real>, k: nat, i: nat)
    requires DrawsPerIteration * k <= |draws| && i < k
    ensures var t := Trail(gl, choose, start, draws, k);
            && t[i] == Walk(gl, choose, start, draws, i)
            && t[i + 1] == Next(gl, choose, t[i], Rot1(draws, i), Rot2(draws, i))
  {
    if i + 1 < k {
      TrailStep(gl, choose, start, draws, k - 1, i);
    } else if i > 0 {
      TrailStep(gl, choose, start, draws, k - 1, i - 1);
    }
  }

  /** The trail of a whole highway pass follows its rule, step by step. */
  lemma TrailFollows(gl: Library, choose: Chooser, start: Pose, draws: seq<real>)
    requires |draws| == DrawsPerIteration * Iterations
    ensures Follows(gl, choose, Trail(gl, choose, start, draws, Iterations), draws)
  {
    var trail := Trail(gl, choose, start, draws, Iterations);
    forall k | 0 <= k < Iterations
      ensures trail[k + 1] == Next(gl, choose, trail[k], Rot1(draws, k), Rot2(draws, k))
    {
      TrailStep(gl, choose, start, draws, Iterations, k);
    }
  }

  /**
   * The committed angle is always one of the two drawn: rot1 exactly when
   * the first probe reads strictly denser (or both angles are equal), so a
   * tie or a read outside the raster commits rot2.
   */
  lemma ChosenIsFirstIff(gl: Library, density: V3 -> Option<int>, pose: Pose, rot1: real, rot2: real)
    ensures var c := Chosen(gl, density, pose, rot1, rot2);
            && (c == rot1 || c == rot2)
            && (c == rot1 <==> JsGreater(density(FirstProbe(gl, pose, rot1)), density(SecondProbe(gl, pose, rot1, rot2))) || rot1 == rot2)
  {
  }

  /** When both probes read the raster, the committed angle's probe is at least as dense as the other. */
  lemma ChosenProbeIsDensest(gl: Library, density: V3 -> Option<int>, pose: Pose, rot1: real, rot2: real)
    requires density(FirstProbe(gl, pose, rot1)).Some? && density(SecondProbe(gl, pose, rot1, rot2)).Some?
    ensures var d1, d2 := density(FirstProbe(gl, pose, rot1)).value, density(SecondProbe(gl, pose, rot1, rot2)).value;
            && (Chosen(gl, density, pose, rot1, rot2) == rot1 ==> d1 >= d2 || rot1 == rot2)
            && (Chosen(gl, density, pose, rot1, rot2) == rot2 ==> d2 >= d1 || rot1 == rot2)
  {
  }

  /** Each iteration appends exactly three factors to the orientation word. */
  lemma {:induction false} WalkLength(gl: Library, choose: Chooser, start: Pose, draws: seq<real>, k: nat)
    requires DrawsPerIteration * k <= |draws|
    ensures |Walk(gl, choose, start, draws, k).orient| == |start.orient| + 3 * k
  {
    if k > 0 {
      WalkLength(gl, choose, start, draws, k - 1);
    }
  }

  /** An earlier orientation word is a prefix of every later one: rotations are never undone. */
  lemma {:induction false} WalkPrefix(gl: Library, choose: Chooser, start: Pose, draws: seq<real>, k: nat, j: nat)
    requires DrawsPerIteration * k <= |draws| && j <= k
    ensures Walk(gl, choose, start, draws, j).orient <= Walk(gl, choose, start, draws, k).orient
  {
    if j < k {
      WalkPrefix(gl, choose, start, draws, k - 1, j);
      var before := Walk(gl, choose, start, draws, k - 1);
      var block := Block(choose, before, Rot1(draws, k - 1), Rot2(draws, k - 1));
      assert before.orient <= before.orient + block;
    }
  }

  /**
   * After k iterations the orientation is the start's word followed by one
   * block of three rotations per iteration: rot1, rot2, then the committed one.
   */
  lemma {:induction false} WalkOrientation(gl: Library, choose: Chooser, start: Pose, draws: seq<real>, k: nat, i: nat)
    requires DrawsPerIteration * k <= |draws| && i < k
    ensures var o, n := Walk(gl, choose, start, draws, k).orient, |start.orient|;
            |o| == n + 3 * k && o[..n] == start.orient
            && o[n + 3 * i..n + 3 * i + 3] == Block(choose, Walk(gl, choose, start, draws, i), Rot1(draws, i), Rot2(draws, i))
  {
    WalkLength(gl, choose, start, draws, k);
    WalkLength(gl, choose, start, draws, i);
    WalkPrefix(gl, choose, start, draws, k, 0);
    WalkPrefix(gl, choose, start, draws, k, i + 1);
    var before := Walk(gl, choose, start, draws, i);
    var block := Block(choose, before, Rot1(draws, i), Rot2(draws, i));
    assert Walk(gl, choose, start, draws, i + 1).orient == before.orient + block;
    SliceAfterPrefix(Walk(gl, choose, start, draws, k).orient, before.orient, block);
  }

  /** A word that begins with pre + block holds block right after pre. */
  lemma SliceAfterPrefix<T>(o: seq<T>, pre: seq<T>, block: seq<T>)
    requires pre + block <= o
    ensures o[|pre|..|pre| + |block|] == block
  {
    assert o[..|pre| + |block|] == pre + block;
  }

  /** Every angle drawHighways commits is one of the two it drew. */
  lemma ProbeChoiceIsADraw(gl: Library, density: V3 -> Option<int>, pose: Pose, rot1: real, rot2: real)
    ensures var c := ProbeChoice(gl, density)(pose, rot1, rot2); c == rot1 || c == rot2
  {
  }

  /** The rule that always commits the second angle, whatever the raster says. */
  function SecondAlways(): Chooser {
    (pose: Pose, rot1: real, rot2: real) => rot2
  }

  /** The rule of the source as written: its width and height are never assigned. */
  function UnsetDimensionsRule(gl: Library, data: seq<byte>): Chooser {
    ProbeChoice(gl, (p: V3) => DensityAsWritten(data, None, None, p))
  }

  /** With the dimensions unassigned, both probes read undefined, so every iteration commits rot2. */
  lemma UnsetDimensionsTakeSecond(gl: Library, data: seq<byte>, pose: Pose, rot1: real, rot2: real)
    ensures UnsetDimensionsRule(gl, data)(pose, rot1, rot2) == rot2
  {
    UnsetDimensionsReadNothing(data, FirstProbe(gl, pose, rot1));
  }

  /** As written, the whole highway walk is the one that always takes the second angle: the raster is never consulted. */
  lemma {:induction false} UnsetDimensionsWalkIgnoresRaster(gl: Library, data: seq<byte>, start: Pose, draws: seq<real>, k: nat)
    requires DrawsPerIteration * k <= |draws|
    ensures Walk(gl, UnsetDimensionsRule(gl, data), start, draws, k) == Walk(gl, SecondAlways(), start, draws, k)
  {
    if k > 0 {
      UnsetDimensionsWalkIgnoresRaster(gl, data, start, draws, k - 1);
      var prev := Walk(gl, SecondAlways(), start, draws, k - 1);
      UnsetDimensionsTakeSecond(gl, data, prev, Rot1(draws, k - 1), Rot2(draws, k - 1));
      assert Block(UnsetDimensionsRule(gl, data), prev, Rot1(draws, k - 1), Rot2(draws, k - 1))
          == Block(SecondAlways(), prev, Rot1(draws, k - 1), Rot2(draws, k - 1));
    }
  }

  /**
   * Starting from the identity, with a rule that commits one of the drawn
   * angles, every factor of the walking turtle's orientation rotates about x
   * only, by an angle in [-50, 100).
   */
  lemma {:induction false} WalkAnglesInRange(gl: Library, choose: Chooser, start: Pose, draws: seq<real>, k: nat)
    requires DrawsPerIteration * k <= |draws|
    requires forall i :: 0 <= i < |draws| ==> 0.0 <= draws[i] < 1.0
    requires forall p, r1, r2 :: choose(p, r1, r2) == r1 || choose(p, r1, r2) == r2
    requires start.orient == []
    ensures forall f :: f in Walk(gl, choose, start, draws, k).orient ==>
              f.y == 0.0 && f.z == 0.0 && -50.0 <= f.x < 100.0
  {
    if k > 0 {
      WalkAnglesInRange(gl, choose, start, draws, k - 1);
    }
  }

}
