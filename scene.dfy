/**
 * The slice of the application's frame loop that feeds the road map to the
 * renderer: loadScene flattens the per-edge transforms into the four column
 * buffers and the colour buffer of an instanced square, and tick reloads the
 * roads when the "Highway_Branches" control changes.
 *
 * The buffers are kept as the JavaScript number arrays loadScene pushes into;
 * the Float32Array copies handed to setInstanceVBOs are not modelled.
 */
module Scene {

  import opened Options
  import opened GlMatrix
  import opened Raster
  import opened Turtles
  import opened Highway
  import opened RoadMaps

  /** What loadScene hands to setInstanceVBOs and setNumInstances. */
  datatype Instances = Instances(col1: seq<real>, col2: seq<real>, col3: seq<real>, col4: seq<real>,
                                 colors: seq<real>, count: nat)

  /** Every edge is drawn black and opaque. */
  const RoadColor: seq<real> := [0.0, 0.0, 0.0, 1.0]

  /** Column c (0..3) of every transform, one after the other: entries 4c .. 4c+3 of each. */
  function Column(ts: seq<Mat4>, c: nat): seq<real>
    requires c < 4
  {
    if ts == [] then [] else Column(ts[..|ts| - 1], c) + ts[|ts| - 1][4 * c..4 * c + 4]
  }

  /** n copies of the road colour. */
  function Colors(n: nat): seq<real> {
    if n == 0 then [] else Colors(n - 1) + RoadColor
  }

  /** The buffers for a list of transforms, one instance per transform. */
  function Flatten(ts: seq<Mat4>): Instances {
    Instances(Column(ts, 0), Column(ts, 1), Column(ts, 2), Column(ts, 3), Colors(|ts|), |ts|)
  }

  /** Instance i read back from the buffers: its four columns, in order. */
  function Instance(s: Instances, i: nat): seq<real>
    requires 4 * i + 4 <= |s.col1| && 4 * i + 4 <= |s.col2| && 4 * i + 4 <= |s.col3| && 4 * i + 4 <= |s.col4|
  {
    s.col1[4 * i..4 * i + 4] + s.col2[4 * i..4 * i + 4] + s.col3[4 * i..4 * i + 4] + s.col4[4 * i..4 * i + 4]
  }

  /** Each column buffer holds exactly four numbers per transform. */
  lemma {:induction false} ColumnLength(ts: seq<Mat4>, c: nat)
    requires c < 4
    ensures |Column(ts, c)| == 4 * |ts|
  {
    if ts != [] {
      ColumnLength(ts[..|ts| - 1], c);
    }
  }

  /** Slot 4i+j of column c holds entry 4c+j of transform i. */
  lemma {:induction false} ColumnSlot(ts: seq<Mat4>, c: nat, i: nat, j: nat)
    requires c < 4 && i < |ts| && j < 4
    ensures |Column(ts, c)| == 4 * |ts|
    ensures Column(ts, c)[4 * i + j] == ts[i][4 * c + j]
  {
    ColumnLength(ts, c);
    var init := ts[..|ts| - 1];
    ColumnLength(init, c);
    if i < |ts| - 1 {
      ColumnSlot(init, c, i, j);
    }
  }

  /** The colour buffer holds four numbers per instance, every block (0, 0, 0, 1). */
  lemma {:induction false} ColorsSlot(n: nat, i: nat, j: nat)
    requires i < n && j < 4
    ensures |Colors(n)| == 4 * n
    ensures Colors(n)[4 * i + j] == if j == 3 then 1.0 else 0.0
  {
    ColorsLength(n - 1);
    if i < n - 1 {
      ColorsSlot(n - 1, i, j);
    }
  }

  lemma {:induction false} ColorsLength(n: nat)
    ensures |Colors(n)| == 4 * n
  {
    if n > 0 {
      ColorsLength(n - 1);
    }
  }

  /** Instance i's four slots of column c are entries 4c .. 4c+3 of transform i. */
  lemma ColumnBlock(ts: seq<Mat4>, c: nat, i: nat)
    requires c < 4 && i < |ts|
    ensures |Column(ts, c)| == 4 * |ts|
    ensures Column(ts, c)[4 * i..4 * i + 4] == ts[i][4 * c..4 * c + 4]
  {
    ColumnSlot(ts, c, i, 0);
    ColumnSlot(ts, c, i, 1);
    ColumnSlot(ts, c, i, 2);
    ColumnSlot(ts, c, i, 3);
  }

  /** The four columns of instance i put back together give transform i again. */
  lemma FlattenRoundTrip(ts: seq<Mat4>, i: nat)
    requires i < |ts|
    ensures var s := Flatten(ts);
            && |s.col1| == |s.col2| == |s.col3| == |s.col4| == |s.colors| == 4 * s.count
            && s.count == |ts|
            && Instance(s, i) == ts[i]
  {
    ColumnBlock(ts, 0, i);
    ColumnBlock(ts, 1, i);
    ColumnBlock(ts, 2, i);
    ColumnBlock(ts, 3, i);
    ColorsLength(|ts|);
    var m := ts[i];
    assert m[0..4] + m[4..8] + m[8..12] + m[12..16] == m;
  }

  /** Appending one transform appends its four entries to every column. */
  lemma ColumnSnoc(ts: seq<Mat4>, k: nat, c: nat)
    requires k < |ts| && c < 4
    ensures Column(ts[..k + 1], c) == Column(ts[..k], c) + ts[k][4 * c..4 * c + 4]
  {
    assert ts[..k + 1][..k] == ts[..k];
  }

  /**
   * loadScene: one pass over the map's transforms, pushing the four columns
   * of each and one road colour; the instance count is the number of
   * transforms.
   */
  method LoadScene(road: RoadMap) returns (scene: Instances)
    ensures scene == Flatten(road.transforms)
  {
    var transforms := road.GetTransforms();
    var n := |transforms|;
    var col1Arr, col2Arr, col3Arr, col4Arr, colorsArr := [], [], [], [], [];
    for i := 0 to n
      invariant col1Arr == Column(transforms[..i], 0) && col2Arr == Column(transforms[..i], 1)
      invariant col3Arr == Column(transforms[..i], 2) && col4Arr == Column(transforms[..i], 3)
      invariant colorsArr == Colors(i)
    {
      var transform := transforms[i];
      col1Arr := col1Arr + [transform[0], transform[1], transform[2], transform[3]];
      col2Arr := col2Arr + [transform[4], transform[5], transform[6], transform[7]];
      col3Arr := col3Arr + [transform[8], transform[9], transform[10], transform[11]];
      col4Arr := col4Arr + [transform[12], transform[13], transform[14], transform[15]];
      colorsArr := colorsArr + [0.0, 0.0, 0.0, 1.0];
      ColumnSnoc(transforms, i, 0);
      ColumnSnoc(transforms, i, 1);
      ColumnSnoc(transforms, i, 2);
      ColumnSnoc(transforms, i, 3);
    }
    assert transforms[..n] == transforms;
    scene := Instances(col1Arr, col2Arr, col3Arr, col4Arr, colorsArr, n);
  }

  /**
   * The application state tick consults: the road map, the remembered
   * branch control (None until the first tick, like the source's undefined)
   * and the scene last loaded.
   */
  class App {
    const roads: RoadMap
    var branches: Option<int>
    var scene: Instances

    /** Builds the road map from the raster and loads its scene; no branch value is remembered yet. */
    constructor (texture: array<byte>, width: nat, height: nat, gl: Library, rx: real, ry: real, draws: seq<real>)
      requires |draws| == DrawsPerIteration * Iterations
      ensures fresh(roads) && branches == None
      ensures fresh(roads.pixels) && roads.pixels[..] == texture[..]
      ensures roads.width == width && roads.height == height && roads.branches == DefaultBranches
      ensures scene == Flatten(roads.transforms) && scene.count == Iterations
    {
      var road := new RoadMap(texture, width, height, gl, rx, ry, draws);
      var loaded := LoadScene(road);
      roads, branches, scene := road, None, loaded;
    }

    /**
     * The branch check of one frame: when the control's value differs from
     * the remembered one, remember it, reset the roads, set their branching
     * factor and reload the scene, which then has no instances because reset
     * does not regenerate: the roads hold only a fresh, unpushed turtle at the
     * point the two draws pick. Otherwise nothing changes.
     */
    method Tick(highwayBranches: int, rx: real, ry: real)
      modifies this, roads
      ensures branches == Some(highwayBranches)
      ensures old(branches) != Some(highwayBranches) ==>
                && roads.branches == highwayBranches
                && roads.Valid()
                && roads.edges == [] && roads.highwayEdges == [] && roads.intersections == [] && roads.transforms == []
                && roads.turtleStack == []
                && fresh(roads.turtle) && roads.turtle.State() == Pose(V3(rx * 2.0 - 1.0, ry * 2.0 - 1.0, 0.0), [])
                && scene == Flatten([]) && scene.count == 0
      ensures old(branches) == Some(highwayBranches) ==>
                unchanged(this) && unchanged(roads)
    {
      if branches != Some(highwayBranches) {
        branches := Some(highwayBranches);
        roads.Reset(rx, ry);
        roads.SetBranches(highwayBranches);
        scene := LoadScene(roads);
      }
    }
  }

}
