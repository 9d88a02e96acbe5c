/**
 * The density/terrain raster: an RGBA byte buffer, row-major, four channels
 * per pixel, read at world positions in [-1,1] x [-1,1].
 *
 * A read outside the buffer gives JavaScript's `undefined`, modelled as
 * `None`; an ordered comparison with `undefined` is false.
 */
module Raster {

  import opened Options
  import opened GlMatrix

  newtype byte = x: int | 0 <= x < 256

  datatype Image = Image(data: seq<byte>, width: nat, height: nat)

  /** Channel read by inWater as "land". */
  const LandChannel := 1
  /** Channel read both as population density and, by inWater, as "water". */
  const WaterChannel := 2

  /** Math.floor((coord + 1) / 2 * dimension) */
  function Pixel(coord: real, dimension: nat): int {
    ((coord + 1.0) / 2.0 * dimension as real).Floor
  }

  /** x * 4 + y * width * 4 + channel, at the pixel under pos. */
  function Index(img: Image, pos: V3, channel: int): int {
    Pixel(pos.x, img.width) * 4 + Pixel(pos.y, img.height) * img.width * 4 + channel
  }

  /** A typed-array read: undefined (None) outside the buffer. */
  function Read(img: Image, i: int): (r: Option<int>)
    ensures r.Some? <==> 0 <= i < |img.data|
    ensures r.Some? ==> 0 <= r.value < 256
  {
    if 0 <= i < |img.data| then Some(img.data[i] as int) else None
  }

  /** JavaScript's `a > b` on numbers that may be undefined. */
  function JsGreater(a: Option<int>, b: Option<int>): bool {
    a.Some? && b.Some? && a.value > b.value
  }

  /** getPopDensity */
  function Density(img: Image, pos: V3): Option<int> {
    Read(img, Index(img, pos, WaterChannel))
  }

  /** inWater: the water channel is strictly above the land channel. */
  function InWater(img: Image, pos: V3): bool {
    JsGreater(Read(img, Index(img, pos, WaterChannel)), Read(img, Index(img, pos, LandChannel)))
  }

  /** A coordinate in [-1, 1) lands on a pixel of a non-empty dimension. */
  lemma PixelInRange(coord: real, dimension: nat)
    requires -1.0 <= coord < 1.0 && dimension > 0
    ensures 0 <= Pixel(coord, dimension) < dimension
  {
    var t := (coord + 1.0) / 2.0;
    assert 0.0 <= t < 1.0;
    var u := t * dimension as real;
    assert 0.0 <= u by {
      assert 0.0 <= dimension as real;
    }
    assert u < dimension as real by {
      assert t * dimension as real < 1.0 * dimension as real;
    }
  }

  /** Every channel of an in-range pixel is inside a width x height RGBA buffer. */
  lemma IndexInBounds(x: int, y: int, width: nat, height: nat, channel: int)
    requires 0 <= x < width && 0 <= y < height && 0 <= channel < 4
    ensures 0 <= x * 4 + y * width * 4 + channel < 4 * width * height
  {
    var row, all := y * width, height * width;
    RowsBefore(y, height, width);
    assert y * width * 4 == row * 4;
    assert 4 * width * height == all * 4;
  }

  /** The rows before row y, plus row y itself, fit in height rows. */
  lemma RowsBefore(y: nat, height: nat, width: nat)
    requires y < height
    ensures y * width + width <= height * width
  {
    assert (height - y) * width >= width by {
      assert height - y >= 1;
    }
    assert (height - y) * width == height * width - y * width;
  }

  /**
   * A position in the [-1,1) square of a full-size buffer always reads a pixel:
   * density is that pixel's channel 2, and inWater compares channels 2 and 1.
   */
  lemma InSquareReadsPixel(img: Image, pos: V3)
    requires |img.data| == 4 * img.width * img.height
    requires img.width > 0 && img.height > 0
    requires -1.0 <= pos.x < 1.0 && -1.0 <= pos.y < 1.0
    ensures var i := Index(img, pos, WaterChannel);
            0 <= i < |img.data| && Density(img, pos) == Some(img.data[i] as int)
    ensures var i := Index(img, pos, WaterChannel);
            InWater(img, pos) <==> img.data[i] > img.data[i - 1]
  {
    var x, y := Pixel(pos.x, img.width), Pixel(pos.y, img.height);
    PixelInRange(pos.x, img.width);
    PixelInRange(pos.y, img.height);
    IndexInBounds(x, y, img.width, img.height, WaterChannel);
    IndexInBounds(x, y, img.width, img.height, LandChannel);
  }

  /** A JavaScript number in the index arithmetic: NaN once an undefined operand enters it. */
  datatype JsNumber = Num(value: real) | NaN

  /** Math.floor((coord + 1) / 2 * dimension) when the dimension field may never have been assigned. */
  function PixelAsWritten(coord: real, dimension: Option<nat>): JsNumber {
    match dimension
    case None => NaN
    case Some(d) => Num(Pixel(coord, d) as real)
  }

  /** x * 4 + y * width * 4 + channel over JavaScript numbers: NaN in, NaN out. */
  function IndexAsWritten(width: Option<nat>, height: Option<nat>, pos: V3, channel: int): JsNumber {
    match (PixelAsWritten(pos.x, width), PixelAsWritten(pos.y, height), width)
    case (Num(x), Num(y), Some(w)) => Num(x * 4.0 + y * w as real * 4.0 + channel as real)
    case _ => NaN
  }

  /** A typed-array read at a JavaScript number: undefined unless it is an integer index inside the buffer. */
  function ReadAsWritten(data: seq<byte>, i: JsNumber): (r: Option<int>)
    ensures i.NaN? ==> r.None?
  {
    match i
    case NaN => None
    case Num(v) => if v == v.Floor as real && 0 <= v.Floor < |data| then Some(data[v.Floor] as int) else None
  }

  /** getPopDensity as written, with the raster's dimensions possibly undefined. */
  function DensityAsWritten(data: seq<byte>, width: Option<nat>, height: Option<nat>, pos: V3): Option<int> {
    ReadAsWritten(data, IndexAsWritten(width, height, pos, WaterChannel))
  }

  /** The class never assigns its width and height, so every density read is undefined. */
  lemma UnsetDimensionsReadNothing(data: seq<byte>, pos: V3)
    ensures DensityAsWritten(data, None, None, pos).None?
  {
  }

  /** With both dimensions assigned, the as-written read is exactly Density. */
  lemma AssignedDimensionsReadDensity(data: seq<byte>, width: nat, height: nat, pos: V3)
    ensures DensityAsWritten(data, Some(width), Some(height), pos) == Density(Image(data, width, height), pos)
  {
    var img := Image(data, width, height);
    var i := Index(img, pos, WaterChannel);
    var x, y := Pixel(pos.x, width), Pixel(pos.y, height);
    assert IndexAsWritten(Some(width), Some(height), pos, WaterChannel) == Num(i as real) by {
      assert x as real * 4.0 + y as real * width as real * 4.0 + WaterChannel as real
          == (x * 4 + y * width * 4 + WaterChannel) as real;
    }
    assert (i as real).Floor == i;
  }

  /** With either read missing, neither comparison holds: the second candidate wins. */
  lemma MissingReadIsNotGreater(a: Option<int>, b: Option<int>)
    requires a.None? || b.None?
    ensures !JsGreater(a, b) && !JsGreater(b, a)
  {
  }

}
