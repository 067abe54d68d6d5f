/**
 * The voxel scene: a flat RGBA array of `width * height * length` cells, four
 * channels each, filled from a text scene. The first line is `WxHxL`; every
 * further line is `x,y,z,r,g,b`, and paints one cell with the colour (each
 * channel a byte over 255, alpha 1). Carriage returns are dropped from every
 * line and spaces from voxel lines. Every malformed input the source rejects
 * with a panic is a `SceneError` here.
 */
module VoxelGrid {
  import opened Wrappers
  import opened Arith
  import opened Text

  /** (width, height, length) of a grid. */
  type Dims = (nat, nat, nat)

  /**
   * Why a scene is rejected. Both integer parse failures carry the same
   * message in the source, so they are one case; the line number counts voxel
   * lines from 1.
   */
  datatype SceneError =
    | ExpectedInt
    | NotEnoughDimensions
    | NotEnoughData(line: nat)
    | OutOfRange

  /**
   * The array offset of a cell. The position is read as (x, z, y): its second
   * component runs along the height and its third along the length.
   */
  function GridPosition(pos: (nat, nat, nat), dims: Dims): (r: nat)
    ensures r % 4 == 0
  {
    var (x, z, y) := pos;
    var (width, height, length) := dims;
    ((x + width * y) + z * width * length) * 4
  }

  /** The number of channels in a grid: four per cell. */
  function ChannelCount(dims: Dims): nat {
    dims.0 * dims.1 * dims.2 * 4
  }

  /** The position names a cell inside the grid. */
  predicate InBounds(pos: (nat, nat, nat), dims: Dims) {
    pos.0 < dims.0 && pos.1 < dims.1 && pos.2 < dims.2
  }

  /** A digit below the radix and a quotient are recovered from their combination. */
  lemma MixedRadix(a: nat, q: nat, a2: nat, q2: nat, radix: nat)
    requires a < radix && a2 < radix
    requires a + radix * q == a2 + radix * q2
    ensures a == a2 && q == q2
  {
    assert q * radix < (q2 + 1) * radix;
    MulCancel(q, q2 + 1, radix);
    assert q2 * radix < (q + 1) * radix;
    MulCancel(q2, q + 1, radix);
  }

  /** A digit below the radix plus a quotient below the bound stays below radix * bound. */
  lemma RadixBound(a: nat, q: nat, radix: nat, bound: nat)
    requires a < radix && q < bound
    ensures a + radix * q + 1 <= radix * bound
  {
    assert a + radix * q + 1 <= radix * (q + 1);
    MulMonotone(radix, q + 1, bound);
  }

  /** The cell offset in mixed radix: x, then y in units of width, then z in units of width * length. */
  lemma GridPositionRadix(pos: (nat, nat, nat), dims: Dims)
    ensures GridPosition(pos, dims) == (pos.0 + dims.0 * (pos.2 + dims.2 * pos.1)) * 4
  {
    var (x, z, y) := pos;
    var (width, height, length) := dims;
    assert z * width * length == width * (length * z);
  }

  /** An in-bounds position's four channels lie inside the array. */
  lemma GridPositionInBounds(pos: (nat, nat, nat), dims: Dims)
    requires InBounds(pos, dims)
    ensures GridPosition(pos, dims) + 4 <= ChannelCount(dims)
  {
    var (x, z, y) := pos;
    var (width, height, length) := dims;
    GridPositionRadix(pos, dims);
    var q := y + length * z;
    RadixBound(y, z, length, height);
    RadixBound(x, q, width, length * height);
    assert width * (length * height) == width * height * length;
  }

  /** In-bounds positions share an offset only when they are the same position. */
  lemma GridPositionInjective(p1: (nat, nat, nat), p2: (nat, nat, nat), dims: Dims)
    requires InBounds(p1, dims) && InBounds(p2, dims)
    ensures GridPosition(p1, dims) == GridPosition(p2, dims) <==> p1 == p2
  {
    if GridPosition(p1, dims) == GridPosition(p2, dims) {
      GridPositionRadix(p1, dims);
      GridPositionRadix(p2, dims);
      var (width, height, length) := dims;
      var q1, q2 := p1.2 + length * p1.1, p2.2 + length * p2.1;
      assert p1.0 + width * q1 == p2.0 + width * q2;
      MixedRadix(p1.0, q1, p2.0, q2, width);
      MixedRadix(p1.2, p1.1, p2.2, p2.1, length);
    }
  }

  /** Distinct in-bounds positions own disjoint four-channel slots. */
  lemma SlotsDisjoint(p1: (nat, nat, nat), p2: (nat, nat, nat), dims: Dims)
    requires InBounds(p1, dims) && InBounds(p2, dims) && p1 != p2
    ensures GridPosition(p1, dims) + 4 <= GridPosition(p2, dims) || GridPosition(p2, dims) + 4 <= GridPosition(p1, dims)
  {
    GridPositionInjective(p1, p2, dims);
  }

  /** A colour as the four bytes `set_data` takes. */
  datatype Rgba8 = Rgba8(r: nat, g: nat, b: nat, a: nat)

  /** A byte as the stored channel value: the byte over 255. */
  function Channel(byte: nat): real {
    byte as real / 255.0
  }

  function Channels(color: Rgba8): seq<real> {
    [Channel(color.r), Channel(color.g), Channel(color.b), Channel(color.a)]
  }

  /** The four channels from offset `p` set to the colour; every other cell unchanged. */
  function Paint(data: seq<real>, p: nat, color: Rgba8): (r: seq<real>)
    requires p + 4 <= |data|
    ensures |r| == |data|
    ensures forall i :: 0 <= i < |data| ==> r[i] == if p <= i < p + 4 then Channels(color)[i - p] else data[i]
  {
    data[..p] + Channels(color) + data[p + 4..]
  }

  /** Painting the same slot twice leaves only the second colour. */
  lemma PaintOverwrites(data: seq<real>, p: nat, first: Rgba8, second: Rgba8)
    requires p + 4 <= |data|
    ensures Paint(Paint(data, p, first), p, second) == Paint(data, p, second)
  {
    var a, b := Paint(Paint(data, p, first), p, second), Paint(data, p, second);
    assert forall i :: 0 <= i < |a| ==> a[i] == b[i];
  }

  /** Painting disjoint slots in either order gives the same array. */
  lemma PaintCommutes(data: seq<real>, p: nat, c: Rgba8, q: nat, d: Rgba8)
    requires p + 4 <= |data| && q + 4 <= |data|
    requires p + 4 <= q || q + 4 <= p
    ensures Paint(Paint(data, p, c), q, d) == Paint(Paint(data, q, d), p, c)
  {
    var a, b := Paint(Paint(data, p, c), q, d), Paint(Paint(data, q, d), p, c);
    assert forall i :: 0 <= i < |a| ==> a[i] == b[i];
  }

  function Zeros(n: nat): (r: seq<real>)
    ensures |r| == n && forall i :: 0 <= i < n ==> r[i] == 0.0
  {
    seq(n, _ => 0.0)
  }

  /**
   * The scene's lines: the text split on newlines, each with its carriage
   * returns removed. There is always at least one line.
   */
  function Lines(text: string): (r: seq<string>)
    ensures |r| == |Split(text, '\n')| && |r| >= 1
    ensures forall i :: 0 <= i < |r| ==> '\r' !in r[i] && '\n' !in r[i]
    ensures forall i :: 0 <= i < |r| ==> r[i] == RemoveChar(Split(text, '\n')[i], '\r')
  {
    var pieces := Split(text, '\n');
    seq(|pieces|, i requires 0 <= i < |pieces| => RemoveChar(pieces[i], '\r'))
  }

  /**
   * The header: split on `x`, each of the first three parts trimmed and parsed
   * as a `usize`, in order. A part that is not an integer fails, a missing
   * part fails, and parts after the third are never looked at.
   */
  function ParseDimensions(line: string): (r: Result<Dims, SceneError>)
    ensures r.Success? ==> |Split(line, 'x')| >= 3
    ensures r.Success? ==> r.value.0 <= UsizeMax && r.value.1 <= UsizeMax && r.value.2 <= UsizeMax
    ensures r.Failure? ==> r.error == ExpectedInt || r.error == NotEnoughDimensions
    ensures var parts := Split(line, 'x');
      r.Success? <==> |parts| >= 3 && HeaderPart(parts, 0).Some? && HeaderPart(parts, 1).Some? && HeaderPart(parts, 2).Some?
    ensures var parts := Split(line, 'x');
      r.Success? ==> && HeaderPart(parts, 0) == Some(r.value.0)
                     && HeaderPart(parts, 1) == Some(r.value.1)
                     && HeaderPart(parts, 2) == Some(r.value.2)
    ensures var parts := Split(line, 'x');
      r == Failure(ExpectedInt) <==>
        || HeaderPart(parts, 0).None?
        || (|parts| >= 2 && HeaderPart(parts, 1).None?)
        || (|parts| >= 3 && HeaderPart(parts, 2).None?)
    ensures var parts := Split(line, 'x');
      r == Failure(NotEnoughDimensions) <==>
        && |parts| < 3
        && HeaderPart(parts, 0).Some?
        && (|parts| < 2 || HeaderPart(parts, 1).Some?)
  {
    var parts := Split(line, 'x');
    match HeaderPart(parts, 0)
    case None => Failure(ExpectedInt)
    case Some(width) =>
      if |parts| < 2 then Failure(NotEnoughDimensions)
      else match HeaderPart(parts, 1)
      case None => Failure(ExpectedInt)
      case Some(height) =>
        if |parts| < 3 then Failure(NotEnoughDimensions)
        else match HeaderPart(parts, 2)
        case None => Failure(ExpectedInt)
        case Some(length) => Success((width, height, length))
  }

  /** One header part trimmed and parsed as a `usize`. */
  function HeaderPart(parts: seq<string>, i: nat): (r: Option<nat>)
    requires i < |parts|
    ensures r.Some? ==> r.value <= UsizeMax
  {
    ParseUnsigned(Trim(parts[i]), UsizeMax)
  }

  /** No decimal numeral contains `c` when `c` is not a digit. */
  lemma DecimalAvoids(n: nat, c: char)
    requires !IsDigit(c)
    ensures c !in Decimal(n)
  {
  }

  /** A character in neither the pieces nor the separator is not in their join. */
  lemma {:induction false} JoinAvoids(pieces: seq<string>, sep: char, c: char)
    requires |pieces| >= 1 && c != sep
    requires forall i :: 0 <= i < |pieces| ==> c !in pieces[i]
    ensures c !in Join(pieces, sep)
  {
    if |pieces| > 1 {
      JoinAvoids(pieces[1..], sep, c);
    }
  }

  /** The header parse reads the first three parts and nothing after them. */
  lemma ParseDimensionsOfParts(line: string, width: nat, height: nat, length: nat)
    requires |Split(line, 'x')| >= 3
    requires ParseUnsigned(Trim(Split(line, 'x')[0]), UsizeMax) == Some(width)
    requires ParseUnsigned(Trim(Split(line, 'x')[1]), UsizeMax) == Some(height)
    requires ParseUnsigned(Trim(Split(line, 'x')[2]), UsizeMax) == Some(length)
    ensures ParseDimensions(line) == Success((width, height, length))
  {
  }

  /** A decimal numeral is its own trim and parses back to its value. */
  lemma ParseTrimmedDecimal(n: nat)
    requires n <= UsizeMax
    ensures ParseUnsigned(Trim(Decimal(n)), UsizeMax) == Some(n)
  {
    TrimUnpadded(Decimal(n));
    ParseUnsignedDecimal(n, UsizeMax);
  }

  /** A header: the three sizes in decimal joined by `x`. */
  function DimensionsText(width: nat, height: nat, length: nat): string {
    Join([Decimal(width), Decimal(height), Decimal(length)], 'x')
  }

  /** Header lines whose first three parts are the numerals of the three sizes parse to those sizes. */
  lemma ParseNumeralParts(line: string, width: nat, height: nat, length: nat)
    requires width <= UsizeMax && height <= UsizeMax && length <= UsizeMax
    requires |Split(line, 'x')| >= 3
    requires Split(line, 'x')[..3] == [Decimal(width), Decimal(height), Decimal(length)]
    ensures ParseDimensions(line) == Success((width, height, length))
  {
    HeaderPartsOfDecimals(Split(line, 'x'), width, height, length);
  }

  /** Header parts that begin with the numerals of three `usize` values parse to those values. */
  lemma HeaderPartsOfDecimals(parts: seq<string>, width: nat, height: nat, length: nat)
    requires width <= UsizeMax && height <= UsizeMax && length <= UsizeMax
    requires |parts| >= 3 && parts[..3] == [Decimal(width), Decimal(height), Decimal(length)]
    ensures HeaderPart(parts, 0) == Some(width)
    ensures HeaderPart(parts, 1) == Some(height)
    ensures HeaderPart(parts, 2) == Some(length)
  {
    assert parts[0] == Decimal(width) && parts[1] == Decimal(height) && parts[2] == Decimal(length);
    ParseTrimmedDecimal(width);
    ParseTrimmedDecimal(height);
    ParseTrimmedDecimal(length);
  }

  /** A written header parses back to its three sizes. */
  lemma ParseDimensionsRoundTrip(width: nat, height: nat, length: nat)
    requires width <= UsizeMax && height <= UsizeMax && length <= UsizeMax
    ensures ParseDimensions(DimensionsText(width, height, length)) == Success((width, height, length))
  {
    var pieces := [Decimal(width), Decimal(height), Decimal(length)];
    DecimalAvoids(width, 'x');
    DecimalAvoids(height, 'x');
    DecimalAvoids(length, 'x');
    JoinSplit(pieces, 'x');
    assert Split(DimensionsText(width, height, length), 'x')[..3] == pieces;
    ParseNumeralParts(DimensionsText(width, height, length), width, height, length);
  }

  /** A written header followed by `x` and anything at all still parses to its three sizes. */
  lemma ParseDimensionsIgnoresRest(width: nat, height: nat, length: nat, rest: string)
    requires width <= UsizeMax && height <= UsizeMax && length <= UsizeMax
    ensures ParseDimensions(DimensionsText(width, height, length) + "x" + rest) == Success((width, height, length))
  {
    var pieces := [Decimal(width), Decimal(height), Decimal(length)];
    DecimalAvoids(width, 'x');
    DecimalAvoids(height, 'x');
    DecimalAvoids(length, 'x');
    SplitAfterPieces(pieces, 'x', rest);
    var line := DimensionsText(width, height, length) + "x" + rest;
    assert (pieces + Split(rest, 'x'))[..3] == pieces;
    ParseNumeralParts(line, width, height, length);
  }

  /** One voxel line: where, and which colour. */
  datatype Voxel = Voxel(pos: (nat, nat, nat), color: Rgba8)

  /** Every part parsed as a `usize`, or None as soon as one is not. */
  function ParseValues(parts: seq<string>): (r: Option<seq<nat>>)
    ensures r.Some? <==> forall i :: 0 <= i < |parts| ==> ParseUnsigned(parts[i], UsizeMax).Some?
    ensures r.Some? ==> |r.value| == |parts|
    ensures r.Some? ==> forall i :: 0 <= i < |parts| ==> ParseUnsigned(parts[i], UsizeMax) == Some(r.value[i])
  {
    if |parts| == 0 then Some([])
    else
      match ParseUnsigned(parts[0], UsizeMax)
      case None => None
      case Some(v) =>
        match ParseValues(parts[1..])
        case None => None
        case Some(vs) => Some([v] + vs)
  }

  /**
   * A voxel line, the `index`-th counted from 0: spaces removed, split on
   * commas, every part a `usize`, exactly six of them. The colour bytes are the
   * values truncated to 8 bits, and alpha is 255.
   */
  function ParseVoxelLine(line: string, index: nat): (r: Result<Voxel, SceneError>)
    ensures r.Success? ==> |Split(RemoveChar(line, ' '), ',')| == 6
    ensures r.Success? ==> r.value.color.r < 256 && r.value.color.g < 256 && r.value.color.b < 256
    ensures r.Success? ==> r.value.color.a == 255
    ensures r.Failure? ==> r.error == ExpectedInt || r.error == NotEnoughData(index + 1)
    ensures var parts := Split(RemoveChar(line, ' '), ',');
      r == Failure(ExpectedInt) <==> ParseValues(parts).None?
    ensures var parts := Split(RemoveChar(line, ' '), ',');
      r == Failure(NotEnoughData(index + 1)) <==> ParseValues(parts).Some? && |parts| != 6
    ensures var parts := Split(RemoveChar(line, ' '), ',');
      r.Success? ==> && |parts| == 6
                     && ParseUnsigned(parts[0], UsizeMax) == Some(r.value.pos.0)
                     && ParseUnsigned(parts[1], UsizeMax) == Some(r.value.pos.1)
                     && ParseUnsigned(parts[2], UsizeMax) == Some(r.value.pos.2)
                     && ParseUnsigned(parts[3], UsizeMax).value % 256 == r.value.color.r
                     && ParseUnsigned(parts[4], UsizeMax).value % 256 == r.value.color.g
                     && ParseUnsigned(parts[5], UsizeMax).value % 256 == r.value.color.b
  {
    var parts := Split(RemoveChar(line, ' '), ',');
    match ParseValues(parts)
    case None => Failure(ExpectedInt)
    case Some(values) =>
      if |values| != 6 then Failure(NotEnoughData(index + 1))
      else Success(Voxel((values[0], values[1], values[2]), Rgba8(values[3] % 256, values[4] % 256, values[5] % 256, 255)))
  }

  /** The six numbers of a voxel line, in order. */
  function VoxelNumbers(v: Voxel): seq<nat> {
    [v.pos.0, v.pos.1, v.pos.2, v.color.r, v.color.g, v.color.b]
  }

  /** Numbers written in decimal, one piece each. */
  function Numerals(numbers: seq<nat>): (r: seq<string>)
    ensures |r| == |numbers|
  {
    seq(|numbers|, i requires 0 <= i < |numbers| => Decimal(numbers[i]))
  }

  /** A voxel written as six comma-separated decimals. */
  function VoxelText(v: Voxel): string {
    Join(Numerals(VoxelNumbers(v)), ',')
  }

  /** Parts that each parse to the matching value parse together to the values. */
  lemma ParseValuesOfParts(parts: seq<string>, values: seq<nat>)
    requires |parts| == |values|
    requires forall i :: 0 <= i < |parts| ==> ParseUnsigned(parts[i], UsizeMax) == Some(values[i])
    ensures ParseValues(parts) == Some(values)
  {
    var r := ParseValues(parts);
    assert r.Some?;
    assert r.value == values;
  }

  /** A line whose parts are six values parses to the voxel they spell. */
  lemma ParseVoxelLineOfValues(line: string, index: nat, values: seq<nat>)
    requires ParseValues(Split(RemoveChar(line, ' '), ',')) == Some(values)
    requires |values| == 6
    ensures ParseVoxelLine(line, index) ==
      Success(Voxel((values[0], values[1], values[2]), Rgba8(values[3] % 256, values[4] % 256, values[5] % 256, 255)))
  {
  }

  /** `usize` numerals hold no space or comma, and each parses back to its number. */
  lemma NumeralsParse(numbers: seq<nat>)
    requires forall i :: 0 <= i < |numbers| ==> numbers[i] <= UsizeMax
    ensures forall i :: 0 <= i < |numbers| ==> ' ' !in Numerals(numbers)[i] && ',' !in Numerals(numbers)[i]
    ensures forall i :: 0 <= i < |numbers| ==> ParseUnsigned(Numerals(numbers)[i], UsizeMax) == Some(numbers[i])
  {
    forall i | 0 <= i < |numbers|
      ensures ' ' !in Numerals(numbers)[i] && ',' !in Numerals(numbers)[i]
      ensures ParseUnsigned(Numerals(numbers)[i], UsizeMax) == Some(numbers[i])
    {
      DecimalAvoids(numbers[i], ' ');
      DecimalAvoids(numbers[i], ',');
      ParseUnsignedDecimal(numbers[i], UsizeMax);
    }
  }

  /** A voxel with `usize` coordinates and byte colours, written out, parses back to itself. */
  lemma ParseVoxelLineRoundTrip(v: Voxel, index: nat)
    requires v.pos.0 <= UsizeMax && v.pos.1 <= UsizeMax && v.pos.2 <= UsizeMax
    requires v.color.r < 256 && v.color.g < 256 && v.color.b < 256 && v.color.a == 255
    ensures ParseVoxelLine(VoxelText(v), index) == Success(v)
  {
    var numbers := VoxelNumbers(v);
    var pieces := Numerals(numbers);
    NumeralsParse(numbers);
    var text := VoxelText(v);
    JoinAvoids(pieces, ',', ' ');
    RemoveAbsentChar(text, ' ');
    JoinSplit(pieces, ',');
    ParseValuesOfParts(pieces, numbers);
    ParseVoxelLineOfValues(text, index, numbers);
    SmallMod(v.color.r, 256);
    SmallMod(v.color.g, 256);
    SmallMod(v.color.b, 256);
  }

  /**
   * The cells after the given voxel lines have been applied in order to
   * `base`: each line is parsed and then painted; the first line that fails
   * to parse, or whose slot does not fit the array, is the error.
   */
  function ApplyLines(base: seq<real>, dims: Dims, lines: seq<string>): (r: Result<seq<real>, SceneError>)
    ensures r.Success? ==> |r.value| == |base|
    decreases |lines|
  {
    if |lines| == 0 then Success(base)
    else
      match ApplyLines(base, dims, lines[..|lines| - 1])
      case Failure(e) => Failure(e)
      case Success(data) =>
        match ParseVoxelLine(lines[|lines| - 1], |lines| - 1)
        case Failure(e) => Failure(e)
        case Success(v) =>
          var p := GridPosition(v.pos, dims);
          if p + 4 > |data| then Failure(OutOfRange) else Success(Paint(data, p, v.color))
  }

  /** Once a prefix of the lines has failed, the lines after it change nothing: the first error stands. */
  lemma {:induction false} FirstErrorStands(base: seq<real>, dims: Dims, lines: seq<string>, k: nat)
    requires k <= |lines|
    requires ApplyLines(base, dims, lines[..k]).Failure?
    ensures ApplyLines(base, dims, lines) == ApplyLines(base, dims, lines[..k])
    decreases |lines| - k
  {
    if k < |lines| {
      assert lines[..|lines| - 1][..k] == lines[..k];
      FirstErrorStands(base, dims, lines[..|lines| - 1], k);
    } else {
      assert lines[..k] == lines;
    }
  }

  /** Applying one more line: parse it, then paint it if its slot fits. */
  lemma ApplyLinesStep(base: seq<real>, dims: Dims, lines: seq<string>, i: nat)
    requires i < |lines|
    requires ApplyLines(base, dims, lines[..i]).Success?
    ensures var data := ApplyLines(base, dims, lines[..i]).value;
      ApplyLines(base, dims, lines[..i + 1]) ==
        match ParseVoxelLine(lines[i], i)
        case Failure(e) => Failure(e)
        case Success(v) =>
          if GridPosition(v.pos, dims) + 4 > |data| then Failure(OutOfRange)
          else Success(Paint(data, GridPosition(v.pos, dims), v.color))
  {
    assert lines[..i + 1][..i] == lines[..i];
  }

  /** The colour the last line whose slot covers cell `i` gives it, if any line does. */
  function LastWrite(dims: Dims, lines: seq<string>, i: nat): Option<real>
    decreases |lines|
  {
    if |lines| == 0 then None
    else
      var earlier := LastWrite(dims, lines[..|lines| - 1], i);
      match ParseVoxelLine(lines[|lines| - 1], |lines| - 1)
      case Failure(_) => earlier
      case Success(v) =>
        var p := GridPosition(v.pos, dims);
        if p <= i < p + 4 then Some(Channels(v.color)[i - p]) else earlier
  }

  /**
   * After the lines apply, each cell holds the value the last line covering it
   * wrote, or its old value when no line covers it: later lines win and
   * nothing else changes.
   */
  lemma {:induction false} LaterLineWins(base: seq<real>, dims: Dims, lines: seq<string>, i: nat)
    requires ApplyLines(base, dims, lines).Success?
    requires i < |base|
    ensures ApplyLines(base, dims, lines).value[i] ==
      match LastWrite(dims, lines, i) case Some(x) => x case None => base[i]
    decreases |lines|
  {
    if |lines| > 0 {
      var earlier := ApplyLines(base, dims, lines[..|lines| - 1]);
      var last := ParseVoxelLine(lines[|lines| - 1], |lines| - 1);
      assert earlier.Success? && last.Success?;
      LaterLineWins(base, dims, lines[..|lines| - 1], i);
      var p := GridPosition(last.value.pos, dims);
      assert ApplyLines(base, dims, lines).value == Paint(earlier.value, p, last.value.color);
    }
  }

  /** A parsed scene: its size and its cells. */
  datatype Scene = Scene(width: nat, height: nat, length: nat, data: seq<real>)

  /**
   * The scene a text denotes: the header gives the size, every cell starts at
   * 0, and then the voxel lines apply in order.
   */
  function Decode(text: string): (r: Result<Scene, SceneError>)
    ensures r.Success? ==> |r.value.data| == ChannelCount((r.value.width, r.value.height, r.value.length))
    ensures r.Success? ==> ParseDimensions(Lines(text)[0]) == Success((r.value.width, r.value.height, r.value.length))
    ensures var header := ParseDimensions(Lines(text)[0]);
      header.Failure? ==> r == Failure(header.error)
    ensures var header := ParseDimensions(Lines(text)[0]);
      header.Success? ==>
        var applied := ApplyLines(Zeros(ChannelCount(header.value)), header.value, Lines(text)[1..]);
        && (r.Success? <==> applied.Success?)
        && (r.Failure? ==> r.error == applied.error)
  {
    var lines := Lines(text);
    match ParseDimensions(lines[0])
    case Failure(e) => Failure(e)
    case Success(dims) =>
      match ApplyLines(Zeros(ChannelCount(dims)), dims, lines[1..])
      case Failure(e) => Failure(e)
      case Success(data) => Success(Scene(dims.0, dims.1, dims.2, data))
  }

  /**
   * In a decoded scene every cell holds what the last voxel line covering it
   * wrote, and 0 when no line covers it.
   */
  lemma DecodedCell(text: string, i: nat)
    requires Decode(text).Success? && i < |Decode(text).value.data|
    ensures var s := Decode(text).value;
      s.data[i] == match LastWrite((s.width, s.height, s.length), Lines(text)[1..], i) case Some(x) => x case None => 0.0
  {
    var s := Decode(text).value;
    var dims := (s.width, s.height, s.length);
    LaterLineWins(Zeros(ChannelCount(dims)), dims, Lines(text)[1..], i);
  }

  /** A voxel a scene line can carry for a grid of size `dims`: inside the grid, with byte channels and opaque alpha. */
  predicate Storable(v: Voxel, dims: Dims) {
    && InBounds(v.pos, dims)
    && v.color.r < 256 && v.color.g < 256 && v.color.b < 256 && v.color.a == 255
  }

  /** The cells after painting the voxels onto `base` in order; a reference that involves no text. */
  function PaintAll(base: seq<real>, dims: Dims, voxels: seq<Voxel>): (r: seq<real>)
    requires |base| == ChannelCount(dims)
    requires forall k :: 0 <= k < |voxels| ==> Storable(voxels[k], dims)
    ensures |r| == |base|
    decreases |voxels|
  {
    if |voxels| == 0 then base
    else
      var v := voxels[|voxels| - 1];
      assert Storable(v, dims);
      GridPositionInBounds(v.pos, dims);
      Paint(PaintAll(base, dims, voxels[..|voxels| - 1]), GridPosition(v.pos, dims), v.color)
  }

  /** One `x,z,y,r,g,b` line per voxel. */
  function VoxelLines(voxels: seq<Voxel>): (r: seq<string>)
    ensures |r| == |voxels|
  {
    seq(|voxels|, k requires 0 <= k < |voxels| => VoxelText(voxels[k]))
  }

  /** A scene file: the `WxHxL` header line, then the voxel lines. */
  function SceneText(dims: Dims, voxels: seq<Voxel>): string {
    Join([DimensionsText(dims.0, dims.1, dims.2)] + VoxelLines(voxels), '\n')
  }

  /** Lines written from storable voxels apply without error and paint those voxels in order. */
  lemma {:induction false} ApplyVoxelLines(base: seq<real>, dims: Dims, voxels: seq<Voxel>)
    requires dims.0 <= UsizeMax && dims.1 <= UsizeMax && dims.2 <= UsizeMax
    requires |base| == ChannelCount(dims)
    requires forall k :: 0 <= k < |voxels| ==> Storable(voxels[k], dims)
    ensures ApplyLines(base, dims, VoxelLines(voxels)) == Success(PaintAll(base, dims, voxels))
    decreases |voxels|
  {
    if |voxels| > 0 {
      var n := |voxels| - 1;
      var lines := VoxelLines(voxels);
      assert lines[..n] == VoxelLines(voxels[..n]);
      ApplyVoxelLines(base, dims, voxels[..n]);
      var v := voxels[n];
      assert Storable(v, dims);
      ParseVoxelLineRoundTrip(v, n);
      GridPositionInBounds(v.pos, dims);
      assert lines[n] == VoxelText(v);
    }
  }

  /** A header's text holds no character other than digits and `x`. */
  lemma HeaderAvoids(dims: Dims, c: char)
    requires !IsDigit(c) && c != 'x'
    ensures c !in DimensionsText(dims.0, dims.1, dims.2)
  {
    DecimalAvoids(dims.0, c);
    DecimalAvoids(dims.1, c);
    DecimalAvoids(dims.2, c);
    JoinAvoids([Decimal(dims.0), Decimal(dims.1), Decimal(dims.2)], 'x', c);
  }

  /** A voxel line holds no character other than digits and commas. */
  lemma VoxelTextAvoids(v: Voxel, c: char)
    requires !IsDigit(c) && c != ','
    ensures c !in VoxelText(v)
  {
    var numbers := VoxelNumbers(v);
    forall k | 0 <= k < |numbers|
      ensures c !in Numerals(numbers)[k]
    {
      DecimalAvoids(numbers[k], c);
    }
    JoinAvoids(Numerals(numbers), ',', c);
  }

  /** A scene file's lines are its header line and its voxel lines. */
  lemma SceneLines(dims: Dims, voxels: seq<Voxel>)
    ensures Lines(SceneText(dims, voxels)) == [DimensionsText(dims.0, dims.1, dims.2)] + VoxelLines(voxels)
  {
    var pieces := [DimensionsText(dims.0, dims.1, dims.2)] + VoxelLines(voxels);
    forall i | 0 <= i < |pieces|
      ensures '\n' !in pieces[i] && '\r' !in pieces[i]
    {
      if i == 0 {
        HeaderAvoids(dims, '\n');
        HeaderAvoids(dims, '\r');
      } else {
        assert pieces[i] == VoxelText(voxels[i - 1]);
        VoxelTextAvoids(voxels[i - 1], '\n');
        VoxelTextAvoids(voxels[i - 1], '\r');
      }
    }
    JoinSplit(pieces, '\n');
    forall i | 0 <= i < |pieces|
      ensures RemoveChar(pieces[i], '\r') == pieces[i]
    {
      RemoveAbsentChar(pieces[i], '\r');
    }
  }

  /**
   * A `WxHxL` header followed by the lines of voxels inside the grid decodes
   * to a W by H by L scene whose cells are those voxels painted in order over
   * zeros.
   */
  lemma DecodeSceneText(dims: Dims, voxels: seq<Voxel>)
    requires dims.0 <= UsizeMax && dims.1 <= UsizeMax && dims.2 <= UsizeMax
    requires forall k :: 0 <= k < |voxels| ==> Storable(voxels[k], dims)
    ensures Decode(SceneText(dims, voxels)) ==
      Success(Scene(dims.0, dims.1, dims.2, PaintAll(Zeros(ChannelCount(dims)), dims, voxels)))
  {
    var lines := Lines(SceneText(dims, voxels));
    SceneLines(dims, voxels);
    assert lines[0] == DimensionsText(dims.0, dims.1, dims.2);
    assert lines[1..] == VoxelLines(voxels);
    ParseDimensionsRoundTrip(dims.0, dims.1, dims.2);
    ApplyVoxelLines(Zeros(ChannelCount(dims)), dims, voxels);
  }

  class Grid {
    const width: nat
    const height: nat
    const length: nat
    /** The cells, four channels each; the vector's length never changes, only its contents. */
    const data: array<real>

    ghost predicate Valid() {
      data.Length == ChannelCount((width, height, length))
    }

    /** A grid of the given size with every channel 0. */
    constructor (width: nat, height: nat, length: nat)
      ensures Valid()
      ensures this.width == width && this.height == height && this.length == length
      ensures fresh(data)
      ensures data[..] == Zeros(ChannelCount((width, height, length)))
    {
      this.width := width;
      this.height := height;
      this.length := length;
      data := new real[ChannelCount((width, height, length))](_ => 0.0);
    }

    /**
     * Writes the colour into the four channels at the position's offset and
     * nothing else; false (the source's out-of-range slice panic) when the
     * slot does not fit, with nothing written.
     */
    method SetData(pos: (nat, nat, nat), color: Rgba8) returns (ok: bool)
      requires Valid()
      modifies data
      ensures ok <==> GridPosition(pos, (width, height, length)) + 4 <= data.Length
      ensures ok ==> data[..] == Paint(old(data[..]), GridPosition(pos, (width, height, length)), color)
      ensures !ok ==> data[..] == old(data[..])
    {
      var p := GridPosition(pos, (width, height, length));
      if p + 4 > data.Length {
        return false;
      }
      var channels := Channels(color);
      for i := 0 to 4
        invariant forall k :: 0 <= k < data.Length ==>
          data[k] == if p <= k < p + i then channels[k - p] else old(data[k])
      {
        data[p + i] := channels[i];
      }
      return true;
    }

    /**
     * Applies the voxel lines in order, each parsed and then painted in place;
     * stops at the first line that fails, with its error. Without an error the
     * cells are exactly what `ApplyLines` gives.
     */
    method PaintLines(lines: seq<string>) returns (error: Option<SceneError>)
      requires Valid()
      modifies data
      ensures ApplyLines(old(data[..]), (width, height, length), lines).Success? ==>
        error == None && data[..] == ApplyLines(old(data[..]), (width, height, length), lines).value
      ensures ApplyLines(old(data[..]), (width, height, length), lines).Failure? ==>
        error == Some(ApplyLines(old(data[..]), (width, height, length), lines).error)
    {
      ghost var base := data[..];
      var dims := (width, height, length);
      var i := 0;
      while i < |lines|
        invariant 0 <= i <= |lines|
        invariant ApplyLines(base, dims, lines[..i]) == Success(data[..])
      {
        var voxel := ParseVoxelLine(lines[i], i);
        ApplyLinesStep(base, dims, lines, i);
        if voxel.Failure? {
          FirstErrorStands(base, dims, lines, i + 1);
          return Some(voxel.error);
        }
        var ok := SetData(voxel.value.pos, voxel.value.color);
        if !ok {
          FirstErrorStands(base, dims, lines, i + 1);
          return Some(OutOfRange);
        }
        i := i + 1;
      }
      assert lines[..i] == lines;
      return None;
    }

    /** The number of mip levels the grid's texture gets: always 1. */
    function GetMipLevels(): (r: nat)
      ensures r == 1
    {
      1
    }
  }

  /**
   * Parses a scene into a fresh grid: the header, then every voxel line in
   * order, painted into the array in place. The outcome is exactly `Decode`'s.
   */
  method FromString(text: string) returns (r: Result<Grid, SceneError>)
    ensures Decode(text).Failure? ==> r == Failure(Decode(text).error)
    ensures Decode(text).Success? ==> && r.Success?
                                      && fresh(r.value.data)
                                      && r.value.Valid()
                                      && Scene(r.value.width, r.value.height, r.value.length, r.value.data[..]) == Decode(text).value
  {
    var lines := Lines(text);
    var header := ParseDimensions(lines[0]);
    if header.Failure? {
      return Failure(header.error);
    }
    var dims := header.value;
    var grid := new Grid(dims.0, dims.1, dims.2);
    var error := grid.PaintLines(lines[1..]);
    if error.Some? {
      return Failure(error.value);
    }
    return Success(grid);
  }
}
