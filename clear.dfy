/**
 * The full mip clear pass over the 128-cube volume: one bind group per coarser
 * level pairing the view of the level below (read) with the level's own view
 * (written), and one compute dispatch per level sized to the level's extent,
 * at least one group along each axis.
 */
module Clear {
  import opened Wrappers
  import opened Gpu
  import opened Arith
  import TextureAtlas
  import Mipmapper

  /** The volume the pass is built for, fixed in its constructor. */
  const VolumeWidth: nat := 128
  const VolumeHeight: nat := 128
  const VolumeLength: nat := 128

  /** A 128-cube volume gets 6 levels. */
  lemma MipLevelsOf128()
    ensures Mipmapper.MipLevelCount(VolumeWidth, VolumeHeight, VolumeLength) == 6
  {
    assert Pow2(7) == 128 && Pow2(8) == 256;
    Mipmapper.MipLevelCountUnique(VolumeWidth, VolumeHeight, VolumeLength, 6);
  }

  /** A bind group of the pass: the view read and the view written. */
  datatype BindGroup = BindGroup(source: TextureView, destination: TextureView)

  /** Bind groups for levels 1 .. |views| - 1, each pairing a view with the next one. */
  function BindGroups(views: seq<TextureView>): (r: seq<BindGroup>)
    ensures |r| == if |views| == 0 then 0 else |views| - 1
    ensures forall i :: 0 <= i < |r| ==> r[i].source == views[i] && r[i].destination == views[i + 1]
  {
    if |views| == 0 then []
    else seq(|views| - 1, i requires 0 <= i < |views| - 1 => BindGroup(views[(i + 1) - 1], views[i + 1]))
  }

  /** The pass's fixed state: level count, bind groups and the volume's extent. */
  datatype ClearPass = ClearPass(mipLevels: nat, bindGroups: seq<BindGroup>, width: nat, height: nat, length: nat)

  ghost predicate Valid(c: ClearPass) {
    c.mipLevels >= 1 && |c.bindGroups| == c.mipLevels - 1
  }

  /**
   * Builds the pass; None where the source's view lookup panics. Bind group `i`
   * reads mip level `i` and writes mip level `i + 1` of the volume texture.
   */
  function New(atlas: TextureAtlas.Atlas, frameCount: nat): (r: Option<ClearPass>)
    reads atlas
    ensures r.None? <==> atlas.Get(Mipmapper.WorldAttachment, frameCount).None?
    ensures r.Some? ==> Valid(r.value) && r.value.mipLevels == 6
    ensures r.Some? ==> r.value.width == 128 && r.value.height == 128 && r.value.length == 128
    ensures r.Some? ==> forall i :: 0 <= i < |r.value.bindGroups| ==>
      && r.value.bindGroups[i].source.descriptor == Mipmapper.MipView(i)
      && r.value.bindGroups[i].destination.descriptor == Mipmapper.MipView(i + 1)
      && Some(r.value.bindGroups[i].source.texture) == atlas.Get(Mipmapper.WorldAttachment, frameCount)
      && Some(r.value.bindGroups[i].destination.texture) == atlas.Get(Mipmapper.WorldAttachment, frameCount)
  {
    var mipLevels := Mipmapper.MipLevelCount(VolumeWidth, VolumeHeight, VolumeLength);
    MipLevelsOf128();
    match Mipmapper.MipViews(atlas, frameCount, mipLevels)
    case None => None
    case Some(views) =>
      Some(ClearPass(mipLevels, BindGroups(views), VolumeWidth, VolumeHeight, VolumeLength))
  }

  /** The dispatch size along one axis at `level`: the level's extent, but at least 1. */
  function DispatchSize(dim: nat, level: nat): (r: nat)
    ensures r >= 1
    ensures dim >= Pow2(level) ==> r == dim / Pow2(level)
    ensures dim < Pow2(level) ==> r == 1
  {
    var extent := dim / Pow2(level);
    if extent >= 1 then extent else 1
  }

  lemma DivByLarger(n: nat, a: nat, b: nat)
    requires 0 < a <= b
    ensures n / b <= n / a
  {
    var x, q := n / b, n / a;
    MulMonotone(x, a, b);
    DivFloor(n, b);
    DivFloor(n, a);
    assert x * a <= n < (q + 1) * a;
    MulCancel(x, q + 1, a);
  }

  /** Going one level coarser never makes a dispatch dimension larger. */
  lemma DispatchSizeNonIncreasing(dim: nat, level: nat)
    ensures DispatchSize(dim, level + 1) <= DispatchSize(dim, level)
  {
    DivByLarger(dim, Pow2(level), Pow2(level + 1));
  }

  /** One compute dispatch: the bind group used and the work-group counts along x, y and z. */
  datatype ClearDispatch = ClearDispatch(bindGroup: BindGroup, x: nat, y: nat, z: nat)

  /** The dispatch for `level`: bind group `level - 1`, sized (width, length, height) at that level. */
  ghost predicate LevelDispatch(c: ClearPass, level: nat, d: ClearDispatch)
    requires Valid(c) && 1 <= level < c.mipLevels
  {
    && d.bindGroup == c.bindGroups[level - 1]
    && d.x == DispatchSize(c.width, level)
    && d.y == DispatchSize(c.length, level)
    && d.z == DispatchSize(c.height, level)
  }

  /** Encodes the pass: levels 1 .. mipLevels - 1 in increasing order. */
  method Render(c: ClearPass) returns (dispatches: seq<ClearDispatch>)
    requires Valid(c)
    ensures |dispatches| == c.mipLevels - 1
    ensures forall i :: 0 <= i < |dispatches| ==> LevelDispatch(c, i + 1, dispatches[i])
  {
    dispatches := [];
    var level := 1;
    while level < c.mipLevels
      invariant 1 <= level <= c.mipLevels
      invariant |dispatches| == level - 1
      invariant forall i :: 0 <= i < |dispatches| ==> LevelDispatch(c, i + 1, dispatches[i])
    {
      var divFactor := Pow2(level);
      var width, height, length := c.width / divFactor, c.height / divFactor, c.length / divFactor;
      var dispatch := ClearDispatch(c.bindGroups[level - 1],
        if width >= 1 then width else 1,
        if length >= 1 then length else 1,
        if height >= 1 then height else 1);
      assert LevelDispatch(c, level, dispatch);
      dispatches := dispatches + [dispatch];
      level := level + 1;
    }
  }
}
