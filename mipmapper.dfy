/**
 * The sparse mip regeneration pass. The voxelizer leaves a list of changed voxel
 * positions in a buffer; the pass reads it back and, for each coarser level in
 * turn, halves every position, drops repeats (keeping first occurrences in
 * order) and sizes one compute dispatch from the length of what is left. The
 * dispatch for level `l` reads the view of level `l - 1` and writes the view of
 * level `l`.
 */
module Mipmapper {
  import opened Wrappers
  import opened Gpu
  import opened Arith
  import TextureAtlas

  /** The volume the pass is built for, fixed in its constructor. */
  const VolumeWidth: nat := 512
  const VolumeHeight: nat := 512
  const VolumeLength: nat := 512

  /** The atlas key of the voxel volume texture. */
  const WorldAttachment: string := "voxelizer_attachment_world"

  /** The atlas keys of the voxelizer's change count and change list buffers, which the pass reads back. */
  const ChangedIndexBuffer: string := "voxelizer_binding_voxels_changed_index"
  const ChangedBuffer: string := "voxelizer_binding_voxels_changed"

  /** Threads per compute work group in the mip shader. */
  const GroupSize: nat := 1024

  function Min3(a: nat, b: nat, c: nat): nat {
    if a <= b && a <= c then a else if b <= c then b else c
  }

  /** floor(log2(n)), characterised by the power of two it lies between. */
  function FloorLog2(n: nat): (r: nat)
    requires n >= 1
    ensures Pow2(r) <= n < Pow2(r + 1)
  {
    if n < 2 then 0 else 1 + FloorLog2(n / 2)
  }

  /**
   * The number of mip levels: floor(log2(min(width, height, length))) - 1. The
   * source subtracts 1 from an unsigned value, which underflows when the
   * minimum is below 2, so the minimum must be at least 2.
   */
  function MipLevelCount(width: nat, height: nat, length: nat): (r: nat)
    requires Min3(width, height, length) >= 2
    ensures Pow2(r + 1) <= Min3(width, height, length) < Pow2(r + 2)
  {
    FloorLog2(Min3(width, height, length)) - 1
  }

  /** The bounds in the contract of MipLevelCount pin the result down. */
  lemma MipLevelCountUnique(width: nat, height: nat, length: nat, k: nat)
    requires Min3(width, height, length) >= 2
    requires Pow2(k + 1) <= Min3(width, height, length) < Pow2(k + 2)
    ensures MipLevelCount(width, height, length) == k
  {
    var r := MipLevelCount(width, height, length);
    if r < k {
      Pow2Monotone(r + 2, k + 1);
    } else if r > k {
      Pow2Monotone(k + 2, r + 1);
    }
  }

  /** A 512-cube volume gets 8 levels. */
  lemma MipLevelsOf512()
    ensures MipLevelCount(VolumeWidth, VolumeHeight, VolumeLength) == 8
  {
    assert Pow2(9) == 512 && Pow2(10) == 1024;
    MipLevelCountUnique(VolumeWidth, VolumeHeight, VolumeLength, 8);
  }

  /** The view descriptor of one mip level: that level alone. */
  function MipView(mip: nat): ViewDescriptor {
    ViewDescriptor(mip, Some(1))
  }

  /**
   * One single-level view of the volume per mip level 0 .. mipLevels - 1, looked
   * up in the atlas. None when the lookup would fail (the source unwraps it);
   * with no levels there is no lookup.
   */
  function MipViews(atlas: TextureAtlas.Atlas, frameCount: nat, mipLevels: nat): (r: Option<seq<TextureView>>)
    reads atlas
    ensures r.None? <==> mipLevels > 0 && atlas.Get(WorldAttachment, frameCount).None?
    ensures r.Some? ==> |r.value| == mipLevels
    ensures r.Some? ==> forall mip :: 0 <= mip < mipLevels ==>
      atlas.GetViewDescriptor(WorldAttachment, MipView(mip), frameCount) == Some(r.value[mip])
    ensures r.Some? ==> forall mip :: 0 <= mip < mipLevels ==> r.value[mip].descriptor.baseMipLevel == mip
  {
    if mipLevels == 0 then Some([])
    else match atlas.Get(WorldAttachment, frameCount)
      case None => None
      case Some(volume) => Some(seq(mipLevels, mip requires 0 <= mip => TextureView(volume, MipView(mip))))
  }

  /** The pass's fixed state: how many levels and one view per level. */
  datatype Mipmapper = Mipmapper(mipLevels: nat, views: seq<TextureView>)

  ghost predicate Valid(m: Mipmapper) {
    |m.views| == m.mipLevels
  }

  /** Builds the pass for the 512-cube volume; None where the source's view lookup panics. */
  function New(atlas: TextureAtlas.Atlas, frameCount: nat): (r: Option<Mipmapper>)
    reads atlas
    ensures r.None? <==> atlas.Get(WorldAttachment, frameCount).None?
    ensures r.Some? ==> Valid(r.value) && r.value.mipLevels == 8
    ensures r.Some? ==> Some(r.value.views) == MipViews(atlas, frameCount, 8)
  {
    var mipLevels := MipLevelCount(VolumeWidth, VolumeHeight, VolumeLength);
    MipLevelsOf512();
    match MipViews(atlas, frameCount, mipLevels)
    case None => None
    case Some(views) => Some(Mipmapper(mipLevels, views))
  }

  /** A voxel position as the shader sees it: four 32-bit signed integers. */
  datatype Position = Position(x: int, y: int, z: int, w: int)

  /** Rust's `/ 2` on a signed integer: the quotient truncated toward zero. */
  function TruncHalf(v: int): (r: int)
    ensures v >= 0 ==> 0 <= r && 2 * r <= v < 2 * r + 2
    ensures v < 0 ==> r <= 0 && 2 * r - 2 < v <= 2 * r
  {
    if v >= 0 then v / 2 else -((-v) / 2)
  }

  /** The parent cell one level up: each coordinate halved, the fourth set to 0. */
  function Parent(p: Position): Position {
    Position(TruncHalf(p.x), TruncHalf(p.y), TruncHalf(p.z), 0)
  }

  /** A position read back from the buffer keeps x, y and z and has its fourth component cleared. */
  function ReadBack(raw: Position): Position {
    Position(raw.x, raw.y, raw.z, 0)
  }

  function ReadBackAll(raw: seq<Position>): (r: seq<Position>)
    ensures |r| == |raw|
    ensures forall i :: 0 <= i < |raw| ==> r[i] == ReadBack(raw[i])
  {
    seq(|raw|, i requires 0 <= i < |raw| => ReadBack(raw[i]))
  }

  function Parents(s: seq<Position>): (r: seq<Position>)
    ensures |r| == |s|
    ensures forall i :: 0 <= i < |s| ==> r[i] == Parent(s[i])
  {
    seq(|s|, i requires 0 <= i < |s| => Parent(s[i]))
  }

  ghost predicate NoDuplicates<T>(s: seq<T>) {
    forall i, j :: 0 <= i < j < |s| ==> s[i] != s[j]
  }

  /**
   * The elements of `s` without repeats, each kept at its first occurrence: the
   * iterator adaptor `unique`.
   */
  function Unique<T(==,!new)>(s: seq<T>): (r: seq<T>)
    ensures NoDuplicates(r)
    ensures forall x :: x in r <==> x in s
    ensures |r| <= |s|
  {
    if |s| == 0 then []
    else
      var u := Unique(s[..|s| - 1]);
      assert forall x :: x in s <==> x in s[..|s| - 1] || x == s[|s| - 1];
      if s[|s| - 1] in u then u else u + [s[|s| - 1]]
  }

  /** The position of the first occurrence of `x` in `s`. */
  function FirstIndex<T(==)>(s: seq<T>, x: T): (r: nat)
    requires x in s
    ensures r < |s| && s[r] == x && x !in s[..r]
  {
    var prefix := s[..|s| - 1];
    if x in prefix then
      var i := FirstIndex(prefix, x);
      assert s[..i] == prefix[..i];
      i
    else
      assert s[..|s| - 1] == prefix;
      |s| - 1
  }

  /**
   * `Unique` keeps each element where it first occurs: its elements appear in
   * the order of their first occurrences in the input.
   */
  lemma {:induction false} UniqueKeepsFirstOrder<T(!new)>(s: seq<T>)
    ensures forall i, j :: 0 <= i < j < |Unique(s)| ==> FirstIndex(s, Unique(s)[i]) < FirstIndex(s, Unique(s)[j])
  {
    if |s| > 0 {
      var prefix := s[..|s| - 1];
      UniqueKeepsFirstOrder(prefix);
      forall x | x in prefix
        ensures FirstIndex(s, x) == FirstIndex(prefix, x)
      {
        PrefixFirstIndex(s, x);
      }
    }
  }

  /** An element of the list without its last entry first occurs where it first occurs in the whole list. */
  lemma PrefixFirstIndex<T>(s: seq<T>, x: T)
    requires |s| > 0 && x in s[..|s| - 1]
    ensures FirstIndex(s, x) == FirstIndex(s[..|s| - 1], x)
  {
  }

  /** Removing repeats from a list that has none changes nothing. */
  lemma {:induction false} UniqueOfDistinct<T(!new)>(s: seq<T>)
    requires NoDuplicates(s)
    ensures Unique(s) == s
  {
    if |s| > 0 {
      UniqueOfDistinct(s[..|s| - 1]);
      assert s[|s| - 1] !in s[..|s| - 1];
    }
  }

  /** One level's step: halve every position, then drop repeats. */
  function NextLevel(s: seq<Position>): seq<Position> {
    Unique(Parents(s))
  }

  /** The working set used at `level`: the read-back list, stepped `level` times. */
  function WorkingSet(raw: seq<Position>, level: nat): seq<Position> {
    if level == 0 then ReadBackAll(raw) else NextLevel(WorkingSet(raw, level - 1))
  }

  /**
   * A level's set has no repeats, holds exactly the parents of the previous
   * level's positions in the order they first occur, and is no longer than the
   * previous level's.
   */
  lemma NextLevelIsParentImage(s: seq<Position>)
    ensures NoDuplicates(NextLevel(s))
    ensures forall p :: p in NextLevel(s) <==> exists q :: q in s && p == Parent(q)
    ensures |NextLevel(s)| <= |s|
    ensures forall i, j :: 0 <= i < j < |NextLevel(s)| ==>
      FirstIndex(Parents(s), NextLevel(s)[i]) < FirstIndex(Parents(s), NextLevel(s)[j])
  {
    UniqueKeepsFirstOrder(Parents(s));
    forall p
      ensures p in NextLevel(s) <==> exists q :: q in s && p == Parent(q)
    {
      if p in NextLevel(s) {
        var i :| 0 <= i < |Parents(s)| && Parents(s)[i] == p;
        assert s[i] in s;
      }
      if exists q :: q in s && p == Parent(q) {
        var q :| q in s && p == Parent(q);
        var i :| 0 <= i < |s| && s[i] == q;
        assert Parents(s)[i] == p;
      }
    }
  }

  /** Working sets never grow from one level to the next; from level 1 on they have no repeats. */
  lemma {:induction false} WorkingSetShrinks(raw: seq<Position>, level: nat)
    ensures |WorkingSet(raw, level + 1)| <= |WorkingSet(raw, level)|
    ensures |WorkingSet(raw, level)| <= |raw|
    ensures level >= 1 ==> NoDuplicates(WorkingSet(raw, level))
  {
    NextLevelIsParentImage(WorkingSet(raw, level));
    if level > 0 {
      WorkingSetShrinks(raw, level - 1);
    }
  }

  /** The number of work groups for `n` positions: ceil(n / 1024). */
  function DispatchGroups(n: nat): (groups: nat)
    ensures groups * GroupSize >= n
    ensures groups > 0 ==> (groups - 1) * GroupSize < n
    ensures n == 0 <==> groups == 0
  {
    (n + GroupSize - 1) / GroupSize
  }

  /** One compute dispatch of the pass. */
  datatype MipDispatch = MipDispatch(
    level: nat,
    source: TextureView,
    destination: TextureView,
    positions: seq<Position>,
    groups: nat)

  /**
   * The dispatch for `level` (1 <= level < mipLevels): it reads the view below,
   * writes the level's own view, and covers the level's working set.
   */
  ghost predicate LevelDispatch(m: Mipmapper, raw: seq<Position>, level: nat, d: MipDispatch)
    requires Valid(m) && 1 <= level < m.mipLevels
  {
    && d.level == level
    && d.source == m.views[level - 1]
    && d.destination == m.views[level]
    && d.positions == WorkingSet(raw, level)
    && d.groups == DispatchGroups(|WorkingSet(raw, level)|)
  }

  /** Appending the next level's dispatch keeps every dispatch at its level. */
  lemma DispatchesExtend(m: Mipmapper, raw: seq<Position>, dispatches: seq<MipDispatch>, d: MipDispatch)
    requires Valid(m) && |dispatches| + 1 < m.mipLevels
    requires forall i :: 0 <= i < |dispatches| ==> LevelDispatch(m, raw, i + 1, dispatches[i])
    requires LevelDispatch(m, raw, |dispatches| + 1, d)
    ensures forall i :: 0 <= i < |dispatches| + 1 ==> LevelDispatch(m, raw, i + 1, (dispatches + [d])[i])
  {
    forall i | 0 <= i < |dispatches| + 1
      ensures LevelDispatch(m, raw, i + 1, (dispatches + [d])[i])
    {
      if i < |dispatches| {
        assert (dispatches + [d])[i] == dispatches[i];
      }
    }
  }

  /**
   * One step of the pass: the level's working set is the parent image of the
   * level below's, and the dispatch appended after the lower levels' reads the
   * view below and writes the level's own.
   */
  method EncodeLevel(m: Mipmapper, raw: seq<Position>, level: nat, below: seq<Position>, done: seq<MipDispatch>)
    returns (positions: seq<Position>, dispatches: seq<MipDispatch>)
    requires Valid(m) && 1 <= level < m.mipLevels
    requires below == WorkingSet(raw, level - 1)
    requires |done| == level - 1
    requires forall i :: 0 <= i < |done| ==> LevelDispatch(m, raw, i + 1, done[i])
    ensures positions == WorkingSet(raw, level)
    ensures |dispatches| == level && dispatches[..level - 1] == done
    ensures forall i :: 0 <= i < |dispatches| ==> LevelDispatch(m, raw, i + 1, dispatches[i])
  {
    positions := NextLevel(below);
    var dispatch := MipDispatch(level, m.views[level - 1], m.views[level], positions, DispatchGroups(|positions|));
    DispatchesExtend(m, raw, done, dispatch);
    dispatches := done + [dispatch];
    assert dispatches[..level - 1] == done;
  }

  /**
   * The pass's dispatches: one for each level 1 .. mipLevels - 1 in order,
   * reading the view of the level below and writing that level's view, over
   * the level's working set, sized to cover it.
   */
  method EncodeLevels(m: Mipmapper, raw: seq<Position>) returns (dispatches: seq<MipDispatch>)
    requires Valid(m)
    ensures |dispatches| == if m.mipLevels == 0 then 0 else m.mipLevels - 1
    ensures forall i :: 0 <= i < |dispatches| ==>
      LevelDispatch(m, raw, i + 1, dispatches[i])
  {
    var positions := ReadBackAll(raw);
    dispatches := [];
    var level := 1;
    while level < m.mipLevels
      invariant 1 <= level <= if m.mipLevels == 0 then 1 else m.mipLevels
      invariant positions == WorkingSet(raw, level - 1)
      invariant |dispatches| == level - 1
      invariant forall i :: 0 <= i < |dispatches| ==>
        LevelDispatch(m, raw, i + 1, dispatches[i])
    {
      positions, dispatches := EncodeLevel(m, raw, level, positions, dispatches);
      level := level + 1;
    }
  }

  /**
   * Encodes the pass over the change list `raw` read back from the voxelizer's
   * buffer: None (a panic on `unwrap` in the source) when the atlas lacks the
   * change count or the change list buffer; otherwise the level dispatches.
   */
  method Render(m: Mipmapper, atlas: TextureAtlas.Atlas, raw: seq<Position>) returns (r: Option<seq<MipDispatch>>)
    requires Valid(m)
    ensures r.None? <==> atlas.GetBuffer(ChangedIndexBuffer).None? || atlas.GetBuffer(ChangedBuffer).None?
    ensures r.Some? ==> |r.value| == if m.mipLevels == 0 then 0 else m.mipLevels - 1
    ensures r.Some? ==> forall i :: 0 <= i < |r.value| ==>
      LevelDispatch(m, raw, i + 1, r.value[i])
  {
    if atlas.GetBuffer(ChangedIndexBuffer).None? || atlas.GetBuffer(ChangedBuffer).None? {
      return None;
    }
    var dispatches := EncodeLevels(m, raw);
    r := Some(dispatches);
  }

  /** An empty change list dispatches zero work groups at every level. */
  lemma {:induction false} EmptyChangesDispatchNothing(level: nat)
    ensures WorkingSet([], level) == []
    ensures DispatchGroups(|WorkingSet([], level)|) == 0
  {
    if level > 0 {
      EmptyChangesDispatchNothing(level - 1);
    }
  }
}
