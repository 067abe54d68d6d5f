/**
 * Opaque stand-ins for the graphics device's objects. Textures and buffers are
 * records carrying a handle id and the size they were created with; a view is
 * the texture it looks at plus the mip range it selects. The device hands out
 * handle ids from a counter, so every object it creates is distinct from every
 * object created before.
 */
module Gpu {
  import opened Wrappers

  /** The size of a window's drawable area (winit's `PhysicalSize<u32>`). */
  datatype PhysicalSize = PhysicalSize(width: nat, height: nat)

  /** A texture extent: width, height and depth (or array layers). */
  datatype Extent3d = Extent3d(width: nat, height: nat, depthOrArrayLayers: nat)

  /** A texture handle, with the extent and mip-level count it was created with. */
  datatype Texture = Texture(id: nat, size: Extent3d, mipLevelCount: nat)

  /** A buffer handle, with its size in bytes. */
  datatype Buffer = Buffer(id: nat, size: nat)

  /** The part of a texture a view selects: a first mip level and a level count (None: all the rest). */
  datatype ViewDescriptor = ViewDescriptor(baseMipLevel: nat, mipLevelCount: Option<nat>)

  /** `TextureViewDescriptor::default()`: every mip level from level 0. */
  const DefaultView: ViewDescriptor := ViewDescriptor(0, None)

  /** A view of a texture. */
  datatype TextureView = TextureView(texture: Texture, descriptor: ViewDescriptor)

  /** The texture extent of a window-sized 2-D attachment. */
  function WindowExtent(window: PhysicalSize): Extent3d {
    Extent3d(window.width, window.height, 1)
  }

  /** The device: the only source of new texture and buffer handles. */
  class Device {
    var nextId: nat

    constructor ()
      ensures nextId == 0
    {
      nextId := 0;
    }

    method CreateTexture(size: Extent3d, mipLevelCount: nat) returns (t: Texture)
      modifies this
      ensures t == Texture(old(nextId), size, mipLevelCount)
      ensures nextId == old(nextId) + 1
    {
      t := Texture(nextId, size, mipLevelCount);
      nextId := nextId + 1;
    }

    method CreateBuffer(size: nat) returns (b: Buffer)
      modifies this
      ensures b == Buffer(old(nextId), size)
      ensures nextId == old(nextId) + 1
    {
      b := Buffer(nextId, size);
      nextId := nextId + 1;
    }
  }
}
