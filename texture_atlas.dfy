/**
 * The resource atlas: a registry of GPU resources by name. An entry is a single
 * window-sized texture, a swap-chain pair of window-sized textures, a texture
 * created from an explicit descriptor (with its size and mip count recorded), or a
 * raw buffer. Lookups into a swap-chain pair pick one of the two textures by the
 * parity of the frame counter, which is passed in; so is the window size.
 */
module TextureAtlas {
  import opened Wrappers
  import opened Gpu

  /** The metadata the atlas keeps for a descriptor texture: (width, height, depth) and mip count. */
  datatype TextureInfo = TextureInfo(size: (nat, nat, nat), mipLevels: nat)

  /** The four kinds of entry. */
  datatype TextureType =
    | TextureSwapChain(first: Texture, second: Texture)
    | SingleTexture(texture: Texture)
    | DescriptorTexture(texture: Texture, info: TextureInfo)
    | BufferEntry(buffer: Buffer)

  /** What `register_from_descriptor` is told: the extent and the mip-level count (format and usage are not modelled). */
  datatype TextureDescriptor = TextureDescriptor(size: Extent3d, mipLevelCount: nat)

  /** What `register_buffer` is told: the buffer's size. */
  datatype BufferDescriptor = BufferDescriptor(size: nat)

  /** Even frames read the first texture of a pair. */
  predicate IsEven(frameCount: nat) {
    frameCount % 2 == 0
  }

  /** The textures an entry holds. */
  function HeldTextures(entry: TextureType): set<Texture> {
    match entry
    case TextureSwapChain(t1, t2) => {t1, t2}
    case SingleTexture(t) => {t}
    case DescriptorTexture(t, _) => {t}
    case BufferEntry(_) => {}
  }

  /** A window-sized texture created no earlier than the device counter value `firstFreshId`. */
  ghost predicate FreshWindowTexture(t: Texture, window: PhysicalSize, firstFreshId: nat) {
    t.size == WindowExtent(window) && t.mipLevelCount == 1 && t.id >= firstFreshId
  }

  /**
   * How `resize` treats one entry: window-sized entries are recreated as the same
   * kind at the window size, descriptor and buffer entries are left as they were.
   */
  ghost predicate Recreated(before: TextureType, after: TextureType, window: PhysicalSize, firstFreshId: nat) {
    match before
    case TextureSwapChain(_, _) =>
      && after.TextureSwapChain?
      && FreshWindowTexture(after.first, window, firstFreshId)
      && FreshWindowTexture(after.second, window, firstFreshId)
      && after.first.id != after.second.id
    case SingleTexture(_) =>
      after.SingleTexture? && FreshWindowTexture(after.texture, window, firstFreshId)
    case DescriptorTexture(_, _) => after == before
    case BufferEntry(_) => after == before
  }

  class Atlas {
    var textures: map<string, TextureType>

    /** The two textures of every swap-chain pair are distinct objects. */
    ghost predicate Valid()
      reads this
    {
      forall name :: name in textures && textures[name].TextureSwapChain? ==>
        textures[name].first.id != textures[name].second.id
    }

    constructor ()
      ensures Valid() && textures == map[]
    {
      textures := map[];
    }

    /** Registers a window-sized single texture under `name`, replacing any previous entry. */
    method Register(name: string, window: PhysicalSize, device: Device)
      requires Valid()
      modifies this, device
      ensures Valid()
      ensures textures == old(textures)[name := SingleTexture(Texture(old(device.nextId), WindowExtent(window), 1))]
      ensures device.nextId == old(device.nextId) + 1
    {
      var texture := device.CreateTexture(WindowExtent(window), 1);
      textures := textures[name := SingleTexture(texture)];
    }

    /** Registers a decoded image of the given dimensions as a one-level descriptor texture (decoding and upload not modelled). */
    method RegisterFromImage(name: string, imageWidth: nat, imageHeight: nat, device: Device)
      requires Valid()
      modifies this, device
      ensures Valid()
      ensures textures == old(textures)[name := DescriptorTexture(
        Texture(old(device.nextId), Extent3d(imageWidth, imageHeight, 1), 1),
        TextureInfo((imageWidth, imageHeight, 1), 1))]
      ensures device.nextId == old(device.nextId) + 1
    {
      var texture := device.CreateTexture(Extent3d(imageWidth, imageHeight, 1), 1);
      textures := textures[name := DescriptorTexture(texture, TextureInfo((imageWidth, imageHeight, 1), 1))];
    }

    /** Registers a pair of window-sized textures under `name`, replacing any previous entry. */
    method RegisterSwapchain(name: string, window: PhysicalSize, device: Device)
      requires Valid()
      modifies this, device
      ensures Valid()
      ensures textures == old(textures)[name := TextureSwapChain(
        Texture(old(device.nextId), WindowExtent(window), 1),
        Texture(old(device.nextId) + 1, WindowExtent(window), 1))]
      ensures device.nextId == old(device.nextId) + 2
    {
      var first := device.CreateTexture(WindowExtent(window), 1);
      var second := device.CreateTexture(WindowExtent(window), 1);
      textures := textures[name := TextureSwapChain(first, second)];
    }

    /** Registers a texture built from `descriptor`, recording its extent and mip count as the entry's info. */
    method RegisterFromDescriptor(name: string, descriptor: TextureDescriptor, device: Device)
      requires Valid()
      modifies this, device
      ensures Valid()
      ensures textures == old(textures)[name := DescriptorTexture(
        Texture(old(device.nextId), descriptor.size, descriptor.mipLevelCount),
        TextureInfo((descriptor.size.width, descriptor.size.height, descriptor.size.depthOrArrayLayers),
                    descriptor.mipLevelCount))]
      ensures forall window :: GetInfo(name, window) == Some(TextureInfo(
        (descriptor.size.width, descriptor.size.height, descriptor.size.depthOrArrayLayers), descriptor.mipLevelCount))
      ensures device.nextId == old(device.nextId) + 1
    {
      var texture := device.CreateTexture(descriptor.size, descriptor.mipLevelCount);
      var info := TextureInfo((descriptor.size.width, descriptor.size.height, descriptor.size.depthOrArrayLayers),
                              descriptor.mipLevelCount);
      textures := textures[name := DescriptorTexture(texture, info)];
    }

    /** Registers a buffer built from `descriptor`, replacing any previous entry. */
    method RegisterBuffer(name: string, descriptor: BufferDescriptor, device: Device)
      requires Valid()
      modifies this, device
      ensures Valid()
      ensures textures == old(textures)[name := BufferEntry(Buffer(old(device.nextId), descriptor.size))]
      ensures device.nextId == old(device.nextId) + 1
    {
      var buffer := device.CreateBuffer(descriptor.size);
      textures := textures[name := BufferEntry(buffer)];
    }

    /**
     * Recreates every single and swap-chain entry at the new window size, keeping
     * its kind, and leaves descriptor and buffer entries untouched. The keys are
     * visited in an unspecified order, as a hash map's are.
     */
    method Resize(window: PhysicalSize, device: Device)
      requires Valid()
      modifies this, device
      ensures Valid()
      ensures textures.Keys == old(textures).Keys
      ensures forall name :: name in textures ==>
        Recreated(old(textures)[name], textures[name], window, old(device.nextId))
      ensures device.nextId >= old(device.nextId)
    {
      var keys := textures.Keys;
      while keys != {}
        invariant Valid()
        invariant keys <= textures.Keys
        invariant textures.Keys == old(textures).Keys
        invariant device.nextId >= old(device.nextId)
        invariant forall name :: name in keys ==> textures[name] == old(textures)[name]
        invariant forall name :: name in textures && name !in keys ==>
          Recreated(old(textures)[name], textures[name], window, old(device.nextId))
        decreases keys
      {
        var name :| name in keys;
        match textures[name] {
          case TextureSwapChain(_, _) => RegisterSwapchain(name, window, device);
          case SingleTexture(_) => Register(name, window, device);
          case DescriptorTexture(_, _) =>
          case BufferEntry(_) =>
        }
        keys := keys - {name};
      }
    }

    /** The texture registered under `name`; for a swap-chain, the one frame parity selects. */
    function Get(name: string, frameCount: nat): (r: Option<Texture>)
      reads this
      ensures r.Some? <==> name in textures && !textures[name].BufferEntry?
      ensures r.Some? ==> r.value in HeldTextures(textures[name])
      ensures name in textures && textures[name].TextureSwapChain? ==>
        r == Some(if IsEven(frameCount) then textures[name].first else textures[name].second)
    {
      if name !in textures then None
      else match textures[name]
        case TextureSwapChain(t1, t2) => if IsEven(frameCount) then Some(t1) else Some(t2)
        case SingleTexture(t) => Some(t)
        case DescriptorTexture(t, _) => Some(t)
        case BufferEntry(_) => None
    }

    /** A default view of the texture registered under `name`, with the same parity selection as `Get`. */
    function GetView(name: string, frameCount: nat): (r: Option<TextureView>)
      reads this
      ensures r == match Get(name, frameCount)
        case Some(t) => Some(TextureView(t, DefaultView))
        case None => None
    {
      if name !in textures then None
      else match textures[name]
        case TextureSwapChain(t1, t2) =>
          if IsEven(frameCount) then Some(TextureView(t1, DefaultView)) else Some(TextureView(t2, DefaultView))
        case SingleTexture(t) => Some(TextureView(t, DefaultView))
        case DescriptorTexture(t, _) => Some(TextureView(t, DefaultView))
        case BufferEntry(_) => None
    }

    /**
     * Both views of a swap-chain pair: the one `Get` selects first, the other second.
     * The two are always different textures, and the next frame swaps them.
     */
    function GetViewSwapchain(name: string, frameCount: nat): (r: Option<(TextureView, TextureView)>)
      requires Valid()
      reads this
      ensures r.Some? <==> name in textures && textures[name].TextureSwapChain?
      ensures r.Some? ==> r.value.0.texture != r.value.1.texture
      ensures r.Some? ==> Get(name, frameCount) == Some(r.value.0.texture)
      ensures r.Some? ==> r.value.1.texture in HeldTextures(textures[name])
      ensures r.Some? ==> GetView(name, frameCount) == Some(r.value.0)
      ensures r.Some? ==> r.value.0.descriptor == DefaultView && r.value.1.descriptor == DefaultView
    {
      if name in textures && textures[name].TextureSwapChain? then
        var t1, t2 := textures[name].first, textures[name].second;
        if IsEven(frameCount) then Some((TextureView(t1, DefaultView), TextureView(t2, DefaultView)))
        else Some((TextureView(t2, DefaultView), TextureView(t1, DefaultView)))
      else None
    }

    /** A view with the given descriptor of the texture registered under `name`, selected as `Get` does. */
    function GetViewDescriptor(name: string, descriptor: ViewDescriptor, frameCount: nat): (r: Option<TextureView>)
      reads this
      ensures r == match Get(name, frameCount)
        case Some(t) => Some(TextureView(t, descriptor))
        case None => None
    {
      if name !in textures then None
      else match textures[name]
        case TextureSwapChain(t1, t2) =>
          if IsEven(frameCount) then Some(TextureView(t1, descriptor)) else Some(TextureView(t2, descriptor))
        case SingleTexture(t) => Some(TextureView(t, descriptor))
        case DescriptorTexture(t, _) => Some(TextureView(t, descriptor))
        case BufferEntry(_) => None
    }

    /**
     * Size and mip count of the entry under `name`: the recorded info for a
     * descriptor texture, the current window size with one mip level for the
     * window-sized kinds, nothing for buffers and unknown names.
     */
    function GetInfo(name: string, window: PhysicalSize): (r: Option<TextureInfo>)
      reads this
      ensures r.Some? <==> name in textures && !textures[name].BufferEntry?
      ensures r.Some? && textures[name].DescriptorTexture? ==> r.value == textures[name].info
      ensures r.Some? && !textures[name].DescriptorTexture? ==>
        r.value == TextureInfo((window.width, window.height, 1), 1)
    {
      if name !in textures then None
      else match textures[name]
        case TextureSwapChain(_, _) => Some(TextureInfo((window.width, window.height, 1), 1))
        case SingleTexture(_) => Some(TextureInfo((window.width, window.height, 1), 1))
        case DescriptorTexture(_, info) => Some(info)
        case BufferEntry(_) => None
    }

    /** The buffer registered under `name`; None for textures and unknown names. */
    function GetBuffer(name: string): (r: Option<Buffer>)
      reads this
      ensures r.Some? <==> name in textures && textures[name].BufferEntry?
      ensures r.Some? ==> textures[name] == BufferEntry(r.value)
    {
      if name in textures && textures[name].BufferEntry? then Some(textures[name].buffer) else None
    }
  }

  /** Exactly one of `Get` and `GetBuffer` answers for a registered name; neither answers for an unknown one. */
  lemma GetOrGetBuffer(atlas: Atlas, name: string, frameCount: nat)
    ensures atlas.Get(name, frameCount).Some? != atlas.GetBuffer(name).Some? <==> name in atlas.textures
  {
  }

  /**
   * Ping-pong: on a swap-chain entry, the texture selected on frame n is the one
   * not selected on frame n + 1, and the pair of views swaps between the frames.
   */
  lemma SwapChainAlternates(atlas: Atlas, name: string, frameCount: nat)
    requires atlas.Valid()
    requires name in atlas.textures && atlas.textures[name].TextureSwapChain?
    ensures atlas.Get(name, frameCount) != atlas.Get(name, frameCount + 1)
    ensures atlas.Get(name, frameCount) == atlas.Get(name, frameCount + 2)
    ensures var now, next := atlas.GetViewSwapchain(name, frameCount), atlas.GetViewSwapchain(name, frameCount + 1);
      now.Some? && next.Some? && now.value.0 == next.value.1 && now.value.1 == next.value.0
  {
  }
}
