/**
 * The temporal denoiser's host-side state. It owns a pair of output textures
 * and, every frame, samples one of them as the history and renders into the
 * other, alternating by its own frame counter. The counter is bumped at the
 * start of each frame, before the choice is made. The shader itself (reprojection,
 * blending, blur) is not part of this model.
 */
module Denoiser {
  import opened Gpu

  /**
   * The parity choice for a frame: (the view sampled as history, the view
   * rendered into). Even frames sample the first and write the second.
   */
  function PastSelection<V>(views: (V, V), frameCount: nat): (r: (V, V))
    ensures r == views || r == (views.1, views.0)
    ensures r.0 == views.0 <==> frameCount % 2 == 0 || views.0 == views.1
  {
    match frameCount % 2 == 0
    case true => (views.0, views.1)
    case false => (views.1, views.0)
  }

  /** When the two views differ, the view sampled is never the view written. */
  lemma SampleIsNotAttachment<V>(views: (V, V), frameCount: nat)
    requires views.0 != views.1
    ensures PastSelection(views, frameCount).0 != PastSelection(views, frameCount).1
  {
  }

  /** What is written on frame n is what is sampled on frame n + 1, and the reverse. */
  lemma WrittenThenSampled<V>(views: (V, V), frameCount: nat)
    ensures PastSelection(views, frameCount).1 == PastSelection(views, frameCount + 1).0
    ensures PastSelection(views, frameCount).0 == PastSelection(views, frameCount + 1).1
  {
  }

  /** What one frame's render pass binds: the noisy input, the history, the depth, and the target. */
  datatype DenoisePass = DenoisePass(
    renderTexture: TextureView,
    pastSample: TextureView,
    depthTexture: TextureView,
    attachment: TextureView)

  class Denoiser {
    var outRenderTextures: (Texture, Texture)
    var outRenderTextureViews: (TextureView, TextureView)
    var renderTextureView: TextureView
    var depthTextureView: TextureView
    var size: PhysicalSize
    var frameCount: nat

    /** Each output view looks at its own output texture, and the two textures are distinct. */
    ghost predicate Valid()
      reads this
    {
      && outRenderTextureViews.0 == TextureView(outRenderTextures.0, DefaultView)
      && outRenderTextureViews.1 == TextureView(outRenderTextures.1, DefaultView)
      && outRenderTextures.0.id != outRenderTextures.1.id
    }

    /** Creates the two output textures at the window size; the counter starts at 0. */
    constructor (window: PhysicalSize, renderTexture: Texture, depthTexture: Texture, device: Device)
      modifies device
      ensures Valid()
      ensures frameCount == 0 && size == window
      ensures outRenderTextures == (Texture(old(device.nextId), WindowExtent(window), 1),
                                    Texture(old(device.nextId) + 1, WindowExtent(window), 1))
      ensures renderTextureView == TextureView(renderTexture, DefaultView)
      ensures depthTextureView == TextureView(depthTexture, DefaultView)
      ensures device.nextId == old(device.nextId) + 2
    {
      var first := device.CreateTexture(WindowExtent(window), 1);
      var second := device.CreateTexture(WindowExtent(window), 1);
      outRenderTextures := (first, second);
      outRenderTextureViews := (TextureView(first, DefaultView), TextureView(second, DefaultView));
      renderTextureView := TextureView(renderTexture, DefaultView);
      depthTextureView := TextureView(depthTexture, DefaultView);
      size := window;
      frameCount := 0;
    }

    /**
     * Encodes one frame: bumps the counter once, then samples one output view as
     * history and renders into the other. Nothing else changes.
     */
    method Render() returns (pass: DenoisePass)
      requires Valid()
      modifies this
      ensures Valid()
      ensures frameCount == old(frameCount) + 1
      ensures (pass.pastSample, pass.attachment) == PastSelection(outRenderTextureViews, frameCount)
      ensures pass.renderTexture == renderTextureView && pass.depthTexture == depthTextureView
      ensures pass.pastSample != pass.attachment
      ensures RenderTextureView() == pass.attachment
      ensures outRenderTextures == old(outRenderTextures) && outRenderTextureViews == old(outRenderTextureViews)
      ensures renderTextureView == old(renderTextureView) && depthTextureView == old(depthTextureView)
      ensures size == old(size)
    {
      frameCount := frameCount + 1;
      var (pastSample, pastAttachment) := match frameCount % 2 == 0 {
        case true => (outRenderTextureViews.0, outRenderTextureViews.1)
        case false => (outRenderTextureViews.1, outRenderTextureViews.0)
      };
      pass := DenoisePass(renderTextureView, pastSample, depthTextureView, pastAttachment);
    }

    /** Recreates both output textures and their views at `newSize`; the counter is kept. */
    method Resize(newSize: PhysicalSize, renderTexture: Texture, depthTexture: Texture, device: Device)
      modifies this, device
      ensures Valid()
      ensures outRenderTextures == (Texture(old(device.nextId), WindowExtent(newSize), 1),
                                    Texture(old(device.nextId) + 1, WindowExtent(newSize), 1))
      ensures renderTextureView == TextureView(renderTexture, DefaultView)
      ensures depthTextureView == TextureView(depthTexture, DefaultView)
      ensures size == newSize
      ensures frameCount == old(frameCount)
      ensures device.nextId == old(device.nextId) + 2
    {
      renderTextureView := TextureView(renderTexture, DefaultView);
      depthTextureView := TextureView(depthTexture, DefaultView);
      var first := device.CreateTexture(WindowExtent(newSize), 1);
      var second := device.CreateTexture(WindowExtent(newSize), 1);
      outRenderTextures := (first, second);
      outRenderTextureViews := (TextureView(first, DefaultView), TextureView(second, DefaultView));
      size := newSize;
    }

    /** Both output textures, always in the order (first, second), matching the order of the views. */
    function RenderTextures(): (r: (Texture, Texture))
      requires Valid()
      reads this
      ensures r.0 == outRenderTextureViews.0.texture && r.1 == outRenderTextureViews.1.texture
      ensures r.0 != r.1
    {
      (outRenderTextures.0, outRenderTextures.1)
    }

    /** The output view most recently rendered into: the attachment of the current frame's choice. */
    function RenderTextureView(): (r: TextureView)
      reads this
      ensures r == PastSelection(outRenderTextureViews, frameCount).1
    {
      match frameCount % 2 == 0
      case true => outRenderTextureViews.1
      case false => outRenderTextureViews.0
    }
  }

  /**
   * Over two consecutive renders, the view the first one wrote is the view the
   * second one samples as history.
   */
  method TwoFrames(denoiser: Denoiser) returns (first: DenoisePass, second: DenoisePass)
    requires denoiser.Valid()
    modifies denoiser
    ensures second.pastSample == first.attachment
    ensures second.attachment == first.pastSample
  {
    first := denoiser.Render();
    second := denoiser.Render();
    WrittenThenSampled(denoiser.outRenderTextureViews, denoiser.frameCount - 1);
  }
}
