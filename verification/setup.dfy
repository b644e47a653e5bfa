/**
 * Start-up of the demo: the objects `Initialize` creates once, reduced to the
 * values later frames depend on (sizes, rectangles, bindings). Device,
 * shader, texture and pipeline creation are calls into the graphics library
 * and appear only as the values they are given.
 */
module Setup {
  import opened Machine
  import opened Wrappers
  import opened Layout

  /** An integer rectangle; a negative height means the rectangle runs upwards from `y`. */
  datatype Rect = Rect(x: int, y: int, w: int, h: int)

  /** Width and height of a texture or framebuffer. */
  datatype Extent = Extent(width: UInt32, height: UInt32)

  datatype Viewport = Viewport(x: real, y: real, w: real, h: real, minDepth: real, maxDepth: real)

  datatype Color = Color(r: nat, g: nat, b: nat, a: nat)

  /** The two sampled textures, loaded from image files. */
  datatype TextureId = WoodTexture | NoiseTexture

  /** The one sampler (linear filtering, repeat addressing), used for both textures. */
  datatype SamplerId = LinearRepeatSampler

  /** What `Initialize` leaves behind for the frame loop. */
  datatype Setup = Setup(
    vertices: seq<Vertex>,
    vertexBufferSize: nat,
    uploadSize: nat,
    vertexBinding: VertexBinding,
    vertexAttributes: seq<VertexAttribute>,
    vertexBufferOffsets: seq<nat>,
    renderArea: Rect,
    flip: Rect,
    clearColor: Color,
    targetTexture: Extent,
    framebuffer: Extent,
    viewport: Viewport,
    scissor: Rect,
    primitiveType: PrimitiveType,
    fragmentSamplerBindings: nat,
    sampleTextures: seq<TextureId>,
    sampleSamplers: seq<SamplerId>,
    uniforms: Uniforms)

  /**
   * Start-up for a window of `width` by `height` pixels. `sdlInitStatus` is
   * what the windowing library's initialisation returned; a negative status
   * is the one failure `Initialize` reports.
   */
  function Initialize(sdlInitStatus: int, width: UInt32, height: UInt32): (r: Option<Setup>)
    ensures r.None? <==> sdlInitStatus < 0
  {
    if sdlInitStatus < 0 then None
    else
      var w := AsInt32(width);
      var h := AsInt32(height);
      Some(Setup(
        vertices := FullScreenTriangle(),
        vertexBufferSize := VertexBufferSize,
        uploadSize := VertexBufferSize,
        vertexBinding := MainVertexBinding(),
        vertexAttributes := MainVertexAttributes(),
        vertexBufferOffsets := [0],
        renderArea := Rect(0, 0, w, h),
        flip := Rect(0, h, w, NegInt32(h)),
        clearColor := Color(237, 41, 57, 255),
        targetTexture := Extent(width, height),
        framebuffer := Extent(width, height),
        viewport := Viewport(0.0, 0.0, width as real, height as real, 0.0, 1.0),
        scissor := Rect(0, 0, w, h),
        primitiveType := TriangleList,
        fragmentSamplerBindings := 2,
        sampleTextures := [WoodTexture, NoiseTexture],
        sampleSamplers := [LinearRepeatSampler, LinearRepeatSampler],
        uniforms := Uniforms(0.0, 0.0, width as real, height as real)))
  }

  /** The whole window, as a rectangle anchored at the origin. */
  function WindowRect(width: UInt32, height: UInt32): (r: Rect)
  {
    Rect(0, 0, width, height)
  }

  /** Pixel (px, py) lies in `r`, taking a negative height to extend upwards. */
  predicate CoversPixel(r: Rect, px: int, py: int)
  {
    && r.x <= px < r.x + r.w
    && (if r.h >= 0 then r.y <= py < r.y + r.h else r.y + r.h <= py < r.y)
  }

  /**
   * The colour target texture, the framebuffer and the viewport all have the
   * window's size, and the uniform block starts at time 0 with the window
   * size as its resolution.
   */
  lemma TargetsHaveWindowSize(sdlInitStatus: int, width: UInt32, height: UInt32)
    requires 0 <= sdlInitStatus
    ensures Initialize(sdlInitStatus, width, height).Some?
    ensures var s := Initialize(sdlInitStatus, width, height).value;
      && s.targetTexture == s.framebuffer == Extent(width, height)
      && s.viewport.w == width as real && s.viewport.h == height as real
      && s.viewport.x == s.viewport.y == 0.0
      && s.uniforms.resolutionX == s.viewport.w && s.uniforms.resolutionY == s.viewport.h
      && s.uniforms.time == 0.0
  {
  }

  /**
   * For a window whose sides fit in a C# `int`, the render area and the
   * scissor are the whole window: exactly its pixels and no others.
   */
  lemma RenderAreaIsWindow(sdlInitStatus: int, width: UInt32, height: UInt32)
    requires 0 <= sdlInitStatus && width < TwoTo31 && height < TwoTo31
    ensures Initialize(sdlInitStatus, width, height).Some?
    ensures var s := Initialize(sdlInitStatus, width, height).value;
      && s.renderArea == s.scissor == WindowRect(width, height)
      && (forall px, py :: CoversPixel(s.renderArea, px, py) <==> 0 <= px < width && 0 <= py < height)
  {
  }

  /**
   * For a window whose sides fit in a C# `int`, the present rectangle is
   * `(0, H, W, -H)`: it covers exactly the render area's pixels, with its
   * top and bottom edges exchanged, so presenting through it mirrors the
   * image vertically.
   */
  lemma FlipMirrorsRenderArea(sdlInitStatus: int, width: UInt32, height: UInt32)
    requires 0 <= sdlInitStatus && width < TwoTo31 && height < TwoTo31
    ensures Initialize(sdlInitStatus, width, height).Some?
    ensures var s := Initialize(sdlInitStatus, width, height).value;
      && s.flip == Rect(0, height, width, -(height as int))
      && s.flip.x == s.renderArea.x && s.flip.w == s.renderArea.w
      && s.flip.y == s.renderArea.y + s.renderArea.h
      && s.flip.y + s.flip.h == s.renderArea.y
      && (forall px, py :: CoversPixel(s.flip, px, py) <==> CoversPixel(s.renderArea, px, py))
  {
  }

  /**
   * The vertex buffer is sized for, and filled with, exactly the triangle's
   * vertices at the layout's stride, bound at offset 0; the fragment stage
   * receives as many texture/sampler pairs as the pipeline layout declares;
   * every vertex lies inside the viewport's depth range.
   */
  lemma ResourcesAgreeWithLayout(sdlInitStatus: int, width: UInt32, height: UInt32)
    requires 0 <= sdlInitStatus
    ensures Initialize(sdlInitStatus, width, height).Some?
    ensures var s := Initialize(sdlInitStatus, width, height).value;
      && s.vertices == FullScreenTriangle()
      && s.vertexBufferSize == s.uploadSize == |s.vertices| * s.vertexBinding.stride
      && s.vertexBinding.stride == StructSize(VertexFloats)
      && s.vertexBufferOffsets == [0]
      && |s.sampleTextures| == |s.sampleSamplers| == s.fragmentSamplerBindings == 2
      && (forall w <- s.vertices :: s.viewport.minDepth <= w.z <= s.viewport.maxDepth)
  {
    FullScreenTriangleCoversClipSquare();
  }
}
