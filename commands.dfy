/** The commands the renderer records for one frame
    (recordCommandBuffer and transitionImageLayout in
    lib/fractal/renderer/FTL_Renderer.cpp), as a trace, and what that trace
    does to the layout of the swapchain image it draws into. */
module Commands {
  import opened Vk

  datatype ImageLayout = Undefined | ColorAttachmentOptimal | PresentSrc

  datatype PipelineStage = TopOfPipe | ColorAttachmentOutput | BottomOfPipe

  datatype Access = ColorAttachmentWrite

  /** An image handle owned by the swapchain */
  type Image = nat

  /** A 2D colour view of one image, one mip level and one array layer */
  datatype ImageView = ImageView(image: Image, format: Format)

  /** `vk::ImageMemoryBarrier2` over the whole colour subresource of `image`,
      with both queue family indices `VK_QUEUE_FAMILY_IGNORED` */
  datatype ImageBarrier = ImageBarrier(
    image: Image,
    oldLayout: ImageLayout, newLayout: ImageLayout,
    srcAccess: set<Access>, dstAccess: set<Access>,
    srcStage: PipelineStage, dstStage: PipelineStage)

  datatype LoadOp = LoadOpLoad | LoadOpClear | LoadOpDontCare
  datatype StoreOp = StoreOpStore | StoreOpDontCare

  datatype ClearColor = ClearColor(r: real, g: real, b: real, a: real)

  /** Opaque black */
  const ClearBlack: ClearColor := ClearColor(0.0, 0.0, 0.0, 1.0)

  /** `vk::RenderingAttachmentInfo` */
  datatype ColorAttachment = ColorAttachment(
    view: ImageView, layout: ImageLayout, loadOp: LoadOp, storeOp: StoreOp, clear: ClearColor)

  datatype Rect2D = Rect2D(x: int, y: int, extent: Extent2D)

  datatype Viewport = Viewport(x: real, y: real, width: real, height: real, minDepth: real, maxDepth: real)

  datatype Command =
    | Begin
    | PipelineBarrier(barrier: ImageBarrier)
    | BeginRendering(renderArea: Rect2D, attachment: ColorAttachment)
    | BindGraphicsPipeline
    | BindVertexBuffer(firstBinding: nat, offset: nat)
    | SetViewport(viewport: Viewport)
    | SetScissor(scissor: Rect2D)
    | Draw(vertexCount: nat, instanceCount: nat, firstVertex: nat, firstInstance: nat)
    | EndRendering
    | End

  /** The barrier transitionImageLayout records */
  function LayoutBarrier(image: Image, oldLayout: ImageLayout, newLayout: ImageLayout,
                         srcAccess: set<Access>, dstAccess: set<Access>,
                         srcStage: PipelineStage, dstStage: PipelineStage): ImageBarrier
  {
    ImageBarrier(image, oldLayout, newLayout, srcAccess, dstAccess, srcStage, dstStage)
  }

  /** Undefined to colour attachment, nothing to wait for: top of pipe to
      colour attachment output, making colour attachment writes available. */
  function ToAttachmentBarrier(image: Image): ImageBarrier {
    LayoutBarrier(image, Undefined, ColorAttachmentOptimal, {}, {ColorAttachmentWrite},
                  TopOfPipe, ColorAttachmentOutput)
  }

  /** Colour attachment to presentation, after the colour writes. */
  function ToPresentBarrier(image: Image): ImageBarrier {
    LayoutBarrier(image, ColorAttachmentOptimal, PresentSrc, {ColorAttachmentWrite}, {},
                  ColorAttachmentOutput, BottomOfPipe)
  }

  function FullRect(extent: Extent2D): Rect2D { Rect2D(0, 0, extent) }

  function FullViewport(extent: Extent2D): Viewport {
    Viewport(0.0, 0.0, extent.width as real, extent.height as real, 0.0, 1.0)
  }

  /** The commands recorded for a frame that draws into `image` through
      `view` at the swapchain extent. */
  function FrameCommands(image: Image, view: ImageView, extent: Extent2D): (cmds: seq<Command>)
    ensures |cmds| == 11 && cmds[0] == Begin && cmds[|cmds| - 1] == End
    ensures forall i :: 0 <= i < |cmds| && cmds[i].PipelineBarrier? ==> cmds[i].barrier.image == image
    ensures forall i :: 0 <= i < |cmds| && cmds[i].BeginRendering? ==>
              cmds[i].attachment.view == view && cmds[i].renderArea == FullRect(extent)
    ensures forall i :: 0 <= i < |cmds| && cmds[i].Draw? ==> cmds[i].vertexCount == 3 && cmds[i].instanceCount == 1
  {
    [ Begin,
      PipelineBarrier(ToAttachmentBarrier(image)),
      BeginRendering(FullRect(extent),
                     ColorAttachment(view, ColorAttachmentOptimal, LoadOpClear, StoreOpStore, ClearBlack)),
      BindGraphicsPipeline,
      BindVertexBuffer(0, 0),
      SetViewport(FullViewport(extent)),
      SetScissor(FullRect(extent)),
      Draw(3, 1, 0, 0),
      EndRendering,
      PipelineBarrier(ToPresentBarrier(image)),
      End ]
  }

  /** The barriers of a trace, in order */
  function Barriers(cmds: seq<Command>): seq<ImageBarrier> {
    if |cmds| == 0 then []
    else (if cmds[0].PipelineBarrier? then [cmds[0].barrier] else []) + Barriers(cmds[1..])
  }

  /** The two barriers of a frame form the chain
      Undefined -> ColorAttachmentOptimal -> PresentSrc on the frame's image. */
  lemma FrameBarrierChain(image: Image, view: ImageView, extent: Extent2D)
    ensures var bs := Barriers(FrameCommands(image, view, extent));
            && |bs| == 2
            && bs[0].image == image && bs[1].image == image
            && bs[0].oldLayout == Undefined
            && bs[0].newLayout == bs[1].oldLayout == ColorAttachmentOptimal
            && bs[1].newLayout == PresentSrc
  {
    var cmds := FrameCommands(image, view, extent);
    var k := 11;
    while k > 0
      invariant 0 <= k <= 11
      invariant Barriers(cmds[k..]) == (if k <= 1 then [ToAttachmentBarrier(image)] else [])
                                       + (if k <= 9 then [ToPresentBarrier(image)] else [])
    {
      k := k - 1;
      BarriersStep(cmds, k);
    }
  }

  /** The barriers of two traces recorded one after the other are those
      of the first followed by those of the second. */
  lemma {:induction false} BarriersAppend(a: seq<Command>, b: seq<Command>)
    ensures Barriers(a + b) == Barriers(a) + Barriers(b)
    decreases |a|
  {
    if |a| > 0 {
      assert (a + b)[1..] == a[1..] + b;
      BarriersAppend(a[1..], b);
    } else {
      assert a + b == b;
    }
  }

  lemma BarriersStep(cmds: seq<Command>, k: nat)
    requires k < |cmds|
    ensures Barriers(cmds[k..]) ==
            (if cmds[k].PipelineBarrier? then [cmds[k].barrier] else []) + Barriers(cmds[k + 1..])
  {
    assert cmds[k..][1..] == cmds[k + 1..];
  }

  /** What one command does to the layout of `image`: None when it misuses
      the image (a barrier whose old layout is neither the current one nor
      Undefined, which discards the contents and is valid from any layout; or
      a rendering pass that names the image's view in a layout other than
      the current one). */
  function StepLayout(c: Command, image: Image, layout: ImageLayout): Option<ImageLayout> {
    if c.PipelineBarrier? && c.barrier.image == image then
      if c.barrier.oldLayout == layout || c.barrier.oldLayout == Undefined
      then Some(c.barrier.newLayout)
      else None
    else if c.BeginRendering? && c.attachment.view.image == image && c.attachment.layout != layout then
      None
    else Some(layout)
  }

  /** The layout `image` is in after `cmds`, starting from `layout`, or None
      when some command misuses it. */
  function TrackLayout(cmds: seq<Command>, image: Image, layout: ImageLayout): Option<ImageLayout> {
    if |cmds| == 0 then Some(layout)
    else
      match StepLayout(cmds[0], image, layout)
      case None => None
      case Some(next) => TrackLayout(cmds[1..], image, next)
  }

  lemma TrackLayoutStep(cmds: seq<Command>, k: nat, image: Image, layout: ImageLayout)
    requires k < |cmds|
    ensures TrackLayout(cmds[k..], image, layout) ==
            match StepLayout(cmds[k], image, layout)
            case None => None
            case Some(next) => TrackLayout(cmds[k + 1..], image, next)
  {
    assert cmds[k..][1..] == cmds[k + 1..];
  }

  /** Tracking a concatenation tracks the first part, then the second. */
  lemma {:induction false} TrackLayoutAppend(a: seq<Command>, b: seq<Command>, image: Image, layout: ImageLayout)
    ensures TrackLayout(a + b, image, layout) ==
            match TrackLayout(a, image, layout)
            case None => None
            case Some(l) => TrackLayout(b, image, l)
  {
    if |a| > 0 {
      assert (a + b)[0] == a[0];
      assert (a + b)[1..] == a[1..] + b;
      match StepLayout(a[0], image, layout)
      case None =>
      case Some(next) => TrackLayoutAppend(a[1..], b, image, next);
    } else {
      assert a + b == b;
    }
  }

  /** Whatever layout the image starts a frame in, the frame uses it
      correctly (it renders in ColorAttachmentOptimal) and leaves it in
      PresentSrc, ready for presentation. */
  lemma FrameEndsPresentable(image: Image, view: ImageView, extent: Extent2D, start: ImageLayout)
    requires view.image == image
    ensures TrackLayout(FrameCommands(image, view, extent), image, start) == Some(PresentSrc)
  {
    var cmds := FrameCommands(image, view, extent);
    // the layout before command k
    var before := (k: nat) => if k <= 1 then start else if k <= 9 then ColorAttachmentOptimal else PresentSrc;
    var k := 11;
    assert cmds[11..] == [];
    while k > 0
      invariant 0 <= k <= 11
      invariant TrackLayout(cmds[k..], image, before(k)) == Some(PresentSrc)
    {
      k := k - 1;
      TrackLayoutStep(cmds, k, image, before(k));
      assert StepLayout(cmds[k], image, before(k)) == Some(before(k + 1));
    }
  }

  /** `n` frames recorded one after another for the same image */
  function RepeatedFrames(image: Image, view: ImageView, extent: Extent2D, n: nat): seq<Command> {
    if n == 0 then [] else RepeatedFrames(image, view, extent, n - 1) + FrameCommands(image, view, extent)
  }

  /** Frame after frame, the image is always left presentable: the two
      barriers restore PresentSrc every time. */
  lemma {:induction false} FramesStayPresentable(image: Image, view: ImageView, extent: Extent2D,
                                                 n: nat, start: ImageLayout)
    requires view.image == image && n > 0
    ensures TrackLayout(RepeatedFrames(image, view, extent, n), image, start) == Some(PresentSrc)
  {
    var before := RepeatedFrames(image, view, extent, n - 1);
    TrackLayoutAppend(before, FrameCommands(image, view, extent), image, start);
    if n == 1 {
      assert before == [];
      FrameEndsPresentable(image, view, extent, start);
    } else {
      FramesStayPresentable(image, view, extent, n - 1, start);
      FrameEndsPresentable(image, view, extent, PresentSrc);
    }
  }

  /** The frame begins and ends the command buffer, draws the triangle
      (3 vertices, 1 instance) inside the rendering pass, and sets viewport
      and scissor to the whole swapchain extent before the draw. */
  lemma FrameShape(image: Image, view: ImageView, extent: Extent2D)
    ensures var cmds := FrameCommands(image, view, extent);
            && cmds[0] == Begin && cmds[|cmds| - 1] == End
            && (forall i :: 0 < i < |cmds| - 1 ==> !cmds[i].Begin? && !cmds[i].End?)
            && cmds[2].BeginRendering? && cmds[7] == Draw(3, 1, 0, 0) && cmds[8] == EndRendering
            && cmds[5].viewport.width == extent.width as real
            && cmds[5].viewport.height == extent.height as real
            && cmds[6].scissor == Rect2D(0, 0, extent) && cmds[2].renderArea == Rect2D(0, 0, extent)
  {
  }
}
