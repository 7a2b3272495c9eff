/** The per-frame bookkeeping of TriangleApplication in main.go: which of the
    frames in flight is current, which fence each swapchain image waits on,
    and the framebuffer-resize flag. The Vulkan calls of drawFrame become the
    results they return. */
module Frames {
  import opened Vulkan

  /** The frame after `current`, round-robin over the frames in flight. */
  function NextFrame(current: nat, framesInFlight: nat): (next: nat)
    requires framesInFlight > 0
    ensures next < framesInFlight
    ensures current + 1 < framesInFlight ==> next == current + 1
    ensures current + 1 == framesInFlight ==> next == 0
  {
    (current + 1) % framesInFlight
  }

  /** The current frame after n frames have been presented. */
  function FrameAfter(current: nat, framesInFlight: nat, n: nat): nat
    requires framesInFlight > 0
  {
    if n == 0 then current else NextFrame(FrameAfter(current, framesInFlight, n - 1), framesInFlight)
  }

  /** Starting from a valid frame, every later frame is valid. */
  lemma {:induction false} FrameAfterBelow(current: nat, framesInFlight: nat, n: nat)
    requires current < framesInFlight
    ensures FrameAfter(current, framesInFlight, n) < framesInFlight
  {
    if n > 0 {
      FrameAfterBelow(current, framesInFlight, n - 1);
    }
  }

  /** Within two rounds the frame counts up and wraps to 0 once. */
  lemma {:induction false} FrameAfterWithinTwoRounds(current: nat, framesInFlight: nat, n: nat)
    requires current < framesInFlight && current + n < 2 * framesInFlight
    ensures FrameAfter(current, framesInFlight, n) ==
      if current + n < framesInFlight then current + n else current + n - framesInFlight
  {
    if n > 0 {
      FrameAfterWithinTwoRounds(current, framesInFlight, n - 1);
    }
  }

  /** n + m frames are n frames followed by m frames. */
  lemma {:induction false} FrameAfterCompose(current: nat, framesInFlight: nat, n: nat, m: nat)
    requires framesInFlight > 0
    ensures FrameAfter(current, framesInFlight, n + m) ==
      FrameAfter(FrameAfter(current, framesInFlight, n), framesInFlight, m)
  {
    if m > 0 {
      FrameAfterCompose(current, framesInFlight, n, m - 1);
    }
  }

  /** Any framesInFlight consecutive frames use every frame slot exactly
      once, and after them the rotation is back where it started. */
  lemma FramesInFlightRotate(current: nat, framesInFlight: nat)
    requires current < framesInFlight
    ensures FrameAfter(current, framesInFlight, framesInFlight) == current
    ensures forall i, j :: 0 <= i < j < framesInFlight ==>
      FrameAfter(current, framesInFlight, i) != FrameAfter(current, framesInFlight, j)
  {
    FrameAfterWithinTwoRounds(current, framesInFlight, framesInFlight);
    forall i, j | 0 <= i < j < framesInFlight
      ensures FrameAfter(current, framesInFlight, i) != FrameAfter(current, framesInFlight, j)
    {
      FrameAfterWithinTwoRounds(current, framesInFlight, i);
      FrameAfterWithinTwoRounds(current, framesInFlight, j);
    }
  }

  /** The frame rotation repeats with period framesInFlight. */
  lemma FrameAfterPeriodic(current: nat, framesInFlight: nat, n: nat)
    requires current < framesInFlight
    ensures FrameAfter(current, framesInFlight, n + framesInFlight) == FrameAfter(current, framesInFlight, n)
  {
    FrameAfterCompose(current, framesInFlight, n, framesInFlight);
    FrameAfterBelow(current, framesInFlight, n);
    FramesInFlightRotate(FrameAfter(current, framesInFlight, n), framesInFlight);
  }

  /** The fences of freshly (re)created swapchain images: none yet. */
  function NoFences(imageCount: nat): (fences: seq<Handle>)
    ensures |fences| == imageCount
    ensures forall k :: 0 <= k < imageCount ==> fences[k] == NullHandle
  {
    seq(imageCount, _ => NullHandle)
  }

  datatype FrameOutcome =
    | Presented                  // the frame was submitted and presented
    | PresentedAndRecreated      // presented, then the pipeline was recreated
    | SkippedAndRecreated        // the swapchain was out of date before drawing
    | Panicked(result: VkResult) // the source panics with this result

  class TriangleApplication {
    var currentFrame: nat
    var framesInFlight: nat
    var inFlightFences: seq<Handle>
    var imagesInFlight: seq<Handle>
    var framebufferResize: bool

    /** The current frame indexes a fence of one of the frames in flight. */
    predicate Valid()
      reads this
    {
      && framesInFlight > 0
      && currentFrame < framesInFlight
      && |inFlightFences| == framesInFlight
    }

    /** The state setup leaves: one fence per frame in flight, frame 0
        current, no swapchain image waiting on a fence. */
    constructor (framesInFlight: nat, inFlightFences: seq<Handle>, swapchainImageCount: nat)
      requires framesInFlight > 0 && |inFlightFences| == framesInFlight
      ensures Valid()
      ensures this.framesInFlight == framesInFlight && this.inFlightFences == inFlightFences
      ensures currentFrame == 0 && imagesInFlight == NoFences(swapchainImageCount) && !framebufferResize
    {
      this.framesInFlight := framesInFlight;
      this.inFlightFences := inFlightFences;
      currentFrame := 0;
      imagesInFlight := NoFences(swapchainImageCount);
      framebufferResize := false;
    }

    /** The window's framebuffer-size callback. */
    method OnFramebufferResize()
      modifies this`framebufferResize
      ensures framebufferResize
    {
      framebufferResize := true;
    }

    /** The bookkeeping of recreatePipeline: the resize flag is cleared and
        the images of the new swapchain wait on no fence. */
    method RecreatePipeline(swapchainImageCount: nat)
      modifies this`framebufferResize, this`imagesInFlight
      ensures !framebufferResize && imagesInFlight == NoFences(swapchainImageCount)
    {
      framebufferResize := false;
      imagesInFlight := NoFences(swapchainImageCount);
    }

    /** One frame: `acquired` and `imageIndex` are what acquiring the next
        image returned, `presented` what presenting it returned, and
        `swapchainImageCount` the image count of a recreated swapchain. */
    method DrawFrame(acquired: VkResult, imageIndex: nat, presented: VkResult, swapchainImageCount: nat)
      returns (outcome: FrameOutcome)
      requires Valid()
      requires (acquired.VkSuccess? || acquired.Suboptimal?) ==> imageIndex < |imagesInFlight|
      modifies this`currentFrame, this`imagesInFlight, this`framebufferResize
      ensures Valid()
      ensures acquired.ErrorOutOfDate? ==>
        && outcome == SkippedAndRecreated
        && currentFrame == old(currentFrame)
        && imagesInFlight == NoFences(swapchainImageCount) && !framebufferResize
      ensures acquired.OtherError? ==>
        && outcome == Panicked(acquired)
        && currentFrame == old(currentFrame)
        && imagesInFlight == old(imagesInFlight) && framebufferResize == old(framebufferResize)
      ensures (acquired.VkSuccess? || acquired.Suboptimal?) ==>
        var recreate := presented.ErrorOutOfDate? || presented.Suboptimal? || old(framebufferResize);
        var drawn := old(imagesInFlight)[imageIndex := old(inFlightFences)[old(currentFrame)]];
        && (recreate ==>
              && outcome == PresentedAndRecreated
              && currentFrame == NextFrame(old(currentFrame), framesInFlight)
              && imagesInFlight == NoFences(swapchainImageCount) && !framebufferResize)
        && (!recreate && presented.VkSuccess? ==>
              && outcome == Presented
              && currentFrame == NextFrame(old(currentFrame), framesInFlight)
              && imagesInFlight == drawn && framebufferResize == old(framebufferResize))
        && (!recreate && presented.OtherError? ==>
              && outcome == Panicked(presented)
              && currentFrame == old(currentFrame)
              && imagesInFlight == drawn && framebufferResize == old(framebufferResize))
    {
      if acquired.ErrorOutOfDate? {
        RecreatePipeline(swapchainImageCount);
        return SkippedAndRecreated;
      } else if !acquired.VkSuccess? && !acquired.Suboptimal? {
        return Panicked(acquired);
      }

      // The image now waits on the fence of the frame that renders it.
      imagesInFlight := imagesInFlight[imageIndex := inFlightFences[currentFrame]];

      if presented.ErrorOutOfDate? || presented.Suboptimal? || framebufferResize {
        RecreatePipeline(swapchainImageCount);
        outcome := PresentedAndRecreated;
      } else if !presented.VkSuccess? {
        return Panicked(presented);
      } else {
        outcome := Presented;
      }

      currentFrame := (currentFrame + 1) % framesInFlight;
    }
  }
}
