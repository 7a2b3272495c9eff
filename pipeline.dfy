/** The swapchain parameter rules of NewPipeline in pipeline.go, and the
    per-image objects it creates: one image view per swapchain image, one
    framebuffer per image view, one command buffer per framebuffer. */
module Pipeline {
  import opened Helpers
  import opened Vulkan
  import opened Devices

  // ---------------------------------------------------------------------
  // Surface format and present mode
  // ---------------------------------------------------------------------

  predicate IsPreferredFormat(f: SurfaceFormat) {
    f.format == FormatB8g8r8a8Srgb && f.colorSpace == ColorSpaceSrgbNonlinear
  }

  /** The first B8G8R8A8 sRGB format with the sRGB non-linear colour space,
      otherwise the first format offered. */
  method ChooseSurfaceFormat(fmts: seq<SurfaceFormat>) returns (format: SurfaceFormat)
    requires |fmts| > 0
    ensures format in fmts
    ensures (exists i :: 0 <= i < |fmts| && IsPreferredFormat(fmts[i])) ==> IsPreferredFormat(format)
    ensures (forall i :: 0 <= i < |fmts| ==> !IsPreferredFormat(fmts[i])) ==> format == fmts[0]
  {
    var k := 0;
    while k < |fmts|
      invariant 0 <= k <= |fmts|
      invariant forall i :: 0 <= i < k ==> !IsPreferredFormat(fmts[i])
    {
      var v := fmts[k];
      if v.format == FormatB8g8r8a8Srgb && v.colorSpace == ColorSpaceSrgbNonlinear {
        return v;
      }
      k := k + 1;
    }
    return fmts[0];
  }

  /** Mailbox when the surface offers it, FIFO otherwise. */
  method ChoosePresentMode(modes: seq<uint32>) returns (presentMode: uint32)
    ensures PresentModeMailbox in modes ==> presentMode == PresentModeMailbox
    ensures PresentModeMailbox !in modes ==> presentMode == PresentModeFifo
  {
    var k := 0;
    while k < |modes|
      invariant 0 <= k <= |modes|
      invariant PresentModeMailbox !in modes[..k]
    {
      var v := modes[k];
      assert modes[..k + 1] == modes[..k] + [v];
      if v == PresentModeMailbox {
        return v;
      }
      k := k + 1;
    }
    assert modes[..k] == modes;
    return PresentModeFifo;
  }

  // ---------------------------------------------------------------------
  // Extent and image count
  // ---------------------------------------------------------------------

  /** The surface's current extent, unless its width is the 0xFFFFFFFF
      sentinel; then the framebuffer size, each side clamped to the surface's
      limits. */
  function ChooseExtent(caps: SurfaceCapabilities, framebufferWidth: uint32, framebufferHeight: uint32): (extent: Extent2D)
    ensures caps.currentExtent.width != Uint32Max ==> extent == caps.currentExtent
    ensures caps.currentExtent.width == Uint32Max ==>
      var lo, hi := caps.minImageExtent, caps.maxImageExtent;
      && (lo.width <= hi.width ==> lo.width <= extent.width <= hi.width)
      && (lo.height <= hi.height ==> lo.height <= extent.height <= hi.height)
      && (lo.width <= framebufferWidth <= hi.width ==> extent.width == framebufferWidth)
      && (lo.height <= framebufferHeight <= hi.height ==> extent.height == framebufferHeight)
      && (lo.width > hi.width ==> extent.width == lo.width)
      && (lo.height > hi.height ==> extent.height == lo.height)
      && (lo.width <= hi.width && framebufferWidth < lo.width ==> extent.width == lo.width)
      && (lo.width <= hi.width && framebufferWidth > hi.width ==> extent.width == hi.width)
      && (lo.height <= hi.height && framebufferHeight < lo.height ==> extent.height == lo.height)
      && (lo.height <= hi.height && framebufferHeight > hi.height ==> extent.height == hi.height)
  {
    if caps.currentExtent.width != Uint32Max then caps.currentExtent
    else
      var actualExtent := Extent2D(framebufferWidth, framebufferHeight);
      var actualExtent := actualExtent.(width := ClampUint32(actualExtent.width,
                                                             caps.minImageExtent.width,
                                                             caps.maxImageExtent.width));
      actualExtent.(height := ClampUint32(actualExtent.height,
                                          caps.minImageExtent.height,
                                          caps.maxImageExtent.height))
  }

  /** One image more than the minimum, clamped to the limits only when the
      surface has a maximum (a maximum of 0 means none). The uint32 sum wraps. */
  function ChooseImageCount(caps: SurfaceCapabilities): (count: uint32)
    ensures caps.maxImageCount == 0 ==> count == (caps.minImageCount + 1) % 0x1_0000_0000
    ensures caps.maxImageCount == 0 && caps.minImageCount < Uint32Max ==> count == caps.minImageCount + 1
    ensures caps.maxImageCount > 0 && caps.minImageCount <= caps.maxImageCount ==>
      caps.minImageCount <= count <= caps.maxImageCount
    ensures caps.maxImageCount > 0 && caps.minImageCount < caps.maxImageCount ==> count == caps.minImageCount + 1
    ensures caps.maxImageCount > 0 && caps.minImageCount >= caps.maxImageCount ==> count == caps.minImageCount
  {
    var count: uint32 := (caps.minImageCount + 1) % 0x1_0000_0000;
    if caps.maxImageCount > 0 then ClampUint32(count, caps.minImageCount, caps.maxImageCount)
    else count
  }

  // ---------------------------------------------------------------------
  // Sharing mode
  // ---------------------------------------------------------------------

  datatype SharingMode = Exclusive | Concurrent

  datatype SharingChoice = SharingChoice(queueFamilyIndices: seq<uint32>, mode: SharingMode)

  /** Exclusive with one family when graphics and presentation share a
      family, concurrent between the two otherwise. */
  function ChooseSharing(graphics: uint32, presentation: uint32): (r: SharingChoice)
    ensures r.mode == Exclusive <==> graphics == presentation
    ensures r.mode == Exclusive ==> r.queueFamilyIndices == [graphics]
    ensures r.mode == Concurrent ==> r.queueFamilyIndices == [graphics, presentation]
    ensures r.queueFamilyIndices == QueueFamilyIndexList(graphics, presentation)
  {
    var qfi := [graphics, presentation];
    if graphics == presentation then SharingChoice(qfi[..1], Exclusive)
    else SharingChoice(qfi, Concurrent)
  }

  // ---------------------------------------------------------------------
  // Swapchain create info
  // ---------------------------------------------------------------------

  datatype SwapchainCreateInfo = SwapchainCreateInfo(
    minImageCount: uint32,
    imageFormat: uint32,
    imageColorSpace: uint32,
    imageExtent: Extent2D,
    imageSharingMode: SharingMode,
    queueFamilyIndices: seq<uint32>,
    presentMode: uint32)

  /** The parameters NewPipeline puts in the swapchain create info. */
  method ChooseSwapchainSettings(device: PhysicalDevice, surfaceSupport: SurfaceSupportQuery,
                                 swapchainSupport: SwapchainSupportQuery,
                                 framebufferWidth: uint32, framebufferHeight: uint32)
    returns (info: SwapchainCreateInfo)
    requires |swapchainSupport(device.handle).formats| > 0
    requires QueueFamiliesOf(device, surfaceSupport).graphics.Some?
    requires QueueFamiliesOf(device, surfaceSupport).presentation.Some?
    ensures var support := swapchainSupport(device.handle);
      && SurfaceFormat(info.imageFormat, info.imageColorSpace) in support.formats
      && ((exists i :: 0 <= i < |support.formats| && IsPreferredFormat(support.formats[i])) ==>
            info.imageFormat == FormatB8g8r8a8Srgb && info.imageColorSpace == ColorSpaceSrgbNonlinear)
      && ((forall i :: 0 <= i < |support.formats| ==> !IsPreferredFormat(support.formats[i])) ==>
            SurfaceFormat(info.imageFormat, info.imageColorSpace) == support.formats[0])
      && info.presentMode == (if PresentModeMailbox in support.presentModes then PresentModeMailbox else PresentModeFifo)
      && info.imageExtent == ChooseExtent(support.capabilities, framebufferWidth, framebufferHeight)
      && info.minImageCount == ChooseImageCount(support.capabilities)
    ensures var found := QueueFamiliesOf(device, surfaceSupport);
      var sharing := ChooseSharing(found.graphics.value, found.presentation.value);
      info.imageSharingMode == sharing.mode && info.queueFamilyIndices == sharing.queueFamilyIndices
  {
    var support := swapchainSupport(device.handle);
    var caps := support.capabilities;
    var format := ChooseSurfaceFormat(support.formats);
    var presentMode := ChoosePresentMode(support.presentModes);
    var extent := ChooseExtent(caps, framebufferWidth, framebufferHeight);
    var imgCount := ChooseImageCount(caps);
    var gIdx, pIdx := QueueFamilies(device, surfaceSupport);
    var sharing := ChooseSharing(gIdx.Val(), pIdx.Val());
    info := SwapchainCreateInfo(imgCount, format.format, format.colorSpace, extent,
                                sharing.mode, sharing.queueFamilyIndices, presentMode);
  }

  // ---------------------------------------------------------------------
  // Per-image objects
  // ---------------------------------------------------------------------

  /** What is recorded into one command buffer: a render pass over the whole
      extent into one framebuffer, drawing 3 vertices of 1 instance. */
  datatype CommandRecording = CommandRecording(framebuffer: Handle, renderArea: Extent2D,
                                               vertexCount: nat, instanceCount: nat)

  datatype SwapchainObjects = SwapchainObjects(
    imageViews: seq<Handle>,
    framebuffers: seq<Handle>,
    commandBufferCount: uint32,
    recordings: seq<CommandRecording>)

  /** Creates the image views, the framebuffers and the command buffers of a
      swapchain; the two creation calls are given as functions. */
  method CreateSwapchainObjects(swapchainImages: seq<Handle>, extent: Extent2D,
                                createImageView: Handle -> Handle,
                                createFramebuffer: (Handle, Extent2D) -> Handle)
    returns (objs: SwapchainObjects)
    ensures |objs.imageViews| == |swapchainImages|
    ensures forall k :: 0 <= k < |swapchainImages| ==> objs.imageViews[k] == createImageView(swapchainImages[k])
    ensures |objs.framebuffers| == |objs.imageViews|
    ensures forall k :: 0 <= k < |objs.imageViews| ==> objs.framebuffers[k] == createFramebuffer(objs.imageViews[k], extent)
    ensures objs.commandBufferCount == Uint32Of(|objs.framebuffers|)
    ensures |swapchainImages| < 0x1_0000_0000 ==> objs.commandBufferCount == |objs.framebuffers|
    ensures |objs.recordings| == objs.commandBufferCount <= |objs.framebuffers|
    ensures forall k :: 0 <= k < |objs.recordings| ==>
      objs.recordings[k] == CommandRecording(objs.framebuffers[k], extent, 3, 1)
  {
    var imageViews := new Handle[|swapchainImages|];
    var k := 0;
    while k < |swapchainImages|
      invariant 0 <= k <= |swapchainImages|
      invariant forall j :: 0 <= j < k ==> imageViews[j] == createImageView(swapchainImages[j])
      modifies imageViews
    {
      imageViews[k] := createImageView(swapchainImages[k]);
      k := k + 1;
    }

    var buffers := new Handle[imageViews.Length];
    k := 0;
    while k < imageViews.Length
      invariant 0 <= k <= imageViews.Length
      invariant forall j :: 0 <= j < k ==> buffers[j] == createFramebuffer(imageViews[j], extent)
      modifies buffers
    {
      buffers[k] := createFramebuffer(imageViews[k], extent);
      k := k + 1;
    }

    var commandBufferCount := Uint32Of(buffers.Length);
    var recordings := new CommandRecording[commandBufferCount](_ => CommandRecording(NullHandle, extent, 0, 0));
    k := 0;
    while k < commandBufferCount
      invariant 0 <= k <= commandBufferCount
      invariant forall j :: 0 <= j < k ==> recordings[j] == CommandRecording(buffers[j], extent, 3, 1)
      modifies recordings
    {
      recordings[k] := CommandRecording(buffers[k], extent, 3, 1);
      k := k + 1;
    }
    objs := SwapchainObjects(imageViews[..], buffers[..], commandBufferCount, recordings[..]);
  }
}
