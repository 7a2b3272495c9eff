/** Physical-device filtering and selection, the queue-family scan and the
    queue set-up of the logical device, from main.go. */
module Devices {
  import opened Helpers
  import opened Vulkan

  // ---------------------------------------------------------------------
  // Queue families
  // ---------------------------------------------------------------------

  /** Go's uint32(k) of a slice index: the index modulo 2^32. */
  function Uint32Of(k: nat): (r: uint32)
    ensures k < 0x1_0000_0000 ==> r == k
  {
    k % 0x1_0000_0000
  }

  predicate HasGraphics(f: QueueFamilyProperties) {
    f.queueFlags & QueueGraphicsBit != 0
  }

  datatype QueueFamilyIndices = QueueFamilyIndices(graphics: Option<uint32>, presentation: Option<uint32>)

  /** The scan of QueueFamilies from family k on, `found` holding the two
      options as they stand before family k is examined. */
  function ScanQueueFamilies(families: seq<QueueFamilyProperties>, handle: Handle,
                             surfaceSupport: SurfaceSupportQuery, k: nat,
                             found: QueueFamilyIndices): QueueFamilyIndices
    decreases |families| - k
  {
    if k >= |families| then found
    else
      var index := Uint32Of(k);
      var g := if HasGraphics(families[k]) then Some(index) else found.graphics;
      var p := if surfaceSupport(handle, index) then Some(index) else found.presentation;
      if g.Some? && p.Some? then QueueFamilyIndices(g, p)
      else ScanQueueFamilies(families, handle, surfaceSupport, k + 1, QueueFamilyIndices(g, p))
  }

  /** The graphics and presentation families QueueFamilies reports. */
  function QueueFamiliesOf(device: PhysicalDevice, surfaceSupport: SurfaceSupportQuery): QueueFamilyIndices {
    ScanQueueFamilies(device.queueFamilies, device.handle, surfaceSupport, 0, QueueFamilyIndices(None, None))
  }

  /** Scans the queue families for one with graphics support and one that can
      present, stopping as soon as both are known. A later family that
      qualifies overwrites an earlier one until the scan stops. */
  method QueueFamilies(device: PhysicalDevice, surfaceSupport: SurfaceSupportQuery)
    returns (graphics: OptionUint32, presentation: OptionUint32)
    ensures fresh(graphics) && fresh(presentation) && graphics != presentation
    ensures QueueFamilyIndices(graphics.View(), presentation.View()) == QueueFamiliesOf(device, surfaceSupport)
  {
    graphics := new OptionUint32();
    presentation := new OptionUint32();
    var families := device.queueFamilies;
    var k := 0;
    while k < |families|
      invariant 0 <= k <= |families|
      invariant ScanQueueFamilies(families, device.handle, surfaceSupport, k,
                                  QueueFamilyIndices(graphics.View(), presentation.View()))
                == QueueFamiliesOf(device, surfaceSupport)
    {
      var index := Uint32Of(k);
      if HasGraphics(families[k]) {
        graphics.Set(index);
      }
      if surfaceSupport(device.handle, index) {
        presentation.Set(index);
      }
      if graphics.IsSet() && presentation.IsSet() {
        break;
      }
      k := k + 1;
    }
  }

  /** A reported family is a real family with the capability asked for (the
      family count is a uint32, so no index is truncated). */
  lemma {:induction false} ScanValid(families: seq<QueueFamilyProperties>, handle: Handle,
                                     surfaceSupport: SurfaceSupportQuery, k: nat, found: QueueFamilyIndices)
    requires |families| <= 0x1_0000_0000
    requires found.graphics.Some? ==> found.graphics.value < |families| && HasGraphics(families[found.graphics.value])
    requires found.presentation.Some? ==> surfaceSupport(handle, found.presentation.value)
    requires found.presentation.Some? ==> found.presentation.value < |families|
    ensures var r := ScanQueueFamilies(families, handle, surfaceSupport, k, found);
      && (r.graphics.Some? ==> r.graphics.value < |families| && HasGraphics(families[r.graphics.value]))
      && (r.presentation.Some? ==> r.presentation.value < |families| && surfaceSupport(handle, r.presentation.value))
    decreases |families| - k
  {
    if k < |families| {
      var index := Uint32Of(k);
      var g := if HasGraphics(families[k]) then Some(index) else found.graphics;
      var p := if surfaceSupport(handle, index) then Some(index) else found.presentation;
      if !(g.Some? && p.Some?) {
        ScanValid(families, handle, surfaceSupport, k + 1, QueueFamilyIndices(g, p));
      }
    }
  }

  lemma QueueFamiliesValid(device: PhysicalDevice, surfaceSupport: SurfaceSupportQuery)
    requires |device.queueFamilies| <= 0x1_0000_0000
    ensures var r := QueueFamiliesOf(device, surfaceSupport);
      && (r.graphics.Some? ==> r.graphics.value < |device.queueFamilies|
                               && HasGraphics(device.queueFamilies[r.graphics.value]))
      && (r.presentation.Some? ==> r.presentation.value < |device.queueFamilies|
                                   && surfaceSupport(device.handle, r.presentation.value))
  {
    ScanValid(device.queueFamilies, device.handle, surfaceSupport, 0, QueueFamilyIndices(None, None));
  }

  lemma {:induction false} ScanFound(families: seq<QueueFamilyProperties>, handle: Handle,
                                     surfaceSupport: SurfaceSupportQuery, k: nat, found: QueueFamilyIndices)
    ensures var r := ScanQueueFamilies(families, handle, surfaceSupport, k, found);
      && (r.graphics.Some? <==> found.graphics.Some? || exists i :: k <= i < |families| && HasGraphics(families[i]))
      && (r.presentation.Some? <==> found.presentation.Some? || exists i :: k <= i < |families| && surfaceSupport(handle, Uint32Of(i)))
    decreases |families| - k
  {
    if k < |families| {
      var index := Uint32Of(k);
      var g := if HasGraphics(families[k]) then Some(index) else found.graphics;
      var p := if surfaceSupport(handle, index) then Some(index) else found.presentation;
      if !(g.Some? && p.Some?) {
        ScanFound(families, handle, surfaceSupport, k + 1, QueueFamilyIndices(g, p));
      }
    }
  }

  /** A family is reported exactly when the device has one. */
  lemma QueueFamiliesFound(device: PhysicalDevice, surfaceSupport: SurfaceSupportQuery)
    ensures var r := QueueFamiliesOf(device, surfaceSupport);
      && (r.graphics.Some? <==> exists i :: 0 <= i < |device.queueFamilies| && HasGraphics(device.queueFamilies[i]))
      && (r.presentation.Some? <==> exists i :: 0 <= i < |device.queueFamilies| && surfaceSupport(device.handle, Uint32Of(i)))
  {
    ScanFound(device.queueFamilies, device.handle, surfaceSupport, 0, QueueFamilyIndices(None, None));
  }

  lemma {:induction false} ScanStops(families: seq<QueueFamilyProperties>, handle: Handle,
                                     surfaceSupport: SurfaceSupportQuery, j: nat, k: nat, found: QueueFamilyIndices)
    requires k <= j < |families|
    requires found.graphics.Some? || exists i :: k <= i <= j && HasGraphics(families[i])
    requires found.presentation.Some? || exists i :: k <= i <= j && surfaceSupport(handle, Uint32Of(i))
    ensures ScanQueueFamilies(families, handle, surfaceSupport, k, found)
            == ScanQueueFamilies(families[..j + 1], handle, surfaceSupport, k, found)
    decreases j - k
  {
    var index := Uint32Of(k);
    var g := if HasGraphics(families[k]) then Some(index) else found.graphics;
    var p := if surfaceSupport(handle, index) then Some(index) else found.presentation;
    assert families[..j + 1][k] == families[k];
    if !(g.Some? && p.Some?) {
      ScanStops(families, handle, surfaceSupport, j, k + 1, QueueFamilyIndices(g, p));
    }
  }

  /** Once families 0 .. j include a graphics family and a presenting family,
      no later family is examined: the answer is that of families 0 .. j. */
  lemma QueueFamiliesIgnoreLaterFamilies(device: PhysicalDevice, surfaceSupport: SurfaceSupportQuery, j: nat)
    requires j < |device.queueFamilies|
    requires exists i :: 0 <= i <= j && HasGraphics(device.queueFamilies[i])
    requires exists i :: 0 <= i <= j && surfaceSupport(device.handle, Uint32Of(i))
    ensures QueueFamiliesOf(device, surfaceSupport)
            == QueueFamiliesOf(device.(queueFamilies := device.queueFamilies[..j + 1]), surfaceSupport)
  {
    ScanStops(device.queueFamilies, device.handle, surfaceSupport, j, 0, QueueFamilyIndices(None, None));
  }

  // ---------------------------------------------------------------------
  // Filtering and picking a physical device
  // ---------------------------------------------------------------------

  /** No required layer and no required extension is missing from the device. */
  predicate SupportsRequired(d: PhysicalDevice, requiredLayers: seq<string>, requiredExtensions: seq<string>) {
    && |Subtract(requiredLayers, NameMap(d.layerNames))| == 0
    && |Subtract(requiredExtensions, NameMap(d.extensionNames))| == 0
  }

  lemma SupportsRequiredIff(d: PhysicalDevice, requiredLayers: seq<string>, requiredExtensions: seq<string>)
    ensures SupportsRequired(d, requiredLayers, requiredExtensions) <==>
      && (forall n :: n in requiredLayers ==> ToCString(n) in NormalizedSet(d.layerNames))
      && (forall n :: n in requiredExtensions ==> ToCString(n) in NormalizedSet(d.extensionNames))
  {
    SubtractEmpty(requiredLayers, NameMap(d.layerNames));
    SubtractEmpty(requiredExtensions, NameMap(d.extensionNames));
  }

  /** The devices that support everything required, in their original order. */
  function SupportedDevices(devices: seq<PhysicalDevice>, requiredLayers: seq<string>,
                            requiredExtensions: seq<string>): seq<PhysicalDevice>
    decreases |devices|
  {
    if devices == [] then []
    else
      var p := SupportedDevices(devices[..|devices| - 1], requiredLayers, requiredExtensions);
      if SupportsRequired(devices[|devices| - 1], requiredLayers, requiredExtensions)
      then p + [devices[|devices| - 1]] else p
  }

  lemma {:induction false} SupportedDevicesFacts(devices: seq<PhysicalDevice>, requiredLayers: seq<string>,
                                                 requiredExtensions: seq<string>)
    ensures IsSubsequence(SupportedDevices(devices, requiredLayers, requiredExtensions), devices)
    ensures forall d :: d in SupportedDevices(devices, requiredLayers, requiredExtensions) <==>
                        d in devices && SupportsRequired(d, requiredLayers, requiredExtensions)
    decreases |devices|
  {
    if devices == [] {
      SubsequenceEmpty(devices);
    } else {
      var init, last := devices[..|devices| - 1], devices[|devices| - 1];
      assert devices == init + [last];
      SupportedDevicesFacts(init, requiredLayers, requiredExtensions);
      SubsequenceSnoc(SupportedDevices(init, requiredLayers, requiredExtensions), init, last);
    }
  }

  /** Keeps the devices with no missing layer and no missing extension. */
  method FilterPhysicalDevices(devices: seq<PhysicalDevice>, requiredLayers: seq<string>,
                               requiredExtensions: seq<string>) returns (filtered: seq<PhysicalDevice>)
    ensures filtered == SupportedDevices(devices, requiredLayers, requiredExtensions)
  {
    filtered := [];
    var k := 0;
    while k < |devices|
      invariant 0 <= k <= |devices|
      invariant filtered == SupportedDevices(devices[..k], requiredLayers, requiredExtensions)
    {
      var phyDev := devices[k];
      var availLayers := SliceToMap(phyDev.layerNames);
      var missingLayerNames := SetSubtraction(requiredLayers, availLayers);
      var availExts := SliceToMap(phyDev.extensionNames);
      var missingExtNames := SetSubtraction(requiredExtensions, availExts);
      assert devices[..k + 1][..k] == devices[..k];
      if |missingLayerNames| == 0 && |missingExtNames| == 0 {
        filtered := filtered + [phyDev];
      }
      k := k + 1;
    }
    assert devices[..|devices|] == devices;
  }

  datatype PickError = NoSupportedDevice | InvalidSelection(index: int)

  /** Filters the devices and lets the selector choose among the survivors. */
  method PickPhysicalDevice(devices: seq<PhysicalDevice>, requiredLayers: seq<string>,
                            requiredExtensions: seq<string>,
                            selectIndex: seq<PhysicalDevice> -> int)
    returns (r: Result<PhysicalDevice, PickError>)
    ensures var kept := SupportedDevices(devices, requiredLayers, requiredExtensions);
      && (kept == [] ==> r == Err(NoSupportedDevice))
      && (kept != [] && 0 <= selectIndex(kept) < |kept| ==> r == Ok(kept[selectIndex(kept)]))
      && (kept != [] && !(0 <= selectIndex(kept) < |kept|) ==> r == Err(InvalidSelection(selectIndex(kept))))
    ensures r.Ok? ==> r.value in devices && SupportsRequired(r.value, requiredLayers, requiredExtensions)
  {
    var physicalDevices := FilterPhysicalDevices(devices, requiredLayers, requiredExtensions);
    SupportedDevicesFacts(devices, requiredLayers, requiredExtensions);
    if |physicalDevices| == 0 {
      return Err(NoSupportedDevice);
    }
    var idx := selectIndex(physicalDevices);
    if idx >= 0 && idx < |physicalDevices| {
      r := Ok(physicalDevices[idx]);
    } else {
      r := Err(InvalidSelection(idx));
    }
  }

  /** The default selector's test: both families are known and the surface
      offers at least one format and one present mode. */
  predicate IsSuitable(d: PhysicalDevice, surfaceSupport: SurfaceSupportQuery,
                       swapchainSupport: SwapchainSupportQuery)
  {
    var found := QueueFamiliesOf(d, surfaceSupport);
    var support := swapchainSupport(d.handle);
    found.graphics.Some? && found.presentation.Some? && |support.formats| > 0 && |support.presentModes| > 0
  }

  lemma IsSuitableIff(d: PhysicalDevice, surfaceSupport: SurfaceSupportQuery, swapchainSupport: SwapchainSupportQuery)
    ensures IsSuitable(d, surfaceSupport, swapchainSupport) <==>
      && (exists i :: 0 <= i < |d.queueFamilies| && HasGraphics(d.queueFamilies[i]))
      && (exists i :: 0 <= i < |d.queueFamilies| && surfaceSupport(d.handle, Uint32Of(i)))
      && |swapchainSupport(d.handle).formats| > 0
      && |swapchainSupport(d.handle).presentModes| > 0
  {
    QueueFamiliesFound(d, surfaceSupport);
  }

  /** The application's selector: the first suitable device, or -1. */
  method DefaultSelectPhysicalDeviceIndex(devices: seq<PhysicalDevice>, surfaceSupport: SurfaceSupportQuery,
                                          swapchainSupport: SwapchainSupportQuery)
    returns (selected: int)
    ensures selected == -1 <==> forall k :: 0 <= k < |devices| ==> !IsSuitable(devices[k], surfaceSupport, swapchainSupport)
    ensures selected != -1 ==> 0 <= selected < |devices| && IsSuitable(devices[selected], surfaceSupport, swapchainSupport)
    ensures selected != -1 ==> forall k :: 0 <= k < selected ==> !IsSuitable(devices[k], surfaceSupport, swapchainSupport)
  {
    var k := 0;
    while k < |devices|
      invariant 0 <= k <= |devices|
      invariant forall j :: 0 <= j < k ==> !IsSuitable(devices[j], surfaceSupport, swapchainSupport)
    {
      var phyDev := devices[k];
      var gIdx, pIdx := QueueFamilies(phyDev, surfaceSupport);
      var support := swapchainSupport(phyDev.handle);
      if gIdx.IsSet() && pIdx.IsSet() && |support.formats| > 0 && |support.presentModes| > 0 {
        return k;
      }
      k := k + 1;
    }
    return -1;
  }

  // ---------------------------------------------------------------------
  // Logical device queues
  // ---------------------------------------------------------------------

  /** The distinct queue families to create queues in: graphics first,
      presentation last, one entry when they coincide. */
  function QueueFamilyIndexList(graphics: uint32, presentation: uint32): (indices: seq<uint32>)
    ensures |indices| == if graphics == presentation then 1 else 2
    ensures indices[0] == graphics && indices[|indices| - 1] == presentation
    ensures forall i, j :: 0 <= i < j < |indices| ==> indices[i] != indices[j]
    ensures forall f :: f in indices <==> f == graphics || f == presentation
  {
    var queueFamilyIndices := [graphics, presentation];
    if graphics == presentation then queueFamilyIndices[..1] else queueFamilyIndices
  }

  datatype DeviceQueueCreateInfo = DeviceQueueCreateInfo(queueFamilyIndex: uint32, queueCount: nat)

  /** A vkGetDeviceQueue request: queue `queueIndex` of a family. */
  datatype QueueFetch = QueueFetch(queueFamilyIndex: uint32, queueIndex: nat)

  /** The device was created with the queue a fetch asks for. */
  ghost predicate QueueCreated(infos: seq<DeviceQueueCreateInfo>, fetch: QueueFetch) {
    exists k :: 0 <= k < |infos| && infos[k].queueFamilyIndex == fetch.queueFamilyIndex
                && fetch.queueIndex < infos[k].queueCount
  }

  /** One queue in each family of the list. */
  function QueueCreateInfos(indices: seq<uint32>): (infos: seq<DeviceQueueCreateInfo>)
    ensures |infos| == |indices|
  {
    seq(|indices|, k requires 0 <= k < |indices| => DeviceQueueCreateInfo(indices[k], 1))
  }

  /** The graphics and presentation queue fetches as written: the queue index
      passed for the presentation queue is its position in the family list. */
  function QueueFetchesAsWritten(indices: seq<uint32>): (fetches: seq<QueueFetch>)
    requires |indices| > 0
    ensures |fetches| == 2
    ensures fetches[0] == QueueFetch(indices[0], 0)
    ensures fetches[1].queueFamilyIndex == indices[|indices| - 1] && fetches[1].queueIndex == |indices| - 1
  {
    var last := |indices| - 1;
    [QueueFetch(indices[0], 0), QueueFetch(indices[last], last)]
  }

  /** With distinct families, the presentation fetch asks for queue 1 of a
      family in which only queue 0 was created. */
  lemma AsWrittenPresentationQueueNotCreated(graphics: uint32, presentation: uint32)
    requires graphics != presentation
    ensures var indices := QueueFamilyIndexList(graphics, presentation);
      !QueueCreated(QueueCreateInfos(indices), QueueFetchesAsWritten(indices)[1])
  {
    var indices := QueueFamilyIndexList(graphics, presentation);
    var infos := QueueCreateInfos(indices);
    assert infos == [DeviceQueueCreateInfo(graphics, 1), DeviceQueueCreateInfo(presentation, 1)];
  }

  /** As written, the graphics fetch is always a created queue, and the
      presentation fetch is one exactly when both families coincide. */
  lemma QueueFetchesAsWrittenCreated(graphics: uint32, presentation: uint32)
    ensures var indices := QueueFamilyIndexList(graphics, presentation);
      var infos, fetches := QueueCreateInfos(indices), QueueFetchesAsWritten(indices);
      && QueueCreated(infos, fetches[0])
      && (QueueCreated(infos, fetches[1]) <==> graphics == presentation)
  {
    var indices := QueueFamilyIndexList(graphics, presentation);
    var infos := QueueCreateInfos(indices);
    assert infos[0] == DeviceQueueCreateInfo(graphics, 1);
    if graphics == presentation {
      assert QueueFetchesAsWritten(indices)[1] == QueueFetch(graphics, 0);
    } else {
      AsWrittenPresentationQueueNotCreated(graphics, presentation);
    }
  }

  /** The same fetches with queue 0 of each family. */
  function QueueFetches(indices: seq<uint32>): (fetches: seq<QueueFetch>)
    requires |indices| > 0
    ensures |fetches| == 2
  {
    [QueueFetch(indices[0], 0), QueueFetch(indices[|indices| - 1], 0)]
  }

  lemma QueueFetchesCreated(graphics: uint32, presentation: uint32)
    ensures var indices := QueueFamilyIndexList(graphics, presentation);
      var fetches := QueueFetches(indices);
      && fetches[0].queueFamilyIndex == graphics
      && fetches[1].queueFamilyIndex == presentation
      && QueueCreated(QueueCreateInfos(indices), fetches[0])
      && QueueCreated(QueueCreateInfos(indices), fetches[1])
  {
    var indices := QueueFamilyIndexList(graphics, presentation);
    var infos := QueueCreateInfos(indices);
    assert infos[0].queueFamilyIndex == graphics;
    assert infos[|indices| - 1].queueFamilyIndex == presentation;
  }

  datatype LogicalDeviceInfo = LogicalDeviceInfo(
    queueCreateInfos: seq<DeviceQueueCreateInfo>,
    enabledLayerNames: seq<string>,
    enabledExtensionNames: seq<string>,
    graphicsQueue: QueueFetch,
    presentationQueue: QueueFetch)

  /** The create info of the logical device and the two queue fetches, as
      written: the presentation queue is fetched at the position of its
      family in the family list. */
  method CreateLogicalDevice(device: PhysicalDevice, surfaceSupport: SurfaceSupportQuery,
                             requiredLayers: seq<string>, requiredExtensions: seq<string>)
    returns (info: LogicalDeviceInfo)
    requires QueueFamiliesOf(device, surfaceSupport).graphics.Some?
    requires QueueFamiliesOf(device, surfaceSupport).presentation.Some?
    ensures var found := QueueFamiliesOf(device, surfaceSupport);
      var indices := QueueFamilyIndexList(found.graphics.value, found.presentation.value);
      && info.queueCreateInfos == QueueCreateInfos(indices)
      && (forall k :: 0 <= k < |info.queueCreateInfos| ==> info.queueCreateInfos[k].queueCount == 1)
      && info.graphicsQueue == QueueFetch(found.graphics.value, 0)
      && info.presentationQueue == QueueFetch(found.presentation.value, |indices| - 1)
      && QueueCreated(info.queueCreateInfos, info.graphicsQueue)
      && (QueueCreated(info.queueCreateInfos, info.presentationQueue) <==>
            found.graphics.value == found.presentation.value)
    ensures |info.enabledLayerNames| == |requiredLayers|
    ensures forall k :: 0 <= k < |requiredLayers| ==> info.enabledLayerNames[k] == ToCString(requiredLayers[k])
    ensures |info.enabledExtensionNames| == |requiredExtensions|
    ensures forall k :: 0 <= k < |requiredExtensions| ==> info.enabledExtensionNames[k] == ToCString(requiredExtensions[k])
  {
    var gIdx, pIdx := QueueFamilies(device, surfaceSupport);
    var graphics, presentation := gIdx.Val(), pIdx.Val();
    var queueFamilyIndices := QueueFamilyIndexList(graphics, presentation);

    var queueCreateInfos := new DeviceQueueCreateInfo[|queueFamilyIndices|](_ => DeviceQueueCreateInfo(0, 0));
    var k := 0;
    while k < |queueFamilyIndices|
      invariant 0 <= k <= |queueFamilyIndices|
      invariant forall j :: 0 <= j < k ==> queueCreateInfos[j] == DeviceQueueCreateInfo(queueFamilyIndices[j], 1)
    {
      queueCreateInfos[k] := DeviceQueueCreateInfo(queueFamilyIndices[k], 1);
      k := k + 1;
    }

    var layerNames := ToCStrings(requiredLayers);
    var extensionNames := ToCStrings(requiredExtensions);
    var fetches := QueueFetchesAsWritten(queueFamilyIndices);
    QueueFetchesAsWrittenCreated(graphics, presentation);
    info := LogicalDeviceInfo(queueCreateInfos[..], layerNames, extensionNames, fetches[0], fetches[1]);
  }
}
