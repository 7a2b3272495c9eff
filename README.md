# Vulkan triangle: selection rules and bookkeeping

This project models the decision logic of a small Go program that draws a
triangle with Vulkan. It covers:

- the helpers the program builds on: an optional uint32, C-string
  normalisation of layer and extension names, name-list subtraction and
  de-duplication, a support check, uint32 clamping, and the little-endian
  decoding of shader code into 32-bit words;
- the pick of a physical device: filtering on the required layers and
  extensions, the pluggable selector and its default, and the scan of queue
  families for a graphics family and a presenting family;
- the queue set-up of the logical device;
- the swapchain parameters NewPipeline chooses: surface format, present
  mode, extent, image count, sharing mode and queue family list;
- how many image views, framebuffers and command buffers it creates;
- the per-frame bookkeeping of drawFrame: the frame rotation, the
  image-to-fence table and the resize flag.

Every Vulkan or GLFW call the program makes is a parameter of the model, such
as a function from a device handle to what the driver reports, or a result
code. Modules:

- `Helpers` (`helpers.dfy`): helpers.go.
- `Vulkan` (`vulkan.dfy`): the values the API returns and the constants the
  program compares them with.
- `Devices` (`devices.dfy`): pickPhysicalDevice, the default
  SelectPhysicalDeviceIndex, QueueFamilies and createLogicalDevice from
  main.go.
- `Pipeline` (`pipeline.dfy`): the selection rules and object counts of
  NewPipeline in pipeline.go.
- `Frames` (`frames.dfy`): drawFrame, recreatePipeline, the resize callback
  and the frame state set up in main.go.

Loops in the source are `method`s with loop invariants. Each is proved
either equal to a specification function (`Subtract`, `Dedupe`,
`SupportedDevices`, `QueueFamiliesOf` and so on), about which lemmas then
state what it means, or against quantified ensures that fix every element of
its result. OptionUint32 and TriangleApplication change fields in
place, so they are classes.

## Model

| member | source | states |
|---|---|---|
| Helpers.OptionUint32.constructor | helpers.go:20-24 | The zero value of an option is unset. |
| Helpers.OptionUint32.Set | helpers.go:26-29 | After Set(x) the option is set and holds x. |
| Helpers.OptionUint32.IsSet | helpers.go:31-33 | The option reports set exactly when it holds a value. |
| Helpers.OptionUint32.Val | helpers.go:35-40 | The result is the stored value. `requires IsSet()` stands for the panic on an unset option at helpers.go:36-37. |
| Helpers.ToCString | helpers.go:43-51 | The result always ends in NUL. A NUL-terminated name is returned unchanged. Any other name, the empty one included, gets one NUL appended. |
| Helpers.ToCStringIdempotent | helpers.go:43-51 | Normalising a name twice gives the same result as once. |
| Helpers.ToCStrings | helpers.go:53-59 | The output has the input's length. Element k is the C string of input element k. Every element is already normalised. |
| Helpers.NameMapLookup | helpers.go:62-68 | Looking a key up in the built map, with Go's false-for-missing rule, succeeds exactly when the key is the normalised form of some input name. |
| Helpers.SliceToMap | helpers.go:62-68 | The keys are exactly the normalised input names, and every value is true. |
| Helpers.SetSubtraction | helpers.go:70-78 | The output is the ordered filter `Subtract`. An element is in the output exactly when it is in `a` and its normalised form does not map to true in `b`. |
| Helpers.SubtractIsSubsequence | helpers.go:70-78 | The subtraction keeps the surviving elements in their input order. |
| Helpers.SubtractCounts | helpers.go:70-78 | Each name is either dropped entirely or kept exactly as many times as it occurs in `a`. |
| Helpers.SubtractMembership | helpers.go:70-78 | A name survives the subtraction exactly when it occurs in `a` and its normalised form is not mapped to true. |
| Helpers.SubtractEmpty | helpers.go:70-78 | Nothing survives exactly when every name of `a` is covered by `b`. |
| Helpers.DedupeSlice | helpers.go:80-90 | The output equals `Dedupe(a)`. The loop's index map always holds exactly the normalised forms already output. |
| Helpers.DedupeIsSubsequence | helpers.go:80-90 | De-duplication keeps input order and invents nothing. |
| Helpers.DedupeCovers | helpers.go:80-90 | Every normalised name of the input is still represented in the output. |
| Helpers.DedupeDistinct | helpers.go:80-90 | No two output names share a normalised form. |
| Helpers.DedupeKeepsFirstOccurrences | helpers.go:80-90 | Every first occurrence (by normalised form) is in the output, and every output name is such a first occurrence. |
| Helpers.MustSupport | helpers.go:92-98 | The check fails exactly when some required name, once normalised, is not available. A failure carries the ordered list of missing names, and that list is non-empty. |
| Helpers.MaxUint32 | helpers.go:105-110 | The result is at least both arguments and equals one of them. |
| Helpers.MinUint32 | helpers.go:112-117 | The result is at most both arguments and equals one of them. |
| Helpers.ClampUint32 | helpers.go:101-103 | A value in range is returned unchanged. With a non-empty range the result lies in it, and values below or above it are raised to the lower end or lowered to the upper end. With an empty range the result is the lower end, because the maximum is taken last. |
| Helpers.WordBytesRoundTrip | helpers.go:131-136 | Reassembling a word's four little-endian bytes gives the word back. |
| Helpers.LittleEndianWordRoundTrip | helpers.go:131-136 | Splitting an assembled word gives back its four bytes. |
| Helpers.DecodeEncode | helpers.go:131-136 | Decoding the byte encoding of a word list gives the list back. |
| Helpers.EncodeDecode | helpers.go:131-136 | Encoding the decoded words gives back the byte string minus its trailing len % 4 bytes. |
| Helpers.NewWordsUint32 | helpers.go:131-136 | There are len(b)/4 words, and word i is the little-endian value of bytes 4i to 4i+3. |
| Helpers.Sizeof | helpers.go:138-140 | The size is the length of the words' byte encoding. |
| Helpers.SizeofDecoded | helpers.go:138-140 | For words decoded from a file, the size is the file length rounded down to a multiple of 4, within 4 bytes of the file length. |
| Devices.QueueFamilies | main.go:690-719 | Returns two fresh, distinct options equal to `QueueFamiliesOf`. The scan overwrites with each qualifying family and stops once both options are set. |
| Devices.QueueFamiliesValid | main.go:690-719 | A reported graphics index names a real family with the graphics bit. A reported presentation index names a real family that can present. Family counts fit in a uint32. |
| Devices.QueueFamiliesFound | main.go:690-719 | Each option is set exactly when the device has a family with that capability. |
| Devices.QueueFamiliesIgnoreLaterFamilies | main.go:713-716 | Once families 0..j include both capabilities, families after j do not affect the result. |
| Devices.SupportsRequiredIff | main.go:171-189 | A device passes the filter exactly when every required layer and every required extension is among its own names, once normalised. |
| Devices.SupportedDevicesFacts | main.go:163-196 | The filtered list keeps the original order of the devices. A device is in it exactly when it is one of the devices and supports everything required. |
| Devices.FilterPhysicalDevices | main.go:163-196 | The filter loop, built on SliceToMap and SetSubtraction, computes `SupportedDevices`. |
| Devices.PickPhysicalDevice | main.go:163-210 | With no supported device, the pick fails with NoSupportedDevice. An in-range selector index picks that filtered device. Any other index fails with InvalidSelection carrying the index. A picked device is one of the input devices and supports everything required. |
| Devices.IsSuitableIff | main.go:501-514 | The default selector's test holds exactly when the device has a graphics family and a presenting family and the surface offers at least one format and at least one present mode. |
| Devices.DefaultSelectPhysicalDeviceIndex | main.go:501-514 | The result is -1 exactly when no device is suitable. Otherwise it is the index of the first suitable device. |
| Devices.QueueFamilyIndexList | main.go:215-219 | The list holds one family when graphics and presentation coincide and two otherwise. Graphics comes first and presentation last. The entries are distinct and are exactly the two families. |
| Devices.AsWrittenPresentationQueueNotCreated | main.go:253-261 | As written, with distinct families, the presentation queue is fetched at an index that was never created. |
| Devices.QueueFetchesAsWrittenCreated | main.go:222-261 | With the fetches as written, the graphics fetch is a created queue, and the presentation fetch is one exactly when graphics and presentation share a family. |
| Devices.QueueFetchesCreated | main.go:222-261 | With queue index 0 for both fetches, each fetch names its own family and refers to a queue the device was created with. |
| Devices.CreateLogicalDevice | main.go:213-261 | One create info per distinct family, each with one queue. The graphics queue is queue 0 of the graphics family, a created queue. The presentation queue is fetched, as written, at the position of its family in the list; it is a created queue exactly when both families coincide. The enabled layer and extension names are the C strings of the required ones, element by element. |
| Pipeline.ChooseSurfaceFormat | pipeline.go:35-42 | The chosen format is one the surface offers. It is B8G8R8A8 sRGB with the sRGB non-linear colour space whenever that pair is offered, and the first format otherwise. |
| Pipeline.ChoosePresentMode | pipeline.go:45-52 | The result is Mailbox when it is offered and FIFO otherwise. |
| Pipeline.ChooseExtent | pipeline.go:55-75 | Without the 0xFFFFFFFF width sentinel, the result is the current extent. With it, each side is the framebuffer size clamped independently: within a non-empty range it is unchanged, below it is raised to the minimum and above it lowered to the maximum; an empty range gives its lower end. |
| Pipeline.ChooseImageCount | pipeline.go:78-86 | With no maximum, the count is the minimum plus one, wrapping at 2^32. With a maximum, it lies between minimum and maximum when they are ordered, is minimum plus one when that fits, and is the minimum when the minimum is not below the maximum. |
| Pipeline.ChooseSharing | pipeline.go:89-98 | Exclusive exactly when both families coincide, with the list `[graphics]`. Concurrent otherwise, with `[graphics, presentation]`. The list is the one the logical device uses. |
| Pipeline.ChooseSwapchainSettings | pipeline.go:31-118 | Each field of the swapchain create info follows its own rule: format, colour space, present mode, extent, image count, sharing mode and family list. |
| Pipeline.CreateSwapchainObjects | pipeline.go:137-455 | There is one image view per swapchain image and one framebuffer per image view, over the chosen extent. The command buffer count is the uint32 cast of the framebuffer count, which equals it below 2^32. Buffer k draws 3 vertices and 1 instance into framebuffer k over the whole extent. |
| Frames.NextFrame | main.go:434-435 | The next frame is below the frame count. It is the current frame plus one, or 0 after the last frame. |
| Frames.FrameAfterBelow | main.go:434-435 | Starting from a valid frame, every later frame is valid. |
| Frames.FrameAfterWithinTwoRounds | main.go:434-435 | Within two rounds the frame number counts up and wraps to 0 exactly once. |
| Frames.FrameAfterCompose | main.go:434-435 | n + m frames are n frames followed by m frames. |
| Frames.FramesInFlightRotate | main.go:434-435 | Any framesInFlight consecutive frames use distinct slots, and the rotation then returns to its start. |
| Frames.FrameAfterPeriodic | main.go:434-435 | The rotation repeats with period framesInFlight. |
| Frames.TriangleApplication.constructor | main.go:308-337 | After setup there is one fence per frame in flight, frame 0 is current, no swapchain image waits on a fence, and the resize flag is clear. |
| Frames.TriangleApplication.OnFramebufferResize | main.go:67-70 | The callback sets the resize flag. |
| Frames.TriangleApplication.RecreatePipeline | main.go:438-465 | The resize flag is cleared, and the new swapchain's images wait on no fence. |
| Frames.TriangleApplication.DrawFrame | main.go:347-436 | If acquiring reports out of date, the pipeline is recreated and the frame does not advance. Any other acquire failure panics with state unchanged. Otherwise the image takes the current frame's fence. After an out-of-date or suboptimal present, or with the resize flag set, the pipeline is recreated. A successful present leaves the rest unchanged. In both cases the frame advances round-robin. Any other present failure panics without advancing. The validity invariant is kept. |

## Left out

- Every Vulkan and GLFW call is replaced by its result or by a function parameter. This covers instance, device, swapchain, image view, framebuffer, render pass, pipeline, command buffer, semaphore and fence creation, as well as queue submission, presentation and destruction.
- Fence waits and resets, semaphores, the main loop and cleanup are left out. They only order GPU work and change no state the model tracks.
- MustSucceed is not modelled. A failing Vulkan call panics; the model's creation functions always succeed.
- MustReadFile is not modelled because it is file I/O. The shader code bytes are an input to NewWordsUint32.
- Logging with fmt.Printf, PhysicalDevice.String, and the property enumeration functions (EnumeratePhysicalDevices, the layer and extension property readers, vk.ToString) are left out. They are output or foreign calls; a device is modelled directly by its layer names, extension names and queue-family flags.
- createInstance's instance layer and extension check is not modelled as its own operation. It is DedupeSlice, ToCStrings and MustSupport applied to names obtained through foreign calls, and those three are modelled.
- createCommandPool is not modelled. It only reads the graphics family index.
- The float queue priority and the float clear colour are not modelled.
- The GLFW framebuffer size is an `int` cast to uint32 in the source. The model takes the uint32 values directly.
- recreatePipeline's wait while the framebuffer size is zero is left out, because it blocks on window events.
- runtime.LockOSThread is not modelled.
- Helpers.OptionUint32: Go passes the struct by value, but the model uses a reference. QueueFamilies returns fresh objects, so no aliasing is observable.
- Helpers.OptionUint32.Val: the panic on an unset option is a precondition. Devices.CreateLogicalDevice and Pipeline.ChooseSwapchainSettings therefore require both queue families to have been found, which the default selector guarantees. The selector is pluggable and the filter checks only layers and extensions, so with another selector the source can panic at main.go:216; the model does not cover that path.
- Helpers.Sizeof: Go returns a 64-bit `uint`. The model returns an unbounded natural number, since shader files are far below 2^64 bytes.
- Pipeline.ChooseSurfaceFormat: it requires at least one format. The source indexes `fmts[0]` and panics on an empty list, and the default selector only picks devices that offer a format.
- Frames.TriangleApplication.DrawFrame: the acquired image index must be below the swapchain's image count. Vulkan guarantees this, and the source would panic on a larger one.

## Findings

| source | as written | input that shows it | evidently intended | confidence | as-written member | corrected member |
|---|---|---|---|---|---|---|
| main.go:258-260 | The presentation queue is fetched with queue index `len(queueFamilyIndices) - 1`. With two distinct families that is 1, but each family is created with one queue (main.go:222-230). | graphics family 0, presentation family 1 | Fetch queue 0 of the presentation family. | not executed | Devices.AsWrittenPresentationQueueNotCreated | Devices.QueueFetchesCreated |
