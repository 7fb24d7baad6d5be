# mesh-reconstruction core, modelled in Dafny

This project models the sequential integer and string logic of the Unity
point-cloud viewer `mesh-reconstruction` and proves properties of it. It covers
five components.

- **PLY reader** (`Ply_PointCloudProvider`).
  - The header parser classifies each `property <type> <name>` line into a
    `DataProperty` code. It skips the properties of non-vertex elements and
    counts the bytes of the header so the body can be read from that offset.
  - The body decoder walks the property list once per vertex. It carries x, y,
    z, r, g, b and a over from vertex to vertex and appends each point to a
    `DataBody`.
  - The texture packer lays the points out on a square texture of side
    `ceil(sqrt(n))`, row by row.
- **Point-cloud renderer** (`PointCloudRenderer` and its Simple and Meshed
  subclasses). This covers:
  - the nested divisor search `ComputeThreadCountPerThreadGroup`, including its
    extra decrements;
  - the kernel names and their `_1_1_1` fallback;
  - the `Update` initialise/refresh state machine;
  - the buffer size, the dispatch group counts and the draw count.
- **Head-pose queue** (`CamWarp`). It is a FIFO of timestamped poses. Lookups
  dequeue up to the first pose taken at or after a target time, where the
  target is computed in wrapping `ulong` arithmetic.
- **Tracking line decoder** (`OpenVRTracking.ProcessDataReceived`). Each line
  holds a fixed-width hexadecimal record: a timestamp and 12 float words. On a
  little-endian host each value is byte-reversed. The words are then placed
  into a matrix with five sign flips and delivered to the subscribers, whose
  exceptions are caught.
- **Azure Kinect guard** (`Kinect4AManager`). It opens and starts the device
  only when it is off, and stops it only when it is on.

Each core file is modelled in its own form:

- Pure logic is modelled as datatypes, functions and lemmas.
- Code that changes state is modelled as classes (`DataBody`, `PlyProvider`,
  `PointCloudRenderer`, `HeadPoseQueue`, `Kinect4AManager`) and as methods with
  loops. Each such method is proved against a specification function that the
  lemmas talk about. For example:
  - `ReadDataHeader` is proved to return `ParseHeader`;
  - `ComputeThreadCountPerThreadGroup` is proved to return `ThreadCount`;
  - `GetHeadPose` is proved to compute `HeadPoseAfter`;
  - `ReadWords` fills an array as `Words` says.

Some representation choices:

- Floats are never computed. A float read from the PLY body or the tracking
  line is kept as its bit pattern: `Single` or `Narrowed` for PLY coordinates,
  `Bits32` for tracking words.
- `Bits32` is a bounded natural number rather than a `bv32`, because the
  values go through byte-level arithmetic.
- A sign flip is the marker `Negated`.
- Where the source throws, the model returns an `Err`, `None` or `false`
  outcome.
- The SDK's `Device.Open`, `StartCameras` and `StopCameras` are given as
  parameters saying whether each returns or throws.

Modules:

- `Wrappers`: `Option` and `Result`.
- `Bytes`: little-endian bytes and `Array.Reverse`.
- `Text`: `String.Split()`, `Convert.ToInt32`, hexadecimal parsing and
  `int.ToString()`.
- `PlyFormat`, `PlyHeader`, `PlyBody` and `PlyTexture`: the PLY reader.
- `ThreadGroups` and `Renderer`: the renderer.
- `Tracking`: the tracking line decoder.
- `CamWarp`: the head-pose queue.
- `KinectManager`: the Azure Kinect guard.

## Model

| member | source | states |
|---|---|---|
| PlyFormat.GetPropertySize | Scripts/Ply_PointCloudProvider.cs:49-73 | a property's byte size is 0 exactly for `Invalid` and otherwise one of 1, 2, 4, 8 |
| PlyFormat.ChannelAndSizeDetermineProperty | Scripts/Ply_PointCloudProvider.cs:39-73 | two codes with the same written component and the same size are the same code, so each (name, width) pair has one code |
| PlyFormat.NamedProperty | Scripts/Ply_PointCloudProvider.cs:183-195 | the code a property name selects is one of the name codes and writes the component the name names (red/green/blue/alpha/x/y/z); any other name writes nothing |
| PlyFormat.ClassifyProperty | Scripts/Ply_PointCloudProvider.cs:183-244 | a property line is accepted iff its type is a known width and, for a named property, the width suits it (colours 1 or 2 bytes, coordinates 4 or 8); the code's size is the type's width and it writes the named component; a known type that does not suit throws "Invalid property type", an unknown type "Unsupported property type" |
| PlyFormat.ClassifyWidth | Scripts/Ply_PointCloudProvider.cs:197-244 | the type chain on a width: accepted iff the width is 1, 2, 4 or 8 and suits the named component; the code has that width and writes the same component; otherwise "Invalid property type" for a known width and "Unsupported property type" for an unknown one |
| PlyFormat.UnnamedPropertiesArePadding | Scripts/Ply_PointCloudProvider.cs:198-240 | an unnamed property of a known type is always accepted and becomes Data8/Data16/Data32/Data64 by its width |
| Text.Split | Scripts/Ply_PointCloudProvider.cs:161 | `Split()` gives at least one column and no column contains white space |
| Text.SplitRejoin | Scripts/Ply_PointCloudProvider.cs:161 | splitting loses nothing: there is one more column than separators, and rejoining them gives the line back |
| Text.ParseInt32 | Scripts/Ply_PointCloudProvider.cs:168 | `Convert.ToInt32` only ever yields a value in the 32-bit range |
| Text.ParseInt32Accepts | Scripts/Ply_PointCloudProvider.cs:168 | `Convert.ToInt32` succeeds iff the text, stripped of surrounding white space, is an optional sign followed by one or more digits whose signed value lies in the 32-bit range, and it then yields that value (leading zeros included); a malformed or out-of-range numeral fails rather than wrapping |
| Text.ParseInt32OfNegated | Scripts/Ply_PointCloudProvider.cs:168 | a minus sign followed by digits parses to the negated value, down to -2^31, leading zeros included |
| Text.ParseInt32OfLarge | Scripts/Ply_PointCloudProvider.cs:168 | digits whose value exceeds 2^31 - 1 are refused, not wrapped |
| Text.ParseInt32OfDec | Scripts/Ply_PointCloudProvider.cs:168 | a vertex count written in decimal parses back to itself |
| PlyHeader.HeaderBytesIsTextLength | Scripts/Ply_PointCloudProvider.cs:159 | the running `readCount` (line length + 1 per line) equals the length of the header text, so the text followed by the body has the body exactly at that offset |
| PlyHeader.LiveProperties | Scripts/Ply_PointCloudProvider.cs:181-247 | no property added to the list is `Invalid` |
| PlyHeader.EndIndex | Scripts/Ply_PointCloudProvider.cs:158-160 | the declaration loop stops at the first "end_header" line: every line before it differs from "end_header" |
| PlyHeader.ParseHeader | Scripts/Ply_PointCloudProvider.cs:135-254 | a header is accepted only with "ply" as line 1 and "format binary_little_endian 1.0" as line 2 and some line after them; a wrong magic line fails as BadMagic and a wrong format line as BadFormat; every accepted property has a non-zero size |
| PlyHeader.Declarations | Scripts/Ply_PointCloudProvider.cs:155-253 | the declaration loop after the first two lines only accepts a header with some line after them, and every property it accepts has a non-zero size |
| PlyHeader.DeclarationStep | Scripts/Ply_PointCloudProvider.cs:157-247 | the first declaration line before "end_header" that raises an error decides the outcome; a line without error passes on to the next |
| PlyHeader.DeclarationsRunOut | Scripts/Ply_PointCloudProvider.cs:155-158 | a header without an "end_header" line fails with end of stream |
| PlyHeader.DeclarationsDone | Scripts/Ply_PointCloudProvider.cs:155-253 | a header whose lines before "end_header" all pass yields the properties and vertex count they declare, with the body offset just after "end_header" |
| PlyHeader.BodyOffsetAfterEndHeader | Scripts/Ply_PointCloudProvider.cs:251 | for an accepted header the stream is rewound to just after the "end_header" line: the offset is the length of the header text through that line |
| PlyHeader.SkippedPropertyIgnored | Scripts/Ply_PointCloudProvider.cs:164-178 | while a non-vertex element is being skipped a line adds no property, and only an `element` line can fail |
| PlyHeader.ReadDeclaration | Scripts/Ply_PointCloudProvider.cs:157-247 | one pass of the declaration loop fails exactly when that line raises an error (with that error), and otherwise yields the skip flag, property list and vertex count after that line |
| PlyHeader.ReadDeclarations | Scripts/Ply_PointCloudProvider.cs:155-253 | the declaration loop, with `readCount` and `skip` updated line by line, returns exactly `Declarations` |
| PlyHeader.ReadDataHeader | Scripts/Ply_PointCloudProvider.cs:135-254 | `ReadDataHeader` returns exactly `ParseHeader` of the lines read, body offset included |
| PlyBody.Set | Scripts/Ply_PointCloudProvider.cs:267-291 | storing a value into a component changes that component and no other |
| PlyBody.SampleOf | Scripts/Ply_PointCloudProvider.cs:269-285 | a colour property yields a byte, a coordinate property a float bit pattern |
| PlyBody.SixteenBitColourKeepsHighByte | Scripts/Ply_PointCloudProvider.cs:274-277 | `(byte)(ReadUInt16() >> 8)` is the second (high) byte of the little-endian pair |
| PlyBody.ApplyGet | Scripts/Ply_PointCloudProvider.cs:267-291 | decoding one property changes only the component it names, to the value it reads |
| PlyBody.LastWriter | Scripts/Ply_PointCloudProvider.cs:265-292 | the index found names the component and lies before k, or is -1 |
| PlyBody.LastWriterIsLast | Scripts/Ply_PointCloudProvider.cs:265-292 | no property after the last writer of a component writes it |
| PlyBody.WinnerIsLastWriter | Scripts/Ply_PointCloudProvider.cs:265-292 | what a component holds after a prefix of the properties is the value read by the last property naming it, or its incoming value |
| PlyBody.LastWriterWins | Scripts/Ply_PointCloudProvider.cs:260-292 | the decoded component is that value: the last property naming a component wins, and unnamed components keep what they had |
| PlyBody.CarryIsInitial | Scripts/Ply_PointCloudProvider.cs:260-295 | the values carried over from the previous vertex do not change a record's point, because the components no property writes still hold 0 / 255 |
| PlyBody.RecordPointFromDefaults | Scripts/Ply_PointCloudProvider.cs:260-261 | in a decoded point every component is its last writer's value, or 0 for a coordinate / 255 for a colour when no property names it |
| PlyBody.DataBody.constructor | Scripts/Ply_PointCloudProvider.cs:86-90 | a new body has empty vertex and colour lists; a negative capacity is refused |
| PlyBody.DataBody.AddPoint | Scripts/Ply_PointCloudProvider.cs:92-99 | appends exactly one position and one colour, leaving the earlier ones as they were |
| PlyBody.ReadProperty | Scripts/Ply_PointCloudProvider.cs:267-291 | one `switch (prop)` case fails with end of stream iff a reading property's bytes run past the end; otherwise it applies the property |
| PlyBody.ReadRecord | Scripts/Ply_PointCloudProvider.cs:265-292 | the `foreach` over the properties fails iff some read of the record runs past the end; otherwise it yields the decoded point |
| PlyBody.ReadDataBody | Scripts/Ply_PointCloudProvider.cs:256-298 | fails iff the count is negative or some record runs past the end; otherwise emits exactly `vertexCount` points, point i being the record at `start + i * (sum of property sizes)` |
| PlyTexture.CeilSqrt | Scripts/Ply_PointCloudProvider.cs:306 | the texture side w is the least with w*w >= n; w = 0 exactly for n = 0 |
| PlyTexture.PixelSource | Scripts/Ply_PointCloudProvider.cs:323 | every chosen point index is in [0, n), and pixel k < n shows point k |
| PlyTexture.EveryPointShown | Scripts/Ply_PointCloudProvider.cs:306-331 | every point i lies on the texture at pixel (i % w, i / w), whose row-major index is i and which shows point i |
| PlyTexture.CounterStep | Scripts/Ply_PointCloudProvider.cs:330 | the unsigned counter `i2 += 132049U` stays equal to pixel index × 132049 mod 2^32 |
| PlyTexture.FillRow | Scripts/Ply_PointCloudProvider.cs:321-331 | the inner loop fills row y of both textures with the points `PixelSource` picks, leaves other rows alone, and advances both counters by the row |
| PlyTexture.PlyProvider.CreateTextures | Scripts/Ply_PointCloudProvider.cs:302-339 | two fresh w × w textures, pixel (x, y) holding the position and colour of point `PixelSource(y*w + x, n)` |
| ThreadGroups.Wrap32 | Scripts/PointCloudRenderer.cs:164-166 | 32-bit truncation lands in the `int` range and leaves in-range values alone |
| ThreadGroups.Level | Scripts/PointCloudRenderer.cs:143-189 | each loop visits only candidates in [1, start] that divide the maximum |
| ThreadGroups.LevelSkip | Scripts/PointCloudRenderer.cs:145-148 | a non-divisor is passed over by the `continue` |
| ThreadGroups.CrossMembers | Scripts/PointCloudRenderer.cs:143-163 | every candidate triple examined is made of values the three loops visit |
| ThreadGroups.FoldDone | Scripts/PointCloudRenderer.cs:178-181 | once the search has returned, later candidates change nothing |
| ThreadGroups.FoldKeepsDivisors | Scripts/PointCloudRenderer.cs:168-177 | keeping a candidate keeps a triple of divisors |
| ThreadGroups.ThreadCountDivides | Scripts/PointCloudRenderer.cs:135-192 | each returned component is at least 1 and divides its maximum |
| ThreadGroups.SmallProductExact | Scripts/PointCloudRenderer.cs:164 | with the limit at most 1290 the 32-bit product of visited candidates does not overflow |
| ThreadGroups.FoldFindsFirstBest | Scripts/PointCloudRenderer.cs:164-182 | the search keeps the first candidate in visiting order with the smallest error among those that fit, returned early exactly when that error is 0; it keeps (1, 1, 1) when none fits |
| ThreadGroups.FoldKeepsFit | Scripts/PointCloudRenderer.cs:164-176 | a kept triple always fits the limit |
| ThreadGroups.ThreadCountWithinLimit | Scripts/PointCloudRenderer.cs:164 | with a limit of at least 1 the returned product is in [1, limit] |
| ThreadGroups.UnitMaximumGivesUnitComponent | Scripts/PointCloudRenderer.cs:224 | for the fill kernel (z maximum 1) the z component is 1 |
| ThreadGroups.SkippedDivisorExample | Scripts/PointCloudRenderer.cs:184-188 | the extra decrements matter: limit 8 with maxima (6, 4, 1) gives (3, 2, 1), although (2, 4, 1) divides and fills the group exactly |
| ThreadGroups.ScanZ | Scripts/PointCloudRenderer.cs:157-185 | the innermost loop updates the best triple and error as the search over its candidates does, and reports the early return |
| ThreadGroups.VisitCandidateY | Scripts/PointCloudRenderer.cs:150-186 | one divisor of the middle loop runs the innermost loop and steps on by two |
| ThreadGroups.ScanY | Scripts/PointCloudRenderer.cs:150-187 | the middle loop computes the search over its candidates |
| ThreadGroups.VisitCandidateX | Scripts/PointCloudRenderer.cs:143-188 | one divisor of the outer loop runs both inner loops and steps on by two |
| ThreadGroups.ComputeThreadCountPerThreadGroup | Scripts/PointCloudRenderer.cs:135-192 | the triple loop, extra decrements included, returns exactly `ThreadCount` |
| Renderer.VertexBufferMaxSize | Scripts/PointCloudRenderer.cs:259-262 | the base renderer's buffer is empty; Simple and Meshed use (width, height, 6), that is width*height*6 vertices |
| Renderer.KernelNameInjective | Scripts/PointCloudRenderer.cs:206 | different thread counts give different kernel names |
| Renderer.FallbackName | Scripts/PointCloudRenderer.cs:216 | the fallback kernel is the prefix followed by "1_1_1" |
| Renderer.ChooseKernel | Scripts/PointCloudRenderer.cs:206-240 | a kernel is found iff the computed count's name or the `_1_1_1` name exists; the kernel used is the one named after the thread count kept, which is the computed count if its kernel exists and (1, 1, 1) otherwise |
| Renderer.ClearThreads | Scripts/PointCloudRenderer.cs:204 | the clear kernel's computed count is positive and divides the buffer size |
| Renderer.FillThreads | Scripts/PointCloudRenderer.cs:224 | the fill kernel's computed count is positive with z = 1 |
| Renderer.FindKernelOrDefault | Scripts/PointCloudRenderer.cs:208-220 | the `try`/`catch` lookup returns exactly `ChooseKernel` |
| Renderer.PickClearKernel | Scripts/PointCloudRenderer.cs:204-220 | the clear lookup returns `ChooseKernel` on the computed count; the kernel exists, is named after its count, and its count divides the buffer size |
| Renderer.PickFillKernel | Scripts/PointCloudRenderer.cs:224-240 | the same for the fill kernel: its count divides the texture width and height, with z = 1 |
| Renderer.PointCloudRenderer.constructor | Scripts/PointCloudRenderer.cs:29-39 | a new renderer is uninitialised and has dispatched nothing |
| Renderer.PointCloudRenderer.SizeBuffer | Scripts/PointCloudRenderer.cs:196-202 | records the texture size, sizes the buffer for this renderer, and allocates x*y*z elements |
| Renderer.PointCloudRenderer.SelectClearKernel | Scripts/PointCloudRenderer.cs:204-220 | succeeds exactly when `ChooseKernel` finds a clear kernel, and then sets the kernel and thread count to its choice; on failure the computed thread count is kept and the kernel is untouched |
| Renderer.PointCloudRenderer.SelectFillKernel | Scripts/PointCloudRenderer.cs:224-240 | the same for the fill kernel, leaving the clear kernel untouched |
| Renderer.PointCloudRenderer.Initialize | Scripts/PointCloudRenderer.cs:194-243 | sizes the buffer and picks both kernels; it succeeds iff both lookups succeed, and only then is the renderer initialised with every kernel present and every thread count dividing what it processes |
| Renderer.PointCloudRenderer.UpdateVertexBuffer | Scripts/PointCloudRenderer.cs:245-257 | issues the clear dispatch and then the fill dispatch, each with size / thread count groups per axis |
| Renderer.PointCloudRenderer.Update | Scripts/PointCloudRenderer.cs:57-83 | a missing texture de-initialises and changes nothing else; the first call with both textures sizes the buffer from the vertex texture and succeeds exactly when both kernel lookups do, with the chosen kernels and thread counts, and then fills; later calls refill only when not static |
| Renderer.DrawCountMatchesBuffer | Scripts/PointCloudRenderer.cs:96 | the draw count equals the buffer's element count, which is width*height*6 for Simple and Meshed |
| Renderer.DispatchesAreExact | Scripts/PointCloudRenderer.cs:245-257 | groups × threads equals the size exactly on every axis of both dispatches |
| Tracking.Field | Scripts/OpenVRTracking.cs:67 | a field fails as too short exactly when the line does not reach its end; a parsed field is below 16^digits |
| Tracking.Words | Scripts/OpenVRTracking.cs:78-88 | the floats read so far are as many as the fields read |
| Tracking.Decode | Scripts/OpenVRTracking.cs:56-88 | a decoded line gives 12 words and a 64-bit timestamp |
| Tracking.WordsErrorPersists | Scripts/OpenVRTracking.cs:78-88 | the first field that fails decides the error |
| Tracking.WordsOkIff | Scripts/OpenVRTracking.cs:78-88 | the floats are read iff each of their fields is there and hexadecimal |
| Tracking.WordsValues | Scripts/OpenVRTracking.cs:78-88 | float i is field i parsed and put in host byte order |
| Tracking.DecodeOkIff | Scripts/OpenVRTracking.cs:58-88 | a line decodes iff it is at least 112 characters long and its 13 fields are hexadecimal; a shorter line always fails |
| Tracking.DecodeValues | Scripts/OpenVRTracking.cs:60-88 | the timestamp is characters [0, 16) and float i is characters [16+8i, 24+8i), each parsed and put in host byte order |
| Tracking.HostOrderInvolution | Scripts/OpenVRTracking.cs:69-76 | the host-order conversion is an involution |
| Bytes.ByteSwapInvolution | Scripts/OpenVRTracking.cs:71-75 | reversing the bytes of a value twice gives it back |
| Bytes.ReversedInvolution | Scripts/OpenVRTracking.cs:73 | reversing a byte array twice gives it back |
| Bytes.FromLeOfLeBytes | Scripts/OpenVRTracking.cs:71-75 | `ToUInt64(GetBytes(v))` is v |
| Bytes.LeBytesOfFromLe | Scripts/OpenVRTracking.cs:71-75 | `GetBytes(ToUInt64(bs))` is bs |
| Bytes.ReverseInPlace | Scripts/OpenVRTracking.cs:73 | `Array.Reverse` leaves the array holding its old contents reversed |
| Bytes.GetBytes | Scripts/OpenVRTracking.cs:71 | `GetBytes` gives a fresh array of the value's little-endian bytes |
| Text.ParseHex | Scripts/OpenVRTracking.cs:67 | a parsed n-digit field is below 16^n |
| Text.ParseHexOf | Scripts/OpenVRTracking.cs:67 | a value written as a fixed-width hexadecimal field parses back to itself |
| Tracking.TimestampOfEncoded | Scripts/OpenVRTracking.cs:67-76 | the timestamp the tracking process writes reads back as itself |
| Tracking.FieldOfEncoded | Scripts/OpenVRTracking.cs:80 | each float field the tracking process writes parses to the word it was written from |
| Tracking.WordsOfEncoded | Scripts/OpenVRTracking.cs:78-88 | the 12 float fields the tracking process writes read back as its words |
| Tracking.DecodeEncoded | Scripts/OpenVRTracking.cs:56-88 | decoding a line the tracking process wrote gives back its timestamp and words, whatever follows them |
| Tracking.Placed | Scripts/OpenVRTracking.cs:90-105 | the pose is a 4 × 4 matrix |
| Tracking.FlippedIsZMirror | Scripts/OpenVRTracking.cs:92-105 | the negated entries (0,2), (1,2), (2,0), (2,1), (2,3) are exactly those where mirroring z changes the sign |
| Tracking.PlaceValues | Scripts/OpenVRTracking.cs:90-105 | the element assignments build the matrix whose entry (r, c) is word 4r+c, negated at the five flipped places, with row 3 from the identity |
| Tracking.FirstThrow | Scripts/OpenVRTracking.cs:109 | the first subscriber that throws: every earlier one returns normally |
| Tracking.DeliverCallsUpToFirstThrow | Scripts/OpenVRTracking.cs:107-114 | an error is logged iff some subscriber throws; subscribers are called up to and including the first that throws, and otherwise all of them; nothing propagates |
| Tracking.ParseField | Scripts/OpenVRTracking.cs:67 | the `Substring` + `Parse` call returns `Field` |
| Tracking.ToHostOrder | Scripts/OpenVRTracking.cs:69-76 | `GetBytes`, `Array.Reverse` on a little-endian host, and the conversion back compute `HostOrder` |
| Tracking.ReadWord | Scripts/OpenVRTracking.cs:80-87 | one pass of the float loop stores float k, or fails with the error that ends `Words` |
| Tracking.ReadWords | Scripts/OpenVRTracking.cs:78-88 | the float loop fills a fresh array with exactly `Words`, or fails with its error |
| Tracking.ProcessDataReceived | Scripts/OpenVRTracking.cs:56-116 | a null line does nothing; otherwise the outcome is `Received`: a parse failure, or the decoded timestamp and matrix delivered with every subscriber exception caught |
| CamWarp.LookupTarget | Scripts/CamWarp.cs:73 | adding `communicationTime * 1000000` back to the target gives the image timestamp modulo 2^64, and the target is a plain difference when the delay does not exceed the timestamp |
| CamWarp.StopIndex | Scripts/CamWarp.cs:97-101 | the do-while stops at the first entry that reaches the target, or at the last entry |
| CamWarp.StopIndexUnique | Scripts/CamWarp.cs:97-101 | only one entry has those properties |
| CamWarp.HeadPoseAfter | Scripts/CamWarp.cs:91-105 | on an empty queue the identity with the queue unchanged; otherwise at least one entry is removed, what is left is a suffix, and the pose is that of the last removed entry, all earlier entries lying before the target and that entry reaching it unless the queue is emptied |
| CamWarp.NoneReachedTakesLast | Scripts/CamWarp.cs:101-104 | when no entry reaches the target the queue ends empty and the newest pose is returned |
| CamWarp.ReachingPoseFound | Scripts/CamWarp.cs:97-104 | when some entry reaches the target, the pose returned is the first such entry's, and it is removed with everything before it |
| CamWarp.LaterPosesDoNotMatter | Scripts/CamWarp.cs:84-104 | once a queued pose reaches the target, poses enqueued later change neither the pose found nor what stays queued before them |
| CamWarp.StopIndexOfAppend | Scripts/CamWarp.cs:97-101 | appending entries does not move the stopping entry when one already reaches the target |
| CamWarp.HeadPoseQueue.constructor | Scripts/CamWarp.cs:35 | the queue starts empty |
| CamWarp.HeadPoseQueue.OnNewHeadPose | Scripts/CamWarp.cs:84-89 | appends exactly one entry at the tail; the others are unchanged |
| CamWarp.HeadPoseQueue.GetHeadPose | Scripts/CamWarp.cs:91-105 | the do-while loop computes `HeadPoseAfter` on the queue, returning its pose and leaving its rest queued |
| CamWarp.HeadPoseQueue.UpdateMeshPosition | Scripts/CamWarp.cs:69-82 | looks up the head pose at `LookupTarget(image timestamp, communication time)` |
| KinectManager.StartStep | Scripts/Kinect4AManager.cs:40-56 | a start keeps the guard consistent; it is a no-op when on; it opens at most one device; it ends on iff it was on or both SDK calls returned |
| KinectManager.StopStep | Scripts/Kinect4AManager.cs:61-69 | a stop always ends off and consistent, is a no-op when off, and opens nothing |
| KinectManager.StartStopRoundTrip | Scripts/Kinect4AManager.cs:40-69 | a successful start followed by a successful stop returns to the off state with no device, one open later |
| KinectManager.StartIdempotent | Scripts/Kinect4AManager.cs:42 | once on, any number of further starts change nothing, so the device is never reopened |
| KinectManager.OpensBounded | Scripts/Kinect4AManager.cs:40-56 | each start opens the device at most once, and none opens it once the cameras are on |
| KinectManager.StopIdempotent | Scripts/Kinect4AManager.cs:63 | stopping twice is stopping once |
| KinectManager.FailedStartReopens | Scripts/Kinect4AManager.cs:52-54 | a `StartCameras` that throws leaves the opened device held while the manager is off, so the next start opens another |
| KinectManager.Kinect4AManager.constructor | Scripts/Kinect4AManager.cs:10-19 | the manager starts off with no device, device id 0 and the default camera settings (BGRA32, 720p, NFOV unbinned, synchronised, 30 fps) |
| KinectManager.Kinect4AManager.GetKinect | Scripts/Kinect4AManager.cs:23-33 | returns null exactly when the manager is off, and the held device when on |
| KinectManager.Kinect4AManager.StartCamera | Scripts/Kinect4AManager.cs:40-56 | follows `StartStep`; when off it opens a fresh device with the manager's id and starts it with the manager's settings; when on, or when the open throws, the device is untouched; settings never change |
| KinectManager.Kinect4AManager.StopCamera | Scripts/Kinect4AManager.cs:61-69 | follows `StopStep`; when on it marks off, stops the cameras and drops the device (the handle stays if `StopCameras` throws); when off the device is untouched |

## Left out

- Floating point:
  - `ReadSingle`, `ReadDouble` with its cast to float, and `BitConverter.ToSingle` are kept as bit patterns.
  - The sign flips of the tracking matrix are markers, not negations.
  - `Mathf.Sqrt`/`CeilToInt` are taken as exact; see `PlyTexture.CeilSqrt`.
- `ComputeClippingBoxToPointsTransformation` (a float matrix inverse) and the pose arithmetic of `UpdateMeshPosition` are not modelled. That arithmetic is `Matrix4x4.TRS`, the matrix product, and the position and rotation extraction. Poses are opaque matrices here.
- I/O and the engine:
  - `LoadPly`'s file opening and its exception swallowing.
  - The `StreamReader`/`BinaryReader` objects: the header is the list of lines `ReadLine` returns, and the body is a byte sequence.
  - `ReadLine`'s handling of "\r", and decoding beyond one byte per character.
  - Unity's `Texture2D`, `SetPixel`, `Apply`, `ComputeBuffer`, `SetBuffer`/`SetInt`/`SetTexture`/`SetMatrix` and `DrawProceduralNow` (only their sizes and counts are modelled).
  - The tracking process's spawn and teardown.
  - `Debug` logging.
  - The abstract `GetImageTimeStamp`, which is a parameter.
- Concurrency: `OnNewHeadPose` runs on the tracking thread. The queue is modelled sequentially.
- The Kinect SDK: `Device.Open`, `StartCameras` and `StopCameras` are stand-ins whose only outcome is returning or throwing. The effect of the configuration on the device is not modelled.
- Platform: `BitConverter.IsLittleEndian` is a parameter.
- Culture: `Convert.ToInt32` is modelled with the invariant culture's sign and white-space rules only.
- Engine edge cases:
  - A texture of side 0 (no points) is created as such, whatever Unity does with `new Texture2D(0, 0)`.
  - A compute buffer of zero elements (the base renderer) is not treated as an error.
- ThreadGroups.ThreadCountWithinLimit: the product bound is proved only for limits up to 1290, above which the 32-bit product of two visited candidates can overflow; the renderer uses 1024. The same bound is on `ThreadGroups.FoldFindsFirstBest` and `ThreadGroups.FoldKeepsFit`.
- PlyTexture.PlyProvider.CreateTextures: requires at least as many colours as positions. The source indexes `colors` with the positions' indices and would throw otherwise; its one caller always passes lists of equal length.
- PlyTexture.CeilSqrt: `Mathf.CeilToInt(Mathf.Sqrt(n))` is taken as the exact integer ceiling of the square root, which single-precision rounding may miss for very large counts.
