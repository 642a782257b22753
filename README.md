# UVC control-protocol engine, modelled in Dafny

This project models the protocol core of a Swift library that drives USB
Video Class (UVC 1.5) cameras on macOS through IOKit. It covers five parts:

- **Descriptor walker** (`getDescriptors`). It walks the class-specific
  VideoControl descriptor chain from the header's `bLength` up to its
  `wTotalLength`, one `bLength` at a time. It keeps the last Processing Unit
  (subtype 0x05) and the last Input Terminal (subtype 0x02) it visits.
  `enumerateDevices` accepts a camera only when both were found.
- **Request marshalling** (`inRequest` / `outRequest`, `makebmRequestType`,
  `findInterfaceRequest`). It covers the `bmRequestType` bit packing of
  section 9.3.1 of USB 2.0, and selector and unit ids in the high byte of
  `wValue` / `wIndex`. `wLength` is the byte size of the value type. A read
  gives a value exactly when the device reports `wLenDone > 0`.
- **Integer control** (`IntegerControl<T>`). It covers `current()` (widening
  with `Int(clamping:)`) and `set(value:)` (saturating with `T(clamping:)`).
  It also covers the lazy `max`, `min`, `default`, `resolution` and `inf`:
  each is fetched once and the outcome is kept, even an absent one.
- **Control discovery** (`enumerateControls`). Every selector index of a
  closed range is probed in ascending order with a one-byte `GET_INF`, and
  the indices that answer are kept.
- **Control catalog** (`getCameraControls` and the two selector tables).
  The Processing Unit is probed over 0x01…0x13, then the Camera Terminal over
  0x01…0x14. Every answered index is mapped through its fixed table.

The descriptor layouts of `descriptors.h` become decoders at fixed byte
offsets over `seq<byte>`, bounds-checked against the buffer. The IOKit
control transfer becomes a class `ControlRequest.Interface`. It keeps a log
of every request issued on the interface. Its `device` function answers a
request given that history, so a device whose controls "wake up once poked"
is covered.

Files, one module each:

| file | module | models |
|---|---|---|
| wrappers.dfy | `Wrappers` | `Option`, `Result` |
| integers.dfy | `Integers` | Swift fixed-width integers, clamping, the little-endian two's-complement buffer codec |
| usb.dfy | `Usb` | `makebmRequestType`, `findInterfaceRequest` |
| descriptors.dfy | `Descriptors` | the packed structs of `descriptors.h` |
| uvcconsts.dfy | `UvcConsts` | class codes, subtypes, request codes, selector enums |
| uvctypes.dfy | `UvcTypes` | `Selector`, `Camera.init` |
| controlrequest.dfy | `ControlRequest` | `ControlRequestInterface` and the transfer oracle |
| integercontrol.dfy | `IntegerControls` | `IntegerControl<T>` as a class with cache fields |
| uvc.dfy | `Uvc` | walker, both-present rule, discovery, catalog |
| scenarios.dfy | `Scenarios` | two concrete end-to-end runs |

The walker and the loops are imperative methods. Each is proved equal to a
specification function: `GetDescriptors` to `Walk`, `EnumerateControls` to
`Discovered`, `CollectControls` to `Known`, and `CatalogOf` /
`GetCameraControls` to `Catalog`, the Processing Unit part followed by the
Camera Terminal part. The lemmas beside those functions state
what the source promises about them.

## Model

| member | source | states |
|---|---|---|
| Integers.ShiftLeft8 | Sources/Swift/UVC/ControlRequest.swift:25-26 | `UInt16 << 8` discards the bits shifted out: the low byte is 0 and the high byte is the low byte of the operand |
| Integers.BinaryInteger.Size | Sources/Swift/UVC/ControlRequest.swift:27 | `MemoryLayout<T>.size` is 1, 2, 4 or 8 |
| Integers.Clamp | Sources/Swift/UVC/uvctypes.swift:166-168 | `T(clamping:)` gives a value of `T`, leaves an in-range value unchanged, and otherwise gives the representable value nearest the argument (so `T.min` below the range and `T.max` above it) |
| Integers.Widen | Sources/Swift/UVC/uvctypes.swift:158-163 | `Int(clamping:)` of a `T` value is exact for every `T` but `UInt64`, whose values above `Int.max` pin to `Int.max` |
| Integers.ToLittleEndian | Sources/Swift/UVC/ControlRequest.swift:38 | the `k` bytes built for a number below 256^k read back as that number |
| Integers.ToLittleEndianOfLittleEndian | Sources/Swift/UVC/ControlRequest.swift:38 | reading `k` bytes as a number and writing it back gives the same bytes |
| Integers.Decode | Sources/Swift/UVC/ControlRequest.swift:38 | the `pointee` of a `T` buffer is a value within `T`'s range |
| Integers.Encode | Sources/Swift/UVC/ControlRequest.swift:49-60 | the bytes `outRequest` sends for a value are exactly `T`'s size; with `DecodeEncode` and `EncodeDecode` they are that value's two's-complement little-endian bytes |
| Integers.DecodeEncode | Sources/Swift/UVC/ControlRequest.swift:49-71 | the bytes of an in-range value decode to that value |
| Integers.EncodeDecode | Sources/Swift/UVC/ControlRequest.swift:16-38 | any `T`-sized buffer is the encoding of the value it decodes to |
| Integers.SetThenCurrent | Sources/Swift/UVC/uvctypes.swift:158-168 | a value within `T` and `Int` written by `set` decodes back to itself under `current`'s widening |
| Integers.ClampExamples | Sources/Swift/UVC/uvctypes.swift:167 | -5 into `UInt16` is 0, 100000 into `Int16` is 32767, 0xFFFF into `UInt8` is 0xFF |
| Usb.MakeBmRequestType | Sources/Swift/USB/USB.swift:189-193 | the byte fits (no `UInt8` trap); bit 7 reads back `direction & 1`, bits 6-5 `type & 3`, bits 4-0 `recipient & 0x1F` |
| Usb.MakeBmRequestTypeMasks | Sources/Swift/USB/USB.swift:190-191 | only the masked low bits of each argument matter |
| Usb.ClassInterfaceRequestTypes | Sources/Swift/USB/USB.swift:189-192 | IN/CLASS/INTERFACE is 0xA1 and OUT/CLASS/INTERFACE is 0x21 |
| Usb.MakeFindInterfaceRequest | Sources/Swift/USB/USB.swift:161-169 | each given argument lands in its own field; an omitted one is `kIOUSBFindInterfaceDontCare` |
| Descriptors.U16At | Sources/Descriptors/include/descriptors.h:27-28 | a little-endian 16-bit field is below 2^16, and its two bytes are its encoding |
| Descriptors.U32At | Sources/Descriptors/include/descriptors.h:29 | a little-endian 32-bit field is below 2^32, and its four bytes are its encoding |
| Descriptors.DecodeHeader | Sources/Descriptors/include/descriptors.h:23-40 | the header shares the prefix's `bLength` and subtype (`DecodePrefix` reads `UVC_Descriptor_Prefix`, the first three bytes at an offset); `wTotalLength` is bytes 5-6, little-endian |
| Descriptors.DecodeProcessingUnit | Sources/Descriptors/include/descriptors.h:35-53 | read at the same offset, the unit and the prefix agree on length, type and subtype; `bUnitID` is byte 3 |
| Descriptors.DecodeInputTerminal | Sources/Descriptors/include/descriptors.h:56-70 | read at the same offset, the terminal and the prefix agree on length, type and subtype; `bTerminalID` is byte 3 |
| UvcConsts.RequestCode.RawValue | Sources/Swift/UVC/uvcconsts.swift:36-48 | bit 7 is set exactly for the GET codes; `SET_CUR` is 0x01; the GET codes are 0x81… in declaration order |
| UvcConsts.RequestCodesDistinct | Sources/Swift/UVC/uvcconsts.swift:36-48 | the eight request codes are pairwise distinct |
| UvcConsts.SubtypesDistinct | Sources/Swift/UVC/uvcconsts.swift:26-29 | the Processing Unit and Input Terminal subtypes differ |
| UvcConsts.PUControlIndex.RawValue | Sources/Swift/UVC/uvcconsts.swift:57-78 | every Processing Unit selector lies in 0x01…0x13 |
| UvcConsts.PUControlIndexFromRaw | Sources/Swift/UVC/uvcconsts.swift:57-78 | `PUControlIndex(rawValue:)` succeeds exactly on 0x01…0x13, with a selector of that raw value |
| UvcConsts.PUControlIndexRoundTrip | Sources/Swift/UVC/uvcconsts.swift:57-78 | every selector is recovered from its raw value |
| UvcConsts.CTControlIndex.RawValue | Sources/Swift/UVC/uvcconsts.swift:86-108 | every Camera Terminal selector lies in 0x01…0x14 |
| UvcConsts.CTControlIndexFromRaw | Sources/Swift/UVC/uvcconsts.swift:86-108 | `CTControlIndex(rawValue:)` succeeds exactly on 0x01…0x14, with a selector of that raw value |
| UvcConsts.CTControlIndexRoundTrip | Sources/Swift/UVC/uvcconsts.swift:86-108 | every selector is recovered from its raw value |
| UvcTypes.MakeCamera | Sources/Swift/UVC/uvctypes.swift:80-90 | `punitID` is `bUnitID` and `itermID` is `bTerminalID`, zero-extended, so both are below 256 |
| ControlRequest.Interface.ControlRequest | Sources/Swift/UVC/ControlRequest.swift:32 | one transfer: the request is appended to the log and answered by the device given the earlier history |
| ControlRequest.InRecord | Sources/Swift/UVC/ControlRequest.swift:19-30 | `bmRequestType` 0xA1, `bRequest` the code's raw value, selector and unit id in the high bytes of `wValue` / `wIndex` with low bytes 0, `wLength` the size of `T` |
| ControlRequest.OutRecord | Sources/Swift/UVC/ControlRequest.swift:54-65 | as for reads but 0x21, and the data are `T`-sized bytes that decode to the value sent |
| ControlRequest.Received | Sources/Swift/UVC/ControlRequest.swift:16-38 | the receive buffer holds the bytes the device supplied, up to the size of `T` |
| ControlRequest.InValue | Sources/Swift/UVC/ControlRequest.swift:32-39 | a value is returned exactly when `wLenDone > 0`, and it is the `T` whose bytes fill the buffer |
| ControlRequest.StatusIgnored | Sources/Swift/UVC/ControlRequest.swift:32-69 | the transfer status never changes what either request returns, whatever the type read or the value sent |
| ControlRequest.InRequest | Sources/Swift/UVC/ControlRequest.swift:14-41 | exactly one transfer of `InRecord`, and its answer decoded by `InValue` |
| ControlRequest.OutValue | Sources/Swift/UVC/ControlRequest.swift:67-72 | `outRequest` returns the value it sent exactly when `wLenDone > 0` |
| ControlRequest.OutRequest | Sources/Swift/UVC/ControlRequest.swift:47-75 | exactly one transfer of `OutRecord`, with `OutValue`'s result |
| IntegerControls.Limit.Request | Sources/Swift/UVC/uvctypes.swift:175-204 | `max`, `min`, `default` and `resolution` are fetched by `GET_MAX`, `GET_MIN`, `GET_DEF` and `GET_RES` respectively, each by its own request and none by `GET_CUR`, `GET_LEN` or `GET_INF` |
| IntegerControls.ReadInt | Sources/Swift/UVC/uvctypes.swift:158-163 | a read gives a value exactly when `wLenDone > 0`; it fits both `Int` and `T`, and it is the decoded `T` itself for every `T` but `UInt64`, where it is that value pinned to `Int.max` |
| IntegerControls.IntegerControl.constructor | Sources/Swift/UVC/uvctypes.swift:147-154 | a new control holds its name, selector, type, family and interface, and has fetched nothing |
| IntegerControls.IntegerControl.Current | Sources/Swift/UVC/uvctypes.swift:158-163 | one `GET_CUR` transfer of `T`'s size on the control's selector; absent exactly when the read is |
| IntegerControls.IntegerControl.Set | Sources/Swift/UVC/uvctypes.swift:166-168 | exactly one `SET_CUR` transfer on the control's selector, carrying the clamped value |
| IntegerControls.IntegerControl.Fetch | Sources/Swift/UVC/uvctypes.swift:175-204 | the first access to a limit issues one transfer of its GET request and stores the outcome, even an absent one; later accesses return it and issue none |
| IntegerControls.IntegerControl.Inf | Sources/Swift/UVC/uvctypes.swift:209-218 | the first access issues one 1-byte `GET_INF` at the control's selector, whatever `T` is, and stores the outcome; later accesses issue none |
| IntegerControls.IntegerControl.FetchTwice | Sources/Swift/UVC/uvctypes.swift:171-204 | reading a limit twice gives the same answer and costs at most one transfer |
| Uvc.GetDescriptors | Sources/Swift/UVC/UVC.swift:79-130 | the walk equals `Walk`, the reference function that runs `WalkFrom` from the header's `bLength` up to its `wTotalLength`; no class-specific descriptor gives (nil, nil); `wTotalLength <= bLength` gives (nil, nil) |
| Uvc.Chain | Sources/Swift/UVC/UVC.swift:101-108 | every offset the walk visits can be read |
| Uvc.ChainSteps | Sources/Swift/UVC/UVC.swift:95-108 | the visited offsets start at the header's `bLength` and lie below `wTotalLength`; each is the previous one plus a non-zero `bLength`; the last one's `bLength` reaches `wTotalLength` |
| Uvc.ChainAscending | Sources/Swift/UVC/UVC.swift:101-108 | the visited offsets strictly increase, so no descriptor is visited twice |
| Uvc.ChainStops | Sources/Swift/UVC/UVC.swift:101-108 | the walk stops early only below `wTotalLength`, at a descriptor that cannot be read or whose `bLength` is 0 |
| Uvc.LastWith | Sources/Swift/UVC/UVC.swift:110-125 | finds the last visited descriptor of a subtype, or reports that there is none |
| Uvc.WalkCapturesLast | Sources/Swift/UVC/UVC.swift:101-129 | `WalkFrom` succeeds exactly when its chain of offsets does; it then holds the last Processing Unit and the last Input Terminal visited, since each step's `Capture` replaces the one kept by subtype alone, and skips every other subtype without looking at `bDescriptorType` |
| Uvc.CameraOf | Sources/Swift/UVC/UVC.swift:164-166 | a camera exists exactly when both descriptors were found, with their ids |
| Uvc.ProbeLog | Sources/Swift/UVC/UVC.swift:186-193 | a range is probed once per index |
| Uvc.ProbeLogElements | Sources/Swift/UVC/UVC.swift:186-193 | the `k`-th probe of a range is `InfProbe` of index `lo + k`, the 1-byte `GET_INF` record on that selector, so the indices are probed in ascending order |
| Uvc.Discovered | Sources/Swift/UVC/UVC.swift:180-200 | the discovered indices lie in the range, strictly ascending and so free of duplicates |
| Uvc.DiscoveredIff | Sources/Swift/UVC/UVC.swift:186-196 | an index is discovered exactly when it lies in the range and its own probe was answered, whatever the byte |
| Uvc.DiscoveryStep | Sources/Swift/UVC/UVC.swift:186-196 | one more index adds its probe to the log and keeps the index exactly when that probe is answered |
| Uvc.EnumerateControls | Sources/Swift/UVC/UVC.swift:180-200 | issues exactly the range's probes and returns `Discovered` |
| Uvc.ProbeOne | Sources/Swift/UVC/UVC.swift:186-196 | one loop iteration extends both the log and the kept indices by one index of the range |
| Uvc.ProcessingUnitControl | Sources/Swift/UVC/UVC.swift:212-247 | entries exist exactly for 0x01…0x0B; Brightness and Hue are `Int16`, Powerline Frequency and White Bal Temp Auto `UInt8`, the others `UInt16`; every entry is built by `Control`, the nested `control<T>` helper, with selector (index, unit) and family `.camera` |
| Uvc.CameraTerminalControl | Sources/Swift/UVC/UVC.swift:254-280 | entries exist exactly for 0x02…0x04; AE Mode and AE Priority are `UInt8`, Exposure Time `UInt32`; every entry is built by `Control`, with selector (index, unit) and family `.camera` |
| Uvc.Lookup | Sources/Swift/UVC/UVC.swift:296-309 | a table entry lies in that table's selector range and addresses the given unit |
| Uvc.Known | Sources/Swift/UVC/UVC.swift:296-309 | at most one control is built per discovered index |
| Uvc.KnownMembers | Sources/Swift/UVC/UVC.swift:296-309 | every control built is the table entry of a discovered index, and every discovered index with an entry contributes it |
| Uvc.KnownTargets | Sources/Swift/UVC/UVC.swift:216-224 | every control built addresses the probed unit with a selector its table knows |
| Uvc.KnownBelow | Sources/Swift/UVC/UVC.swift:296-309 | indices below a bound give controls whose selectors lie below it |
| Uvc.KnownAscending | Sources/Swift/UVC/UVC.swift:296-309 | ascending indices give controls in ascending selector order |
| Uvc.CollectControls | Sources/Swift/UVC/UVC.swift:296-309 | the table loop builds `Known` |
| Uvc.ProcessingLayout | Sources/Swift/UVC/UVC.swift:293-300 | the catalog's first part, `ProcessingPart`, holds at most 19 controls, all on the Processing Unit with selectors 0x01…0x0B, in ascending selector order |
| Uvc.TerminalLayout | Sources/Swift/UVC/UVC.swift:303-309 | the catalog's second part, `TerminalPart`, holds at most 20 controls, all on the Camera Terminal with selectors 0x02…0x04, in ascending selector order |
| Uvc.CatalogOf | Sources/Swift/UVC/UVC.swift:289-309 | probes the Processing Unit's range, then the Camera Terminal's, and returns `Catalog`, defined as `ProcessingPart` followed by `TerminalPart` |
| Uvc.Instantiate | Sources/Swift/UVC/UVC.swift:297-308 | each catalog entry becomes a new control on the interface that has fetched nothing, each a distinct object with its own caches |
| Uvc.GetCameraControls | Sources/Swift/UVC/UVC.swift:289-312 | both probe ranges in order, then one new unfetched control per catalog entry, in catalog order, no two of them the same object |
| Scenarios.WalkSample | Sources/Swift/UVC/UVC.swift:79-130 | a 26-byte chain holding a Processing Unit at offset 12 and an Input Terminal at 20 yields both |
| Scenarios.CameraSample | Sources/Swift/UVC/UVC.swift:164-166 | the camera built from that walk has unit id 2 and terminal id 1 |
| Scenarios.SampleProcessingDiscovery | Sources/Swift/UVC/UVC.swift:180-200 | a unit answering only selectors 0x02 and 0x0B is discovered as exactly [0x02, 0x0B] |
| Scenarios.SampleTerminalDiscovery | Sources/Swift/UVC/UVC.swift:180-200 | a terminal answering nothing is discovered as [] |
| Scenarios.SampleKnown | Sources/Swift/UVC/UVC.swift:233-242 | 0x02 is Brightness (`Int16`) and 0x0B White Bal Temp Auto (`UInt8`) |
| Scenarios.SampleProcessingPart | Sources/Swift/UVC/UVC.swift:293-300 | that unit's part of the catalog is exactly those two controls |
| Scenarios.SampleTerminalPart | Sources/Swift/UVC/UVC.swift:303-309 | that terminal's part of the catalog is empty |
| Scenarios.CatalogSample | Sources/Swift/UVC/UVC.swift:289-312 | that camera's catalog is exactly those two controls |

## Left out

- IOKit plumbing is not modelled: `probeInterfaces`, the matching dictionary and registry properties of `enumerateDevices`, `queryInterface`, `properties`, `getServicesIterator`, `enumerate`, `machErrorString`, and the COM handle wrappers in `IOIterator.swift` and `usbtypes.swift`. These are foreign calls and handle lifetimes.
- `FindNextAssociatedDescriptor` is not modelled. Its result is the walker's input: absent, or the bytes from the header on.
- The control transfer itself is the `device` function of `ControlRequest.Interface`. The never-freed buffer that `inRequest` allocates is not modelled.
- Uvc.GetDescriptors: where the source never terminates (a visited `bLength` of 0), the model returns `Err(ZeroLength(offset))`. Where the source reads outside the descriptor bytes, the model returns `Err(Truncated(offset))`. This covers a prefix past the end, and a 10-byte Processing Unit or 18-byte Input Terminal record past the end. The record is read in full whatever its `bLength`, and it may extend past `wTotalLength`. The model only requires it to lie within the bytes given.
- ControlRequest.Received: in a partial transfer (`0 < wLenDone < wLength`), the source returns bytes it never initialised. The model reads them as 0. Only the first `wLength` bytes of the device's answer are used.
- The `tag:` argument of the table entries is not modelled, because `IntegerControl.init` takes no such parameter.
- `debugDescription` is string formatting and is not modelled.
- The commented-out size and type tables at the end of `uvcconsts.swift` are dead code and are not modelled.
- Multibyte controls (Digital Window, Region of Interest) have no table entry, so they are dropped like any unknown index.
- The unused descriptor fields (`bmControls`, `wMaxMultiplier`, `bControlSize`, the focal lengths) are not decoded. `descriptors.h` declares `wMaxMultiplier` as one byte where UVC 1.5 section 3.7.2.5 gives two; the engine never reads the fields after it.
- `InterruptRequest` is never used and is not modelled.
- `descriptors.c` and `Package.swift` hold no logic.
- Thread safety is not modelled. The engine is sequential, and the lazy fields are not safe under concurrent first access.
- Uvc.GetCameraControls: the source builds the Processing Unit's control objects before probing the Camera Terminal. The model probes both, then builds the objects. Building an object issues no transfer, so the transfer log and the resulting list are the same.
- Selector 0x0B is modelled as the code has it: 0x0A is "White Balance Temp" (`UInt16`) and 0x0B is "White Bal Temp Auto" (`UInt8`, a boolean), which matches Appendix A.9.5 of UVC 1.5.
- The walk does not terminate on a zero `bLength`: the offset never advances. The model reports that case as `ZeroLength` rather than a partial result.
- IOKit's constants are written out with their standard values, since their headers are not part of this model: `kUSBIn` 1, `kUSBOut` 0, `kUSBClass` 1, `kUSBInterface` 1, direction mask 1 at shift 7, type mask 3 at shift 5, recipient mask 0x1F, and `kIOUSBFindInterfaceDontCare` 0xFFFF.
