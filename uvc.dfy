/**
 * The UVC control-protocol engine: walking the class-specific VideoControl
 * descriptors for the Processing Unit and Input Terminal, the both-present
 * rule for accepting a camera, probing which controls a unit answers, and
 * mapping the answered selectors to typed controls.
 */
module Uvc {
  import opened Wrappers
  import opened Integers
  import opened Descriptors
  import opened UvcConsts
  import opened UvcTypes
  import opened ControlRequest
  import opened IntegerControls

  // ---------------------------------------------------------------------
  // Descriptor walker
  // ---------------------------------------------------------------------

  /** The descriptors a walk captured. */
  datatype Found = Found(pud: Option<ProcessingUnit>, itd: Option<InputTerminal>)

  /**
   * Inputs the source does not survive. At `ZeroLength(o)` the descriptor
   * at `o` has `bLength` 0 and the source revisits it forever; at
   * `Truncated(o)` it reads past the end of the descriptor bytes.
   */
  datatype WalkError = ZeroLength(offset: nat) | Truncated(offset: nat)

  function LengthAt(b: seq<byte>, o: nat): byte
    requires o + PrefixSize <= |b|
  {
    DecodePrefix(b, o).bLength
  }

  function SubtypeAt(b: seq<byte>, o: nat): byte
    requires o + PrefixSize <= |b|
  {
    DecodePrefix(b, o).bDescriptorSubType
  }

  /** Everything the walk reads at `o` lies within `b`: the prefix, and the whole record for a captured subtype. */
  predicate Readable(b: seq<byte>, o: nat) {
    && o + PrefixSize <= |b|
    && (SubtypeAt(b, o) == VC_PROCESSING_UNIT ==> o + ProcessingUnitSize <= |b|)
    && (SubtypeAt(b, o) == VC_INPUT_TERMINAL ==> o + InputTerminalSize <= |b|)
  }

  /** One step's capture: a Processing Unit or Input Terminal at `o` replaces any earlier one. */
  function Capture(b: seq<byte>, o: nat, found: Found): Found
    requires Readable(b, o)
  {
    Found(
      if SubtypeAt(b, o) == VC_PROCESSING_UNIT then Some(DecodeProcessingUnit(b, o)) else found.pud,
      if SubtypeAt(b, o) == VC_INPUT_TERMINAL then Some(DecodeInputTerminal(b, o)) else found.itd)
  }

  /** The walk loop from offset `o` up to `total`, having captured `found` so far. */
  function WalkFrom(b: seq<byte>, o: nat, total: nat, found: Found): Result<Found, WalkError>
    decreases total - o
  {
    if o >= total then Ok(found)
    else if !Readable(b, o) then Err(Truncated(o))
    else if LengthAt(b, o) == 0 then Err(ZeroLength(o))
    else WalkFrom(b, o + LengthAt(b, o), total, Capture(b, o, found))
  }

  /**
   * The whole walk over the bytes starting at the class-specific header
   * (`None` when the interface has no such descriptor): it starts after
   * the header, at its `bLength`, and stops at its `wTotalLength`.
   */
  function Walk(descriptor: Option<seq<byte>>): Result<Found, WalkError> {
    match descriptor
    case None => Ok(Found(None, None))
    case Some(b) =>
      if |b| < HeaderSize then Err(Truncated(0))
      else WalkFrom(b, DecodeHeader(b).bLength, DecodeHeader(b).wTotalLength, Found(None, None))
  }

  /** `getDescriptors`: the walk as the source runs it, one descriptor per iteration. */
  method GetDescriptors(descriptor: Option<seq<byte>>) returns (r: Result<Found, WalkError>)
    ensures r == Walk(descriptor)
    ensures descriptor.None? ==> r == Ok(Found(None, None))
    ensures descriptor.Some? && |descriptor.value| >= HeaderSize
            && DecodeHeader(descriptor.value).wTotalLength <= DecodeHeader(descriptor.value).bLength
            ==> r == Ok(Found(None, None))
  {
    if descriptor.None? {
      return Ok(Found(None, None));
    }
    var bytes := descriptor.value;
    if |bytes| < HeaderSize {
      return Err(Truncated(0));
    }
    var header := DecodeHeader(bytes);
    var length := header.wTotalLength;
    var offset: nat := header.bLength;
    var vcpud: Option<ProcessingUnit> := None;
    var vcitd: Option<InputTerminal> := None;
    while offset < length
      invariant WalkFrom(bytes, offset, length, Found(vcpud, vcitd)) == Walk(descriptor)
      decreases length - offset
    {
      if !Readable(bytes, offset) {
        return Err(Truncated(offset));
      }
      var at := offset;
      var prefix := DecodePrefix(bytes, at);
      if prefix.bLength == 0 {
        return Err(ZeroLength(at));
      }
      offset := offset + prefix.bLength;
      if prefix.bDescriptorSubType == VC_PROCESSING_UNIT {
        vcpud := Some(DecodeProcessingUnit(bytes, at));
      }
      if prefix.bDescriptorSubType == VC_INPUT_TERMINAL {
        vcitd := Some(DecodeInputTerminal(bytes, at));
      }
    }
    return Ok(Found(vcpud, vcitd));
  }

  /**
   * The offsets the walk visits from `o`, independently of what it
   * captures, or the offset at which the walk cannot go on.
   */
  function Chain(b: seq<byte>, o: nat, total: nat): (r: Result<seq<nat>, WalkError>)
    decreases total - o
    ensures r.Ok? ==> forall k :: 0 <= k < |r.value| ==> Readable(b, r.value[k])
  {
    if o >= total then Ok([])
    else if !Readable(b, o) then Err(Truncated(o))
    else if LengthAt(b, o) == 0 then Err(ZeroLength(o))
    else
      match Chain(b, o + LengthAt(b, o), total)
      case Ok(rest) => Ok([o] + rest)
      case Err(e) => Err(e)
  }

  /**
   * The walk only looks below `total`: the offsets it visits start at `o`,
   * each is the previous one plus that descriptor's `bLength` (never 0),
   * and the last one's `bLength` reaches `total`.
   */
  lemma {:induction false} ChainSteps(b: seq<byte>, o: nat, total: nat)
    decreases total - o
    requires Chain(b, o, total).Ok?
    ensures var offs := Chain(b, o, total).value;
      && (forall k :: 0 <= k < |offs| ==> o <= offs[k] < total && LengthAt(b, offs[k]) > 0)
      && (forall k :: 0 <= k < |offs| - 1 ==> offs[k + 1] == offs[k] + LengthAt(b, offs[k]))
      && (offs == [] ==> o >= total)
      && (offs != [] ==> offs[0] == o && offs[|offs| - 1] + LengthAt(b, offs[|offs| - 1]) >= total)
  {
    if o < total {
      var next := o + LengthAt(b, o);
      ChainSteps(b, next, total);
      var rest := Chain(b, next, total).value;
      var offs := [o] + rest;
      assert Chain(b, o, total).value == offs;
      assert forall k :: 0 < k < |offs| ==> offs[k] == rest[k - 1];
    }
  }

  /** Hence the visited offsets strictly increase: no descriptor is visited twice. */
  lemma {:induction false} ChainAscending(b: seq<byte>, o: nat, total: nat)
    decreases total - o
    requires Chain(b, o, total).Ok?
    ensures var offs := Chain(b, o, total).value;
      forall j, k :: 0 <= j < k < |offs| ==> offs[j] < offs[k]
  {
    if o < total {
      var next := o + LengthAt(b, o);
      ChainSteps(b, next, total);
      ChainAscending(b, next, total);
      var rest := Chain(b, next, total).value;
      var offs := [o] + rest;
      assert Chain(b, o, total).value == offs;
      assert forall k :: 0 < k < |offs| ==> offs[k] == rest[k - 1] && o < offs[k];
    }
  }

  /**
   * The walk stops early only at an offset below `total` whose descriptor
   * cannot be read within the bytes, or whose `bLength` is 0 -- where the
   * source would revisit it forever.
   */
  lemma {:induction false} ChainStops(b: seq<byte>, o: nat, total: nat)
    decreases total - o
    requires Chain(b, o, total).Err?
    ensures var e := Chain(b, o, total).error;
      && o <= e.offset < total
      && (e.Truncated? ==> !Readable(b, e.offset))
      && (e.ZeroLength? ==> Readable(b, e.offset) && LengthAt(b, e.offset) == 0)
  {
    if Readable(b, o) && LengthAt(b, o) > 0 {
      ChainStops(b, o + LengthAt(b, o), total);
    }
  }

  /** The position in `offs` of the last descriptor with subtype `subtype`. */
  function LastWith(b: seq<byte>, offs: seq<nat>, subtype: int): (r: Option<nat>)
    requires forall k :: 0 <= k < |offs| ==> offs[k] + PrefixSize <= |b|
    ensures r.None? <==> forall k :: 0 <= k < |offs| ==> SubtypeAt(b, offs[k]) != subtype
    ensures r.Some? ==> r.value < |offs| && SubtypeAt(b, offs[r.value]) == subtype
    ensures r.Some? ==> forall j :: r.value < j < |offs| ==> SubtypeAt(b, offs[j]) != subtype
  {
    if offs == [] then None
    else
      var later := LastWith(b, offs[1..], subtype);
      if later.Some? then Some(later.value + 1)
      else if SubtypeAt(b, offs[0]) == subtype then Some(0)
      else None
  }

  /** The Processing Unit a walk over `offs` ends with, starting from `fallback`. */
  function LastUnit(b: seq<byte>, offs: seq<nat>, fallback: Option<ProcessingUnit>): Option<ProcessingUnit>
    requires forall k :: 0 <= k < |offs| ==> Readable(b, offs[k])
  {
    assert forall k :: 0 <= k < |offs| ==> offs[k] + PrefixSize <= |b| by {
      forall k | 0 <= k < |offs| ensures offs[k] + PrefixSize <= |b| {
        assert Readable(b, offs[k]);
      }
    }
    match LastWith(b, offs, VC_PROCESSING_UNIT)
    case Some(k) =>
      assert Readable(b, offs[k]);
      Some(DecodeProcessingUnit(b, offs[k]))
    case None => fallback
  }

  /** The Input Terminal a walk over `offs` ends with, starting from `fallback`. */
  function LastTerminal(b: seq<byte>, offs: seq<nat>, fallback: Option<InputTerminal>): Option<InputTerminal>
    requires forall k :: 0 <= k < |offs| ==> Readable(b, offs[k])
  {
    assert forall k :: 0 <= k < |offs| ==> offs[k] + PrefixSize <= |b| by {
      forall k | 0 <= k < |offs| ensures offs[k] + PrefixSize <= |b| {
        assert Readable(b, offs[k]);
      }
    }
    match LastWith(b, offs, VC_INPUT_TERMINAL)
    case Some(k) =>
      assert Readable(b, offs[k]);
      Some(DecodeInputTerminal(b, offs[k]))
    case None => fallback
  }

  /**
   * The walk succeeds exactly when its chain of offsets does, fails at the
   * same offset for the same reason otherwise, and then holds the last
   * Processing Unit and the last Input Terminal visited; every other
   * subtype is skipped and the descriptor type byte is never consulted.
   */
  lemma {:induction false} WalkCapturesLast(b: seq<byte>, o: nat, total: nat, found: Found)
    decreases total - o
    ensures var w, c := WalkFrom(b, o, total, found), Chain(b, o, total);
      && (w.Ok? <==> c.Ok?)
      && (w.Err? ==> w.error == c.error)
      && (c.Ok? ==> w.value.pud == LastUnit(b, c.value, found.pud) && w.value.itd == LastTerminal(b, c.value, found.itd))
  {
    if o < total && Readable(b, o) && LengthAt(b, o) > 0 {
      var next := o + LengthAt(b, o);
      var found' := Capture(b, o, found);
      WalkCapturesLast(b, next, total, found');
      var c := Chain(b, next, total);
      if c.Ok? {
        var offs := [o] + c.value;
        assert offs[1..] == c.value;
        assert Chain(b, o, total) == Ok(offs);
      }
    }
  }

  /** `enumerateDevices` accepts a camera only when both descriptors were found. */
  function CameraOf(found: Found): (c: Option<Camera>)
    ensures c.Some? <==> found.pud.Some? && found.itd.Some?
    ensures c.Some? ==> c.value.punitID == found.pud.value.bUnitID && c.value.itermID == found.itd.value.bTerminalID
  {
    if found.pud.Some? && found.itd.Some? then Some(MakeCamera(found.pud.value, found.itd.value)) else None
  }

  // ---------------------------------------------------------------------
  // Control discovery
  // ---------------------------------------------------------------------

  /** The one-byte GET_INF probe of selector index `i` on unit `target`. */
  function InfProbe(i: uint16, target: uint16): DevRequest {
    InRecord(GET_INF, Selector(i, target), UInt8)
  }

  /** The probes for indices `lo` through `hi`, in ascending order. */
  function ProbeLog(target: uint16, lo: nat, hi: int): (r: seq<DevRequest>)
    requires hi < 0x1_0000
    decreases hi - lo
    ensures |r| == if hi < lo then 0 else hi - lo + 1
  {
    if hi < lo then [] else ProbeLog(target, lo, hi - 1) + [InfProbe(hi, target)]
  }

  /** The `k`-th probe of a range is the probe of index `lo + k`. */
  lemma {:induction false} ProbeLogElements(target: uint16, lo: nat, hi: int)
    requires hi < 0x1_0000
    decreases hi - lo
    ensures forall k :: 0 <= k < |ProbeLog(target, lo, hi)| ==>
      ProbeLog(target, lo, hi)[k] == InfProbe(lo + k, target)
  {
    if lo <= hi {
      ProbeLogElements(target, lo, hi - 1);
      var prev := ProbeLog(target, lo, hi - 1);
      assert ProbeLog(target, lo, hi) == prev + [InfProbe(hi, target)];
    }
  }

  /** `s` is strictly ascending, hence free of duplicates. */
  predicate Ascending(s: seq<int>) {
    forall j, k :: 0 <= j < k < |s| ==> s[j] < s[k]
  }

  /** Whether the device, with history `h`, answers the probe of index `i` with at least one byte. */
  predicate Answers(device: (seq<DevRequest>, DevRequest) -> Completion, h: seq<DevRequest>, i: uint16, target: uint16) {
    InValue(UInt8, device(h, InfProbe(i, target))).Some?
  }

  /**
   * The indices from `lo` through `hi` that answer their probe, each probed
   * after all lower ones: a strictly ascending, hence duplicate-free,
   * selection from the range.
   */
  function Discovered(device: (seq<DevRequest>, DevRequest) -> Completion, h: seq<DevRequest>,
                      target: uint16, lo: nat, hi: int): (found: seq<int>)
    requires hi < 0x1_0000
    decreases hi - lo
    ensures |found| <= if hi < lo then 0 else hi - lo + 1
    ensures forall k :: 0 <= k < |found| ==> lo <= found[k] <= hi
    ensures Ascending(found)
  {
    if hi < lo then []
    else
      Discovered(device, h, target, lo, hi - 1)
      + (if Answers(device, h + ProbeLog(target, lo, hi - 1), hi, target) then [hi] else [])
  }

  /** Index `i` is discovered exactly when it lies in the range and its own probe was answered. */
  lemma {:induction false} DiscoveredIff(device: (seq<DevRequest>, DevRequest) -> Completion, h: seq<DevRequest>,
                                         target: uint16, lo: nat, hi: int, i: int)
    requires hi < 0x1_0000
    decreases hi - lo
    ensures i in Discovered(device, h, target, lo, hi) <==>
      lo <= i <= hi && Answers(device, h + ProbeLog(target, lo, i - 1), i, target)
  {
    if lo <= hi {
      DiscoveredIff(device, h, target, lo, hi - 1, i);
      DiscoveryStep(device, h, target, lo, hi);
      if i == hi {
        assert i !in Discovered(device, h, target, lo, hi - 1);
      }
    }
  }

  /**
   * `enumerateControls`: probe every index of `lo...hi` in ascending order
   * with a one-byte GET_INF read and keep those that answer.
   */
  method EnumerateControls(usb: Interface, target: uint16, lo: nat, hi: nat) returns (valid: seq<int>)
    requires lo <= hi < 0x1_0000
    modifies usb
    ensures usb.log == old(usb.log) + ProbeLog(target, lo, hi)
    ensures valid == Discovered(usb.device, old(usb.log), target, lo, hi)
  {
    ghost var h0 := usb.log;
    valid := [];
    for i := lo to hi + 1
      invariant Progress(usb.device, h0, usb.log, valid, target, lo, i)
    {
      valid := ProbeOne(usb, target, lo, i, h0, valid);
    }
  }

  /** After probing `lo` through `i - 1`: the log and the indices kept so far. */
  ghost predicate Progress(device: (seq<DevRequest>, DevRequest) -> Completion, h0: seq<DevRequest>,
                           log: seq<DevRequest>, valid: seq<int>, target: uint16, lo: nat, i: int)
  {
    && i <= 0x1_0000
    && log == h0 + ProbeLog(target, lo, i - 1)
    && valid == Discovered(device, h0, target, lo, i - 1)
  }

  /** One iteration of `enumerateControls`: probe index `i` and keep it when it answers. */
  method ProbeOne(usb: Interface, target: uint16, lo: nat, i: nat, ghost h0: seq<DevRequest>, valid: seq<int>)
    returns (valid': seq<int>)
    requires lo <= i < 0x1_0000
    requires Progress(usb.device, h0, usb.log, valid, target, lo, i)
    modifies usb
    ensures Progress(usb.device, h0, usb.log, valid', target, lo, i + 1)
  {
    ghost var before := usb.log;
    var inf := InRequest(usb, GET_INF, Selector(i, target), UInt8);
    DiscoveryStep(usb.device, h0, target, lo, i);
    assert inf.Some? == Answers(usb.device, before, i, target);
    valid' := if inf.Some? then valid + [i] else valid;
  }

  /** One more probe: the log grows by the probe of `i`, and `i` is kept exactly when that probe is answered. */
  lemma DiscoveryStep(device: (seq<DevRequest>, DevRequest) -> Completion, h: seq<DevRequest>,
                      target: uint16, lo: nat, i: nat)
    requires lo <= i < 0x1_0000
    ensures h + ProbeLog(target, lo, i) == (h + ProbeLog(target, lo, i - 1)) + [InfProbe(i, target)]
    ensures Discovered(device, h, target, lo, i)
         == Discovered(device, h, target, lo, i - 1)
            + (if Answers(device, h + ProbeLog(target, lo, i - 1), i, target) then [i] else [])
  {
    assert ProbeLog(target, lo, i) == ProbeLog(target, lo, i - 1) + [InfProbe(i, target)];
  }

  // ---------------------------------------------------------------------
  // Control catalog
  // ---------------------------------------------------------------------

  /** The catalog entry for selector `index` on unit `unitID`; every entry is labelled with the camera family. */
  function Control(name: string, index: uint16, unitID: uint16, t: BinaryInteger, uvctype: ControlType): ControlInfo {
    ControlInfo(name, Selector(index, unitID), t, uvctype, ControlFamily.Camera)
  }

  /**
   * `ProcessingUnit.constructIntegerControl`: the selectors 0x01...0x0B
   * have an entry; Brightness and Hue are Int16, Powerline Frequency and
   * White Bal Temp Auto are UInt8, the others UInt16.
   */
  function ProcessingUnitControl(index: int, unitID: uint16): (r: Option<ControlInfo>)
    ensures r.Some? <==> 0x01 <= index <= 0x0B
    ensures r.Some? ==> r.value.selector == Selector(index, unitID) && r.value.family == ControlFamily.Camera
    ensures r.Some? ==> (r.value.t == Int16 <==> index == 0x02 || index == 0x06)
    ensures r.Some? ==> (r.value.t == UInt8 <==> index == 0x05 || index == 0x0B)
    ensures r.Some? ==> (r.value.t == UInt16 <==> index !in {0x02, 0x05, 0x06, 0x0B})
  {
    match PUControlIndexFromRaw(index)
    case None => None
    case Some(selindex) =>
      match selindex
      case BacklightComp => Some(Control("Backlight Compensation", index, unitID, UInt16, Int))
      case Brightness => Some(Control("Brightness", index, unitID, Int16, Int))
      case Contrast => Some(Control("Contrast", index, unitID, UInt16, Int))
      case Gain => Some(Control("Gain", index, unitID, UInt16, Int))
      case PowerLineFreq => Some(Control("Powerline Frequency", index, unitID, UInt8, ControlType.Option))
      case Hue => Some(Control("Hue", index, unitID, Int16, Int))
      case Saturation => Some(Control("Saturation", index, unitID, UInt16, Int))
      case Sharpness => Some(Control("Sharpness", index, unitID, UInt16, Int))
      case Gamma => Some(Control("Gamma", index, unitID, UInt16, Int))
      case WhiteBalTemp => Some(Control("White Balance Temp", index, unitID, UInt16, Int))
      case WhiteBalTempAuto => Some(Control("White Bal Temp Auto", index, unitID, UInt8, Bool))
      case _ => None
  }

  /**
   * `CameraTerminal.constructIntegeControl`: only AE Mode and AE Priority
   * (UInt8) and Exposure Time (UInt32) have an entry.
   */
  function CameraTerminalControl(index: int, unitID: uint16): (r: Option<ControlInfo>)
    ensures r.Some? <==> 0x02 <= index <= 0x04
    ensures r.Some? ==> r.value.selector == Selector(index, unitID) && r.value.family == ControlFamily.Camera
    ensures r.Some? ==> (r.value.t == UInt8 <==> index != 0x04) && (r.value.t == UInt32 <==> index == 0x04)
  {
    match CTControlIndexFromRaw(index)
    case None => None
    case Some(selindex) =>
      match selindex
      case AeMode => Some(Control("AE Mode", index, unitID, UInt8, Bitmap))
      case AePriority => Some(Control("AE Priorty", index, unitID, UInt8, Bool))
      case ExpTimeAbs => Some(Control("Exposure Time", index, unitID, UInt32, Int))
      case _ => None
  }

  /** Which of the two tables a unit's selectors are looked up in. */
  datatype Table = ProcessingTable | CameraTable

  function Lookup(table: Table, index: int, unitID: uint16): (r: Option<ControlInfo>)
    ensures r.Some? && table.ProcessingTable? ==> 0x01 <= index <= 0x0B
    ensures r.Some? && table.CameraTable? ==> 0x02 <= index <= 0x04
    ensures r.Some? ==> 0 <= index < 0x1_0000 && r.value.selector == Selector(index, unitID)
  {
    match table
    case ProcessingTable => ProcessingUnitControl(index, unitID)
    case CameraTable => CameraTerminalControl(index, unitID)
  }

  /**
   * The controls built from the discovered indices `found`, in their order:
   * every entry is the table's entry for an index of `found`, and every
   * index of `found` that has an entry contributes it; unknown ones are dropped.
   */
  function Known(table: Table, found: seq<int>, unitID: uint16): (r: seq<ControlInfo>)
    ensures |r| <= |found|
  {
    if found == [] then []
    else
      var init := found[..|found| - 1];
      var i := found[|found| - 1];
      Known(table, init, unitID) + (match Lookup(table, i, unitID) case Some(c) => [c] case None => [])
  }

  /**
   * `Known` keeps exactly the table's entries for the discovered indices:
   * every control comes from an index of `found`, and every index of
   * `found` with an entry contributes it.
   */
  lemma {:induction false} KnownMembers(table: Table, found: seq<int>, unitID: uint16)
    ensures var r := Known(table, found, unitID);
      && (forall c | c in r :: c.selector.index in found && Lookup(table, c.selector.index, unitID) == Some(c))
      && (forall i | i in found && Lookup(table, i, unitID).Some? :: Lookup(table, i, unitID).value in r)
  {
    if found != [] {
      var init := found[..|found| - 1];
      var last := found[|found| - 1];
      KnownMembers(table, init, unitID);
      assert forall j | j in found :: j in init || j == last;
      assert found == init + [last];
    }
  }

  /** Every control built from a unit's discovered indices addresses that unit with a selector its table knows. */
  lemma KnownTargets(table: Table, found: seq<int>, unitID: uint16)
    ensures var r := Known(table, found, unitID);
      && (forall k :: 0 <= k < |r| ==> r[k].selector.target == unitID)
      && (forall k :: 0 <= k < |r| ==> table.ProcessingTable? ==> 0x01 <= r[k].selector.index <= 0x0B)
      && (forall k :: 0 <= k < |r| ==> table.CameraTable? ==> 0x02 <= r[k].selector.index <= 0x04)
  {
    var r := Known(table, found, unitID);
    KnownMembers(table, found, unitID);
    forall k | 0 <= k < |r|
      ensures r[k].selector.target == unitID
      ensures table.ProcessingTable? ==> 0x01 <= r[k].selector.index <= 0x0B
      ensures table.CameraTable? ==> 0x02 <= r[k].selector.index <= 0x04
    {
      assert r[k] in r;
      assert Lookup(table, r[k].selector.index, unitID) == Some(r[k]);
    }
  }

  /** The controls' selector indices strictly increase along `r`. */
  predicate SelectorsAscending(r: seq<ControlInfo>) {
    forall j, k :: 0 <= j < k < |r| ==> r[j].selector.index < r[k].selector.index
  }

  /** Indices all below `bound` give controls whose selectors are all below `bound`. */
  lemma {:induction false} KnownBelow(table: Table, found: seq<int>, unitID: uint16, bound: int)
    requires forall i :: 0 <= i < |found| ==> found[i] < bound
    ensures forall k :: 0 <= k < |Known(table, found, unitID)| ==> Known(table, found, unitID)[k].selector.index < bound
  {
    if found != [] {
      var init := found[..|found| - 1];
      KnownBelow(table, init, unitID, bound);
    }
  }

  /** Ascending discovered indices give controls in ascending selector order. */
  lemma {:induction false} KnownAscending(table: Table, found: seq<int>, unitID: uint16)
    requires Ascending(found)
    ensures SelectorsAscending(Known(table, found, unitID))
  {
    if found != [] {
      var init := found[..|found| - 1];
      var last := found[|found| - 1];
      KnownAscending(table, init, unitID);
      KnownBelow(table, init, unitID, last);
      var r0 := Known(table, init, unitID);
      var r := Known(table, found, unitID);
      match Lookup(table, last, unitID)
      case None =>
        assert r == r0;
      case Some(c) =>
        assert r == r0 + [c];
    }
  }

  /** One of the `for` loops of `getCameraControls`: look up each discovered index in turn. */
  method CollectControls(table: Table, found: seq<int>, unitID: uint16) returns (controls: seq<ControlInfo>)
    ensures controls == Known(table, found, unitID)
  {
    controls := [];
    for k := 0 to |found|
      invariant controls == Known(table, found[..k], unitID)
    {
      assert found[..k + 1][..k] == found[..k];
      var obj := Lookup(table, found[k], unitID);
      if obj.Some? {
        controls := controls + [obj.value];
      }
    }
    assert found[..|found|] == found;
  }

  /** The Processing Unit part of a catalog: its known selectors among 0x01...0x13 that answer. */
  function ProcessingPart(device: (seq<DevRequest>, DevRequest) -> Completion, h: seq<DevRequest>, camera: Camera)
    : seq<ControlInfo>
  {
    Known(ProcessingTable, Discovered(device, h, camera.punitID, 0x01, 0x13), camera.punitID)
  }

  /**
   * The Camera Terminal part of a catalog: its known selectors among
   * 0x01...0x14 that answer, probed after all the Processing Unit's probes.
   */
  function TerminalPart(device: (seq<DevRequest>, DevRequest) -> Completion, h: seq<DevRequest>, camera: Camera)
    : seq<ControlInfo>
  {
    Known(CameraTable, Discovered(device, h + ProbeLog(camera.punitID, 0x01, 0x13), camera.itermID, 0x01, 0x14),
          camera.itermID)
  }

  /** The catalog of a camera: the Processing Unit's controls, then the Camera Terminal's. */
  function Catalog(device: (seq<DevRequest>, DevRequest) -> Completion, h: seq<DevRequest>, camera: Camera)
    : seq<ControlInfo>
  {
    ProcessingPart(device, h, camera) + TerminalPart(device, h, camera)
  }

  /**
   * The Processing Unit part holds at most 19 controls, all on `punitID`
   * with selectors 0x01...0x0B, in ascending selector order.
   */
  lemma ProcessingLayout(device: (seq<DevRequest>, DevRequest) -> Completion, h: seq<DevRequest>, camera: Camera)
    ensures var pu := ProcessingPart(device, h, camera);
      && |pu| <= 0x13
      && (forall k :: 0 <= k < |pu| ==> pu[k].selector.target == camera.punitID && 0x01 <= pu[k].selector.index <= 0x0B)
      && SelectorsAscending(pu)
  {
    var found := Discovered(device, h, camera.punitID, 0x01, 0x13);
    KnownAscending(ProcessingTable, found, camera.punitID);
    KnownTargets(ProcessingTable, found, camera.punitID);
    assert ProcessingPart(device, h, camera) == Known(ProcessingTable, found, camera.punitID);
  }

  /**
   * The Camera Terminal part holds at most 20 controls, all on `itermID`
   * with selectors 0x02...0x04, in ascending selector order.
   */
  lemma TerminalLayout(device: (seq<DevRequest>, DevRequest) -> Completion, h: seq<DevRequest>, camera: Camera)
    ensures var ct := TerminalPart(device, h, camera);
      && |ct| <= 0x14
      && (forall k :: 0 <= k < |ct| ==> ct[k].selector.target == camera.itermID && 0x02 <= ct[k].selector.index <= 0x04)
      && SelectorsAscending(ct)
  {
    var found := Discovered(device, h + ProbeLog(camera.punitID, 0x01, 0x13), camera.itermID, 0x01, 0x14);
    KnownAscending(CameraTable, found, camera.itermID);
    KnownTargets(CameraTable, found, camera.itermID);
    assert TerminalPart(device, h, camera) == Known(CameraTable, found, camera.itermID);
  }

  /** The discovery half of `getCameraControls`: both probes and both table lookups. */
  method CatalogOf(usb: Interface, camera: Camera) returns (infos: seq<ControlInfo>)
    modifies usb
    ensures usb.log == old(usb.log) + ProbeLog(camera.punitID, 0x01, 0x13) + ProbeLog(camera.itermID, 0x01, 0x14)
    ensures infos == Catalog(usb.device, old(usb.log), camera)
  {
    var pucontrols := EnumerateControls(usb, camera.punitID, 0x01, 0x13);
    var puinfos := CollectControls(ProcessingTable, pucontrols, camera.punitID);
    var itcontrols := EnumerateControls(usb, camera.itermID, 0x01, 0x14);
    var itinfos := CollectControls(CameraTable, itcontrols, camera.itermID);
    infos := puinfos + itinfos;
  }

  /** Bind each catalog entry to a new control on the interface. */
  method Instantiate(usb: Interface, infos: seq<ControlInfo>) returns (controls: seq<IntegerControl>)
    ensures |controls| == |infos|
    ensures forall k :: 0 <= k < |controls| ==>
      fresh(controls[k]) && controls[k].usb == usb && controls[k].Valid() && controls[k].FreshFrom(infos[k])
    ensures forall j, k :: 0 <= j < k < |controls| ==> controls[j] != controls[k]
  {
    controls := [];
    for k := 0 to |infos|
      invariant |controls| == k
      invariant forall j, i :: 0 <= j < i < k ==> controls[j] != controls[i]
      invariant forall j :: 0 <= j < k ==>
        fresh(controls[j]) && controls[j].usb == usb && controls[j].Valid() && controls[j].FreshFrom(infos[j])
    {
      var info := infos[k];
      var obj := new IntegerControl(info.name, usb, info.selector, info.t, info.uvctype, info.family);
      controls := controls + [obj];
    }
  }

  /**
   * `getCameraControls`: discover the Processing Unit's controls, then the
   * Camera Terminal's, and bind each catalog entry to a new control on the
   * camera's interface.
   */
  method GetCameraControls(usb: Interface, camera: Camera) returns (controls: seq<IntegerControl>)
    modifies usb
    ensures usb.log == old(usb.log) + ProbeLog(camera.punitID, 0x01, 0x13) + ProbeLog(camera.itermID, 0x01, 0x14)
    ensures |controls| == |Catalog(usb.device, old(usb.log), camera)|
    ensures forall k :: 0 <= k < |controls| ==>
      && fresh(controls[k]) && controls[k].usb == usb && controls[k].Valid()
      && controls[k].FreshFrom(Catalog(usb.device, old(usb.log), camera)[k])
    ensures forall j, k :: 0 <= j < k < |controls| ==> controls[j] != controls[k]
  {
    var infos := CatalogOf(usb, camera);
    controls := Instantiate(usb, infos);
  }
}
