/**
 * UVC class requests on the video-control interface (section 4.2 of the
 * USB Video Class 1.5 specification): building the `IOUSBDevRequest`
 * record, issuing it through the interface's control pipe, and reading
 * the answer back. The pipe is an oracle: a device function from the
 * requests issued so far and the new request to what the transfer reports.
 */
module ControlRequest {
  import opened Wrappers
  import opened Integers
  import opened Usb
  import opened UvcConsts
  import opened UvcTypes

  /**
   * `IOUSBDevRequest` as issued. `data` is what the host sends: the value's
   * bytes for an OUT request, nothing for an IN request.
   */
  datatype DevRequest = DevRequest(
    bmRequestType: bv8, bRequest: bv8, wValue: uint16, wIndex: uint16, wLength: nat, data: seq<byte>)

  /**
   * What a control transfer reports: the kernel status `kr`, `wLenDone`,
   * and the bytes the device put into the receive buffer.
   */
  datatype Completion = Completion(kr: int, wLenDone: nat, data: seq<byte>)

  /**
   * The video-control interface handle. `log` is every request issued on it
   * so far, in order; `device` says how the device answers given that history.
   */
  class Interface {
    var log: seq<DevRequest>
    const device: (seq<DevRequest>, DevRequest) -> Completion

    constructor (device: (seq<DevRequest>, DevRequest) -> Completion)
      ensures log == [] && this.device == device
    {
      this.device := device;
      log := [];
    }

    /** One blocking control transfer on the default pipe. */
    method ControlRequest(request: DevRequest) returns (c: Completion)
      modifies this`log
      ensures log == old(log) + [request]
      ensures c == device(old(log), request)
    {
      c := device(log, request);
      log := log + [request];
    }
  }

  /**
   * The record `inRequest` issues: a class request to an interface, device
   * to host (0xA1); the selector and the unit id each fill only the high
   * byte of `wValue` and `wIndex` (the interface number byte stays 0); the
   * length is the byte size of the value type.
   */
  function InRecord(request: RequestCode, selector: Selector, t: BinaryInteger): (r: DevRequest)
    ensures r.bmRequestType == 0xA1 == MakeBmRequestType(kUSBIn, kUSBClass, kUSBInterface)
    ensures r.bRequest == request.RawValue()
    ensures r.wValue % 0x100 == 0 && r.wValue / 0x100 == selector.index % 0x100
    ensures r.wIndex % 0x100 == 0 && r.wIndex / 0x100 == selector.target % 0x100
    ensures r.wLength == t.Size() && r.data == []
  {
    DevRequest(
      MakeBmRequestType(kUSBIn, kUSBClass, kUSBInterface), request.RawValue(),
      ShiftLeft8(selector.index), ShiftLeft8(selector.target), t.Size(), [])
  }

  /** The record `outRequest` issues: as `InRecord` but host to device (0x21), carrying the value's bytes. */
  function OutRecord(request: RequestCode, selector: Selector, t: BinaryInteger, value: int): (r: DevRequest)
    requires InRange(t, value)
    ensures r.bmRequestType == 0x21 == MakeBmRequestType(kUSBOut, kUSBClass, kUSBInterface)
    ensures r.bRequest == request.RawValue()
    ensures r.wValue % 0x100 == 0 && r.wValue / 0x100 == selector.index % 0x100
    ensures r.wIndex % 0x100 == 0 && r.wIndex / 0x100 == selector.target % 0x100
    ensures r.wLength == t.Size() == |r.data| && Decode(t, r.data) == value
  {
    DecodeEncode(t, value);
    DevRequest(
      MakeBmRequestType(kUSBOut, kUSBClass, kUSBInterface), request.RawValue(),
      ShiftLeft8(selector.index), ShiftLeft8(selector.target), t.Size(), Encode(t, value))
  }

  /**
   * The `n`-byte receive buffer after a transfer: what the device supplied,
   * cut to `n` bytes; bytes it did not supply read as 0.
   */
  function Received(c: Completion, n: nat): (b: seq<byte>)
    ensures |b| == n
    ensures forall i :: 0 <= i < n && i < |c.data| ==> b[i] == c.data[i]
    ensures forall i :: |c.data| <= i < n ==> b[i] == 0
  {
    if |c.data| >= n then c.data[..n] else c.data + seq<byte>(n - |c.data|, _ => 0)
  }

  /**
   * What `inRequest` returns: a value of type `t` exactly when the device
   * reported some bytes done, and it is the value those bytes encode.
   */
  function InValue(t: BinaryInteger, c: Completion): (r: Option<int>)
    ensures r.Some? <==> c.wLenDone > 0
    ensures r.Some? ==> InRange(t, r.value) && Encode(t, r.value) == Received(c, t.Size())
  {
    if c.wLenDone > 0 then
      EncodeDecode(t, Received(c, t.Size()));
      Some(Decode(t, Received(c, t.Size())))
    else None
  }

  /** The transfer status never changes what a request returns. */
  lemma StatusIgnored(t: BinaryInteger, c: Completion, kr: int, value: int)
    ensures InValue(t, c.(kr := kr)) == InValue(t, c)
    ensures OutValue(c.(kr := kr), value) == OutValue(c, value)
  {
  }

  /** `inRequest<T>`: one IN transfer; its answer decoded as a `T`, or nothing. */
  method InRequest(usb: Interface, request: RequestCode, selector: Selector, t: BinaryInteger)
    returns (v: Option<int>)
    modifies usb
    ensures usb.log == old(usb.log) + [InRecord(request, selector, t)]
    ensures v == InValue(t, usb.device(old(usb.log), InRecord(request, selector, t)))
  {
    var c := usb.ControlRequest(InRecord(request, selector, t));
    v := InValue(t, c);
  }

  /** What `outRequest` returns: the value it sent, exactly when the device reported some bytes done. */
  function OutValue(c: Completion, value: int): (r: Option<int>)
    ensures r.Some? <==> c.wLenDone > 0
    ensures r.Some? ==> r.value == value
  {
    if c.wLenDone > 0 then Some(value) else None
  }

  /** `outRequest<T>`: one OUT transfer carrying `value`'s bytes. */
  method OutRequest(usb: Interface, request: RequestCode, selector: Selector, t: BinaryInteger, value: int)
    returns (v: Option<int>)
    requires InRange(t, value)
    modifies usb
    ensures usb.log == old(usb.log) + [OutRecord(request, selector, t, value)]
    ensures v == OutValue(usb.device(old(usb.log), OutRecord(request, selector, t, value)), value)
  {
    var c := usb.ControlRequest(OutRecord(request, selector, t, value));
    v := OutValue(c, value);
  }
}
