/**
 * The two pure helpers of the USB layer: packing the bmRequestType byte of
 * a control request (section 9.3.1 of the USB 2.0 specification) and the
 * interface-matching request with "don't care" defaults.
 */
module Usb {
  import opened Wrappers

  /** Swift's `Int` as the bit pattern IOKit's `&` and `<<` act on. */
  type SwiftInt = bv64

  // IOKit's request-type fields and the masks and shifts that place them.
  const kUSBOut: SwiftInt := 0
  const kUSBIn: SwiftInt := 1
  const kUSBStandard: SwiftInt := 0
  const kUSBClass: SwiftInt := 1
  const kUSBVendor: SwiftInt := 2
  const kUSBDevice: SwiftInt := 0
  const kUSBInterface: SwiftInt := 1
  const kUSBEndpoint: SwiftInt := 2
  const kUSBOther: SwiftInt := 3
  const kUSBRqDirnMask: SwiftInt := 1
  const kUSBRqDirnShift: bv64 := 7
  const kUSBRqTypeMask: SwiftInt := 3
  const kUSBRqTypeShift: bv64 := 5
  const kUSBRqRecipientMask: SwiftInt := 0x1F

  /**
   * bmRequestType: direction in bit 7, type in bits 6..5, recipient in bits
   * 4..0. Each `UInt8(...)` conversion is checked here to fit in a byte, so
   * the source's conversions never trap; only the masked low bits of each
   * argument reach the result, and each field can be read back.
   */
  function MakeBmRequestType(direction: SwiftInt, kind: SwiftInt, recipient: SwiftInt): (r: bv8)
    ensures r >> 7 == (direction & 1) as bv8
    ensures (r >> 5) & 3 == (kind & 3) as bv8
    ensures r & 0x1F == (recipient & 0x1F) as bv8
  {
    ((direction & kUSBRqDirnMask) << kUSBRqDirnShift) as bv8
      | ((kind & kUSBRqTypeMask) << kUSBRqTypeShift) as bv8
      | (recipient & kUSBRqRecipientMask) as bv8
  }

  /** The byte depends on nothing but the masked fields: direction 3 acts as 1, and so on. */
  lemma MakeBmRequestTypeMasks(direction: SwiftInt, kind: SwiftInt, recipient: SwiftInt)
    ensures MakeBmRequestType(direction, kind, recipient)
         == MakeBmRequestType(direction & 1, kind & 3, recipient & 0x1F)
  {
  }

  /** The two request types a UVC control uses: class requests to an interface. */
  lemma ClassInterfaceRequestTypes()
    ensures MakeBmRequestType(kUSBIn, kUSBClass, kUSBInterface) == 0xA1
    ensures MakeBmRequestType(kUSBOut, kUSBClass, kUSBInterface) == 0x21
  {
  }

  const kIOUSBFindInterfaceDontCare: bv16 := 0xFFFF

  datatype FindInterfaceRequest = FindInterfaceRequest(
    bInterfaceClass: bv16, bInterfaceSubClass: bv16, bInterfaceProtocol: bv16, bAlternateSetting: bv16)

  /** Each argument given is copied into its own field; an omitted one means "don't care". */
  function MakeFindInterfaceRequest(iclass: Option<bv16>, isub: Option<bv16>, iproto: Option<bv16>, ialt: Option<bv16>)
    : (r: FindInterfaceRequest)
    ensures r.bInterfaceClass == iclass.GetOr(kIOUSBFindInterfaceDontCare)
    ensures r.bInterfaceSubClass == isub.GetOr(kIOUSBFindInterfaceDontCare)
    ensures r.bInterfaceProtocol == iproto.GetOr(kIOUSBFindInterfaceDontCare)
    ensures r.bAlternateSetting == ialt.GetOr(kIOUSBFindInterfaceDontCare)
  {
    FindInterfaceRequest(
      iclass.GetOr(kIOUSBFindInterfaceDontCare), isub.GetOr(kIOUSBFindInterfaceDontCare),
      iproto.GetOr(kIOUSBFindInterfaceDontCare), ialt.GetOr(kIOUSBFindInterfaceDontCare))
  }
}
