/**
 * The packed layouts of the UVC class-specific VideoControl descriptors
 * the engine reads (section 3.7.2 of the USB Video Class 1.5 specification),
 * as decoders at fixed byte offsets. Structures are packed, so each field
 * sits right after the one before it; multi-byte fields are little-endian.
 * A decoder reads its whole structure, so it requires that many bytes.
 */
module Descriptors {
  import opened Integers

  const HeaderSize: nat := 13
  const PrefixSize: nat := 3
  const ProcessingUnitSize: nat := 10
  const InputTerminalSize: nat := 18

  /** A little-endian 16-bit field at `off`. */
  function U16At(b: seq<byte>, off: nat): (v: nat)
    requires off + 2 <= |b|
    ensures v < 0x1_0000
    ensures ToLittleEndian(v, 2) == b[off..off + 2]
  {
    ToLittleEndianOfLittleEndian(b[off..off + 2]);
    LittleEndian(b[off..off + 2])
  }

  /** A little-endian 32-bit field at `off`. */
  function U32At(b: seq<byte>, off: nat): (v: nat)
    requires off + 4 <= |b|
    ensures v < 0x1_0000_0000
    ensures ToLittleEndian(v, 4) == b[off..off + 4]
  {
    ToLittleEndianOfLittleEndian(b[off..off + 4]);
    LittleEndian(b[off..off + 4])
  }

  /** `C_VC_Header`: the class-specific VideoControl interface header. */
  datatype VcHeader = VcHeader(
    bLength: byte, bDescriptorType: byte, bDescriptorSubType: byte, bcdUVC: nat,
    wTotalLength: nat, dwClockFrequency: nat, bInCollection: byte, bInterfaceNr1: byte)

  /** `UVC_Descriptor_Prefix`: the three bytes every class-specific descriptor starts with. */
  datatype Prefix = Prefix(bLength: byte, bDescriptorType: byte, bDescriptorSubType: byte)

  /**
   * The leading fields of `VC_Processing_Unit_Descriptor` (section 3.7.2.5);
   * `wMaxMultiplier`, `bControlSize` and `bmControls` are not decoded.
   */
  datatype ProcessingUnit = ProcessingUnit(
    bLength: byte, bDescriptorType: byte, bDescriptorSubType: byte, bUnitID: byte, bSourceID: byte)

  /**
   * The leading fields of `VC_Input_Terminal_Descriptor` (section 3.7.2.1);
   * the focal lengths and `bmControls` are not decoded.
   */
  datatype InputTerminal = InputTerminal(
    bLength: byte, bDescriptorType: byte, bDescriptorSubType: byte, bTerminalID: byte,
    wTerminalType: nat, bAssocTerminal: byte, iTerminal: byte)

  function DecodePrefix(b: seq<byte>, off: nat): (p: Prefix)
    requires off + PrefixSize <= |b|
  {
    Prefix(b[off], b[off + 1], b[off + 2])
  }

  /** The header shares the prefix's first three bytes; `wTotalLength` sits at offsets 5-6. */
  function DecodeHeader(b: seq<byte>): (h: VcHeader)
    requires HeaderSize <= |b|
    ensures h.bLength == DecodePrefix(b, 0).bLength
    ensures h.bDescriptorSubType == DecodePrefix(b, 0).bDescriptorSubType
    ensures h.wTotalLength == b[5] as int + 256 * b[6] as int
  {
    VcHeader(b[0], b[1], b[2], U16At(b, 3), U16At(b, 5), U32At(b, 7), b[11], b[12])
  }

  /** Read at the same offset, the prefix and the unit agree on length, type and subtype. */
  function DecodeProcessingUnit(b: seq<byte>, off: nat): (u: ProcessingUnit)
    requires off + ProcessingUnitSize <= |b|
    ensures Prefix(u.bLength, u.bDescriptorType, u.bDescriptorSubType) == DecodePrefix(b, off)
    ensures u.bUnitID == b[off + 3]
  {
    ProcessingUnit(b[off], b[off + 1], b[off + 2], b[off + 3], b[off + 4])
  }

  /** Read at the same offset, the prefix and the terminal agree on length, type and subtype. */
  function DecodeInputTerminal(b: seq<byte>, off: nat): (t: InputTerminal)
    requires off + InputTerminalSize <= |b|
    ensures Prefix(t.bLength, t.bDescriptorType, t.bDescriptorSubType) == DecodePrefix(b, off)
    ensures t.bTerminalID == b[off + 3]
  {
    InputTerminal(b[off], b[off + 1], b[off + 2], b[off + 3], U16At(b, off + 4), b[off + 6], b[off + 7])
  }
}
