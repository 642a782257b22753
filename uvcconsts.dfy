/**
 * Constants of the USB Video Class 1.5 specification used by the engine:
 * interface class codes, descriptor subtypes, request codes (Appendix A.8)
 * and the Processing Unit and Camera Terminal control selectors (Appendix A.9).
 */
module UvcConsts {
  import opened Wrappers

  // Interface class, subclass and class-specific descriptor type.
  const CC_VIDEO: int := 0x0E
  const SC_VIDEOCONTROL: int := 0x01
  const CS_INTERFACE: int := 0x24

  // VideoControl interface descriptor subtypes.
  const VC_PROCESSING_UNIT: int := 0x05
  const VC_INPUT_TERMINAL: int := 0x02

  datatype RequestCode = SET_CUR | GET_CUR | GET_MIN | GET_MAX | GET_RES | GET_LEN | GET_INF | GET_DEF {

    /**
     * The `bRequest` byte. Bit 7 is set exactly for the GET requests
     * (device to host), and the GET codes run from 0x81 in declaration order.
     */
    function RawValue(): (r: bv8)
      ensures (r & 0x80 == 0x80) <==> !SET_CUR?
      ensures SET_CUR? ==> r == 0x01
      ensures !SET_CUR? ==> r == 0x80 + GetOrdinal()
    {
      match this
      case SET_CUR => 0x01
      case GET_CUR => 0x81
      case GET_MIN => 0x82
      case GET_MAX => 0x83
      case GET_RES => 0x84
      case GET_LEN => 0x85
      case GET_INF => 0x86
      case GET_DEF => 0x87
    }

    /** Position among the GET requests, counting from 1 in declaration order. */
    function GetOrdinal(): bv8 {
      match this
      case SET_CUR => 0
      case GET_CUR => 1
      case GET_MIN => 2
      case GET_MAX => 3
      case GET_RES => 4
      case GET_LEN => 5
      case GET_INF => 6
      case GET_DEF => 7
    }
  }

  /** The eight request codes are pairwise distinct. */
  lemma RequestCodesDistinct(a: RequestCode, b: RequestCode)
    ensures a.RawValue() == b.RawValue() ==> a == b
  {
  }

  lemma SubtypesDistinct()
    ensures VC_PROCESSING_UNIT != VC_INPUT_TERMINAL
  {
  }

  /** Processing Unit control selectors. */
  datatype PUControlIndex =
    | BacklightComp | Brightness | Contrast | Gain | PowerLineFreq | Hue | Saturation
    | Sharpness | Gamma | WhiteBalTemp | WhiteBalTempAuto | WhiteBalComponent
    | WhiteBalComponentAuto | DigiMult | DigiMultLimit | HueAuto | AnalogueVidStd
    | AnalogueLock | ContrastAuto
  {
    function RawValue(): (r: int)
      ensures 0x01 <= r <= 0x13
    {
      match this
      case BacklightComp => 0x01
      case Brightness => 0x02
      case Contrast => 0x03
      case Gain => 0x04
      case PowerLineFreq => 0x05
      case Hue => 0x06
      case Saturation => 0x07
      case Sharpness => 0x08
      case Gamma => 0x09
      case WhiteBalTemp => 0x0A
      case WhiteBalTempAuto => 0x0B
      case WhiteBalComponent => 0x0C
      case WhiteBalComponentAuto => 0x0D
      case DigiMult => 0x0E
      case DigiMultLimit => 0x0F
      case HueAuto => 0x10
      case AnalogueVidStd => 0x11
      case AnalogueLock => 0x12
      case ContrastAuto => 0x13
    }
  }

  /** `PUControlIndex(rawValue:)`: the selectors are contiguous, so it succeeds exactly on 0x01...0x13. */
  function PUControlIndexFromRaw(i: int): (r: Option<PUControlIndex>)
    ensures r.Some? <==> 0x01 <= i <= 0x13
    ensures r.Some? ==> r.value.RawValue() == i
  {
    match i
    case 0x01 => Some(BacklightComp)
    case 0x02 => Some(Brightness)
    case 0x03 => Some(Contrast)
    case 0x04 => Some(Gain)
    case 0x05 => Some(PowerLineFreq)
    case 0x06 => Some(Hue)
    case 0x07 => Some(Saturation)
    case 0x08 => Some(Sharpness)
    case 0x09 => Some(Gamma)
    case 0x0A => Some(WhiteBalTemp)
    case 0x0B => Some(WhiteBalTempAuto)
    case 0x0C => Some(WhiteBalComponent)
    case 0x0D => Some(WhiteBalComponentAuto)
    case 0x0E => Some(DigiMult)
    case 0x0F => Some(DigiMultLimit)
    case 0x10 => Some(HueAuto)
    case 0x11 => Some(AnalogueVidStd)
    case 0x12 => Some(AnalogueLock)
    case 0x13 => Some(ContrastAuto)
    case _ => None
  }

  /** Every Processing Unit selector is recovered from its raw value, so the raw values are distinct. */
  lemma PUControlIndexRoundTrip(c: PUControlIndex)
    ensures PUControlIndexFromRaw(c.RawValue()) == Some(c)
  {
  }

  /** Camera (input) Terminal control selectors. */
  datatype CTControlIndex =
    | ScanMode | AeMode | AePriority | ExpTimeAbs | ExpTimeRel | FocusAbs | FocusRel
    | FocusAuto | IrisAbs | IrisRel | ZoomAbs | ZoomRel | PantiltAbs | PantiltRel
    | RollAbs | RollRel | Privacy | FocusSimple | Window | Roi
  {
    function RawValue(): (r: int)
      ensures 0x01 <= r <= 0x14
    {
      match this
      case ScanMode => 0x01
      case AeMode => 0x02
      case AePriority => 0x03
      case ExpTimeAbs => 0x04
      case ExpTimeRel => 0x05
      case FocusAbs => 0x06
      case FocusRel => 0x07
      case FocusAuto => 0x08
      case IrisAbs => 0x09
      case IrisRel => 0x0A
      case ZoomAbs => 0x0B
      case ZoomRel => 0x0C
      case PantiltAbs => 0x0D
      case PantiltRel => 0x0E
      case RollAbs => 0x0F
      case RollRel => 0x10
      case Privacy => 0x11
      case FocusSimple => 0x12
      case Window => 0x13
      case Roi => 0x14
    }
  }

  /** `CTControlIndex(rawValue:)`: succeeds exactly on 0x01...0x14. */
  function CTControlIndexFromRaw(i: int): (r: Option<CTControlIndex>)
    ensures r.Some? <==> 0x01 <= i <= 0x14
    ensures r.Some? ==> r.value.RawValue() == i
  {
    match i
    case 0x01 => Some(ScanMode)
    case 0x02 => Some(AeMode)
    case 0x03 => Some(AePriority)
    case 0x04 => Some(ExpTimeAbs)
    case 0x05 => Some(ExpTimeRel)
    case 0x06 => Some(FocusAbs)
    case 0x07 => Some(FocusRel)
    case 0x08 => Some(FocusAuto)
    case 0x09 => Some(IrisAbs)
    case 0x0A => Some(IrisRel)
    case 0x0B => Some(ZoomAbs)
    case 0x0C => Some(ZoomRel)
    case 0x0D => Some(PantiltAbs)
    case 0x0E => Some(PantiltRel)
    case 0x0F => Some(RollAbs)
    case 0x10 => Some(RollRel)
    case 0x11 => Some(Privacy)
    case 0x12 => Some(FocusSimple)
    case 0x13 => Some(Window)
    case 0x14 => Some(Roi)
    case _ => None
  }

  /** Every Camera Terminal selector is recovered from its raw value, so the raw values are distinct. */
  lemma CTControlIndexRoundTrip(c: CTControlIndex)
    ensures CTControlIndexFromRaw(c.RawValue()) == Some(c)
  {
  }

  /** The semantic shape of a control's value; it does not change the wire encoding. */
  datatype ControlType = Bool | Bitmap | Int | Multibyte | Option

  datatype ControlFamily = Processing | Camera
}
