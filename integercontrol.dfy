/**
 * `IntegerControl<T>`: a UVC control whose value is a fixed-width integer
 * `t`, read and written through the control pipe. `min`, `max`, `default`
 * and `resolution` (and the one-byte `inf`) are lazy: fetched once, on
 * first access, and the outcome -- absence included -- is kept.
 */
module IntegerControls {
  import opened Wrappers
  import opened Integers
  import opened UvcConsts
  import opened UvcTypes
  import opened ControlRequest

  /** The four lazily fetched limits of a control. */
  datatype Limit = Max | Min | Default | Resolution {

    /** The GET request that fetches the limit. */
    function Request(): (r: RequestCode)
      ensures r.RawValue() & 0x80 == 0x80
      ensures r != GET_CUR && r != GET_LEN && r != GET_INF
      ensures (this == Max <==> r == GET_MAX) && (this == Min <==> r == GET_MIN)
      ensures (this == Default <==> r == GET_DEF) && (this == Resolution <==> r == GET_RES)
    {
      match this
      case Max => GET_MAX
      case Min => GET_MIN
      case Default => GET_DEF
      case Resolution => GET_RES
    }
  }

  /** A read as the control exposes it: the `T` value widened to `Int`, or nothing. */
  function ReadInt(t: BinaryInteger, c: Completion): (r: Option<int>)
    ensures r.Some? <==> c.wLenDone > 0
    ensures r.Some? ==> InRange(Int64, r.value) && InRange(t, r.value)
    ensures t != UInt64 ==> r == InValue(t, c)
    ensures t == UInt64 && r.Some? ==> r.value == Widen(UInt64, InValue(t, c).value)
  {
    match InValue(t, c)
    case None => None
    case Some(v) => Some(Widen(t, v))
  }

  /** What the catalog knows of a control before it is bound to an interface. */
  datatype ControlInfo = ControlInfo(
    name: string, selector: Selector, t: BinaryInteger, uvctype: ControlType, family: ControlFamily)

  class IntegerControl {
    const name: string
    const selector: Selector
    const t: BinaryInteger
    const uvctype: ControlType
    const uvcfamily: ControlFamily
    const usb: Interface

    /** The lazy limits fetched so far; a key present with `None` was fetched and absent. */
    var cachedLimits: map<Limit, Option<int>>
    /** `inf` once fetched. */
    var cachedInf: Option<Option<int>>

    /** The control was built from `info` and has fetched nothing yet. */
    ghost predicate FreshFrom(info: ControlInfo)
      reads this
    {
      && name == info.name && selector == info.selector && t == info.t
      && uvctype == info.uvctype && uvcfamily == info.family
      && cachedLimits == map[] && cachedInf == None
    }

    /** Every cached value is one a read can produce. */
    ghost predicate Valid()
      reads this
    {
      && (forall l | l in cachedLimits && cachedLimits[l].Some? ::
            InRange(t, cachedLimits[l].value) && InRange(Int64, cachedLimits[l].value))
      && (cachedInf.Some? && cachedInf.value.Some? ==> InRange(UInt8, cachedInf.value.value))
    }

    constructor (name: string, usb: Interface, selector: Selector, t: BinaryInteger,
                 uvctype: ControlType, family: ControlFamily)
      ensures Valid()
      ensures this.name == name && this.usb == usb && this.selector == selector && this.t == t
      ensures this.uvctype == uvctype && this.uvcfamily == family
      ensures cachedLimits == map[] && cachedInf == None
    {
      this.name := name;
      this.usb := usb;
      this.selector := selector;
      this.t := t;
      this.uvctype := uvctype;
      this.uvcfamily := family;
      cachedLimits := map[];
      cachedInf := None;
    }

    /** `current()`: one GET_CUR transfer of `t`'s size on the control's selector. */
    method Current() returns (r: Option<int>)
      modifies usb
      ensures usb.log == old(usb.log) + [InRecord(GET_CUR, selector, t)]
      ensures r == ReadInt(t, usb.device(old(usb.log), InRecord(GET_CUR, selector, t)))
    {
      var v := InRequest(usb, GET_CUR, selector, t);
      r := if v.Some? then Some(Widen(t, v.value)) else None;
    }

    /**
     * `set(value:)`: exactly one SET_CUR transfer on the control's selector
     * carrying `value` clamped into `t`; the transfer's result is dropped.
     */
    method Set(value: int)
      modifies usb
      ensures usb.log == old(usb.log) + [OutRecord(SET_CUR, selector, t, Clamp(t, value))]
    {
      var _ := OutRequest(usb, SET_CUR, selector, t, Clamp(t, value));
    }

    /**
     * The lazy getter of `max`, `min`, `default` or `resolution`: the first
     * access issues one transfer of `t`'s size and stores its outcome, even
     * when absent; every later access returns what was stored and issues none.
     */
    method Fetch(l: Limit) returns (r: Option<int>)
      requires Valid()
      modifies this`cachedLimits, usb
      ensures Valid()
      ensures l in old(cachedLimits) ==>
        && r == old(cachedLimits)[l]
        && cachedLimits == old(cachedLimits)
        && usb.log == old(usb.log)
      ensures l !in old(cachedLimits) ==>
        && usb.log == old(usb.log) + [InRecord(l.Request(), selector, t)]
        && r == ReadInt(t, usb.device(old(usb.log), InRecord(l.Request(), selector, t)))
        && cachedLimits == old(cachedLimits)[l := r]
    {
      if l in cachedLimits {
        r := cachedLimits[l];
      } else {
        var v := InRequest(usb, l.Request(), selector, t);
        r := if v.Some? then Some(Widen(t, v.value)) else None;
        cachedLimits := cachedLimits[l := r];
      }
    }

    /**
     * The lazy getter of `inf`: like `Fetch`, but always a one-byte GET_INF
     * read, whatever `t` is.
     */
    method Inf() returns (r: Option<int>)
      requires Valid()
      modifies this`cachedInf, usb
      ensures Valid()
      ensures r.Some? ==> InRange(UInt8, r.value)
      ensures old(cachedInf).Some? ==>
        && r == old(cachedInf).value
        && cachedInf == old(cachedInf)
        && usb.log == old(usb.log)
      ensures old(cachedInf).None? ==>
        && usb.log == old(usb.log) + [InRecord(GET_INF, selector, UInt8)]
        && r == InValue(UInt8, usb.device(old(usb.log), InRecord(GET_INF, selector, UInt8)))
        && cachedInf == Some(r)
    {
      if cachedInf.Some? {
        r := cachedInf.value;
      } else {
        r := InRequest(usb, GET_INF, Selector(selector.index, selector.target), UInt8);
        cachedInf := Some(r);
      }
    }

    /** Reading a limit twice issues at most one transfer and gives the same answer both times. */
    method FetchTwice(l: Limit) returns (first: Option<int>, second: Option<int>)
      requires Valid()
      modifies this`cachedLimits, usb
      ensures Valid()
      ensures first == second
      ensures |usb.log| <= |old(usb.log)| + 1
      ensures l in cachedLimits && cachedLimits[l] == first
    {
      first := Fetch(l);
      second := Fetch(l);
    }
  }
}
