/**
 * Two concrete runs of the engine: walking a small descriptor chain, and
 * building the catalog of a camera whose Processing Unit answers only two
 * of the probed selectors.
 */
module Scenarios {
  import opened Wrappers
  import opened Integers
  import opened Descriptors
  import opened UvcConsts
  import opened UvcTypes
  import opened ControlRequest
  import opened IntegerControls
  import opened Uvc

  /**
   * A VideoControl chain: a 12-byte header announcing 26 bytes in all, a
   * Processing Unit (`bUnitID` 2) of length 8 at offset 12 and an Input
   * Terminal (`bTerminalID` 1) of length 6 at offset 20, followed by
   * 12 further bytes, enough for the whole Input Terminal record the
   * walk decodes at offset 20.
   */
  function SampleChain(): (b: seq<byte>)
    ensures |b| == 38
  {
    [12, 0x24, 0x01, 0x00, 0x01, 26, 0, 0, 0, 0, 0, 0]
    + [8, 0x24, 0x05, 2, 1, 0, 0, 0]
    + [6, 0x24, 0x02, 1, 0x01, 0x02]
    + seq(12, _ => 0)
  }

  /** The walk over the sample chain captures the Processing Unit at offset 12 and the Input Terminal at 20. */
  lemma WalkSample()
    ensures Walk(Some(SampleChain()))
         == Ok(Found(Some(DecodeProcessingUnit(SampleChain(), 12)), Some(DecodeInputTerminal(SampleChain(), 20))))
  {
    var b := SampleChain();
    assert b[0] == 12 && b[5] == 26 && b[6] == 0;
    assert DecodeHeader(b).bLength == 12 && DecodeHeader(b).wTotalLength == 26;
    assert b[12] == 8 && b[14] == 0x05;
    assert b[20] == 6 && b[22] == 0x02;
    var f1 := Capture(b, 12, Found(None, None));
    assert f1.pud == Some(DecodeProcessingUnit(b, 12)) && f1.itd.None?;
    var f2 := Capture(b, 20, f1);
    assert f2.pud == f1.pud && f2.itd == Some(DecodeInputTerminal(b, 20));
    assert WalkFrom(b, 26, 26, f2) == Ok(f2);
    assert WalkFrom(b, 20, 26, f1) == Ok(f2);
  }

  /** The camera built from that walk addresses unit 2 and terminal 1. */
  lemma CameraSample()
    ensures var w := Walk(Some(SampleChain()));
      && w.Ok? && CameraOf(w.value).Some?
      && CameraOf(w.value).value.punitID == 2 && CameraOf(w.value).value.itermID == 1
  {
    WalkSample();
    var b := SampleChain();
    assert b[15] == 2 && b[23] == 1;
  }

  /** A strictly ascending sequence whose members are exactly 2 and 11 is `[2, 11]`. */
  lemma AscendingPair(s: seq<int>)
    requires Ascending(s)
    requires forall i :: i in s <==> i == 0x02 || i == 0x0B
    ensures s == [0x02, 0x0B]
  {
    assert 0x02 in s && 0x0B in s;
    assert s[0] in s && s[0] == 0x02;
    assert s[1] in s && s[1] == 0x0B;
    assert |s| == 2 by {
      assert s[|s| - 1] in s;
    }
  }

  /**
   * A device that answers a probe, with one byte, exactly when it is
   * addressed to unit 2 with selector 0x02 or 0x0B, whatever came before.
   */
  function SampleDevice(): (seq<DevRequest>, DevRequest) -> Completion {
    (h: seq<DevRequest>, r: DevRequest) =>
      if r.wIndex / 0x100 == 2 && (r.wValue / 0x100 == 0x02 || r.wValue / 0x100 == 0x0B)
      then Completion(0, 1, [0])
      else Completion(0, 0, [])
  }

  lemma SampleAnswers(h: seq<DevRequest>, i: uint16, target: uint16)
    requires i < 0x100 && target < 0x100
    ensures Answers(SampleDevice(), h, i, target) <==> target == 2 && (i == 0x02 || i == 0x0B)
  {
    var r := InfProbe(i, target);
    assert r.wValue / 0x100 == i && r.wIndex / 0x100 == target;
  }

  /** On unit 2, only selectors 0x02 and 0x0B are discovered. */
  lemma SampleProcessingDiscovery(h: seq<DevRequest>)
    ensures Discovered(SampleDevice(), h, 2, 0x01, 0x13) == [0x02, 0x0B]
  {
    var pu := Discovered(SampleDevice(), h, 2, 0x01, 0x13);
    forall i ensures i in pu <==> i == 0x02 || i == 0x0B {
      DiscoveredIff(SampleDevice(), h, 2, 0x01, 0x13, i);
      if 0x01 <= i <= 0x13 {
        SampleAnswers(h + ProbeLog(2, 0x01, i - 1), i, 2);
      }
    }
    AscendingPair(pu);
  }

  /** On unit 1, nothing is discovered. */
  lemma SampleTerminalDiscovery(h: seq<DevRequest>)
    ensures Discovered(SampleDevice(), h, 1, 0x01, 0x14) == []
  {
    var it := Discovered(SampleDevice(), h, 1, 0x01, 0x14);
    if it != [] {
      DiscoveredIff(SampleDevice(), h, 1, 0x01, 0x14, it[0]);
      SampleAnswers(h + ProbeLog(1, 0x01, it[0] - 1), it[0], 1);
      assert false;
    }
  }

  /** Brightness (Int16) and White Bal Temp Auto (UInt8), both on unit 2. */
  function SampleControls(): seq<ControlInfo> {
    [ControlInfo("Brightness", Selector(0x02, 2), Int16, Int, ControlFamily.Camera),
     ControlInfo("White Bal Temp Auto", Selector(0x0B, 2), UInt8, Bool, ControlFamily.Camera)]
  }

  /** Selector 0x02 is Brightness and 0x0B White Bal Temp Auto in the Processing Unit table. */
  lemma SampleKnown()
    ensures Known(ProcessingTable, [0x02, 0x0B], 2) == SampleControls()
  {
    assert [0x02, 0x0B][..1] == [0x02];
    assert [0x02][..0] == [];
  }

  /**
   * With that device, the camera of the sample chain gets exactly two
   * controls, Brightness (Int16) and White Bal Temp Auto (UInt8), both on
   * unit 2: the Input Terminal answers nothing, and every other
   * Processing Unit selector stays silent.
   */
  lemma CatalogSample(h: seq<DevRequest>, camera: Camera)
    requires camera.punitID == 2 && camera.itermID == 1
    ensures Catalog(SampleDevice(), h, camera) == SampleControls()
  {
    SampleProcessingPart(h, camera);
    SampleTerminalPart(h, camera);
  }

  /** The Processing Unit part of that catalog. */
  lemma SampleProcessingPart(h: seq<DevRequest>, camera: Camera)
    requires camera.punitID == 2
    ensures ProcessingPart(SampleDevice(), h, camera) == SampleControls()
  {
    SampleProcessingDiscovery(h);
    SampleKnown();
  }

  /** The Camera Terminal part of that catalog is empty. */
  lemma SampleTerminalPart(h: seq<DevRequest>, camera: Camera)
    requires camera.punitID == 2 && camera.itermID == 1
    ensures TerminalPart(SampleDevice(), h, camera) == []
  {
    SampleTerminalDiscovery(h + ProbeLog(2, 0x01, 0x13));
  }
}
