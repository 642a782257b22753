/** Value types shared by the engine: a control's address and an enumerated camera. */
module UvcTypes {
  import opened Integers
  import opened Descriptors

  /** A control's address: the control selector and the unit or terminal it lives in. */
  datatype Selector = Selector(index: uint16, target: uint16)

  /**
   * A camera as the engine keeps it: both descriptors and the two unit ids
   * taken from them. The device and interface handles and the registry
   * properties are not part of this model.
   */
  datatype Camera = Camera(pud: ProcessingUnit, itd: InputTerminal, punitID: uint16, itermID: uint16)

  /** `Camera.init`: the ids are the descriptors' one-byte ids, zero-extended, so both are below 256. */
  function MakeCamera(pud: ProcessingUnit, itd: InputTerminal): (c: Camera)
    ensures c.punitID == pud.bUnitID && c.itermID == itd.bTerminalID
    ensures c.punitID < 0x100 && c.itermID < 0x100
    ensures c.pud == pud && c.itd == itd
  {
    Camera(pud, itd, pud.bUnitID, itd.bTerminalID)
  }
}
