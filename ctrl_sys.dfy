/**
 * The wire side of the current control client: building the inline command,
 * decoding the device-info record, and the two-way translation between the
 * typed device parameters and the driver's parameter record.
 */
module CtrlSys {
  import opened Wire
  import opened Kernel

  // -------------------------------------------------------------- commands

  /** A control command: its opcode and the record it carries inline. */
  datatype CtrlCmd = CtrlCmd(op: CtrlOp, cmdData: CmdData)
  {
    /** A command for device devId, aimed at no queue, with no buffer and zero scratch words. */
    static function New(op: CtrlOp, devId: u32): (r: CtrlCmd)
      ensures r.op == op && r.cmdData.devId == devId
      ensures r.cmdData.queueId == QUEUE_IGNORE_ID
      ensures r.cmdData.len == 0 && r.cmdData.addr == 0
      ensures r.cmdData.data0 == 0 && r.cmdData.data1 == 0
    {
      CtrlCmd(op, CmdData(devId, QUEUE_IGNORE_ID, 0, 0, 0, 0))
    }

    /**
     * Binds a buffer of `size` bytes living at `addr`: only the buffer
     * descriptor changes.
     */
    function Buffer(addr: u64, size: u16): (r: CtrlCmd)
      ensures r.cmdData.addr == addr && r.cmdData.len == size
      ensures r.op == op && r.cmdData.(addr := cmdData.addr, len := cmdData.len) == cmdData
    {
      this.(cmdData := cmdData.(addr := addr, len := size))
    }

    /** Stores x in the first scratch word and clears the second; nothing else changes. */
    function Data(x: u64): (r: CtrlCmd)
      ensures r.cmdData.data0 == x && r.cmdData.data1 == 0
      ensures r.op == op && r.cmdData.(data0 := cmdData.data0, data1 := cmdData.data1) == cmdData
    {
      this.(cmdData := cmdData.(data0 := x, data1 := 0))
    }
  }

  /**
   * On the wire, a fresh command is its device id, the 0xFFFF queue sentinel
   * and zeros; the driver reads those values back.
   */
  lemma NewCmdPayload(op: CtrlOp, devId: u32)
    ensures CmdBytes(CtrlCmd.New(op, devId).cmdData)
         == LeBytes(devId, 4) + [0xFF, 0xFF] + Zeros(CMD_DATA_SIZE - 6)
    ensures ParseCmd(CmdBytes(CtrlCmd.New(op, devId).cmdData)).devId == devId
  {
    var c := CtrlCmd.New(op, devId).cmdData;
    assert LeBytes(0xFFFF, 2) == [0xFF, 0xFF];
    LeBytesOfZero(2);
    LeBytesOfZero(8);
    var rest := Zeros(2) + Zeros(8) + Zeros(8) + Zeros(8) + Zeros(CMD_DATA_SIZE - CMD_RECORD_SIZE);
    assert rest == Zeros(CMD_DATA_SIZE - 6);
    assert CmdBytes(c) == LeBytes(devId, 4) + [0xFF, 0xFF] + rest;
    ParseCmdBytes(c);
  }

  // ----------------------------------------------------------- device info

  /** Device information as the client reports it. */
  datatype DeviceInfo = DeviceInfo(
    devId: u32, srvPid: i32, active: bool,
    nrHwQueues: u16, queueDepth: u16, maxIoBufBytes: u32, flags: DeviceFlags)

  /**
   * Decodes the driver's record: the device is active exactly when its state
   * is the live constant, and only the known flag bits are kept.
   */
  function DecodeDevInfo(info: DevInfo): (r: DeviceInfo)
    ensures r.active <==> info.state == STATE_DEV_LIVE
    ensures FlagBits(r.flags) == info.flags & KNOWN_FLAGS
    ensures r.devId == info.devId && r.srvPid == info.srvPid
    ensures r.nrHwQueues == info.nrHwQueues && r.queueDepth == info.queueDepth
    ensures r.maxIoBufBytes == info.maxIoBufBytes
  {
    FlagsTruncate(info.flags);
    DeviceInfo(
      info.devId, info.srvPid, info.state == STATE_DEV_LIVE,
      info.nrHwQueues, info.queueDepth, info.maxIoBufBytes,
      FlagsFromBitsTruncate(info.flags))
  }

  /**
   * Decoding never looks at the padding, the reserved words or the unknown
   * flag bits.
   */
  lemma DecodeDevInfoIgnoresReserved(info: DevInfo, pad0: u16, pad1: u32, unused: Words4)
    ensures DecodeDevInfo(info.(pad0 := pad0, pad1 := pad1, unused := unused, flags := info.flags & KNOWN_FLAGS))
         == DecodeDevInfo(info)
  {
    FlagsTruncate(info.flags);
  }

  // ------------------------------------------------------ device parameters

  /** The optional discard parameters. */
  datatype DeviceParamDiscard = DeviceParamDiscard(
    discardAlignment: u32, discardGranularity: u32, maxDiscardSectors: u32,
    maxWriteZeroesSectors: u32, maxDiscardSegments: u16)

  /** Device parameters: the mandatory basic block and an optional discard block. */
  datatype DeviceParams = DeviceParams(
    attrs: DeviceAttrs, logicalBsShift: u8, physicalBsShift: u8, ioOptShift: u8, ioMinShift: u8,
    maxSectors: u32, chunkSectors: u32, devSectors: u64, virtBoundaryMask: u64,
    discard: Option<DeviceParamDiscard>)

  const DEFAULT_PARAMS := DeviceParams({}, 0, 0, 0, 0, 0, 0, 0, 0, None)

  /** The typed view of a wire discard block (the reserved half-word is dropped). */
  function DiscardFromWire(w: DevParamDiscard): DeviceParamDiscard
  {
    DeviceParamDiscard(
      w.discardAlignment, w.discardGranularity, w.maxDiscardSectors,
      w.maxWriteZeroesSectors, w.maxDiscardSegments)
  }

  /** The wire discard block of typed discard parameters, reserved half-word zero. */
  function DiscardToWire(d: DeviceParamDiscard): (r: DevParamDiscard)
    ensures r.reserved0 == 0
    ensures DiscardFromWire(r) == d
  {
    DevParamDiscard(
      d.discardAlignment, d.discardGranularity, d.maxDiscardSectors,
      d.maxWriteZeroesSectors, d.maxDiscardSegments, 0)
  }

  /**
   * Decodes a parameter record: the discard block is present exactly when
   * the discard type bit is set, and only the known attribute bits are kept.
   */
  function DecodeParams(p: DevParams): (r: DeviceParams)
    ensures r.discard.Some? <==> p.types & TYPE_DISCARD != 0
    ensures r.discard.Some? ==> r.discard.value == DiscardFromWire(p.discard)
    ensures AttrBits(r.attrs) == p.basic.attrs & KNOWN_ATTRS
    ensures r.logicalBsShift == p.basic.logicalBsShift && r.physicalBsShift == p.basic.physicalBsShift
    ensures r.ioOptShift == p.basic.ioOptShift && r.ioMinShift == p.basic.ioMinShift
    ensures r.maxSectors == p.basic.maxSectors && r.chunkSectors == p.basic.chunkSectors
    ensures r.devSectors == p.basic.devSectors && r.virtBoundaryMask == p.basic.virtBoundaryMask
  {
    AttrsTruncate(p.basic.attrs);
    var b := p.basic;
    DeviceParams(
      AttrsFromBitsTruncate(b.attrs), b.logicalBsShift, b.physicalBsShift, b.ioOptShift, b.ioMinShift,
      b.maxSectors, b.chunkSectors, b.devSectors, b.virtBoundaryMask,
      if p.types & TYPE_DISCARD != 0 then Some(DiscardFromWire(p.discard)) else None)
  }

  /**
   * When the discard bit is clear, whatever bytes sit in the discard region
   * are ignored.
   */
  lemma DecodeParamsIgnoresAbsentDiscard(p: DevParams, junk: DevParamDiscard)
    requires p.types & TYPE_DISCARD == 0
    ensures DecodeParams(p).discard == None
    ensures DecodeParams(p.(discard := junk)) == DecodeParams(p)
  {
  }

  /**
   * The record sent with GetParams: full length, no type requested (the
   * driver returns every parameter it has), all blocks zero.
   */
  function EmptyParams(): (r: DevParams)
    ensures r.len == DEV_PARAMS_SIZE as u32 && r.types == 0
    ensures r.basic == ZERO_BASIC && r.discard == ZERO_DISCARD
    ensures DecodeParams(r) == DEFAULT_PARAMS
  {
    DevParams(DEV_PARAMS_SIZE as u32, 0, ZERO_BASIC, ZERO_DISCARD)
  }

  /**
   * The record sent with SetParams for typed parameters: full length, the
   * basic bit always set, the discard bit set and the discard block filled
   * exactly when discard parameters are present, every other bit and byte
   * zero. Decoding the record gives back the parameters.
   */
  function ParamsRecord(d: DeviceParams): (p: DevParams)
    ensures p.len == DEV_PARAMS_SIZE as u32
    ensures p.types & TYPE_BASIC != 0
    ensures p.types & TYPE_DISCARD != 0 <==> d.discard.Some?
    ensures p.types & !(TYPE_BASIC | TYPE_DISCARD) == 0
    ensures p.basic.attrs & !KNOWN_ATTRS == 0
    ensures p.discard.reserved0 == 0
    ensures d.discard.None? ==> p.discard == ZERO_DISCARD
    ensures DecodeParams(p) == d
  {
    AttrsRoundTrip(d.attrs);
    DevParams(
      DEV_PARAMS_SIZE as u32,
      if d.discard.Some? then TYPE_BASIC | TYPE_DISCARD else TYPE_BASIC,
      DevParamBasic(
        AttrBits(d.attrs), d.logicalBsShift, d.physicalBsShift, d.ioOptShift, d.ioMinShift,
        d.maxSectors, d.chunkSectors, d.devSectors, d.virtBoundaryMask),
      if d.discard.Some? then DiscardToWire(d.discard.value) else ZERO_DISCARD)
  }

  /**
   * Encodes typed parameters into the record sent with SetParams, starting
   * from the empty record and setting the type bits and blocks one by one.
   */
  method EncodeParams(d: DeviceParams) returns (p: DevParams)
    ensures p == ParamsRecord(d)
    ensures DecodeParams(p) == d
  {
    p := EmptyParams();
    p := p.(types := TYPE_BASIC);
    p := p.(basic := DevParamBasic(
      AttrBits(d.attrs), d.logicalBsShift, d.physicalBsShift, d.ioOptShift, d.ioMinShift,
      d.maxSectors, d.chunkSectors, d.devSectors, d.virtBoundaryMask));
    match d.discard
    case None =>
      p := p.(discard := ZERO_DISCARD);
    case Some(discard) =>
      p := p.(types := p.types | TYPE_DISCARD);
      p := p.(discard := DiscardToWire(discard));
  }
}
