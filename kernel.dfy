/**
 * The binary interface of the ublk kernel driver's control device, shared by
 * both generations of the control client: opcodes, limits, the inline command
 * record and its 80-byte payload, the device-info and parameter records, the
 * feature-flag and attribute bit sets, the CPU set, and the ring entries
 * exchanged with the driver.
 */
module Kernel {
  import opened Wire

  // ---------------------------------------------------------------- opcodes

  /** Control command opcodes handled by the driver. */
  datatype CtrlOp = GetQueueAffinity | GetDevInfo | AddDev | DelDev | StartDev | StopDev | SetParams | GetParams

  /** How the driver dispatches a received opcode. */
  function OpFromCode(c: int): Option<CtrlOp>
  {
    match c
    case 1 => Some(GetQueueAffinity)
    case 2 => Some(GetDevInfo)
    case 4 => Some(AddDev)
    case 5 => Some(DelDev)
    case 6 => Some(StartDev)
    case 7 => Some(StopDev)
    case 8 => Some(SetParams)
    case 9 => Some(GetParams)
    case _ => None
  }

  /** The `u32` code sent for an opcode; the driver recognises it as that opcode. */
  function OpCode(op: CtrlOp): (c: u32)
    ensures OpFromCode(c) == Some(op)
  {
    match op
    case GetQueueAffinity => 1
    case GetDevInfo => 2
    case AddDev => 4
    case DelDev => 5
    case StartDev => 6
    case StopDev => 7
    case SetParams => 8
    case GetParams => 9
  }

  // ----------------------------------------------------- limits and defaults

  /** Asks the driver to assign a fresh device id ('-1' once cast by the driver). */
  const NEW_DEV_ID: u32 := 0xFFFF_FFFF
  /** The command is not meant for a queue ('(u16)-1' for the driver). */
  const QUEUE_IGNORE_ID: u16 := 0xFFFF

  const STATE_DEV_DEAD: u16 := 0
  const STATE_DEV_LIVE: u16 := 1

  const MAX_BUF_SIZE: u32 := 1024 * 1024
  const MAX_NR_HW_QUEUES: u16 := 32
  const MAX_QUEUE_DEPTH: u16 := 1024

  const DEFAULT_BUF_SIZE: u32 := 512 * 1024
  const DEFAULT_NR_HW_QUEUES: u16 := 1
  const DEFAULT_QUEUE_DEPTH: u16 := 256

  /** Inline payload of a 128-byte submission entry. */
  const CMD_DATA_SIZE: nat := 80
  /** Size of the command record: u32, u16, u16, u64 and two u64 scratch words. */
  const CMD_RECORD_SIZE: nat := 32
  /** Size of the device-info record (its 64-bit flags word aligns it to 8). */
  const DEV_INFO_SIZE: u16 := 64
  /** Size of the parameter record: 8 bytes of header, 32 of basic, 20 of discard, padded to 8. */
  const DEV_PARAMS_SIZE: u16 := 64
  /** Number of CPUs a CPU set describes, and its size in bytes. */
  const CPU_SETSIZE: nat := 1024
  const CPU_SET_BYTES: u16 := 128

  // ----------------------------------------------------------- feature flags

  /** Feature flags negotiated with the driver when a device is added. */
  datatype DeviceFlag = ZeroCopy | ForceIouCmdCompleteInTask | NeedGetData

  type DeviceFlags = set<DeviceFlag>

  /** Bits 0, 1 and 2 of the 64-bit flags word. */
  function FlagBit(f: DeviceFlag): bv64
  {
    match f
    case ZeroCopy => 1
    case ForceIouCmdCompleteInTask => 2
    case NeedGetData => 4
  }

  const KNOWN_FLAGS: bv64 := 7

  /** The raw word of a flag set: exactly its flags' bits, nothing else. */
  function FlagBits(s: DeviceFlags): (r: bv64)
    ensures r & !KNOWN_FLAGS == 0
    ensures forall f :: f in s <==> r & FlagBit(f) != 0
  {
    (if ZeroCopy in s then 1 else 0)
    | (if ForceIouCmdCompleteInTask in s then 2 else 0)
    | (if NeedGetData in s then 4 else 0)
  }

  /** Decoding a raw flags word never fails: unknown bits are dropped. */
  function FlagsFromBitsTruncate(raw: bv64): (s: DeviceFlags)
    ensures forall f :: f in s <==> raw & FlagBit(f) != 0
  {
    (if raw & 1 != 0 then {ZeroCopy} else {})
    + (if raw & 2 != 0 then {ForceIouCmdCompleteInTask} else {})
    + (if raw & 4 != 0 then {NeedGetData} else {})
  }

  /** Every subset of the flags survives encoding and decoding. */
  lemma FlagsRoundTrip(s: DeviceFlags)
    ensures FlagsFromBitsTruncate(FlagBits(s)) == s
  {
  }

  /** A raw word decodes to its known bits only: re-encoding it keeps bits 0..2 and clears the rest. */
  lemma FlagsTruncate(raw: bv64)
    ensures FlagBits(FlagsFromBitsTruncate(raw)) == raw & KNOWN_FLAGS
    ensures FlagsFromBitsTruncate(raw) == FlagsFromBitsTruncate(raw & KNOWN_FLAGS)
  {
  }

  // -------------------------------------------------------- device attributes

  /** Attributes of the block device, in the basic parameter block. */
  datatype DeviceAttr = ReadOnly | Rotational | VolatileCache | Fua

  type DeviceAttrs = set<DeviceAttr>

  function AttrBit(a: DeviceAttr): bv32
  {
    match a
    case ReadOnly => 1
    case Rotational => 2
    case VolatileCache => 4
    case Fua => 8
  }

  const KNOWN_ATTRS: bv32 := 15

  /** The raw attribute word of an attribute set: exactly its bits 0..3. */
  function AttrBits(s: DeviceAttrs): (r: bv32)
    ensures r & !KNOWN_ATTRS == 0
    ensures forall a :: a in s <==> r & AttrBit(a) != 0
  {
    (if ReadOnly in s then 1 else 0)
    | (if Rotational in s then 2 else 0)
    | (if VolatileCache in s then 4 else 0)
    | (if Fua in s then 8 else 0)
  }

  /** Decoding a raw attribute word keeps bits 0..3 and drops the rest. */
  function AttrsFromBitsTruncate(raw: bv32): (s: DeviceAttrs)
    ensures forall a :: a in s <==> raw & AttrBit(a) != 0
  {
    (if raw & 1 != 0 then {ReadOnly} else {})
    + (if raw & 2 != 0 then {Rotational} else {})
    + (if raw & 4 != 0 then {VolatileCache} else {})
    + (if raw & 8 != 0 then {Fua} else {})
  }

  lemma AttrsRoundTrip(s: DeviceAttrs)
    ensures AttrsFromBitsTruncate(AttrBits(s)) == s
  {
  }

  lemma AttrsTruncate(raw: bv32)
    ensures AttrBits(AttrsFromBitsTruncate(raw)) == raw & KNOWN_ATTRS
    ensures AttrsFromBitsTruncate(raw) == AttrsFromBitsTruncate(raw & KNOWN_ATTRS)
  {
  }

  // ------------------------------------------------ the inline command record

  /**
   * The command record copied into the submission entry: destination device,
   * destination queue (unused by these commands), the IN/OUT buffer
   * descriptor and two inline scratch words.
   */
  datatype CmdData = CmdData(devId: u32, queueId: u16, len: u16, addr: u64, data0: u64, data1: u64)

  /**
   * The 80-byte payload: the record written over a zero-filled buffer, in its
   * C layout (offsets 0, 4, 6, 8, 16, 24), little-endian.
   */
  function CmdBytes(c: CmdData): (r: seq<u8>)
    ensures |r| == CMD_DATA_SIZE
    ensures forall i :: CMD_RECORD_SIZE <= i < CMD_DATA_SIZE ==> r[i] == 0
  {
    LeBytes(c.devId, 4) + LeBytes(c.queueId, 2) + LeBytes(c.len, 2) + LeBytes(c.addr, 8)
    + LeBytes(c.data0, 8) + LeBytes(c.data1, 8) + Zeros(CMD_DATA_SIZE - CMD_RECORD_SIZE)
  }

  /** How the driver reads the record back out of a payload. */
  function ParseCmd(b: seq<u8>): CmdData
    requires |b| == CMD_DATA_SIZE
  {
    assert Pow256(2) == 0x1_0000 && Pow256(4) == 0x1_0000_0000;
    assert Pow256(8) == 0x1_0000_0000_0000_0000;
    CmdData(LeValue(b[0..4]), LeValue(b[4..6]), LeValue(b[6..8]), LeValue(b[8..16]),
            LeValue(b[16..24]), LeValue(b[24..32]))
  }

  /** The driver reads back exactly the record that was serialised. */
  lemma ParseCmdBytes(c: CmdData)
    ensures ParseCmd(CmdBytes(c)) == c
  {
    assert Pow256(2) == 0x1_0000 && Pow256(4) == 0x1_0000_0000;
    assert Pow256(8) == 0x1_0000_0000_0000_0000;
    var b := CmdBytes(c);
    assert b[0..4] == LeBytes(c.devId, 4);
    assert b[4..6] == LeBytes(c.queueId, 2);
    assert b[6..8] == LeBytes(c.len, 2);
    assert b[8..16] == LeBytes(c.addr, 8);
    assert b[16..24] == LeBytes(c.data0, 8);
    assert b[24..32] == LeBytes(c.data1, 8);
    LeValueOfLeBytes(c.devId, 4);
    LeValueOfLeBytes(c.queueId, 2);
    LeValueOfLeBytes(c.len, 2);
    LeValueOfLeBytes(c.addr, 8);
    LeValueOfLeBytes(c.data0, 8);
    LeValueOfLeBytes(c.data1, 8);
  }

  /** Every payload whose last 48 bytes are zero is the serialisation of exactly one record. */
  lemma CmdBytesParse(b: seq<u8>)
    requires |b| == CMD_DATA_SIZE
    requires forall i :: CMD_RECORD_SIZE <= i < CMD_DATA_SIZE ==> b[i] == 0
    ensures CmdBytes(ParseCmd(b)) == b
  {
    LeBytesOfLeValue(b[0..4]);
    LeBytesOfLeValue(b[4..6]);
    LeBytesOfLeValue(b[6..8]);
    LeBytesOfLeValue(b[8..16]);
    LeBytesOfLeValue(b[16..24]);
    LeBytesOfLeValue(b[24..32]);
    assert b[32..] == Zeros(CMD_DATA_SIZE - CMD_RECORD_SIZE);
    assert b == b[0..4] + b[4..6] + b[6..8] + b[8..16] + b[16..24] + b[24..32] + b[32..];
  }

  // ---------------------------------------------------- the device-info record

  type Words4 = s: seq<u64> | |s| == 4 witness [0, 0, 0, 0]

  /** The driver's device-info record, padding and reserved words included. */
  datatype DevInfo = DevInfo(
    nrHwQueues: u16, queueDepth: u16, state: u16, pad0: u16,
    maxIoBufBytes: u32, devId: u32, srvPid: i32, pad1: u32,
    flags: bv64, unused: Words4)
  {
    predicate IsZero()
    {
      nrHwQueues == 0 && queueDepth == 0 && state == 0 && pad0 == 0
      && maxIoBufBytes == 0 && devId == 0 && srvPid == 0 && pad1 == 0
      && flags == 0 && unused == [0, 0, 0, 0]
    }

    /** The default record: every field zero. */
    static function New(): (r: DevInfo)
      ensures r.IsZero()
    {
      DevInfo(0, 0, 0, 0, 0, 0, 0, 0, 0, [0, 0, 0, 0])
    }

    /** Each setter writes its own field and leaves every other field as it was. */
    function WithDevId(id: u32): (r: DevInfo)
      ensures r.devId == id && r.(devId := devId) == this
    {
      this.(devId := id)
    }

    function WithNrHwQueues(n: u16): (r: DevInfo)
      ensures r.nrHwQueues == n && r.(nrHwQueues := nrHwQueues) == this
    {
      this.(nrHwQueues := n)
    }

    function WithQueueDepth(d: u16): (r: DevInfo)
      ensures r.queueDepth == d && r.(queueDepth := queueDepth) == this
    {
      this.(queueDepth := d)
    }

    function WithMaxIoBufBytes(b: u32): (r: DevInfo)
      ensures r.maxIoBufBytes == b && r.(maxIoBufBytes := maxIoBufBytes) == this
    {
      this.(maxIoBufBytes := b)
    }

    function WithFlags(f: bv64): (r: DevInfo)
      ensures r.flags == f && r.(flags := flags) == this
    {
      this.(flags := f)
    }
  }

  // ----------------------------------------------------- the parameter record

  const TYPE_BASIC: bv32 := 1
  const TYPE_DISCARD: bv32 := 2

  datatype DevParamBasic = DevParamBasic(
    attrs: bv32, logicalBsShift: u8, physicalBsShift: u8, ioOptShift: u8, ioMinShift: u8,
    maxSectors: u32, chunkSectors: u32, devSectors: u64, virtBoundaryMask: u64)

  datatype DevParamDiscard = DevParamDiscard(
    discardAlignment: u32, discardGranularity: u32, maxDiscardSectors: u32,
    maxWriteZeroesSectors: u32, maxDiscardSegments: u16, reserved0: u16)

  /** The parameter record: total length, the types present, then the two blocks. */
  datatype DevParams = DevParams(len: u32, types: bv32, basic: DevParamBasic, discard: DevParamDiscard)

  const ZERO_BASIC := DevParamBasic(0, 0, 0, 0, 0, 0, 0, 0, 0)
  const ZERO_DISCARD := DevParamDiscard(0, 0, 0, 0, 0, 0)

  // ------------------------------------------------------------------ CPU sets

  /** A fixed-size CPU set: bit c tells whether CPU c belongs to it. */
  type CpuSet = s: seq<bool> | |s| == CPU_SETSIZE witness seq(1024, _ => false)

  /** The set with no CPU in it. */
  function EmptyCpuSet(): (r: CpuSet)
    ensures forall c :: 0 <= c < CPU_SETSIZE ==> !r[c]
  {
    seq(CPU_SETSIZE, _ => false)
  }

  // --------------------------------------------------------- the ring entries

  /** What a command's buffer holds when the driver looks at it. */
  datatype Buf = NoBuf | InfoBuf(info: DevInfo) | ParamsBuf(params: DevParams) | CpuBuf(cpus: CpuSet)

  /**
   * A submission entry: the opcode, the command record whose 80-byte image
   * (CmdBytes) fills the entry's inline command area, and the request id
   * (user data) it is tagged with; `buf` is the memory its buffer descriptor
   * points at.
   */
  datatype Sqe = Sqe(op: CtrlOp, cmd: CmdData, userData: nat, buf: Buf)

  /** A completion entry: the request id it echoes and the driver's result. */
  datatype Cqe = Cqe(userData: nat, res: i32)

  /**
   * The driver's answer to one entry: its result, and what it writes into a
   * buffer of each record type (only the one the command bound is used).
   */
  datatype Reply = Reply(res: i32, info: DevInfo, params: DevParams, cpus: CpuSet)

  /** The ring is used single-in-flight: each entry gets its completion, which echoes its id. */
  function Complete(sqe: Sqe, reply: Reply): Cqe
  {
    Cqe(sqe.userData, reply.res)
  }

  /** Request ids 1, 2, 3, ... in submission order. */
  ghost predicate IdsInOrder(s: seq<Sqe>)
  {
    forall i :: 0 <= i < |s| ==> s[i].userData == i + 1
  }

  /** Request ids of a session never repeat and only grow. */
  lemma IdsStrictlyIncrease(s: seq<Sqe>)
    requires IdsInOrder(s)
    ensures forall i, j :: 0 <= i < j < |s| ==> s[i].userData < s[j].userData
  {
  }
}
