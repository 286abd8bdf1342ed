/**
 * The wire side of the older control client: the device status, the inline
 * command record with its two independently settable scratch words, and the
 * decode of the device-info record, which accepts only the two known states.
 * The device-info record itself (`WireDevInfo`) has the same layout and
 * builders as the current generation's and is shared with it.
 */
module LegacySys {
  import opened Wire
  import opened Kernel
  import CtrlSys

  // --------------------------------------------------------- device status

  /** Whether a device is active. */
  datatype DeviceStatus = Dead | Live

  /** The status code the driver uses. */
  function StatusValue(s: DeviceStatus): (v: u16)
    ensures v == STATE_DEV_DEAD <==> s == Dead
    ensures v == STATE_DEV_LIVE <==> s == Live
  {
    match s
    case Dead => STATE_DEV_DEAD
    case Live => STATE_DEV_LIVE
  }

  /** Reads a status code: 0 and 1 are known, every other value is rejected. */
  function TryFromStatus(v: u16): (r: Option<DeviceStatus>)
    ensures r.Some? <==> v == STATE_DEV_DEAD || v == STATE_DEV_LIVE
    ensures r.Some? ==> StatusValue(r.value) == v
  {
    if v == StatusValue(Dead) then Some(Dead)
    else if v == StatusValue(Live) then Some(Live)
    else None
  }

  /** Reading back the code of a status gives the status. */
  lemma StatusRoundTrip(s: DeviceStatus)
    ensures TryFromStatus(StatusValue(s)) == Some(s)
  {
  }

  // -------------------------------------------------------------- commands

  /** The inline command record of the older client. */
  datatype WireCmd = WireCmd(rec: CmdData)
  {
    /** A command for device devId, aimed at no queue, with no buffer and zero scratch words. */
    static function New(devId: u32): (r: WireCmd)
      ensures r.rec.devId == devId && r.rec.queueId == QUEUE_IGNORE_ID
      ensures r.rec.len == 0 && r.rec.addr == 0
      ensures r.rec.data0 == 0 && r.rec.data1 == 0
    {
      WireCmd(CmdData(devId, QUEUE_IGNORE_ID, 0, 0, 0, 0))
    }

    /** Binds a buffer of `size` bytes living at `addr`: only the buffer descriptor changes. */
    function Buffer(addr: u64, size: u16): (r: WireCmd)
      ensures r.rec.addr == addr && r.rec.len == size
      ensures r.rec.(addr := rec.addr, len := rec.len) == rec
    {
      WireCmd(rec.(addr := addr, len := size))
    }

    /** Sets the first scratch word; the second and everything else are kept. */
    function Data0(x: u64): (r: WireCmd)
      ensures r.rec.data0 == x && r.rec.(data0 := rec.data0) == rec
    {
      WireCmd(rec.(data0 := x))
    }

    /** Sets the second scratch word; the first and everything else are kept. */
    function Data1(x: u64): (r: WireCmd)
      ensures r.rec.data1 == x && r.rec.(data1 := rec.data1) == rec
    {
      WireCmd(rec.(data1 := x))
    }

    /**
     * The 80-byte payload: the record at its fixed offsets over zeros; the
     * driver reads back exactly this record.
     */
    function AsCmdData(): (r: seq<u8>)
      ensures |r| == CMD_DATA_SIZE
      ensures forall i :: CMD_RECORD_SIZE <= i < CMD_DATA_SIZE ==> r[i] == 0
      ensures ParseCmd(r) == rec
    {
      ParseCmdBytes(rec);
      CmdBytes(rec)
    }
  }

  /** The two scratch words are independent: setting them in either order gives the same command. */
  lemma ScratchWordsCommute(c: WireCmd, x: u64, y: u64)
    ensures c.Data0(x).Data1(y) == c.Data1(y).Data0(x)
    ensures c.Data0(x).Data1(y).rec.data0 == x && c.Data1(y).Data0(x).rec.data1 == y
  {
  }

  // ----------------------------------------------------------- device info

  /** Device information as the older client reports it. */
  datatype DeviceInfo = DeviceInfo(
    devId: u32, srvPid: i32, state: DeviceStatus,
    nrHwQueues: u16, queueDepth: u16, maxIoBufBytes: u32, flags: DeviceFlags)

  /**
   * Decodes the driver's record. A state other than 0 or 1 aborts the
   * client (None here); otherwise the state maps to its status, only the
   * known flag bits are kept, and the rest is copied.
   */
  function IntoDeviceInfo(w: DevInfo): (r: Option<DeviceInfo>)
    ensures r.None? <==> w.state != STATE_DEV_DEAD && w.state != STATE_DEV_LIVE
    ensures r.Some? ==> StatusValue(r.value.state) == w.state
    ensures r.Some? ==> FlagBits(r.value.flags) == w.flags & KNOWN_FLAGS
    ensures r.Some? ==> r.value.devId == w.devId && r.value.srvPid == w.srvPid
    ensures r.Some? ==> r.value.nrHwQueues == w.nrHwQueues && r.value.queueDepth == w.queueDepth
    ensures r.Some? ==> r.value.maxIoBufBytes == w.maxIoBufBytes
  {
    FlagsTruncate(w.flags);
    match TryFromStatus(w.state)
    case None => None
    case Some(state) =>
      Some(DeviceInfo(w.devId, w.srvPid, state, w.nrHwQueues, w.queueDepth,
                      w.maxIoBufBytes, FlagsFromBitsTruncate(w.flags)))
  }

  /**
   * A record built from the zero record by the setters decodes to a dead
   * device with exactly the values set, the flags cut to the known bits.
   */
  lemma BuiltRecordRoundTrip(id: u32, q: u16, d: u16, b: u32, f: bv64)
    ensures var r := IntoDeviceInfo(
              DevInfo.New().WithDevId(id).WithNrHwQueues(q).WithQueueDepth(d).WithMaxIoBufBytes(b).WithFlags(f));
      r.Some? && r.value.state == Dead && r.value.srvPid == 0
      && r.value.devId == id && r.value.nrHwQueues == q && r.value.queueDepth == d
      && r.value.maxIoBufBytes == b && FlagBits(r.value.flags) == f & KNOWN_FLAGS
  {
  }

  /**
   * On the states both generations accept, they agree: the older client's
   * Live is exactly the current client's `active`, and every other field is
   * the same.
   */
  lemma GenerationsAgree(w: DevInfo)
    requires w.state == STATE_DEV_DEAD || w.state == STATE_DEV_LIVE
    ensures IntoDeviceInfo(w).Some?
    ensures var older := IntoDeviceInfo(w).value; var cur := CtrlSys.DecodeDevInfo(w);
      (older.state == Live <==> cur.active)
      && older.devId == cur.devId && older.srvPid == cur.srvPid
      && older.nrHwQueues == cur.nrHwQueues && older.queueDepth == cur.queueDepth
      && older.maxIoBufBytes == cur.maxIoBufBytes && older.flags == cur.flags
  {
  }

  /** The current client reads every state other than 1 as inactive, where the older one aborts on it. */
  lemma GenerationsDisagreeOnUnknownState(w: DevInfo)
    requires w.state > STATE_DEV_LIVE
    ensures IntoDeviceInfo(w).None?
    ensures !CtrlSys.DecodeDevInfo(w).active
  {
  }
}
