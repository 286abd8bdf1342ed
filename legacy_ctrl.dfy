/**
 * The older control client: its clamping device-option builder and its
 * control session, where `SubmitCmd` draws the next entry id, submits one
 * entry, checks the completion echoes it and maps the result.
 */
module LegacyCtrl {
  import opened Wire
  import opened Kernel
  import opened LegacySys

  // -------------------------------------------------------- device options

  /** Options for creating a device (the device id is passed separately). */
  datatype DeviceOptions = DeviceOptions(
    nrHwQueues: u16, queueDepth: u16, maxIoBufBytes: u32, flags: DeviceFlags)
  {
    /** No numeric option exceeds its advertised maximum. */
    predicate WithinLimits()
    {
      nrHwQueues <= MAX_NR_HW_QUEUES && queueDepth <= MAX_QUEUE_DEPTH && maxIoBufBytes <= MAX_BUF_SIZE
    }

    /** The defaults: one queue of depth 256, 512 KiB buffers, no flags. */
    static function New(): (r: DeviceOptions)
      ensures r.nrHwQueues == 1 && r.queueDepth == 256 && r.maxIoBufBytes == 512 * 1024
      ensures r.flags == {}
      ensures r.WithinLimits()
    {
      DeviceOptions(DEFAULT_NR_HW_QUEUES, DEFAULT_QUEUE_DEPTH, DEFAULT_BUF_SIZE, {})
    }

    /** Sets the number of hardware queues to min(n, 32); nothing else changes. */
    function NrHwQueues(n: u16): (r: DeviceOptions)
      ensures r.nrHwQueues <= MAX_NR_HW_QUEUES && r.nrHwQueues <= n
      ensures r.nrHwQueues == n || r.nrHwQueues == MAX_NR_HW_QUEUES
      ensures r.(nrHwQueues := nrHwQueues) == this
      ensures WithinLimits() ==> r.WithinLimits()
    {
      this.(nrHwQueues := Clamp(n, MAX_NR_HW_QUEUES))
    }

    /** Sets the queue depth to min(d, 1024); nothing else changes. */
    function QueueDepth(d: u16): (r: DeviceOptions)
      ensures r.queueDepth <= MAX_QUEUE_DEPTH && r.queueDepth <= d
      ensures r.queueDepth == d || r.queueDepth == MAX_QUEUE_DEPTH
      ensures r.(queueDepth := queueDepth) == this
      ensures WithinLimits() ==> r.WithinLimits()
    {
      this.(queueDepth := Clamp(d, MAX_QUEUE_DEPTH))
    }

    /** Sets the request buffer size to min(b, 1 MiB); nothing else changes. */
    function MaxIoBufBytes(b: u32): (r: DeviceOptions)
      ensures r.maxIoBufBytes <= MAX_BUF_SIZE && r.maxIoBufBytes <= b
      ensures r.maxIoBufBytes == b || r.maxIoBufBytes == MAX_BUF_SIZE
      ensures r.(maxIoBufBytes := maxIoBufBytes) == this
      ensures WithinLimits() ==> r.WithinLimits()
    {
      this.(maxIoBufBytes := Clamp(b, MAX_BUF_SIZE))
    }

    /** Sets the feature flags; nothing else changes. */
    function Flags(f: DeviceFlags): (r: DeviceOptions)
      ensures r.flags == f && r.(flags := flags) == this
      ensures WithinLimits() ==> r.WithinLimits()
    {
      this.(flags := f)
    }
  }

  /**
   * The record sent with AddDev: device id, buffer size, queues, depth and
   * flag bits set over the zero record. It decodes to a dead device with
   * exactly those values.
   */
  function AddDeviceRecord(devId: u32, o: DeviceOptions): (r: DevInfo)
    ensures r.devId == devId && r.state == STATE_DEV_DEAD && r.srvPid == 0
    ensures r.pad0 == 0 && r.pad1 == 0 && r.unused == [0, 0, 0, 0]
    ensures r.flags == FlagBits(o.flags)
    ensures IntoDeviceInfo(r) == Some(DeviceInfo(devId, 0, Dead, o.nrHwQueues, o.queueDepth, o.maxIoBufBytes, o.flags))
  {
    FlagsRoundTrip(o.flags);
    DevInfo.New()
      .WithDevId(devId)
      .WithMaxIoBufBytes(o.maxIoBufBytes)
      .WithNrHwQueues(o.nrHwQueues)
      .WithQueueDepth(o.queueDepth)
      .WithFlags(FlagBits(o.flags))
  }

  // ------------------------------------------------------- control session

  /**
   * What an operation whose answer is decoded comes to: it returns a result,
   * or the client aborts because the record carries an unknown state.
   */
  datatype Outcome<T> = Returned(result: Result<T>) | Aborted

  /** The outcome of decoding the record the driver wrote, after a completion with result `res`. */
  function DecodeAfter(res: int, w: DevInfo): (r: Outcome<DeviceInfo>)
    ensures res != 0 ==> r == Returned(Err(-res))
    ensures res == 0 ==> (r.Aborted? <==> IntoDeviceInfo(w).None?)
    ensures res == 0 && r.Returned? ==> r.result == Ok(IntoDeviceInfo(w).value)
  {
    if res != 0 then Returned(Err(-res))
    else match IntoDeviceInfo(w)
      case None => Aborted
      case Some(info) => Returned(Ok(info))
  }

  /**
   * A control session of the older client. The ring and the control device
   * are abstracted into `kernel`, the driver's answer to each entry;
   * `bufAddr` stands for the address of the local record an operation binds.
   */
  class UblkCtrl {
    /** The last entry id used. */
    var entryId: nat
    const kernel: Sqe -> Reply
    const bufAddr: u64
    /** Every entry pushed on the ring so far, in order. */
    ghost var submitted: seq<Sqe>

    /** Exactly one entry per id, tagged 1, 2, 3, ... */
    ghost predicate Valid()
      reads this
    {
      |submitted| == entryId && IdsInOrder(submitted)
    }

    ghost function Last(): Sqe
      reads this
      requires submitted != []
    {
      submitted[|submitted| - 1]
    }

    /** A fresh session has used no entry id. */
    constructor (kernel: Sqe -> Reply, bufAddr: u64)
      ensures Valid() && entryId == 0 && submitted == []
      ensures this.kernel == kernel && this.bufAddr == bufAddr
    {
      this.kernel := kernel;
      this.bufAddr := bufAddr;
      entryId := 0;
      submitted := [];
    }

    /**
     * Draws the next entry id, pushes one entry tagged with it, checks the
     * completion echoes it, and maps result 0 to success and any other
     * result to an error carrying its negation.
     */
    method SubmitCmd(op: CtrlOp, cmd: WireCmd, buf: Buf) returns (r: Result<()>, reply: Reply)
      requires Valid()
      modifies this
      ensures Valid() && entryId == old(entryId) + 1
      ensures submitted == old(submitted) + [Sqe(op, cmd.rec, entryId, buf)]
      ensures reply == kernel(Last())
      ensures r == Completion(reply.res, ())
    {
      entryId := entryId + 1;
      var id := entryId;
      var sqe := Sqe(op, cmd.rec, id, buf);
      submitted := submitted + [sqe];
      reply := kernel(sqe);
      var cqe := Complete(sqe, reply);
      assert cqe.userData == id;
      r := Completion(cqe.res, ());
    }

    /** Reads the device-info record into a zero record and decodes what the driver wrote. */
    method GetDeviceInfo(devId: u32) returns (r: Outcome<DeviceInfo>)
      requires Valid()
      modifies this
      ensures Valid() && entryId == old(entryId) + 1
      ensures submitted == old(submitted) + [Sqe(GetDevInfo,
        WireCmd.New(devId).Buffer(bufAddr, DEV_INFO_SIZE).rec, entryId, InfoBuf(DevInfo.New()))]
      ensures r == DecodeAfter(kernel(Last()).res, kernel(Last()).info)
    {
      var info := DevInfo.New();
      var cmd := WireCmd.New(devId).Buffer(bufAddr, DEV_INFO_SIZE);
      var res, reply := SubmitCmd(GetDevInfo, cmd, InfoBuf(info));
      r := if res.Err? then Returned(Err(res.code)) else DecodeAfter(0, reply.info);
    }

    /**
     * Adds a device. The same device id goes into the record and into the
     * command (the driver rejects a mismatch).
     */
    method AddDevice(devId: u32, options: DeviceOptions) returns (r: Outcome<DeviceInfo>)
      requires Valid()
      modifies this
      ensures Valid() && entryId == old(entryId) + 1
      ensures submitted == old(submitted) + [Sqe(AddDev,
        WireCmd.New(devId).Buffer(bufAddr, DEV_INFO_SIZE).rec, entryId, InfoBuf(AddDeviceRecord(devId, options)))]
      ensures Last().cmd.devId == Last().buf.info.devId == devId
      ensures r == DecodeAfter(kernel(Last()).res, kernel(Last()).info)
    {
      var info := AddDeviceRecord(devId, options);
      var cmd := WireCmd.New(devId).Buffer(bufAddr, DEV_INFO_SIZE);
      var res, reply := SubmitCmd(AddDev, cmd, InfoBuf(info));
      r := if res.Err? then Returned(Err(res.code)) else DecodeAfter(0, reply.info);
    }

    /** Deletes a device: a bare command with no buffer. */
    method DeleteDevice(devId: u32) returns (r: Result<()>)
      requires Valid()
      modifies this
      ensures Valid() && entryId == old(entryId) + 1
      ensures submitted == old(submitted) + [Sqe(DelDev, WireCmd.New(devId).rec, entryId, NoBuf)]
      ensures Last().cmd.len == 0 && Last().cmd.addr == 0
      ensures r == Completion(kernel(Last()).res, ())
    {
      var reply;
      r, reply := SubmitCmd(DelDev, WireCmd.New(devId), NoBuf);
    }

    /** Stops a device: a bare command with no buffer. */
    method StopDevice(devId: u32) returns (r: Result<()>)
      requires Valid()
      modifies this
      ensures Valid() && entryId == old(entryId) + 1
      ensures submitted == old(submitted) + [Sqe(StopDev, WireCmd.New(devId).rec, entryId, NoBuf)]
      ensures Last().cmd.len == 0 && Last().cmd.addr == 0
      ensures r == Completion(kernel(Last()).res, ())
    {
      var reply;
      r, reply := SubmitCmd(StopDev, WireCmd.New(devId), NoBuf);
    }
  }
}
