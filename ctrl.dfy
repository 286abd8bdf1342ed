/**
 * The current control client: the clamping device-option builder and the
 * control session, which tags every command with a fresh request id, pushes
 * it on the ring, waits for its single completion and decodes the answer.
 */
module Ctrl {
  import opened Wire
  import opened Kernel
  import opened CtrlSys

  // -------------------------------------------------------- device options

  /** Options for creating a device. */
  datatype DeviceOptions = DeviceOptions(
    devId: u32, nrHwQueues: u16, queueDepth: u16, maxIoBufBytes: u32, flags: DeviceFlags)
  {
    /** No numeric option exceeds its advertised maximum. */
    predicate WithinLimits()
    {
      nrHwQueues <= MAX_NR_HW_QUEUES && queueDepth <= MAX_QUEUE_DEPTH && maxIoBufBytes <= MAX_BUF_SIZE
    }

    /** The defaults: any device id, one queue of depth 256, 512 KiB buffers, no flags. */
    static function New(): (r: DeviceOptions)
      ensures r.devId == NEW_DEV_ID
      ensures r.nrHwQueues == 1 && r.queueDepth == 256 && r.maxIoBufBytes == 512 * 1024
      ensures r.flags == {}
      ensures r.WithinLimits()
    {
      DeviceOptions(NEW_DEV_ID, DEFAULT_NR_HW_QUEUES, DEFAULT_QUEUE_DEPTH, DEFAULT_BUF_SIZE, {})
    }

    /** Requests a device id; nothing else changes. */
    function DeviceId(id: u32): (r: DeviceOptions)
      ensures r.devId == id && r.(devId := devId) == this
      ensures WithinLimits() ==> r.WithinLimits()
    {
      this.(devId := id)
    }

    /** Sets the number of hardware queues, saturating at 32: the result is min(n, 32). */
    function NrHwQueues(n: u16): (r: DeviceOptions)
      ensures r.nrHwQueues <= MAX_NR_HW_QUEUES && r.nrHwQueues <= n
      ensures r.nrHwQueues == n || r.nrHwQueues == MAX_NR_HW_QUEUES
      ensures r.(nrHwQueues := nrHwQueues) == this
      ensures WithinLimits() ==> r.WithinLimits()
    {
      this.(nrHwQueues := Clamp(n, MAX_NR_HW_QUEUES))
    }

    /** Sets the queue depth, saturating at 1024: the result is min(d, 1024). */
    function QueueDepth(d: u16): (r: DeviceOptions)
      ensures r.queueDepth <= MAX_QUEUE_DEPTH && r.queueDepth <= d
      ensures r.queueDepth == d || r.queueDepth == MAX_QUEUE_DEPTH
      ensures r.(queueDepth := queueDepth) == this
      ensures WithinLimits() ==> r.WithinLimits()
    {
      this.(queueDepth := Clamp(d, MAX_QUEUE_DEPTH))
    }

    /** Sets the request buffer size, saturating at 1 MiB: the result is min(b, 1 MiB). */
    function MaxIoBufBytes(b: u32): (r: DeviceOptions)
      ensures r.maxIoBufBytes <= MAX_BUF_SIZE && r.maxIoBufBytes <= b
      ensures r.maxIoBufBytes == b || r.maxIoBufBytes == MAX_BUF_SIZE
      ensures r.(maxIoBufBytes := maxIoBufBytes) == this
      ensures WithinLimits() ==> r.WithinLimits()
    {
      this.(maxIoBufBytes := Clamp(b, MAX_BUF_SIZE))
    }

    /** Sets the feature flags; nothing else changes. */
    function Flags(f: DeviceFlags): (r: DeviceOptions)
      ensures r.flags == f && r.(flags := flags) == this
      ensures WithinLimits() ==> r.WithinLimits()
    {
      this.(flags := f)
    }
  }

  /** Over-large requests saturate rather than fail. */
  lemma ClampingExamples()
    ensures DeviceOptions.New().NrHwQueues(10000).nrHwQueues == 32
    ensures DeviceOptions.New().QueueDepth(5000).queueDepth == 1024
    ensures DeviceOptions.New().MaxIoBufBytes(16 * 1024 * 1024).maxIoBufBytes == 1024 * 1024
  {
  }

  /** Re-applying a setter to its own result changes nothing. */
  lemma SettersIdempotent(o: DeviceOptions, n: u16, d: u16, b: u32)
    ensures o.NrHwQueues(n).NrHwQueues(n) == o.NrHwQueues(n)
    ensures o.QueueDepth(d).QueueDepth(d) == o.QueueDepth(d)
    ensures o.MaxIoBufBytes(b).MaxIoBufBytes(b) == o.MaxIoBufBytes(b)
  {
  }

  /**
   * The record sent with AddDev: the options' device id, queues, depth,
   * buffer size and flag bits over an otherwise zero record. The driver reads
   * it back as a dead device with exactly the requested values.
   */
  function AddDeviceRecord(o: DeviceOptions): (r: DevInfo)
    ensures r.devId == o.devId && r.state == STATE_DEV_DEAD && r.srvPid == 0
    ensures r.pad0 == 0 && r.pad1 == 0 && r.unused == [0, 0, 0, 0]
    ensures r.flags == FlagBits(o.flags)
    ensures DecodeDevInfo(r)
         == DeviceInfo(o.devId, 0, false, o.nrHwQueues, o.queueDepth, o.maxIoBufBytes, o.flags)
  {
    FlagsRoundTrip(o.flags);
    DevInfo.New()
      .WithDevId(o.devId)
      .WithMaxIoBufBytes(o.maxIoBufBytes)
      .WithNrHwQueues(o.nrHwQueues)
      .WithQueueDepth(o.queueDepth)
      .WithFlags(FlagBits(o.flags))
  }

  // ------------------------------------------------------- control session

  /**
   * A control session. The ring and the control device are abstracted into
   * `kernel`, the driver's answer to each submission entry; `bufAddr` stands
   * for the address of the local buffer an operation binds.
   */
  class UblkCtrl {
    /** The last request id used. */
    var uniq: nat
    const kernel: Sqe -> Reply
    const bufAddr: u64
    /** Every entry pushed on the ring so far, in order. */
    ghost var submitted: seq<Sqe>

    /** Exactly one entry per request id, tagged 1, 2, 3, ... */
    ghost predicate Valid()
      reads this
    {
      |submitted| == uniq && IdsInOrder(submitted)
    }

    ghost function Last(): Sqe
      reads this
      requires submitted != []
    {
      submitted[|submitted| - 1]
    }

    /** A fresh session has used no request id. */
    constructor (kernel: Sqe -> Reply, bufAddr: u64)
      ensures Valid() && uniq == 0 && submitted == []
      ensures this.kernel == kernel && this.bufAddr == bufAddr
    {
      this.kernel := kernel;
      this.bufAddr := bufAddr;
      uniq := 0;
      submitted := [];
    }

    /**
     * Pushes one entry tagged `id`, waits for its completion, checks that the
     * completion echoes `id`, and maps result 0 to success and any other
     * result to an error carrying its negation.
     */
    method SubmitAndWait(cmd: CtrlCmd, id: nat, buf: Buf) returns (r: Result<()>, reply: Reply)
      requires IdsInOrder(submitted) && id == uniq == |submitted| + 1
      modifies this`submitted
      ensures Valid()
      ensures submitted == old(submitted) + [Sqe(cmd.op, cmd.cmdData, id, buf)]
      ensures reply == kernel(Last())
      ensures r == Completion(reply.res, ())
    {
      var sqe := Sqe(cmd.op, cmd.cmdData, id, buf);
      submitted := submitted + [sqe];
      reply := kernel(sqe);
      var cqe := Complete(sqe, reply);
      assert cqe.userData == id;
      r := Completion(cqe.res, ());
    }

    /**
     * Adds a device. The same device id goes into the record and into the
     * command (the driver rejects a mismatch).
     */
    method AddDevice(options: DeviceOptions) returns (r: Result<DeviceInfo>)
      requires Valid()
      modifies this
      ensures Valid() && uniq == old(uniq) + 1
      ensures submitted == old(submitted) + [Sqe(AddDev,
        CtrlCmd.New(AddDev, options.devId).Buffer(bufAddr, DEV_INFO_SIZE).cmdData,
        uniq, InfoBuf(AddDeviceRecord(options)))]
      ensures ParseCmd(CmdBytes(Last().cmd)).devId == Last().buf.info.devId == options.devId
      ensures r == Completion(kernel(Last()).res, DecodeDevInfo(kernel(Last()).info))
    {
      uniq := uniq + 1;
      var info := AddDeviceRecord(options);
      var cmd := CtrlCmd.New(AddDev, options.devId).Buffer(bufAddr, DEV_INFO_SIZE);
      ParseCmdBytes(cmd.cmdData);
      var res, reply := SubmitAndWait(cmd, uniq, InfoBuf(info));
      r := if res.Ok? then Ok(DecodeDevInfo(reply.info)) else Err(res.code);
    }

    /** Deletes a device: a bare command, no buffer. */
    method DeleteDevice(devId: u32) returns (r: Result<()>)
      requires Valid()
      modifies this
      ensures Valid() && uniq == old(uniq) + 1
      ensures submitted == old(submitted) + [Sqe(DelDev, CtrlCmd.New(DelDev, devId).cmdData, uniq, NoBuf)]
      ensures r == Completion(kernel(Last()).res, ())
    {
      uniq := uniq + 1;
      var reply;
      r, reply := SubmitAndWait(CtrlCmd.New(DelDev, devId), uniq, NoBuf);
    }

    /** Starts a device; the serving process id travels in the first scratch word. */
    method StartDevice(devId: u32, pid: u64) returns (r: Result<()>)
      requires Valid()
      modifies this
      ensures Valid() && uniq == old(uniq) + 1
      ensures submitted == old(submitted) + [Sqe(StartDev, CtrlCmd.New(StartDev, devId).Data(pid).cmdData, uniq, NoBuf)]
      ensures ParseCmd(CmdBytes(Last().cmd)).data0 == pid
      ensures r == Completion(kernel(Last()).res, ())
    {
      uniq := uniq + 1;
      var cmd := CtrlCmd.New(StartDev, devId).Data(pid);
      ParseCmdBytes(cmd.cmdData);
      var reply;
      r, reply := SubmitAndWait(cmd, uniq, NoBuf);
    }

    /** Stops a device: a bare command, no buffer. */
    method StopDevice(devId: u32) returns (r: Result<()>)
      requires Valid()
      modifies this
      ensures Valid() && uniq == old(uniq) + 1
      ensures submitted == old(submitted) + [Sqe(StopDev, CtrlCmd.New(StopDev, devId).cmdData, uniq, NoBuf)]
      ensures r == Completion(kernel(Last()).res, ())
    {
      uniq := uniq + 1;
      var reply;
      r, reply := SubmitAndWait(CtrlCmd.New(StopDev, devId), uniq, NoBuf);
    }

    /** Sends encoded parameters; the driver reads back exactly `params`. */
    method SetDeviceParameters(devId: u32, params: DeviceParams) returns (r: Result<()>)
      requires Valid()
      modifies this
      ensures Valid() && uniq == old(uniq) + 1
      ensures submitted == old(submitted) + [Sqe(SetParams,
        CtrlCmd.New(SetParams, devId).Buffer(bufAddr, DEV_PARAMS_SIZE).cmdData,
        uniq, ParamsBuf(ParamsRecord(params)))]
      ensures DecodeParams(Last().buf.params) == params
      ensures r == Completion(kernel(Last()).res, ())
    {
      uniq := uniq + 1;
      var p := EncodeParams(params);
      var cmd := CtrlCmd.New(SetParams, devId).Buffer(bufAddr, DEV_PARAMS_SIZE);
      var reply;
      r, reply := SubmitAndWait(cmd, uniq, ParamsBuf(p));
    }

    /** Reads the parameters into an empty record and decodes what the driver wrote. */
    method GetDeviceParameters(devId: u32) returns (r: Result<DeviceParams>)
      requires Valid()
      modifies this
      ensures Valid() && uniq == old(uniq) + 1
      ensures submitted == old(submitted) + [Sqe(GetParams,
        CtrlCmd.New(GetParams, devId).Buffer(bufAddr, DEV_PARAMS_SIZE).cmdData,
        uniq, ParamsBuf(EmptyParams()))]
      ensures r == Completion(kernel(Last()).res, DecodeParams(kernel(Last()).params))
    {
      uniq := uniq + 1;
      var params := EmptyParams();
      var cmd := CtrlCmd.New(GetParams, devId).Buffer(bufAddr, DEV_PARAMS_SIZE);
      var res, reply := SubmitAndWait(cmd, uniq, ParamsBuf(params));
      r := if res.Ok? then Ok(DecodeParams(reply.params)) else Err(res.code);
    }

    /** The entry GetQueueAffinity pushes for `queue` under request id `id`. */
    ghost function AffinitySqe(devId: u32, queue: u16, id: nat): Sqe
    {
      Sqe(CtrlOp.GetQueueAffinity,
        CtrlCmd.New(CtrlOp.GetQueueAffinity, devId).Buffer(bufAddr, CPU_SET_BYTES).Data(queue).cmdData,
        id, CpuBuf(EmptyCpuSet()))
    }

    /** The driver's answer for `queue` when the queries start after request id `u0`. */
    ghost function AffinityReply(devId: u32, queue: u16, u0: nat): Reply
    {
      kernel(AffinitySqe(devId, queue, u0 + queue + 1))
    }

    /** The entries pushed for queues 0 .. n-1 when the queries start after request id `u0`. */
    ghost function AffinitySqes(devId: u32, u0: nat, n: u16): (s: seq<Sqe>)
      ensures |s| == n
      ensures forall q: nat :: q < n ==> s[q] == AffinitySqe(devId, q as u16, u0 + q + 1)
    {
      if n == 0 then [] else AffinitySqes(devId, u0, n - 1) + [AffinitySqe(devId, n - 1, u0 + n)]
    }

    /** The CPU sets the driver reports for queues 0 .. n-1. */
    ghost function AffinitySets(devId: u32, u0: nat, n: u16): (s: seq<CpuSet>)
      ensures |s| == n
      ensures forall q: nat :: q < n ==> s[q] == AffinityReply(devId, q as u16, u0).cpus
    {
      if n == 0 then [] else AffinitySets(devId, u0, n - 1) + [AffinityReply(devId, n - 1, u0).cpus]
    }

    /** The queries for queues 0 .. k-1 all succeeded. */
    ghost predicate QueriesSucceeded(devId: u32, u0: nat, k: u16)
    {
      forall q: u16 :: q < k ==> AffinityReply(devId, q, u0).res == 0
    }

    /** Queues before `queue` answered, `queue` failed, and `code` is its negated result. */
    ghost predicate FirstFailure(devId: u32, u0: nat, queue: u16, code: int)
    {
      QueriesSucceeded(devId, u0, queue)
        && AffinityReply(devId, queue, u0).res != 0
        && code + AffinityReply(devId, queue, u0).res == 0
    }

    /** Reads one queue's CPU set; the queue index travels in the first scratch word. */
    method GetQueueAffinity(devId: u32, queue: u16) returns (r: Result<CpuSet>)
      requires Valid()
      modifies this
      ensures Valid() && uniq == old(uniq) + 1
      ensures submitted == old(submitted) + [AffinitySqe(devId, queue, uniq)]
      ensures ParseCmd(CmdBytes(Last().cmd)).data0 == queue
      ensures r == Completion(kernel(Last()).res, kernel(Last()).cpus)
    {
      uniq := uniq + 1;
      var cpuSet := EmptyCpuSet();
      var cmd := CtrlCmd.New(CtrlOp.GetQueueAffinity, devId).Buffer(bufAddr, CPU_SET_BYTES).Data(queue);
      ParseCmdBytes(cmd.cmdData);
      var res, reply := SubmitAndWait(cmd, uniq, CpuBuf(cpuSet));
      r := if res.Ok? then Ok(reply.cpus) else Err(res.code);
    }

    /**
     * Reads the CPU sets of queues 0 .. nrQueues-1 in order, one request each.
     * It succeeds with one set per queue when every query succeeds; otherwise
     * it stops at the first failing queue and returns that error.
     */
    method GetAllQueuesAffinity(devId: u32, nrQueues: u16) returns (r: Result<seq<CpuSet>>)
      requires Valid()
      modifies this
      ensures Valid() && old(uniq) <= uniq <= old(uniq) + nrQueues
      ensures submitted == old(submitted) + AffinitySqes(devId, old(uniq), (uniq - old(uniq)) as u16)
      ensures r.Ok? <==> QueriesSucceeded(devId, old(uniq), nrQueues)
      ensures r.Ok? ==> uniq == old(uniq) + nrQueues && r.value == AffinitySets(devId, old(uniq), nrQueues)
      ensures r.Err? ==> uniq > old(uniq) && FirstFailure(devId, old(uniq), (uniq - old(uniq) - 1) as u16, r.code)
    {
      var sets: seq<CpuSet> := [];
      var queue: u16 := 0;
      while queue < nrQueues
        invariant queue <= nrQueues
        invariant Valid() && uniq == old(uniq) + queue
        invariant submitted == old(submitted) + AffinitySqes(devId, old(uniq), queue)
        invariant sets == AffinitySets(devId, old(uniq), queue)
        invariant QueriesSucceeded(devId, old(uniq), queue)
      {
        var one := GetQueueAffinity(devId, queue);
        assert submitted == old(submitted) + AffinitySqes(devId, old(uniq), queue + 1);
        assert Last() == AffinitySqe(devId, queue, old(uniq) + queue + 1);
        if one.Err? {
          assert AffinityReply(devId, queue, old(uniq)).res != 0;
          assert !QueriesSucceeded(devId, old(uniq), nrQueues);
          return Err(one.code);
        }
        sets := sets + [one.value];
        queue := queue + 1;
      }
      r := Ok(sets);
    }

    /** Reads the device-info record into a zero record and decodes what the driver wrote. */
    method GetDeviceInfo(devId: u32) returns (r: Result<DeviceInfo>)
      requires Valid()
      modifies this
      ensures Valid() && uniq == old(uniq) + 1
      ensures submitted == old(submitted) + [Sqe(GetDevInfo,
        CtrlCmd.New(GetDevInfo, devId).Buffer(bufAddr, DEV_INFO_SIZE).cmdData,
        uniq, InfoBuf(DevInfo.New()))]
      ensures r == Completion(kernel(Last()).res, DecodeDevInfo(kernel(Last()).info))
    {
      uniq := uniq + 1;
      var info := DevInfo.New();
      var cmd := CtrlCmd.New(GetDevInfo, devId).Buffer(bufAddr, DEV_INFO_SIZE);
      var res, reply := SubmitAndWait(cmd, uniq, InfoBuf(info));
      r := if res.Ok? then Ok(DecodeDevInfo(reply.info)) else Err(res.code);
    }
  }
}
