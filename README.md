# ublk control plane in Dafny

This project models the control plane of ublk, the userspace block-device
driver for Linux. A client talks to the kernel driver's control device
(`/dev/ublk-control`) through an io_uring ring. Each command is one
128-byte submission entry, and its 80 inline bytes hold a small command
record. The driver answers with one completion. Some commands also bind a
local record, which the driver reads or fills in: the device-info record, the
parameter record or a CPU set.

The repository has two generations of the client:

- `ublk/src/control/*` is the current one;
- `src/control/*` is the older one.

Both generations use the same driver interface. The model has seven modules:

- **Wire** (`wire.dfy`): fixed-width integers and the little-endian byte
  codec. It also holds the saturating clamp and the completion rule: result 0
  is success, any other result is an error carrying `-res`.
- **Kernel** (`kernel.dfy`): the driver's interface.
  - The opcodes and their codes, the limits and the defaults.
  - The command record and its 80-byte payload (`CmdBytes`), with the
    driver-side reader `ParseCmd` as its inverse.
  - The device-info record and its setters; the parameter record.
  - The feature flags and device attributes, each as a set of an enumeration
    with its bit encoding.
  - The 1024-bit CPU set.
  - The ring entries: submission `Sqe`, completion `Cqe`, and the driver's
    answer `Reply`.
- **CtrlSys** (`ctrl_sys.dfy`), current generation, wire side:
  - command builders;
  - decoding the device-info record (`active` iff state is 1);
  - both directions between the typed device parameters and the parameter
    record.
- **Ctrl** (`ctrl.dfy`), current generation, client side:
  - the clamping `DeviceOptions` builder;
  - the session class `UblkCtrl` with its `uniq` request counter and every
    control operation, including the loop in `GetAllQueuesAffinity`.
- **LegacySys** (`legacy_sys.dfy`), older generation, wire side:
  - `DeviceStatus` and its partial decode from the state code;
  - the `WireCmd` builders with two independent scratch words;
  - the device-info decode, which aborts on an unknown state;
  - lemmas comparing the two generations' decodes.
- **LegacyCtrl** (`legacy_ctrl.dfy`), older generation, client side: its
  options builder and its session, whose `SubmitCmd` draws the next
  `entry_id`.
- **Affinity** (`affinity.dfy`): `get_cpu_list`. It turns a CPU set and an
  online-core count into the ascending list of CPUs. The function is defined
  identically in `ublkctl/src/devinfo.rs` and `examples/devinfo.rs`.

**The ring and the driver.** Each session carries a function
`kernel: Sqe -> Reply`. It gives the driver's answer to a submission entry:
the result code and what the driver writes into each kind of bound record.
The model's completion is defined to echo the entry's user data, so the
client's check that the completion carries the request id holds by that
definition of the ring; it is not a fact proved about the client.

**Session state.** Each session keeps a ghost log `submitted` of every entry
pushed. Its invariant `Valid` says the log has one entry per request id, and
the ids run 1, 2, 3 and so on. Every operation's postcondition states:

- the entry appended to the log: opcode, command record, request id and
  bound record;
- the value returned, as a function of the driver's answer to that entry.

**Layout.** A submission entry carries the command record. The 80 bytes
placed in the entry are `CmdBytes` of that record. Lemmas such as
`ParseCmdBytes` and `NewCmdPayload` say what the driver reads back from
those bytes.

**Buffer addresses.** The address of a bound local record is an opaque
64-bit token `bufAddr`, given to the session's constructor. The record's
length is its C size, written as a constant:

| record | size in bytes |
|---|---|
| device info | 64 |
| parameters | 64 |
| `cpu_set_t` | 128 |

## Model

| member | source | states |
|---|---|---|
| `Wire.LeValueOfLeBytes` | ublk/src/control/sys.rs:49-60 | reading back the little-endian bytes written for a value that fits in n bytes gives the value |
| `Wire.LeBytesOfLeValue` | ublk/src/control/sys.rs:49-60 | writing back the value read from any bytes gives those bytes, so the byte codec is a bijection |
| `Wire.Clamp` | ublk/src/control/mod.rs:300-304 | the result is at most the maximum and at most the input, and equals one of them (so it is their minimum) |
| `Wire.Completion` | ublk/src/control/sys.rs:136-141 | success exactly when the result is 0, carrying the value; otherwise an error whose code is the negated result |
| `Kernel.OpCode` | ublk/src/control/sys.rs:13-22 | each opcode's code (1, 2, 4, 5, 6, 7, 8, 9) is dispatched by the driver back to that opcode |
| `Kernel.FlagBits` | ublk/src/control/mod.rs:230-248 | a flag set's raw word has exactly the bits of its flags (bits 0, 1, 2) and no other bit |
| `Kernel.FlagsFromBitsTruncate` | ublk/src/control/sys.rs:232 | a flag is in the decoded set exactly when its bit is set in the raw word |
| `Kernel.FlagsRoundTrip` | ublk/src/control/mod.rs:56 | decoding the bits of any flag set gives back the set |
| `Kernel.FlagsTruncate` | ublk/src/control/sys.rs:232 | decoding keeps only bits 0..2: re-encoding gives `raw & 0b111`, and the unknown bits do not affect the result |
| `Kernel.AttrBits` | ublk/src/control/mod.rs:384-397 | an attribute set's raw word has exactly the bits of its attributes (bits 0..3) and no other bit |
| `Kernel.AttrsFromBitsTruncate` | ublk/src/control/sys.rs:313 | an attribute is in the decoded set exactly when its bit is set |
| `Kernel.AttrsRoundTrip` | ublk/src/control/sys.rs:332 | decoding the bits of any attribute set gives back the set |
| `Kernel.AttrsTruncate` | ublk/src/control/sys.rs:313 | decoding keeps only bits 0..3: re-encoding gives `raw & 0b1111` |
| `Kernel.CmdBytes` | ublk/src/control/sys.rs:49-60 | the payload is 80 bytes, and bytes 32..80 (after the record) are zero |
| `Kernel.ParseCmdBytes` | ublk/src/control/sys.rs:29-60 | the driver reads every field back from offsets 0, 4, 6, 8, 16 and 24 of the payload |
| `Kernel.CmdBytesParse` | ublk/src/control/sys.rs:49-60 | every 80-byte payload with a zero tail is the payload of exactly the record read from it |
| `Kernel.DevInfo.New` | ublk/src/control/sys.rs:192-195 | the new record is all zero |
| `Kernel.DevInfo.WithDevId` | ublk/src/control/sys.rs:197-200 | sets the device id and nothing else |
| `Kernel.DevInfo.WithNrHwQueues` | ublk/src/control/sys.rs:202-205 | sets the queue count and nothing else |
| `Kernel.DevInfo.WithQueueDepth` | ublk/src/control/sys.rs:207-210 | sets the queue depth and nothing else |
| `Kernel.DevInfo.WithMaxIoBufBytes` | ublk/src/control/sys.rs:212-215 | sets the buffer size and nothing else |
| `Kernel.DevInfo.WithFlags` | ublk/src/control/sys.rs:217-220 | sets the raw flags word and nothing else |
| `Kernel.EmptyCpuSet` | ublk/src/control/mod.rs:164-165 | the zeroed CPU set holds no CPU |
| `Kernel.IdsStrictlyIncrease` | ublk/src/control/sys.rs:121-134 | in a session's log, request ids strictly increase and so never repeat |
| `CtrlSys.CtrlCmd.New` | ublk/src/control/sys.rs:87-99 | the record has the given device id, queue 0xFFFF, no buffer (`len = addr = 0`) and scratch words `[0, 0]` |
| `CtrlSys.CtrlCmd.Buffer` | ublk/src/control/sys.rs:101-106 | sets `addr` and `len` and nothing else |
| `CtrlSys.CtrlCmd.Data` | ublk/src/control/sys.rs:108-114 | sets the scratch words to `[x, 0]` and nothing else |
| `CtrlSys.NewCmdPayload` | ublk/src/control/sys.rs:86-99 | a fresh command's payload is the little-endian device id, `FF FF` and 74 zero bytes, and the driver reads the device id back |
| `CtrlSys.DecodeDevInfo` | ublk/src/control/sys.rs:223-235 | `active` exactly when state is 1; flags are the raw word's bits 0..2; every other field copied |
| `CtrlSys.DecodeDevInfoIgnoresReserved` | ublk/src/control/sys.rs:223-235 | the decode does not depend on the padding, the reserved words or the unknown flag bits |
| `CtrlSys.DiscardToWire` | ublk/src/control/sys.rs:351-362 | the reserved half-word is 0, and reading the wire block back gives the discard parameters |
| `CtrlSys.DecodeParams` | ublk/src/control/sys.rs:302-325 | discard is present exactly when type bit 1 is set, and is then the wire block's fields; attributes are the raw bits 0..3; the four shifts, `max_sectors`, `chunk_sectors`, `dev_sectors` and `virt_boundary_mask` are copied unchanged |
| `CtrlSys.DecodeParamsIgnoresAbsentDiscard` | ublk/src/control/sys.rs:304-310 | with type bit 1 clear, discard is None whatever bytes the discard region holds |
| `CtrlSys.EmptyParams` | ublk/src/control/sys.rs:256-266 | length 64, no type bit, the basic and discard blocks all zero, which decode to the default parameters |
| `CtrlSys.ParamsRecord` | ublk/src/control/sys.rs:327-349 | length 64; basic bit always set, discard bit set iff discard is present, no other type or attribute bit, discard region zero when absent, reserved 0; decoding the record gives back the parameters |
| `CtrlSys.EncodeParams` | ublk/src/control/sys.rs:327-349 | building the record step by step from the empty record yields exactly `ParamsRecord`, so decoding it gives back the parameters |
| `Ctrl.DeviceOptions.New` | ublk/src/control/mod.rs:280-288 | any device id (0xFFFFFFFF), 1 queue, depth 256, 512 KiB buffers, no flags, within the limits |
| `Ctrl.DeviceOptions.DeviceId` | ublk/src/control/mod.rs:292-295 | sets the device id and nothing else |
| `Ctrl.DeviceOptions.NrHwQueues` | ublk/src/control/mod.rs:299-306 | the queue count becomes min(n, 32); nothing else changes; the limits are kept |
| `Ctrl.DeviceOptions.QueueDepth` | ublk/src/control/mod.rs:310-317 | the depth becomes min(d, 1024); nothing else changes; the limits are kept |
| `Ctrl.DeviceOptions.MaxIoBufBytes` | ublk/src/control/mod.rs:321-328 | the buffer size becomes min(b, 1048576); nothing else changes; the limits are kept |
| `Ctrl.DeviceOptions.Flags` | ublk/src/control/mod.rs:332-335 | sets the flags and nothing else |
| `Ctrl.ClampingExamples` | ublk/src/control/mod.rs:299-328 | 10000 queues give 32, depth 5000 gives 1024, and 16 MiB gives 1 MiB |
| `Ctrl.SettersIdempotent` | ublk/src/control/mod.rs:299-328 | applying a clamping setter twice with the same argument equals applying it once |
| `Ctrl.AddDeviceRecord` | ublk/src/control/mod.rs:51-56 | the AddDev record carries the options' id, queues, depth, buffer size and flag bits; the raw flags word is exactly the bits of the requested flags; state dead, server pid 0, padding zero; it decodes to exactly those values |
| `Ctrl.UblkCtrl.constructor` | ublk/src/control/mod.rs:36-41 | a fresh session has `uniq = 0` and an empty log |
| `Ctrl.UblkCtrl.SubmitAndWait` | ublk/src/control/sys.rs:116-142 | appends exactly one entry tagged `uniq`; the result is the completion rule applied to the driver's answer |
| `Ctrl.UblkCtrl.AddDevice` | ublk/src/control/mod.rs:47-64 | bumps `uniq` once; sends AddDev with the AddDev record bound, the same device id in command and record; returns the decoded record on success |
| `Ctrl.UblkCtrl.DeleteDevice` | ublk/src/control/mod.rs:69-76 | bumps `uniq` once; sends a bare DelDev for the id; maps the result |
| `Ctrl.UblkCtrl.StartDevice` | ublk/src/control/mod.rs:94-102 | bumps `uniq` once; sends StartDev with the pid in the first scratch word, which the driver reads back; maps the result |
| `Ctrl.UblkCtrl.StopDevice` | ublk/src/control/mod.rs:116-123 | bumps `uniq` once; sends a bare StopDev for the id; maps the result |
| `Ctrl.UblkCtrl.SetDeviceParameters` | ublk/src/control/mod.rs:129-139 | bumps `uniq` once; appends exactly one SetParams entry tagged `uniq` whose bound record is `ParamsRecord` of the parameters (length 64, no stray type or attribute bit, zero discard region when absent), which the driver decodes to exactly the given parameters |
| `Ctrl.UblkCtrl.GetDeviceParameters` | ublk/src/control/mod.rs:144-154 | bumps `uniq` once; binds the empty parameter record; returns the decode of what the driver wrote |
| `Ctrl.UblkCtrl.GetQueueAffinity` | ublk/src/control/mod.rs:161-173 | bumps `uniq` once; binds an empty CPU set with the queue index in the first scratch word, which the driver reads back; returns the set the driver wrote |
| `Ctrl.UblkCtrl.GetAllQueuesAffinity` | ublk/src/control/mod.rs:180-193 | queries queues 0, 1, ... in order with consecutive ids. It succeeds exactly when every query succeeds, returning one set per queue. Otherwise it stops at the first failing queue, returns that error, and sends no further query |
| `Ctrl.UblkCtrl.GetDeviceInfo` | ublk/src/control/mod.rs:198-208 | bumps `uniq` once; binds a zero device-info record; returns the decode of what the driver wrote |
| `LegacySys.StatusValue` | src/control/mod.rs:27-35 | Dead is code 0 and Live is code 1 |
| `LegacySys.TryFromStatus` | src/control/mod.rs:46-56 | accepts exactly codes 0 and 1, each to the status with that code; rejects every other value |
| `LegacySys.StatusRoundTrip` | src/control/mod.rs:46-56 | reading the code of a status gives the status back |
| `LegacySys.WireCmd.New` | src/control/sys.rs:127-136 | the given device id, queue 0xFFFF, no buffer, scratch words `[0, 0]` |
| `LegacySys.WireCmd.Buffer` | src/control/sys.rs:140-145 | sets `addr` and `len` and nothing else |
| `LegacySys.WireCmd.Data0` | src/control/sys.rs:147-151 | sets the first scratch word and nothing else |
| `LegacySys.WireCmd.Data1` | src/control/sys.rs:153-157 | sets the second scratch word and nothing else |
| `LegacySys.ScratchWordsCommute` | src/control/sys.rs:147-157 | setting the two scratch words in either order gives the same command, keeping both values |
| `LegacySys.WireCmd.AsCmdData` | src/control/sys.rs:159-167 | 80 bytes with a zero tail, from which the driver reads back the record |
| `LegacySys.IntoDeviceInfo` | src/control/sys.rs:75-87 | aborts exactly when the state is neither 0 nor 1; otherwise the status has the state's code, flags are bits 0..2, and the rest is copied |
| `LegacySys.BuiltRecordRoundTrip` | src/control/sys.rs:44-87 | a record built by the setters decodes to a Dead device with the id, queues, depth and buffer size set, and flags `f & 0b111` |
| `LegacySys.GenerationsAgree` | src/control/sys.rs:75-87 | on states 0 and 1 the older decode succeeds. Its Live is exactly the current decode's `active`, and all other fields agree |
| `LegacySys.GenerationsDisagreeOnUnknownState` | src/control/sys.rs:80 | on a state above 1 the older decode aborts, while the current one reports an inactive device |
| `LegacyCtrl.DeviceOptions.New` | src/control/mod.rs:99-106 | 1 queue, depth 256, 512 KiB buffers, no flags, within the limits |
| `LegacyCtrl.DeviceOptions.NrHwQueues` | src/control/mod.rs:108-114 | the queue count becomes min(n, 32); nothing else changes |
| `LegacyCtrl.DeviceOptions.QueueDepth` | src/control/mod.rs:116-122 | the depth becomes min(d, 1024); nothing else changes |
| `LegacyCtrl.DeviceOptions.MaxIoBufBytes` | src/control/mod.rs:124-130 | the buffer size becomes min(b, 1048576); nothing else changes |
| `LegacyCtrl.DeviceOptions.Flags` | src/control/mod.rs:132-135 | sets the flags and nothing else |
| `LegacyCtrl.AddDeviceRecord` | src/control/mod.rs:186-191 | the AddDev record carries the given id; the raw flags word is exactly the bits of the requested flags; padding and reserved words zero; it decodes to a Dead device with exactly the options' values |
| `LegacyCtrl.DecodeAfter` | src/control/mod.rs:181-182 | an error result becomes an error carrying `-res`; after success, the outcome aborts exactly when the record's state is unknown, and otherwise is the decoded record |
| `LegacyCtrl.UblkCtrl.constructor` | src/control/mod.rs:167-172 | a fresh session has `entry_id = 0` and an empty log |
| `LegacyCtrl.UblkCtrl.SubmitCmd` | src/control/mod.rs:212-241 | bumps `entry_id` once and appends exactly one entry tagged with it; the result is the completion rule |
| `LegacyCtrl.UblkCtrl.GetDeviceInfo` | src/control/mod.rs:175-183 | one entry: GetDevInfo with a zero device-info record bound; the outcome is `DecodeAfter` of the driver's answer |
| `LegacyCtrl.UblkCtrl.AddDevice` | src/control/mod.rs:185-197 | one entry: AddDev with the same device id in command and record; the outcome is `DecodeAfter` of the driver's answer |
| `LegacyCtrl.UblkCtrl.DeleteDevice` | src/control/mod.rs:199-203 | one entry: a bare DelDev (`len = addr = 0`); maps the result |
| `LegacyCtrl.UblkCtrl.StopDevice` | src/control/mod.rs:205-209 | one entry: a bare StopDev (`len = addr = 0`); maps the result |
| `Affinity.CpuListAscending` | ublkctl/src/devinfo.rs:83-91 | every listed CPU is below the core count, and the list is strictly increasing, so it has no duplicates |
| `Affinity.CpuListMembers` | ublkctl/src/devinfo.rs:85-89 | c is listed exactly when 0 <= c < cores and bit c of the set is set |
| `Affinity.CpuListLength` | ublkctl/src/devinfo.rs:84-91 | the list holds at most `max(cores, 0)` CPUs, and none when the count is 0 |
| `Affinity.CpuListSaturates` | examples/devinfo.rs:92-96 | counts past the set's 1024 bits list no further CPU |
| `Affinity.GetCpuList` | ublkctl/src/devinfo.rs:83-91 | corrected loop: the result is the set's CPUs below `max(cores, 0)`, in ascending order |
| `Affinity.GetCpuListAsWritten` | examples/devinfo.rs:90-98 | the loop as written aborts exactly when `cores < 0` or `cores > 1024`, and otherwise returns the corrected list |
| `Affinity.UnreadableCoreCount` | examples/devinfo.rs:91 | for core count -1, the loop as written aborts while the corrected one returns the empty list |
| `Affinity.ManyCores` | examples/devinfo.rs:92-93 | for core count 1025, the loop as written aborts while the corrected one lists the set's CPUs |

## Left out

- Ring and device-node setup are left out, because they are OS I/O. This
  covers creating the ring, opening `/dev/ublk-control` and registering its
  descriptor (`UblkCtrl::new` in both generations). The constructors start
  from a ring that already exists.
- Three ring failures are left out:
  - a full submission queue;
  - an error from `io_uring_enter`;
  - a `submit_and_wait` count other than 1.
  The model's ring always accepts the entry and yields exactly one
  completion.
- The kernel driver's own behaviour is not modelled, because it is
  external. This covers id assignment, liveness, and its rejections. The
  driver is the session's parameter `kernel`.
- Pointer values and buffer lifetimes are left out. An address is the opaque
  token `bufAddr`. A length is the record's C size, as a constant. The
  lifetime pinning of a bound buffer is enforced when the Rust code compiles.
  In the model, binding and submission form one method.
- Byte order: the payload is written as a raw copy of a C struct, which the
  model takes to be little-endian (as on x86-64 and arm64).
- Ctrl.UblkCtrl.SubmitAndWait: does not model a 64-bit wrap of the request
  counter. It is a `nat`, and wrapping would take 2^64 commands.
- LegacyCtrl.UblkCtrl.SubmitCmd: does not model a 64-bit wrap of the entry
  counter, for the same reason.
- Ctrl.UblkCtrl.SubmitAndWait and LegacyCtrl.UblkCtrl.SubmitCmd: the panic of
  the `assert_eq!` on the completion's user data (ublk/src/control/sys.rs:134,
  src/control/mod.rs:227) is not modelled; the model's ring always echoes
  the entry's user data, so that check cannot fail here.
- Kernel.FlagBits, Kernel.AttrBits and CtrlSys.EncodeParams: values of the
  flag and attribute types that carry unrecognised bits (possible with
  `from_bits_retain`) are not modelled. Such bits would reach the driver
  through `bits()` and be dropped on decode, so the round trip would fail for
  them; the flags and attributes are sets of the named values only.
- Wire.Completion: does not model negating `i32::MIN`, which the driver never
  returns. `-res` is taken over the integers.
- LegacyCtrl.UblkCtrl.GetDeviceInfo: an abort of the client (`expect` on an
  unknown device state) is the outcome `Aborted`, not a process exit.
- LegacyCtrl.UblkCtrl.AddDevice: an abort on an unknown device state is
  likewise the outcome `Aborted`.
- Ctrl.UblkCtrl.GetAllQueuesAffinity: returns the CPU sets as a sequence.
  The list's reserved capacity (`Vec::with_capacity`) is not modelled.
- The CPU set is a `seq<bool>` of 1024 entries, not libc's word array. The
  core count is a parameter, not a call to `sysconf`.
- The command-line front-ends and the text formatting of device info and
  parameters are left out: they only print.

## Findings

| source | as written | input that shows it | evidently intended | confidence | as-written member | corrected member |
|---|---|---|---|---|---|---|
| ublkctl/src/devinfo.rs:84 (identical copy at examples/devinfo.rs:91) | `Vec::with_capacity(cores as usize)` casts the core count to an unsigned size. `sysconf` returns -1 when it cannot count the CPUs, which becomes `usize::MAX`, so the reservation aborts (capacity overflow) | `cores = -1` | an empty list when the core count is unknown or not positive | medium, not executed | `Affinity.GetCpuListAsWritten` (exhibited by `Affinity.UnreadableCoreCount`) | `Affinity.GetCpuList` |
| ublkctl/src/devinfo.rs:85-86 (identical copy at examples/devinfo.rs:92-93) | the loop runs to `cores` and tests each CPU with `CPU_ISSET`. The Rust libc crate's version indexes the set's fixed 1024-bit array and aborts past it | `cores = 1025` | CPUs at or beyond the set's size read as absent, as in the C library's macro | low, not executed | `Affinity.GetCpuListAsWritten` (exhibited by `Affinity.ManyCores`) | `Affinity.GetCpuList` |
