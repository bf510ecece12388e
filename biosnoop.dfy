/** The kernel side of biosnoop (pkg/biosnoop/tracer/bpf/biosnoop.bpf.c):
    six hooks that correlate a block request from its start, through its
    insertion and issue, to its completion, using two hash maps keyed by
    the request pointer. Each hook invocation is one atomic step. What the
    kernel would be asked for (current task, cgroup membership, clock, the
    request's disk and fields) is an input of the step. */
module Biosnoop {
  import opened Common

  /** A struct request pointer, the key of both maps. */
  type Req = u64

  const TASK_COMM_LEN: nat := 16

  /** The per-request record of infobyreq. */
  datatype PidData = PidData(comm: seq<byte>, pid: u32)

  /** The per-request record of start; insert is its first u64. */
  datatype StageRec = StageRec(insert: u64, issue: u64, dev: u32)

  /** The read-only globals the loader sets. */
  datatype Config = Config(filterCg: bool, targQueued: bool, filterDev: bool, targDev: u32, minNs: u64)

  /** The fields of the perf event the model fills (qdelta and dev are left out). */
  datatype BpfEvent = BpfEvent(comm: seq<byte>, pid: u32, delta: u64, ts: u64,
                               sector: u64, len: u32, cmdFlags: u32)

  /** What the running task looks like to a hook. */
  datatype Task = Task(pidTgid: u64, comm: seq<byte>, inCgroup: bool)

  /** The raw tracepoint argument array of block_rq_insert and block_rq_issue. */
  datatype Ctx = Ctx(arg0: u64, arg1: u64)

  /** The request fields block_rq_complete reads. */
  datatype RqFields = RqFields(sector: u64, dataLen: u32, cmdFlags: u32)

  /** The kernel's answers during one hook invocation: the task, the clock,
      the device number of the request's disk (None for no disk) and the
      request's fields. */
  datatype Env = Env(task: Task, now: u64, disk: Option<u32>, fields: RqFields)

  datatype Hook =
    | AccountIoStart(rq: Req)   // kprobe/blk_account_io_start
    | IoStart(rq: Req)          // raw_tp/block_io_start
    | MergeBio(rq: Req)         // kprobe/blk_account_io_merge_bio
    | RqInsert(ctx: Ctx)        // raw_tp/block_rq_insert
    | RqIssue(ctx: Ctx)         // raw_tp/block_rq_issue
    | RqComplete(rq: Req)       // raw_tp/block_rq_complete

  datatype Firing = Firing(hook: Hook, env: Env)

  /** The two maps and the perf events emitted so far. */
  datatype State = State(infobyreq: map<Req, PidData>, start: map<Req, StageRec>, output: seq<BpfEvent>)

  const Empty: State := State(map[], map[], [])

  /** libbpf's KERNEL_VERSION(a, b, c). */
  function KernelVersion(a: nat, b: nat, c: nat): nat {
    a * 65536 + b * 256 + (if c > 255 then 255 else c)
  }

  /** The cgroup filter every hook starts with: false means return 0 at once. */
  predicate Admitted(cfg: Config, task: Task) {
    !(cfg.filterCg && !task.inCgroup)
  }

  /** The record trace_pid stores: the tgid (upper half of pid_tgid) and the comm. */
  function PidDataOf(task: Task): (p: PidData)
    ensures p.pid * 0x1_0000_0000 <= task.pidTgid < (p.pid + 1) * 0x1_0000_0000
    ensures p.comm == task.comm
  {
    PidData(task.comm, task.pidTgid / 0x1_0000_0000)
  }

  /** The three start hooks share one body: the cgroup filter, then trace_pid. */
  function AfterStart(cfg: Config, st: State, rq: Req, task: Task): State {
    if !Admitted(cfg, task) then st
    else st.(infobyreq := st.infobyreq[rq := PidDataOf(task)])
  }

  /** The stage with the chosen timestamp field set to ts, the rest kept. */
  function Stamped(s: StageRec, insert: bool, ts: u64): StageRec {
    if insert then s.(insert := ts) else s.(issue := ts)
  }

  function DevOf(disk: Option<u32>): u32 {
    if disk.Some? then disk.value else 0
  }

  /** trace_rq_start: stamp the existing stage in place, or create one
      (unless the device filter rejects its device). */
  function AfterRqStart(cfg: Config, st: State, rq: Req, insert: bool, disk: Option<u32>, ts: u64): State {
    if rq in st.start then st.(start := st.start[rq := Stamped(st.start[rq], insert, ts)])
    else if cfg.filterDev && cfg.targDev != DevOf(disk) then st
    else st.(start := st.start[rq := Stamped(StageRec(0, 0, DevOf(disk)), insert, ts)])
  }

  /** The tracepoint argument holding the request: its position moved in
      Linux 5.11. */
  function RqArg(version: nat, ctx: Ctx): Req {
    if version < KernelVersion(5, 11, 0) then ctx.arg1 else ctx.arg0
  }

  /** (s64)(ts - t): the u64 difference, wrapped, read as two's complement. */
  function Delta(ts: u64, t: u64): (d: int)
    ensures -TWO_63 <= d < TWO_63
    ensures (ts - t - d) % TWO_64 == 0
    ensures t <= ts && ts - t < TWO_63 ==> d == ts - t
    ensures ts < t && t - ts <= TWO_63 ==> d < 0
  {
    var w := (ts - t) % TWO_64;
    if w < TWO_63 then w else w - TWO_64
  }

  /** The comm of an event whose request has no infobyreq entry: "?" then zeros. */
  const UnknownComm: seq<byte> := [63, 0, 0, 0, 0, 0, 0, 0, 0, 0, 0, 0, 0, 0, 0, 0]

  /** Whether block_rq_complete emits for a delta: the C test is
      `delta < 0 || delta < min_ns` (once delta >= 0 the unsigned
      comparison C makes agrees with the signed one). */
  predicate Emits(cfg: Config, delta: int) {
    !(delta < 0 || delta < cfg.minNs)
  }

  /** The event for a request whose delta passed the filters. */
  function CompletionEvent(st: State, rq: Req, delta: nat, env: Env): BpfEvent
    requires delta < TWO_63
  {
    var comm := if rq in st.infobyreq then st.infobyreq[rq].comm else UnknownComm;
    var pid := if rq in st.infobyreq then st.infobyreq[rq].pid else 0;
    BpfEvent(comm, pid, delta, env.now, env.fields.sector, env.fields.dataLen, env.fields.cmdFlags)
  }

  /** block_rq_complete. */
  function AfterComplete(cfg: Config, st: State, rq: Req, env: Env): State {
    if !Admitted(cfg, env.task) || rq !in st.start then st
    else
      var delta := Delta(env.now, st.start[rq].insert);
      var out := if Emits(cfg, delta) then st.output + [CompletionEvent(st, rq, delta, env)] else st.output;
      State(st.infobyreq - {rq}, st.start - {rq}, out)
  }

  /** One hook invocation. */
  function Apply(cfg: Config, version: nat, st: State, f: Firing): State {
    match f.hook
    case AccountIoStart(rq) => AfterStart(cfg, st, rq, f.env.task)
    case IoStart(rq) => AfterStart(cfg, st, rq, f.env.task)
    case MergeBio(rq) => AfterStart(cfg, st, rq, f.env.task)
    case RqInsert(ctx) =>
      if !Admitted(cfg, f.env.task) then st
      else AfterRqStart(cfg, st, RqArg(version, ctx), false, f.env.disk, f.env.now)
    case RqIssue(ctx) =>
      if !Admitted(cfg, f.env.task) then st
      else AfterRqStart(cfg, st, RqArg(version, ctx), true, f.env.disk, f.env.now)
    case RqComplete(rq) => AfterComplete(cfg, st, rq, f.env)
  }

  /** A sequence of hook invocations, in order. */
  function Replay(cfg: Config, version: nat, st: State, fs: seq<Firing>): State
    decreases |fs|
  {
    if fs == [] then st else Replay(cfg, version, Apply(cfg, version, st, fs[0]), fs[1..])
  }

  /** What the maps and the output always satisfy: with the device filter
      on, every stage is for the target device; every emitted delta is
      non-negative as an s64 and at least min_ns. */
  predicate Invariant(cfg: Config, st: State) {
    && (cfg.filterDev ==> forall rq :: rq in st.start ==> st.start[rq].dev == cfg.targDev)
    && (forall i :: 0 <= i < |st.output| ==> cfg.minNs <= st.output[i].delta < TWO_63)
  }

  // ---------------------------------------------------------------------
  // Properties of one hook invocation
  // ---------------------------------------------------------------------

  /** A hook that fails the cgroup filter changes nothing. */
  lemma FilteredFiringChangesNothing(cfg: Config, version: nat, st: State, f: Firing)
    requires !Admitted(cfg, f.env.task)
    ensures Apply(cfg, version, st, f) == st
  {
  }

  /** Each start hook replaces the request's infobyreq entry with the
      current tgid and comm, and touches nothing else. */
  lemma StartHookRecordsTask(cfg: Config, version: nat, st: State, f: Firing)
    requires f.hook.AccountIoStart? || f.hook.IoStart? || f.hook.MergeBio?
    requires Admitted(cfg, f.env.task)
    ensures var r := Apply(cfg, version, st, f);
      && r.infobyreq == st.infobyreq[f.hook.rq := PidData(f.env.task.comm, f.env.task.pidTgid / 0x1_0000_0000)]
      && r.start == st.start && r.output == st.output
  {
  }

  /** trace_rq_start on a request with a stage: only the chosen timestamp
      changes, in place; the device and the other timestamp are kept and
      the device filter is not consulted again. */
  lemma RqStartOnKnownRequest(cfg: Config, st: State, rq: Req, insert: bool, disk: Option<u32>, ts: u64)
    requires rq in st.start
    ensures var r := AfterRqStart(cfg, st, rq, insert, disk, ts); var old_ := st.start[rq];
      && r.start.Keys == st.start.Keys && r.infobyreq == st.infobyreq && r.output == st.output
      && (forall q :: q in st.start && q != rq ==> r.start[q] == st.start[q])
      && r.start[rq].dev == old_.dev
      && (insert ==> r.start[rq].insert == ts && r.start[rq].issue == old_.issue)
      && (!insert ==> r.start[rq].issue == ts && r.start[rq].insert == old_.insert)
  {
  }

  /** trace_rq_start on a request without a stage: the device is the
      disk's (0 without a disk); a device the filter rejects leaves the
      maps alone, otherwise a stage is created with only the chosen
      timestamp set. */
  lemma RqStartOnNewRequest(cfg: Config, st: State, rq: Req, insert: bool, disk: Option<u32>, ts: u64)
    requires rq !in st.start
    ensures var r := AfterRqStart(cfg, st, rq, insert, disk, ts); var dev := if disk.Some? then disk.value else 0;
      && r.infobyreq == st.infobyreq && r.output == st.output
      && (cfg.filterDev && cfg.targDev != dev ==> r.start == st.start)
      && (!(cfg.filterDev && cfg.targDev != dev) ==>
            r.start == st.start[rq := if insert then StageRec(ts, 0, dev) else StageRec(0, ts, dev)])
  {
  }

  /** The insert tracepoint stamps the issue field and the issue tracepoint
      the insert field; both read the request from the second argument
      before Linux 5.11 and from the first after. */
  lemma TracepointsStampSwappedFields(cfg: Config, version: nat, st: State, f: Firing)
    requires f.hook.RqInsert? || f.hook.RqIssue?
    requires Admitted(cfg, f.env.task)
    ensures var rq := if version < 5 * 65536 + 11 * 256 then f.hook.ctx.arg1 else f.hook.ctx.arg0;
      Apply(cfg, version, st, f) == AfterRqStart(cfg, st, rq, f.hook.RqIssue?, f.env.disk, f.env.now)
  {
  }

  /** block_rq_complete on a request without a stage does nothing. */
  lemma CompleteWithoutStageDoesNothing(cfg: Config, st: State, rq: Req, env: Env)
    requires rq !in st.start
    ensures AfterComplete(cfg, st, rq, env) == st
  {
  }

  /** block_rq_complete on a staged request: both entries go, and exactly
      one event is emitted when the delta from the insert field is
      non-negative and at least min_ns, none otherwise. The event carries
      the recorded comm and pid ("?" and 0 without a record), the delta,
      the completion time and the request's fields. */
  lemma CompleteEmitsIffDeltaPasses(cfg: Config, st: State, rq: Req, env: Env)
    requires Admitted(cfg, env.task) && rq in st.start
    ensures var r := AfterComplete(cfg, st, rq, env); var d := Delta(env.now, st.start[rq].insert);
      && rq !in r.start && rq !in r.infobyreq
      && r.start == st.start - {rq} && r.infobyreq == st.infobyreq - {rq}
      && (|r.output| == |st.output| + 1 <==> 0 <= d && cfg.minNs <= d)
      && (|r.output| != |st.output| + 1 ==> r.output == st.output)
      && (0 <= d && cfg.minNs <= d ==>
            var e := r.output[|st.output|];
            r.output == st.output + [e]
            && e.delta == d && e.ts == env.now && e.sector == env.fields.sector
            && e.len == env.fields.dataLen && e.cmdFlags == env.fields.cmdFlags
            && (rq in st.infobyreq ==> e.comm == st.infobyreq[rq].comm && e.pid == st.infobyreq[rq].pid)
            && (rq !in st.infobyreq ==> e.comm == UnknownComm && e.pid == 0))
  {
  }

  /** The placeholder comm reads back as "?" with the C-string conversion
      user space applies. */
  lemma UnknownCommReadsAsQuestionMark()
    ensures FromCString(UnknownComm) == "?"
  {
  }

  lemma ApplyKeepsInvariant(cfg: Config, version: nat, st: State, f: Firing)
    requires Invariant(cfg, st)
    ensures Invariant(cfg, Apply(cfg, version, st, f))
  {
  }

  // ---------------------------------------------------------------------
  // Properties of a sequence of invocations
  // ---------------------------------------------------------------------

  /** Every sequence of hook invocations keeps the invariant. */
  lemma {:induction false} ReplayKeepsInvariant(cfg: Config, version: nat, st: State, fs: seq<Firing>)
    requires Invariant(cfg, st)
    ensures Invariant(cfg, Replay(cfg, version, st, fs))
    decreases |fs|
  {
    if fs != [] {
      ApplyKeepsInvariant(cfg, version, st, fs[0]);
      ReplayKeepsInvariant(cfg, version, Apply(cfg, version, st, fs[0]), fs[1..]);
    }
  }

  /** Emitted events are never withdrawn: the output only grows. */
  lemma {:induction false} ReplayOnlyAppends(cfg: Config, version: nat, st: State, fs: seq<Firing>)
    ensures var r := Replay(cfg, version, st, fs);
      |st.output| <= |r.output| && r.output[..|st.output|] == st.output
    decreases |fs|
  {
    if fs != [] {
      var mid := Apply(cfg, version, st, fs[0]);
      ReplayOnlyAppends(cfg, version, mid, fs[1..]);
      var r := Replay(cfg, version, mid, fs[1..]);
      assert mid.output[..|st.output|] == st.output;
      assert r.output[..|st.output|] == r.output[..|mid.output|][..|st.output|];
    }
  }

  /** One request's life on a kernel since 5.11, from a fresh pair of
      maps: started by a task, inserted at t1, issued at t2, completed at
      t3. The one event carries the task's tgid and comm and the time from
      the issue to the completion, and the request leaves both maps. */
  lemma RequestLifecycle(cfg: Config, version: nat, rq: Req, task: Task, disk: Option<u32>, t1: u64, t2: u64, t3: u64, fields: RqFields)
    requires version >= KernelVersion(5, 11, 0)
    requires Admitted(cfg, task) && !(cfg.filterDev && cfg.targDev != DevOf(disk))
    requires t2 <= t3 && t3 - t2 < TWO_63 && cfg.minNs <= t3 - t2
    ensures var fs := [Firing(AccountIoStart(rq), Env(task, t1, disk, fields)),
                       Firing(RqInsert(Ctx(rq, 0)), Env(task, t1, disk, fields)),
                       Firing(RqIssue(Ctx(rq, 0)), Env(task, t2, disk, fields)),
                       Firing(RqComplete(rq), Env(task, t3, disk, fields))];
      Replay(cfg, version, Empty, fs)
        == State(map[], map[], [BpfEvent(task.comm, task.pidTgid / 0x1_0000_0000, t3 - t2, t3,
                                         fields.sector, fields.dataLen, fields.cmdFlags)])
  {
    var fs := [Firing(AccountIoStart(rq), Env(task, t1, disk, fields)),
               Firing(RqInsert(Ctx(rq, 0)), Env(task, t1, disk, fields)),
               Firing(RqIssue(Ctx(rq, 0)), Env(task, t2, disk, fields)),
               Firing(RqComplete(rq), Env(task, t3, disk, fields))];
    var s1 := Apply(cfg, version, Empty, fs[0]);
    var s2 := Apply(cfg, version, s1, fs[1]);
    var s3 := Apply(cfg, version, s2, fs[2]);
    var s4 := Apply(cfg, version, s3, fs[3]);
    assert s1.infobyreq == map[rq := PidDataOf(task)] && s1.start == map[];
    assert s2.start == map[rq := StageRec(0, t1, DevOf(disk))];
    assert s3.start == map[rq := StageRec(t2, t1, DevOf(disk))] && s3.infobyreq == s1.infobyreq;
    assert Delta(t3, t2) == t3 - t2;
    assert s4.infobyreq == map[] && s4.start == map[];
    assert Replay(cfg, version, s4, []) == s4;
    assert fs[3..][1..] == [] && fs[2..][1..] == fs[3..] && fs[1..][1..] == fs[2..];
    assert Replay(cfg, version, s3, fs[3..]) == s4;
    assert Replay(cfg, version, s2, fs[2..]) == s4;
    assert Replay(cfg, version, s1, fs[1..]) == s4;
  }

  // ---------------------------------------------------------------------
  // The loaded program
  // ---------------------------------------------------------------------

  /** The loaded object: its read-only configuration, the kernel version
      it runs on, its two maps and the events it has sent to the perf
      buffer. */
  class Program {
    const cfg: Config
    const version: nat
    var infobyreq: map<Req, PidData>
    var start: map<Req, StageRec>
    var output: seq<BpfEvent>

    function Snapshot(): State
      reads this
    {
      State(infobyreq, start, output)
    }

    predicate Valid()
      reads this
    {
      Invariant(cfg, Snapshot())
    }

    constructor (cfg: Config, version: nat)
      ensures this.cfg == cfg && this.version == version
      ensures Snapshot() == Empty && Valid()
    {
      this.cfg, this.version := cfg, version;
      infobyreq, start, output := map[], map[], [];
    }

    method TracePid(rq: Req, task: Task)
      modifies this`infobyreq
      ensures infobyreq == old(infobyreq)[rq := PidDataOf(task)]
    {
      var piddata := PidData(task.comm, task.pidTgid / 0x1_0000_0000);
      infobyreq := infobyreq[rq := piddata];
    }

    /** blk_account_io_start, block_io_start and blk_account_io_merge_bio:
        the same body behind three hooks. */
    method OnRequestStart(rq: Req, env: Env)
      requires Valid()
      modifies this`infobyreq
      ensures Snapshot() == AfterStart(cfg, old(Snapshot()), rq, env.task) && Valid()
    {
      if cfg.filterCg && !env.task.inCgroup {
        return;
      }
      TracePid(rq, env.task);
    }

    method TraceRqStart(rq: Req, insert: bool, disk: Option<u32>, ts: u64)
      requires Valid()
      modifies this`start
      ensures Snapshot() == AfterRqStart(cfg, old(Snapshot()), rq, insert, disk, ts) && Valid()
    {
      var stage: StageRec;
      if rq in start {
        stage := start[rq];
      } else {
        var dev: u32 := if disk.Some? then disk.value else 0;
        if cfg.filterDev && cfg.targDev != dev {
          return;
        }
        stage := StageRec(0, 0, dev);
      }
      if insert {
        stage := stage.(insert := ts);
      } else {
        stage := stage.(issue := ts);
      }
      start := start[rq := stage];
    }

    method ZBlockRqInsert(ctx: Ctx, env: Env)
      requires Valid()
      modifies this`start
      ensures Snapshot() == Apply(cfg, version, old(Snapshot()), Firing(RqInsert(ctx), env)) && Valid()
    {
      if cfg.filterCg && !env.task.inCgroup {
        return;
      }
      if version < KernelVersion(5, 11, 0) {
        TraceRqStart(ctx.arg1, false, env.disk, env.now);
      } else {
        TraceRqStart(ctx.arg0, false, env.disk, env.now);
      }
    }

    method ZBlockRqIssue(ctx: Ctx, env: Env)
      requires Valid()
      modifies this`start
      ensures Snapshot() == Apply(cfg, version, old(Snapshot()), Firing(RqIssue(ctx), env)) && Valid()
    {
      if cfg.filterCg && !env.task.inCgroup {
        return;
      }
      if version < KernelVersion(5, 11, 0) {
        TraceRqStart(ctx.arg1, true, env.disk, env.now);
      } else {
        TraceRqStart(ctx.arg0, true, env.disk, env.now);
      }
    }

    method BlockRqComplete(rq: Req, env: Env)
      requires Valid()
      modifies this
      ensures Snapshot() == AfterComplete(cfg, old(Snapshot()), rq, env) && Valid()
    {
      ghost var st := Snapshot();
      ApplyKeepsInvariant(cfg, version, st, Firing(RqComplete(rq), env));
      if cfg.filterCg && !env.task.inCgroup {
        return;
      }
      var ts := env.now;
      if rq !in start {
        return;
      }
      var delta := Delta(ts, start[rq].insert);
      if !(delta < 0 || delta < cfg.minNs) {
        var comm: seq<byte>, pid: u32;
        if rq !in infobyreq {
          comm, pid := UnknownComm, 0;
        } else {
          comm, pid := infobyreq[rq].comm, infobyreq[rq].pid;
        }
        var event := BpfEvent(comm, pid, delta, ts, env.fields.sector, env.fields.dataLen, env.fields.cmdFlags);
        output := output + [event];
      }
      start := start - {rq};
      infobyreq := infobyreq - {rq};
    }

    /** Deliver one hook invocation to its handler. */
    method Fire(f: Firing)
      requires Valid()
      modifies this
      ensures Snapshot() == Apply(cfg, version, old(Snapshot()), f) && Valid()
    {
      match f.hook
      case AccountIoStart(rq) => OnRequestStart(rq, f.env);
      case IoStart(rq) => OnRequestStart(rq, f.env);
      case MergeBio(rq) => OnRequestStart(rq, f.env);
      case RqInsert(ctx) => ZBlockRqInsert(ctx, f.env);
      case RqIssue(ctx) => ZBlockRqIssue(ctx, f.env);
      case RqComplete(rq) => BlockRqComplete(rq, f.env);
    }
  }
}
