/** The block-I/O tracer of pkg/offcputime/tracer/tracer.go: it loads the
    biosnoop program, attaches five hooks and opens a perf reader (install),
    releases them again (close), and turns every perf read into an event for
    its callback (run). The kernel, the eBPF loader and the perf buffer are
    outside the model: what each foreign call answers is an input, and the
    foreign calls the tracer makes are recorded, in order, in `calls`. */
module OffcpuTracer {
  import opened Common

  // ---------------------------------------------------------------------
  // Hook descriptors and the foreign calls of install
  // ---------------------------------------------------------------------

  /** The foreign calls install makes, one per step, in program order. */
  datatype Stage =
    | LoadProgram        // loadBiosnoop
    | LoadSpec           // gadgets.LoadeBPFSpec, which fills objs
    | LoadSymbols        // kallsyms.NewKAllSyms
    | AttachMergeBio     // kprobe on blk_account_io_merge_bio
    | AttachIoStart      // kprobe on blk_account_io_start
    | AttachRqComplete   // raw tracepoint block_rq_complete
    | AttachRqInsert     // raw tracepoint block_rq_insert
    | AttachRqIssue      // raw tracepoint block_rq_issue
    | OpenReader         // perf.NewReader on the events map

  const Stages: seq<Stage> :=
    [LoadProgram, LoadSpec, LoadSymbols, AttachMergeBio, AttachIoStart,
     AttachRqComplete, AttachRqInsert, AttachRqIssue, OpenReader]

  datatype HookKind = Kprobe | RawTracepoint

  /** Where a program of the biosnoop object is attached, and which program. */
  datatype Hook = Hook(kind: HookKind, target: string, program: string)

  /** The hook each attach stage installs. The kprobe target of the second
      one is the literal "blk_account_io_start": the symbol name install
      computes from the kernel's symbol table is never used. */
  function HookOf(s: Stage): Option<Hook> {
    match s
    case AttachMergeBio => Some(Hook(Kprobe, "blk_account_io_merge_bio", "BlkAccountIoMergeBio"))
    case AttachIoStart => Some(Hook(Kprobe, "blk_account_io_start", "BlkAccountIoStart"))
    case AttachRqComplete => Some(Hook(RawTracepoint, "block_rq_complete", "BlockRqComplete"))
    case AttachRqInsert => Some(Hook(RawTracepoint, "block_rq_insert", "Z_blockRqInsert"))
    case AttachRqIssue => Some(Hook(RawTracepoint, "block_rq_issue", "Z_blockRqIssue"))
    case _ => None
  }

  /** The text install puts in front of the cause when a stage fails. */
  function StageContext(s: Stage): string {
    match s
    case LoadProgram => "loading ebpf program"
    case LoadSpec => "loading ebpf spec"
    case LoadSymbols => "loading kernel symbols"
    case AttachMergeBio => "attaching kprobe blk_account_io_merge_bio"
    case AttachIoStart => "attaching kprobe blk_account_io_start"
    case AttachRqComplete => "attaching tracepoint for block_rq_complete"
    case AttachRqInsert => "attaching tracepoint for block_rq_insert"
    case AttachRqIssue => "attaching tracepoint for block_rq_issue"
    case OpenReader => "creating perf ring buffer"
  }

  /** What the environment answers to one foreign call: a handle, or an error. */
  datatype StepResult = Done(handle: nat) | Failed(cause: string)

  /** The environment of one install: the answer to each of its calls. */
  type Env = Stage -> StepResult

  datatype Link = Link(id: nat)
  datatype Reader = Reader(id: nat)

  /** A foreign call made by the tracer. */
  datatype Call =
    | Attempt(stage: Stage)     // one install step
    | Detach(link: Link)        // gadgets.CloseLink on a present link
    | CloseReader(reader: Reader)
    | CloseObjects              // objs.Close

  /** Index in Stages of the first stage the environment fails, or |Stages|
      when every stage succeeds. */
  function FirstFailure(env: Env): (k: nat)
    ensures k <= |Stages|
    ensures forall i :: 0 <= i < k ==> env(Stages[i]).Done?
    ensures k < |Stages| ==> env(Stages[k]).Failed?
  {
    if env(LoadProgram).Failed? then 0
    else if env(LoadSpec).Failed? then 1
    else if env(LoadSymbols).Failed? then 2
    else if env(AttachMergeBio).Failed? then 3
    else if env(AttachIoStart).Failed? then 4
    else if env(AttachRqComplete).Failed? then 5
    else if env(AttachRqInsert).Failed? then 6
    else if env(AttachRqIssue).Failed? then 7
    else if env(OpenReader).Failed? then 8
    else 9
  }

  lemma FirstFailureIs(env: Env, k: nat)
    requires k <= |Stages|
    requires forall i :: 0 <= i < k ==> env(Stages[i]).Done?
    requires k < |Stages| ==> env(Stages[k]).Failed?
    ensures FirstFailure(env) == k
  {
  }

  /** Stage k fails and every stage before it succeeds. */
  predicate IsFirstFailure(env: Env, k: int) {
    0 <= k < |Stages| && env(Stages[k]).Failed? && forall i :: 0 <= i < k ==> env(Stages[i]).Done?
  }

  /** The text of the error install returns when stage k fails. */
  function FailureText(env: Env, k: nat): string
    requires k < |Stages| && env(Stages[k]).Failed?
  {
    StageContext(Stages[k]) + ": " + env(Stages[k]).cause
  }

  /** The error install returns: None when every stage succeeds, otherwise
      the first failing stage's context and cause. */
  function InstallError(env: Env): Option<string> {
    var k := FirstFailure(env);
    if k == |Stages| then None
    else Some(FailureText(env, k))
  }

  /** When stage i is the first to fail, install reports it and stops after it. */
  lemma FailsAt(env: Env, i: nat)
    requires i < |Stages| && i <= FirstFailure(env) && env(Stages[i]).Failed?
    ensures FirstFailure(env) == i
    ensures InstallError(env) == Some(FailureText(env, i)) && InstallCalls(env) == Attempts(i + 1)
  {
  }

  /** The install steps with index below n, as calls. */
  function Attempts(n: nat): (c: seq<Call>)
    requires n <= |Stages|
    ensures |c| == n && forall i :: 0 <= i < n ==> c[i] == Attempt(Stages[i])
  {
    if n == 0 then [] else Attempts(n - 1) + [Attempt(Stages[n - 1])]
  }

  /** The foreign calls install makes: every stage up to and including the
      first failing one. */
  function InstallCalls(env: Env): seq<Call> {
    var k := FirstFailure(env);
    Attempts(if k < |Stages| then k + 1 else |Stages|)
  }

  // ---------------------------------------------------------------------
  // The handle fields and what install and close do to them
  // ---------------------------------------------------------------------

  /** The link and reader fields of a Tracer, as one value. */
  datatype Handles = Handles(
    mergeBio: Option<Link>,
    ioStart: Option<Link>,
    blockIoStart: Option<Link>,
    rqComplete: Option<Link>,
    rqInsert: Option<Link>,
    rqIssue: Option<Link>,
    reader: Option<Reader>)

  const NoHandles: Handles := Handles(None, None, None, None, None, None, None)

  /** What a link-creating call returns: the link, or nil on error. */
  function LinkOf(r: StepResult): Option<Link> {
    if r.Done? then Some(Link(r.handle)) else None
  }

  function ReaderOf(r: StepResult): Option<Reader> {
    if r.Done? then Some(Reader(r.handle)) else None
  }

  /** A field install fills from the stage at index i, given the first
      failure k. A kprobe and the reader are assigned the call's result
      directly, so the failing call stores nil there (direct); a raw
      tracepoint goes through a local variable and is stored only once the
      call has succeeded. Stages after k never run. */
  function LinkSlot(prev: Option<Link>, env: Env, i: nat, k: nat, direct: bool): Option<Link>
    requires i < |Stages|
  {
    if i < k || (i == k && direct) then LinkOf(env(Stages[i])) else prev
  }

  /** The handle fields after install, given those before it. blockIoStart
      is not touched: install never assigns it. */
  function InstalledHandles(h: Handles, env: Env): Handles {
    var k := FirstFailure(env);
    Handles(
      mergeBio := LinkSlot(h.mergeBio, env, 3, k, true),
      ioStart := LinkSlot(h.ioStart, env, 4, k, true),
      blockIoStart := h.blockIoStart,
      rqComplete := LinkSlot(h.rqComplete, env, 5, k, false),
      rqInsert := LinkSlot(h.rqInsert, env, 6, k, false),
      rqIssue := LinkSlot(h.rqIssue, env, 7, k, false),
      reader := if 8 <= k then ReaderOf(env(OpenReader)) else h.reader)
  }

  /** The handle id held in the field a stage fills, None for a stage that
      fills no field. */
  function Slot(h: Handles, s: Stage): Option<nat> {
    match s
    case AttachMergeBio => LinkId(h.mergeBio)
    case AttachIoStart => LinkId(h.ioStart)
    case AttachRqComplete => LinkId(h.rqComplete)
    case AttachRqInsert => LinkId(h.rqInsert)
    case AttachRqIssue => LinkId(h.rqIssue)
    case OpenReader => if h.reader.Some? then Some(h.reader.value.id) else None
    case _ => None
  }

  function LinkId(l: Option<Link>): Option<nat> {
    if l.Some? then Some(l.value.id) else None
  }

  predicate FillsSlot(s: Stage) {
    HookOf(s).Some? || s == OpenReader
  }

  /** The six link fields in the order close releases them. */
  function LinkFields(h: Handles): seq<Option<Link>> {
    [h.mergeBio, h.ioStart, h.blockIoStart, h.rqComplete, h.rqInsert, h.rqIssue]
  }

  /** The handle fields after close: every link field is nil, the reader
      field is kept (close closes the reader but does not clear the field). */
  function ClosedHandles(h: Handles): Handles {
    h.(mergeBio := None, ioStart := None, blockIoStart := None,
       rqComplete := None, rqInsert := None, rqIssue := None)
  }

  /** gadgets.CloseLink detaches a present link and does nothing on nil. */
  function DetachCall(l: Option<Link>): seq<Call> {
    if l.Some? then [Detach(l.value)] else []
  }

  /** The foreign calls close makes on the given fields. */
  function CloseCalls(h: Handles): seq<Call> {
    DetachCall(h.mergeBio) + DetachCall(h.ioStart) + DetachCall(h.blockIoStart)
    + DetachCall(h.rqComplete) + DetachCall(h.rqInsert) + DetachCall(h.rqIssue)
    + (if h.reader.Some? then [CloseReader(h.reader.value)] else [])
    + [CloseObjects]
  }

  lemma AppendAssoc<T>(a: seq<T>, b: seq<T>, c: seq<T>)
    ensures (a + b) + c == a + (b + c)
  {
  }

  /** The order close releases things in: links, then the reader, then the objects. */
  function Rank(c: Call): nat {
    match c
    case Attempt(_) => 0
    case Detach(_) => 0
    case CloseReader(_) => 1
    case CloseObjects => 2
  }

  // ---------------------------------------------------------------------
  // Reads and events
  // ---------------------------------------------------------------------

  /** The fields of the biosnoop event record the tracer uses. */
  datatype RawEvent = RawEvent(ts: u64, delta: u64, pid: u32, comm: seq<byte>, sector: u64, len: u32)

  /** One call of the perf reader's Read: the reader was closed, the read
      failed, or a record arrived (with a count of samples the kernel lost). */
  datatype ReadResult = ReaderClosed | ReadFailed(cause: string) | Record(lostSamples: u64, raw: RawEvent)

  datatype EventType = Normal | Warn | Err

  /** The event handed to the callback. `time` is nanoseconds since the
      baseline startTs, `lat` the record's delta in nanoseconds. */
  datatype Event = Event(kind: EventType, message: string, comm: string, pid: nat,
                         time: int, lat: nat, sector: nat, len: nat)

  function ErrorEvent(cause: string): Event {
    Event(Err, "Error reading perf ring buffer: " + cause, "", 0, 0, 0, 0, 0)
  }

  function WarnEvent(lost: nat): Event {
    Event(Warn, "lost " + Decimal(lost) + " samples", "", 0, 0, 0, 0, 0)
  }

  /** The NORMAL event for one sample, against the baseline startTs. */
  function Translate(raw: RawEvent, startTs: nat): Event {
    Event(Normal, "", FromCString(raw.comm), raw.pid, raw.ts - startTs, raw.delta, raw.sector, raw.len)
  }

  predicate IsSample(r: ReadResult) {
    r.Record? && r.lostSamples == 0
  }

  predicate Terminal(r: ReadResult) {
    r.ReaderClosed? || r.ReadFailed?
  }

  /** Index of the first read that ends the loop, or |input| when none does. */
  function TerminalIndex(input: seq<ReadResult>): (n: nat)
    ensures n <= |input|
    ensures forall i :: 0 <= i < n ==> input[i].Record?
    ensures n < |input| ==> Terminal(input[n])
  {
    if input == [] || Terminal(input[0]) then 0 else 1 + TerminalIndex(input[1..])
  }

  /** What the loop has produced: the events, the final startTs, and whether
      the loop returned (as opposed to waiting in Read for more input). */
  datatype RunResult = RunResult(events: seq<Event>, startTs: nat, ended: bool)

  function Prefixed(e: Event, r: RunResult): RunResult {
    RunResult([e] + r.events, r.startTs, r.ended)
  }

  /** The read loop of run over a sequence of input, from the baseline s. */
  function RunSpec(input: seq<ReadResult>, s: nat): (r: RunResult)
    ensures r.ended <==> TerminalIndex(input) < |input|
    ensures |r.events| >= TerminalIndex(input)
    decreases |input|
  {
    if input == [] then RunResult([], s, false)
    else match input[0]
      case ReaderClosed => RunResult([], s, true)
      case ReadFailed(cause) => RunResult([ErrorEvent(cause)], s, true)
      case Record(lost, raw) =>
        if lost > 0 then Prefixed(WarnEvent(lost), RunSpec(input[1..], s))
        else
          var s' := if s == 0 then raw.ts else s;
          Prefixed(Translate(raw, s'), RunSpec(input[1..], s'))
  }

  /** A run that produced pre before producing r. */
  function Join(pre: seq<Event>, r: RunResult): RunResult {
    RunResult(pre + r.events, r.startTs, r.ended)
  }

  lemma JoinPrefixed(pre: seq<Event>, e: Event, r: RunResult)
    ensures Join(pre, Prefixed(e, r)) == Join(pre + [e], r)
  {
    AppendAssoc(pre, [e], r.events);
  }

  /** A NORMAL event carrying the sample's fields unchanged. */
  predicate CopiesSample(raw: RawEvent, e: Event) {
    e.kind == Normal && e.comm == FromCString(raw.comm) && e.pid == raw.pid
    && e.lat == raw.delta && e.sector == raw.sector && e.len == raw.len
  }

  /** The event a non-terminal read must produce. */
  predicate EventFor(r: ReadResult, e: Event) {
    r.Record? && (if r.lostSamples > 0 then e == WarnEvent(r.lostSamples) else CopiesSample(r.raw, e))
  }

  /** Every read before the first terminal one yields exactly one event: a
      warning for a read that lost samples, a NORMAL event copying the
      sample otherwise. A closed reader ends the loop with no event, a
      failed read with exactly one error event. */
  lemma {:induction false} RunEventsMatchReads(input: seq<ReadResult>, s: nat)
    ensures var r := RunSpec(input, s); var n := TerminalIndex(input);
      && |r.events| == n + (if n < |input| && input[n].ReadFailed? then 1 else 0)
      && (forall i :: 0 <= i < n ==> EventFor(input[i], r.events[i]))
      && (n < |input| && input[n].ReadFailed? ==> r.events[n] == ErrorEvent(input[n].cause))
    decreases |input|
  {
    if input != [] && input[0].Record? {
      var lost, raw := input[0].lostSamples, input[0].raw;
      var s' := if lost == 0 && s == 0 then raw.ts else s;
      RunEventsMatchReads(input[1..], s');
      var r, rest := RunSpec(input, s), RunSpec(input[1..], s');
      assert r.events == [r.events[0]] + rest.events;
      forall i | 1 <= i < TerminalIndex(input)
        ensures EventFor(input[i], r.events[i])
      {
        assert input[i] == input[1..][i - 1];
      }
    }
  }

  /** The ts of the first sample whose ts is not 0, or 0 when there is none:
      the value the package variable startTs takes from 0. */
  function FirstStamp(rs: seq<ReadResult>): nat {
    if rs == [] then 0
    else if IsSample(rs[0]) && rs[0].raw.ts != 0 then rs[0].raw.ts
    else FirstStamp(rs[1..])
  }

  lemma FirstStampSkip(rs: seq<ReadResult>, m: nat)
    requires 1 <= m <= |rs|
    requires !(IsSample(rs[0]) && rs[0].raw.ts != 0)
    ensures FirstStamp(rs[..m]) == FirstStamp(rs[1..][..m - 1])
  {
    assert rs[..m][1..] == rs[1..][..m - 1];
  }

  /** startTs is fixed once it is not 0, and otherwise taken from the first
      sample with a non-zero ts; lost-sample input never set it. Every NORMAL
      event's time is its ts minus the baseline as it stood after its own
      sample, so the sample that sets the baseline gets time 0. */
  lemma {:induction false} TimesAgainstBaseline(input: seq<ReadResult>, s: nat)
    ensures var r := RunSpec(input, s); var n := TerminalIndex(input);
      && r.startTs == (if s != 0 then s else FirstStamp(input[..n]))
      && forall i :: 0 <= i < n && IsSample(input[i]) ==>
           r.events[i].time == input[i].raw.ts - (if s != 0 then s else FirstStamp(input[..i + 1]))
    decreases |input|
  {
    if input != [] && input[0].Record? {
      var lost, raw := input[0].lostSamples, input[0].raw;
      var s' := if lost == 0 && s == 0 then raw.ts else s;
      TimesAgainstBaseline(input[1..], s');
      var r, rest := RunSpec(input, s), RunSpec(input[1..], s');
      var n := TerminalIndex(input);
      assert n == 1 + TerminalIndex(input[1..]);
      assert r.events == [r.events[0]] + rest.events;
      assert r.startTs == rest.startTs;
      if s == 0 && !(lost == 0 && raw.ts != 0) {
        FirstStampSkip(input, n);
      }
      forall i | 0 <= i < n && IsSample(input[i])
        ensures r.events[i].time == input[i].raw.ts - (if s != 0 then s else FirstStamp(input[..i + 1]))
      {
        if i > 0 {
          assert input[i] == input[1..][i - 1];
          if s == 0 && !(lost == 0 && raw.ts != 0) {
            FirstStampSkip(input, i + 1);
          }
        }
      }
    }
  }

  /** The baseline a prefix fixes stays fixed for every longer prefix. */
  lemma {:induction false} FirstStampStable(rs: seq<ReadResult>, m: nat, m2: nat)
    requires m <= m2 <= |rs| && FirstStamp(rs[..m]) != 0
    ensures FirstStamp(rs[..m2]) == FirstStamp(rs[..m])
    decreases |rs|
  {
    if !(IsSample(rs[0]) && rs[0].raw.ts != 0) {
      FirstStampSkip(rs, m);
      FirstStampSkip(rs, m2);
      FirstStampStable(rs[1..], m - 1, m2 - 1);
    }
  }

  /** A non-zero FirstStamp is the ts of some sample of rs; a zero one
      means every sample of rs has ts 0. */
  lemma {:induction false} FirstStampWitness(rs: seq<ReadResult>)
    ensures FirstStamp(rs) != 0 ==>
      exists k :: 0 <= k < |rs| && IsSample(rs[k]) && rs[k].raw.ts == FirstStamp(rs)
    ensures FirstStamp(rs) == 0 ==>
      forall k :: 0 <= k < |rs| && IsSample(rs[k]) ==> rs[k].raw.ts == 0
    decreases |rs|
  {
    if rs != [] && !(IsSample(rs[0]) && rs[0].raw.ts != 0) {
      FirstStampWitness(rs[1..]);
      if FirstStamp(rs) != 0 {
        var k :| 0 <= k < |rs[1..]| && IsSample(rs[1..][k]) && rs[1..][k].raw.ts == FirstStamp(rs);
        assert rs[k + 1] == rs[1..][k];
      } else {
        forall k | 0 <= k < |rs| && IsSample(rs[k])
          ensures rs[k].raw.ts == 0
        {
          if k > 0 {
            assert rs[k] == rs[1..][k - 1];
          }
        }
      }
    }
  }

  /** The samples' ts values never go down in arrival order. */
  predicate StampsInOrder(input: seq<ReadResult>) {
    forall i, j :: 0 <= i < j < |input| && IsSample(input[i]) && IsSample(input[j]) ==>
      input[i].raw.ts <= input[j].raw.ts
  }

  /** Two in-order samples measured against the baselines of their own
      prefixes: the earlier one's time is non-negative and not above the
      later one's. */
  lemma BaselinePair(input: seq<ReadResult>, i: nat, j: nat)
    requires StampsInOrder(input)
    requires i < j < |input| && IsSample(input[i]) && IsSample(input[j])
    ensures var bi, bj := FirstStamp(input[..i + 1]), FirstStamp(input[..j + 1]);
      0 <= input[i].raw.ts - bi <= input[j].raw.ts - bj
  {
    var bi, bj := FirstStamp(input[..i + 1]), FirstStamp(input[..j + 1]);
    FirstStampWitness(input[..i + 1]);
    FirstStampWitness(input[..j + 1]);
    if bi == 0 {
      assert input[..i + 1][i] == input[i];
      if bj != 0 {
        var k :| 0 <= k < j + 1 && IsSample(input[..j + 1][k]) && input[..j + 1][k].raw.ts == bj;
        assert input[..j + 1][k] == input[k];
      }
    } else {
      var k :| 0 <= k < i + 1 && IsSample(input[..i + 1][k]) && input[..i + 1][k].raw.ts == bi;
      assert input[..i + 1][k] == input[k];
      FirstStampStable(input, i + 1, j + 1);
    }
  }

  /** When the samples' timestamps arrive in order (and do not precede a
      baseline already set), every NORMAL event's time is non-negative and
      the times never go down. Nothing in the loop enforces that order: a
      sample older than the baseline gets a negative time. */
  lemma TimesInOrder(input: seq<ReadResult>, s: nat)
    requires StampsInOrder(input)
    requires s != 0 ==> forall i :: 0 <= i < |input| && IsSample(input[i]) ==> s <= input[i].raw.ts
    ensures var r := RunSpec(input, s); var n := TerminalIndex(input);
      forall i, j :: 0 <= i < j < n && IsSample(input[i]) && IsSample(input[j]) ==>
        0 <= r.events[i].time <= r.events[j].time
  {
    var r, n := RunSpec(input, s), TerminalIndex(input);
    TimesAgainstBaseline(input, s);
    forall i, j | 0 <= i < j < n && IsSample(input[i]) && IsSample(input[j])
      ensures 0 <= r.events[i].time <= r.events[j].time
    {
      if s == 0 {
        BaselinePair(input, i, j);
      }
    }
  }

  /** Reads that only report lost samples are dropped. */
  function DropLoss(rs: seq<ReadResult>): seq<ReadResult> {
    if rs == [] then []
    else if rs[0].Record? && rs[0].lostSamples > 0 then DropLoss(rs[1..])
    else [rs[0]] + DropLoss(rs[1..])
  }

  function DropWarnings(es: seq<Event>): seq<Event> {
    if es == [] then []
    else if es[0].kind == Warn then DropWarnings(es[1..])
    else [es[0]] + DropWarnings(es[1..])
  }

  /** Lost samples only ever add a warning: with those input removed, the
      loop produces the same non-warning events, the same startTs and the
      same ending. */
  lemma {:induction false} LossOnlyWarns(input: seq<ReadResult>, s: nat)
    ensures var r := RunSpec(input, s); var q := RunSpec(DropLoss(input), s);
      q.events == DropWarnings(r.events) && q.startTs == r.startTs && q.ended == r.ended
    decreases |input|
  {
    if input != [] {
      var r := RunSpec(input, s);
      match input[0]
      case ReaderClosed =>
        assert DropLoss(input) == [input[0]] + DropLoss(input[1..]);
      case ReadFailed(cause) =>
        assert DropLoss(input) == [input[0]] + DropLoss(input[1..]);
        assert DropWarnings(r.events) == [ErrorEvent(cause)] + DropWarnings([]);
      case Record(lost, raw) =>
        var s' := if lost == 0 && s == 0 then raw.ts else s;
        LossOnlyWarns(input[1..], s');
        var rest := RunSpec(input[1..], s');
        assert r.events[1..] == rest.events;
        if lost > 0 {
          assert DropWarnings(r.events) == DropWarnings(rest.events);
        } else {
          var d := DropLoss(input);
          assert d == [input[0]] + DropLoss(input[1..]);
          assert d[1..] == DropLoss(input[1..]);
          assert DropWarnings(r.events) == [r.events[0]] + DropWarnings(rest.events);
        }
    }
  }

  // ---------------------------------------------------------------------
  // The tracer
  // ---------------------------------------------------------------------

  /** The package-level variable startTs, shared by every Tracer. */
  class Clock {
    var startTs: nat

    constructor ()
      ensures startTs == 0
    {
      startTs := 0;
    }
  }

  class Tracer {
    var blkAccountIoMergeBio: Option<Link>
    var blkAccountIoStart: Option<Link>
    var blockIoStart: Option<Link>
    var blockRqComplete: Option<Link>
    var blockRqInsert: Option<Link>
    var blockRqIssue: Option<Link>
    var reader: Option<Reader>
    /** Every foreign call this tracer has made, oldest first. */
    var calls: seq<Call>

    function Fields(): Handles
      reads this
    {
      Handles(blkAccountIoMergeBio, blkAccountIoStart, blockIoStart, blockRqComplete,
              blockRqInsert, blockRqIssue, reader)
    }

    constructor ()
      ensures Fields() == NoHandles && calls == []
    {
      blkAccountIoMergeBio, blkAccountIoStart, blockIoStart := None, None, None;
      blockRqComplete, blockRqInsert, blockRqIssue := None, None, None;
      reader, calls := None, [];
    }

    /** Install step i: the foreign call of stage i, recorded after the
        steps before it. */
    method Invoke(env: Env, ghost c0: seq<Call>, i: nat) returns (r: StepResult)
      requires i < |Stages| && calls == c0 + Attempts(i)
      modifies this`calls
      ensures r == env(Stages[i]) && calls == c0 + Attempts(i + 1)
    {
      calls := calls + [Attempt(Stages[i])];
      r := env(Stages[i]);
    }

    /** The loading part of install: the program, the objects, the
        kernel's symbol table. */
    method LoadObjects(env: Env, ghost c0: seq<Call>) returns (err: Option<string>)
      requires calls == c0
      modifies this`calls
      ensures err.Some? <==> FirstFailure(env) < 3
      ensures err.Some? ==> err == InstallError(env) && calls == c0 + InstallCalls(env)
      ensures err.None? ==> calls == c0 + Attempts(3)
    {
      var r := Invoke(env, c0, 0);
      if r.Failed? {
        return Some(FailureText(env, 0));
      }
      r := Invoke(env, c0, 1);
      if r.Failed? {
        return Some(FailureText(env, 1));
      }
      r := Invoke(env, c0, 2);
      if r.Failed? {
        return Some(FailureText(env, 2));
      }
      return None;
    }

    /** The attaching part of install: the five hooks, in their fixed order. */
    method AttachHooks(env: Env, symbolExists: string -> bool, ghost c0: seq<Call>) returns (err: Option<string>)
      requires FirstFailure(env) >= 3 && calls == c0 + Attempts(3)
      modifies this`calls, this`blkAccountIoMergeBio, this`blkAccountIoStart,
        this`blockRqComplete, this`blockRqInsert, this`blockRqIssue
      ensures err.Some? <==> FirstFailure(env) < 8
      ensures err.Some? ==> err == InstallError(env) && calls == c0 + InstallCalls(env)
      ensures err.None? ==> calls == c0 + Attempts(8)
      ensures var k := FirstFailure(env);
        && blkAccountIoMergeBio == LinkSlot(old(blkAccountIoMergeBio), env, 3, k, true)
        && blkAccountIoStart == LinkSlot(old(blkAccountIoStart), env, 4, k, true)
        && blockRqComplete == LinkSlot(old(blockRqComplete), env, 5, k, false)
        && blockRqInsert == LinkSlot(old(blockRqInsert), env, 6, k, false)
        && blockRqIssue == LinkSlot(old(blockRqIssue), env, 7, k, false)
    {
      var r := Invoke(env, c0, 3);
      blkAccountIoMergeBio := LinkOf(r);
      if r.Failed? {
        FailsAt(env, 3);
        return Some(FailureText(env, 3));
      }
      // Chosen from the kernel's symbols but never used below.
      var blkAccountIoStartFunction := "__blk_account_io_start";
      if !symbolExists(blkAccountIoStartFunction) {
        blkAccountIoStartFunction := "blk_account_io_start";
      }
      r := Invoke(env, c0, 4);
      blkAccountIoStart := LinkOf(r);
      if r.Failed? {
        FailsAt(env, 4);
        return Some(FailureText(env, 4));
      }
      r := Invoke(env, c0, 5);
      if r.Failed? {
        FailsAt(env, 5);
        return Some(FailureText(env, 5));
      }
      blockRqComplete := LinkOf(r);
      r := Invoke(env, c0, 6);
      if r.Failed? {
        FailsAt(env, 6);
        return Some(FailureText(env, 6));
      }
      blockRqInsert := LinkOf(r);
      r := Invoke(env, c0, 7);
      if r.Failed? {
        FailsAt(env, 7);
        return Some(FailureText(env, 7));
      }
      blockRqIssue := LinkOf(r);
      return None;
    }

    method Install(env: Env, symbolExists: string -> bool) returns (err: Option<string>)
      modifies this
      ensures err == InstallError(env)
      ensures Fields() == InstalledHandles(old(Fields()), env)
      ensures calls == old(calls) + InstallCalls(env)
    {
      ghost var c0 := calls;
      err := LoadObjects(env, c0);
      if err.Some? {
        return;
      }
      err := AttachHooks(env, symbolExists, c0);
      if err.Some? {
        return;
      }
      var r := Invoke(env, c0, 8);
      reader := ReaderOf(r);
      if r.Failed? {
        return Some(FailureText(env, 8));
      }
      return None;
    }

    /** gadgets.CloseLink: detach the link when there is one; the field becomes nil. */
    method CloseLink(l: Option<Link>) returns (cleared: Option<Link>)
      modifies this`calls
      ensures cleared == None && calls == old(calls) + DetachCall(l)
    {
      if l.Some? {
        calls := calls + [Detach(l.value)];
      }
      cleared := None;
    }

    method Close()
      modifies this
      ensures Fields() == ClosedHandles(old(Fields()))
      ensures calls == old(calls) + CloseCalls(old(Fields()))
    {
      ghost var h, c0 := Fields(), calls;
      ghost var d1, d2, d3 := DetachCall(h.mergeBio), DetachCall(h.ioStart), DetachCall(h.blockIoStart);
      ghost var d4, d5, d6 := DetachCall(h.rqComplete), DetachCall(h.rqInsert), DetachCall(h.rqIssue);
      blkAccountIoMergeBio := CloseLink(blkAccountIoMergeBio);
      blkAccountIoStart := CloseLink(blkAccountIoStart);
      AppendAssoc(c0, d1, d2);
      blockIoStart := CloseLink(blockIoStart);
      AppendAssoc(c0, d1 + d2, d3);
      blockRqComplete := CloseLink(blockRqComplete);
      AppendAssoc(c0, d1 + d2 + d3, d4);
      blockRqInsert := CloseLink(blockRqInsert);
      AppendAssoc(c0, d1 + d2 + d3 + d4, d5);
      blockRqIssue := CloseLink(blockRqIssue);
      AppendAssoc(c0, d1 + d2 + d3 + d4 + d5, d6);
      ghost var ds := d1 + d2 + d3 + d4 + d5 + d6;
      ghost var rd: seq<Call> := if reader.Some? then [CloseReader(reader.value)] else [];
      if reader.Some? {
        calls := calls + [CloseReader(reader.value)];
      }
      AppendAssoc(c0, ds, rd);
      calls := calls + [CloseObjects];
      AppendAssoc(c0, ds + rd, [CloseObjects]);
    }

    method Stop()
      modifies this
      ensures Fields() == ClosedHandles(old(Fields()))
      ensures calls == old(calls) + CloseCalls(old(Fields()))
    {
      Close();
    }

    /** The loop of run: read until the reader is closed or a read fails,
        handing one event per read to the callback (here: appending it to
        events). ended is false when the input ran out with the loop still
        waiting in Read. */
    method ReadLoop(input: seq<ReadResult>, clock: Clock) returns (events: seq<Event>, ended: bool)
      requires reader.Some?
      modifies clock
      ensures RunResult(events, clock.startTs, ended) == RunSpec(input, old(clock.startTs))
    {
      ghost var s0 := clock.startTs;
      events, ended := [], false;
      assert Join(events, RunSpec(input[0..], s0)) == RunSpec(input, s0) by {
        assert input[0..] == input;
      }
      var i := 0;
      while i < |input|
        invariant 0 <= i <= |input| && !ended
        invariant RunSpec(input, s0) == Join(events, RunSpec(input[i..], clock.startTs))
      {
        var read := input[i];
        ghost var s, rest := clock.startTs, input[i + 1..];
        assert input[i..][0] == read && input[i..][1..] == rest;
        if read.ReaderClosed? {
          ended := true;
          return;
        } else if read.ReadFailed? {
          events := events + [ErrorEvent(read.cause)];
          ended := true;
          return;
        }
        if read.lostSamples > 0 {
          JoinPrefixed(events, WarnEvent(read.lostSamples), RunSpec(rest, s));
          events := events + [WarnEvent(read.lostSamples)];
        } else {
          if clock.startTs == 0 {
            clock.startTs := read.raw.ts;
          }
          JoinPrefixed(events, Translate(read.raw, clock.startTs), RunSpec(rest, clock.startTs));
          events := events + [Translate(read.raw, clock.startTs)];
        }
        i := i + 1;
      }
      assert input[i..] == [];
    }

    /** Run: install, then read until done, then close (deferred, so it also
        runs when install fails). */
    method Run(env: Env, symbolExists: string -> bool, input: seq<ReadResult>, clock: Clock)
      returns (err: Option<string>, events: seq<Event>, ended: bool)
      modifies this, clock
      ensures InstallError(env).Some? ==>
        err == Some("installing tracer: " + InstallError(env).value) && events == [] && !ended
        && clock.startTs == old(clock.startTs)
      ensures InstallError(env).None? ==>
        err == None && RunResult(events, clock.startTs, ended) == RunSpec(input, old(clock.startTs))
      ensures Fields() == ClosedHandles(InstalledHandles(old(Fields()), env))
      ensures calls == old(calls) + InstallCalls(env) + CloseCalls(InstalledHandles(old(Fields()), env))
    {
      var e := Install(env, symbolExists);
      if e.Some? {
        Close();
        return Some("installing tracer: " + e.value), [], false;
      }
      FirstFailureIs(env, 9);
      events, ended := ReadLoop(input, clock);
      Close();
      err := None;
    }
  }

  /** NewTracer: install a fresh tracer; on failure close it and return no
      tracer, on success start the read loop. The loop, which runs on its
      own goroutine in the source, is modelled as running over the given
      input before NewTracer returns. calls are the foreign calls made. */
  method NewTracer(env: Env, symbolExists: string -> bool, input: seq<ReadResult>, clock: Clock)
    returns (t: Tracer?, err: Option<string>, calls: seq<Call>, events: seq<Event>, ended: bool)
    modifies clock
    ensures InstallError(env).Some? ==>
      t == null && err == Some(InstallError(env).value + " install tracer")
      && calls == InstallCalls(env) + CloseCalls(InstalledHandles(NoHandles, env))
      && events == [] && !ended && clock.startTs == old(clock.startTs)
    ensures InstallError(env).None? ==>
      t != null && fresh(t) && err == None
      && t.Fields() == InstalledHandles(NoHandles, env) && calls == t.calls == InstallCalls(env)
      && RunResult(events, clock.startTs, ended) == RunSpec(input, old(clock.startTs))
  {
    var tr := new Tracer();
    var e := tr.Install(env, symbolExists);
    ghost var h := InstalledHandles(NoHandles, env);
    assert tr.Fields() == h && tr.calls == InstallCalls(env) && e == InstallError(env);
    if e.Some? {
      tr.Close();
      assert tr.calls == InstallCalls(env) + CloseCalls(h);
      return null, Some(e.value + " install tracer"), tr.calls, [], false;
    }
    FirstFailureIs(env, 9);
    assert tr.reader.Some?;
    events, ended := tr.ReadLoop(input, clock);
    assert tr.Fields() == h && tr.calls == InstallCalls(env);
    t, err, calls := tr, None, tr.calls;
  }

  // ---------------------------------------------------------------------
  // Properties of install and close
  // ---------------------------------------------------------------------

  /** install succeeds exactly when every one of its calls succeeds. */
  lemma InstallSucceedsIffAllStagesDo(env: Env)
    ensures InstallError(env).None? <==> forall i :: 0 <= i < |Stages| ==> env(Stages[i]).Done?
  {
  }

  /** A failed install reports the stage that failed first: its context
      text, then ": " and its cause. */
  lemma InstallErrorNamesFirstFailure(env: Env)
    ensures InstallError(env).Some? ==>
      exists k :: IsFirstFailure(env, k) && InstallError(env).value == FailureText(env, k)
  {
  }

  /** On a fresh tracer, install leaves exactly the handles of the stages
      before the first failure set; every later field stays nil, and
      blockIoStart is never set. */
  lemma {:induction false} InstallFromScratch(env: Env)
    ensures var h := InstalledHandles(NoHandles, env); var k := FirstFailure(env);
      && h.blockIoStart == None
      && forall i :: 0 <= i < |Stages| ==>
           Slot(h, Stages[i]) == if i < k && FillsSlot(Stages[i]) then Some(env(Stages[i]).handle) else None
  {
    var h := InstalledHandles(NoHandles, env);
    var k := FirstFailure(env);
    forall i | 0 <= i < |Stages|
      ensures Slot(h, Stages[i]) == if i < k && FillsSlot(Stages[i]) then Some(env(Stages[i]).handle) else None
    {
      assert i in {0, 1, 2, 3, 4, 5, 6, 7, 8};
    }
  }

  /** The calls of install come in the fixed order: the three loading
      stages, the five hooks, the reader; the reader is only opened once
      all five hooks are attached. */
  lemma ReaderOpenedAfterAllHooks(env: Env)
    ensures var c := InstallCalls(env);
      && (forall i :: 0 <= i < |c| ==> c[i] == Attempt(Stages[i]))
      && (Attempt(OpenReader) in c ==>
            forall i :: 0 <= i < |Stages| && HookOf(Stages[i]).Some? ==> env(Stages[i]).Done?)
  {
    var c := InstallCalls(env);
    if Attempt(OpenReader) in c {
      var j :| 0 <= j < |c| && c[j] == Attempt(OpenReader);
      assert j == 8;
    }
  }

  /** install stops at the first failure: its calls are a non-empty prefix
      of the stages in which every call but the last succeeded, and the
      last failed unless all nine ran. */
  lemma InstallStopsAtFirstFailure(env: Env)
    ensures var c := InstallCalls(env);
      && 1 <= |c| <= |Stages|
      && (forall i :: 0 <= i < |c| ==> c[i] == Attempt(Stages[i]))
      && (forall i :: 0 <= i < |c| - 1 ==> env(Stages[i]).Done?)
      && (|c| < |Stages| ==> env(Stages[|c| - 1]).Failed?)
  {
  }

  predicate RankSorted(c: seq<Call>) {
    forall i, j :: 0 <= i < j < |c| ==> Rank(c[i]) <= Rank(c[j])
  }

  lemma RankSortedAfterDetaches(links: seq<Call>, tail: seq<Call>)
    requires forall x :: x in links ==> x.Detach?
    requires RankSorted(tail)
    ensures RankSorted(links + tail)
  {
    var c := links + tail;
    forall i, j | 0 <= i < j < |c|
      ensures Rank(c[i]) <= Rank(c[j])
    {
      if i < |links| {
        assert c[i] == links[i] && links[i] in links;
        if j < |links| {
          assert c[j] == links[j] && links[j] in links;
        }
      } else {
        assert c[i] == tail[i - |links|] && c[j] == tail[j - |links|];
      }
    }
  }

  /** close releases every present link and no other link, ranked before
      the reader, with the objects last. */
  lemma CloseOrder(h: Handles)
    ensures var c := CloseCalls(h);
      && c[|c| - 1] == CloseObjects
      && (forall i, j :: 0 <= i < j < |c| ==> Rank(c[i]) <= Rank(c[j]))
      && (forall l :: Detach(l) in c <==> Some(l) in LinkFields(h))
  {
    var links := DetachCall(h.mergeBio) + DetachCall(h.ioStart) + DetachCall(h.blockIoStart)
      + DetachCall(h.rqComplete) + DetachCall(h.rqInsert) + DetachCall(h.rqIssue);
    var rd: seq<Call> := if h.reader.Some? then [CloseReader(h.reader.value)] else [];
    var tail := rd + [CloseObjects];
    var c := CloseCalls(h);
    AppendAssoc(links, rd, [CloseObjects]);
    assert c == links + tail;
    assert forall x :: x in links ==> x.Detach?;
    assert forall l :: Detach(l) in links <==> Some(l) in LinkFields(h);
    assert RankSorted(tail) by {
      if h.reader.Some? {
        assert tail == [CloseReader(h.reader.value), CloseObjects];
      } else {
        assert tail == [CloseObjects];
      }
    }
    RankSortedAfterDetaches(links, tail);
    forall l
      ensures Detach(l) in c <==> Some(l) in LinkFields(h)
    {
      assert Detach(l) !in tail;
    }
  }

  /** close closes the reader exactly when the reader field holds one,
      and makes no install call. */
  lemma CloseClosesHeldReader(h: Handles)
    ensures forall x :: CloseReader(x) in CloseCalls(h) <==> h.reader == Some(x)
    ensures forall x :: x in CloseCalls(h) ==> !x.Attempt?
  {
    var links := DetachCall(h.mergeBio) + DetachCall(h.ioStart) + DetachCall(h.blockIoStart)
      + DetachCall(h.rqComplete) + DetachCall(h.rqInsert) + DetachCall(h.rqIssue);
    var rd: seq<Call> := if h.reader.Some? then [CloseReader(h.reader.value)] else [];
    AppendAssoc(links, rd, [CloseObjects]);
    assert CloseCalls(h) == links + (rd + [CloseObjects]);
    assert forall x :: x in links ==> x.Detach?;
  }

  /** close is idempotent on the links: after one close, a second detaches
      nothing and leaves the fields as they are. */
  lemma SecondCloseDetachesNothing(h: Handles)
    ensures ClosedHandles(ClosedHandles(h)) == ClosedHandles(h)
    ensures forall c :: c in CloseCalls(ClosedHandles(h)) ==> !c.Detach?
  {
  }

  /** A failed NewTracer leaves nothing attached: every link install
      attached is detached again by the close that follows. */
  lemma {:induction false} FailedInstallTearsDown(env: Env)
    requires InstallError(env).Some?
    ensures var h := InstalledHandles(NoHandles, env);
      forall i :: 0 <= i < FirstFailure(env) && HookOf(Stages[i]).Some? ==>
        Detach(Link(env(Stages[i]).handle)) in CloseCalls(h)
  {
    var h := InstalledHandles(NoHandles, env);
    InstallFromScratch(env);
    CloseOrder(h);
    forall i | 0 <= i < FirstFailure(env) && HookOf(Stages[i]).Some?
      ensures Detach(Link(env(Stages[i]).handle)) in CloseCalls(h)
    {
      assert Slot(h, Stages[i]) == Some(env(Stages[i]).handle);
      assert i in {3, 4, 5, 6, 7};
      assert Some(Link(env(Stages[i]).handle)) in LinkFields(h);
    }
  }
}
