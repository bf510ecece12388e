# etcdmon tracing core in Dafny

etcdmon watches the block I/O and file-system activity of an `etcd` process and shows live statistics. This project models the five pieces of sequential logic at its core and proves their properties:

- **Block-I/O tracer** (`pkg/offcputime/tracer/tracer.go`), module `OffcpuTracer`.
  - `install` loads the biosnoop object, attaches two kprobes and three raw tracepoints in a fixed order, and opens a perf reader. It stops at the first failure.
  - `close` detaches every link, then closes the reader, then the objects.
  - `run` turns each perf read into an event for the callback. Time is measured against the package-global baseline `startTs`.
  - `Tracer` is a class:
    - its link and reader fields hold optional handles;
    - the answer of every foreign call is an input `Env`;
    - every foreign call the tracer makes is recorded in the field `calls`.
  - The reads are an input sequence, and the events come out as a sequence. `startTs` lives in a `Clock` object shared by tracers.
- **Kernel-side request correlation** (`pkg/biosnoop/tracer/bpf/biosnoop.bpf.c`), module `Biosnoop`.
  - Six hooks update two hash maps keyed by the request pointer:
    - `infobyreq` holds the pid and comm;
    - `start` holds a stage record with insert, issue and dev.
  - The completion hook does three things:
    - computes the s64 delta from the stage's first field;
    - emits an event when that delta passes the filters;
    - deletes the request from both maps.
  - Each hook invocation is one atomic step.
    - The spec functions (`Apply`, `Replay`) work on a `State` value.
    - The `Program` class holds the maps as fields, and each hook is a method proved against `Apply`.
- **Slow-fs aggregator** (`pkg/checks/checks_fsslower.go`), module `FsSlower`. The event callback keeps a count, the maximum latency and the op that set it, over the `etcd` events, and rewrites the view.
- **Histogram rounds** (`pkg/checks/checks_biolatency.go`), module `Biolatency`.
  - Each round turns a report's intervals into bar-chart values, labels and a maximum with a floor of 20.
  - A round ends abandoned, unpublished or published, or it panics.
- **Top-stats selector** (`pkg/checks/checks_biotop.go`), module `Biotop`. After each batch, the view holds only the one-row table of the batch's last `etcd` stat.

Machine integers are explicit:

- `u32`, `u64` and `byte` are subset types.
- The biosnoop delta wraps modulo 2^64 and is read as two's complement.
- Go's `int(uint64)` in the chart is the two's-complement reading of the same bits.

Numbers that Go prints with `%v` or `%d` are rendered by `Common.Decimal`, which is proved to round-trip.

Two facts about the code are worth stating up front:

- Relative times can be negative, and they can go down: a sample stamped earlier than the baseline, or earlier than the sample before it, gets a smaller time. `OffcpuTracer.TimesInOrder` states the condition on arrival order under which times are non-negative and non-decreasing.
- A histogram report that does not decode makes the rounds loop panic; it is not retried.
- A second close closes the reader and the objects again: close sets only the link fields to nil and keeps the reader field, so only the detaches are not repeated.

## Model

| member | source | states |
|---|---|---|
| Common.Decimal | pkg/offcputime/tracer/tracer.go:186 | the decimal text of a count: at least one digit, all digits, no leading zero unless the value is 0 |
| Common.DecimalValue | pkg/offcputime/tracer/tracer.go:186 | reading the decimal text back gives the number; nothing is lost by rendering |
| Common.DecimalInjective | pkg/checks/checks_biolatency.go:75 | distinct numbers have distinct decimal texts |
| Common.FromCString | pkg/offcputime/tracer/tracer.go:203 | the comm is the bytes before the first zero byte, one character per byte; a shorter result is followed by a zero byte |
| OffcpuTracer.FirstFailure | pkg/offcputime/tracer/tracer.go:109-162 | the index of the first failing install step: all earlier steps succeed and that one fails, or all nine succeed |
| OffcpuTracer.InstallError | pkg/offcputime/tracer/tracer.go:109-167 | defines install's error: none when all nine stages succeed, otherwise the first failing stage's context text, then ": " and its cause (stated by InstallSucceedsIffAllStagesDo and InstallErrorNamesFirstFailure) |
| OffcpuTracer.InstallCalls | pkg/offcputime/tracer/tracer.go:109-167 | defines install's foreign calls: every stage up to and including the first failing one (stated by InstallStopsAtFirstFailure and ReaderOpenedAfterAllHooks) |
| OffcpuTracer.InstalledHandles | pkg/offcputime/tracer/tracer.go:126-162 | defines the handle fields after install: kprobe fields and the reader take the call's result up to the first failure, tracepoint fields only a success, blockIoStart is never assigned (its properties are stated by InstallFromScratch) |
| OffcpuTracer.InstallSucceedsIffAllStagesDo | pkg/offcputime/tracer/tracer.go:109-167 | install returns no error exactly when every one of its nine foreign calls succeeds |
| OffcpuTracer.InstallErrorNamesFirstFailure | pkg/offcputime/tracer/tracer.go:112-162 | a failed install's error is the context text of a stage that fails with no failure before it, then ": " and that stage's cause |
| OffcpuTracer.InstallStopsAtFirstFailure | pkg/offcputime/tracer/tracer.go:109-167 | install's calls are a non-empty prefix of the nine stages, in order; every call but the last succeeded, and the last failed unless all nine ran |
| OffcpuTracer.InstallFromScratch | pkg/offcputime/tracer/tracer.go:126-162 | on a fresh tracer, a handle field is set exactly when its stage ran before the first failure; blockIoStart is never set |
| OffcpuTracer.ReaderOpenedAfterAllHooks | pkg/offcputime/tracer/tracer.go:126-162 | install calls the stages in the fixed order (merge_bio, account_io_start, rq_complete, rq_insert, rq_issue, reader); the reader is opened only after all five hooks are attached |
| OffcpuTracer.CloseCalls | pkg/offcputime/tracer/tracer.go:93-107 | defines close's foreign calls: the present links detached in field order, then the reader when the field holds one, then the objects (stated by CloseOrder and CloseClosesHeldReader) |
| OffcpuTracer.ClosedHandles | pkg/offcputime/tracer/tracer.go:93-107 | defines the handle fields after close: every link field nil, the reader field kept (stated by Tracer.Close, SecondCloseDetachesNothing and CloseOrder) |
| OffcpuTracer.CloseOrder | pkg/offcputime/tracer/tracer.go:93-107 | close detaches exactly the present links, then closes the reader, then the objects, which come last |
| OffcpuTracer.CloseClosesHeldReader | pkg/offcputime/tracer/tracer.go:93-107 | close closes a reader exactly when the reader field holds that reader, and makes no install call |
| OffcpuTracer.SecondCloseDetachesNothing | pkg/offcputime/tracer/tracer.go:95-100 | after one close, a second close detaches no link |
| OffcpuTracer.FailedInstallTearsDown | pkg/offcputime/tracer/tracer.go:76-79 | after a failed install and its close, no link is left attached, and every link install made is detached |
| OffcpuTracer.RunSpec | pkg/offcputime/tracer/tracer.go:171-216 | the loop ends exactly when a read is closed or fails; up to then there is at least one event per read |
| OffcpuTracer.Translate | pkg/offcputime/tracer/tracer.go:193-209 | defines a sample's NORMAL event: comm as a C string, pid, delta, sector and len copied, and time the sample's ts minus the baseline (stated by RunEventsMatchReads and TimesAgainstBaseline) |
| OffcpuTracer.RunEventsMatchReads | pkg/offcputime/tracer/tracer.go:172-215 | each read before the terminal one yields exactly one event: a warning with the lost count, or a NORMAL event copying pid, sector, len, delta and the C-string comm. A closed reader adds no event; a failed read adds exactly one error event |
| OffcpuTracer.TimesAgainstBaseline | pkg/offcputime/tracer/tracer.go:193-197 | startTs changes only from 0, to the first sample's non-zero ts, and then stays fixed; each sample's time is its ts minus the baseline after it, so the sample that sets the baseline gets time 0 |
| OffcpuTracer.TimesInOrder | pkg/offcputime/tracer/tracer.go:193-197 | when sample timestamps arrive in order, times are non-negative and non-decreasing |
| OffcpuTracer.LossOnlyWarns | pkg/offcputime/tracer/tracer.go:185-189 | removing the lost-sample reads removes exactly the warnings: the same other events, the same startTs, the same ending |
| OffcpuTracer.Tracer.constructor | pkg/offcputime/tracer/tracer.go:70-74 | a new tracer has no handles and has made no calls |
| OffcpuTracer.Tracer.LoadObjects | pkg/offcputime/tracer/tracer.go:112-124 | the three loading steps, stopping at the first failure with its context text |
| OffcpuTracer.Tracer.AttachHooks | pkg/offcputime/tracer/tracer.go:126-157 | the five attach steps in order. A kprobe field takes the call's result, nil on failure; a tracepoint field is set only on success |
| OffcpuTracer.Tracer.Install | pkg/offcputime/tracer/tracer.go:109-167 | the error text of the first failing stage (or none), the new handle fields, and the calls made |
| OffcpuTracer.Tracer.CloseLink | pkg/offcputime/tracer/tracer.go:95-100 | a present link is detached, and the field comes back nil |
| OffcpuTracer.Tracer.Close | pkg/offcputime/tracer/tracer.go:93-107 | all six link fields become nil with the reader field kept; the calls are the detaches, then the reader close, then the objects close |
| OffcpuTracer.Tracer.Stop | pkg/offcputime/tracer/tracer.go:89-91 | the same new state and calls as close |
| OffcpuTracer.Tracer.ReadLoop | pkg/offcputime/tracer/tracer.go:171-216 | the events, the final startTs and the ending are exactly those of RunSpec from the old startTs |
| OffcpuTracer.Tracer.Run | pkg/offcputime/tracer/tracer.go:221-234 | a failed install gives "installing tracer: " and its error, with no events; otherwise the read loop's result. Close runs on both paths |
| OffcpuTracer.NewTracer | pkg/offcputime/tracer/tracer.go:67-85 | on failure: no tracer, the error followed by " install tracer", install's calls then close's calls, and no events. On success: a fresh tracer holding install's handles, and the read loop's events |
| OffcpuTracer.Clock.constructor | pkg/offcputime/tracer/tracer.go:169 | startTs starts at 0 |
| Biosnoop.PidDataOf | pkg/biosnoop/tracer/bpf/biosnoop.bpf.c:64-71 | the stored pid is the upper 32 bits of pid_tgid, and the comm is the task's |
| Biosnoop.Delta | pkg/biosnoop/tracer/bpf/biosnoop.bpf.c:177 | the delta is the u64 difference read as s64: within the s64 range, congruent to ts - t modulo 2^64, equal to ts - t when ts is later by less than 2^63, and negative when ts is earlier |
| Biosnoop.AfterStart | pkg/biosnoop/tracer/bpf/biosnoop.bpf.c:63-100 | defines the start hooks: the cgroup filter, then trace_pid's upsert of infobyreq (stated by StartHookRecordsTask and FilteredFiringChangesNothing) |
| Biosnoop.AfterRqStart | pkg/biosnoop/tracer/bpf/biosnoop.bpf.c:102-125 | defines trace_rq_start: stamp a known stage in place, or create one unless the device filter rejects it (stated by RqStartOnKnownRequest and RqStartOnNewRequest) |
| Biosnoop.AfterComplete | pkg/biosnoop/tracer/bpf/biosnoop.bpf.c:161-207 | defines block_rq_complete: the s64 delta from the stage, the conditional emit, and both deletes (stated by CompleteEmitsIffDeltaPasses and CompleteWithoutStageDoesNothing) |
| Biosnoop.Apply | pkg/biosnoop/tracer/bpf/biosnoop.bpf.c:75-207 | defines one hook invocation, dispatching on the hook, with the tracepoints reading the request from the version-dependent argument (stated by ApplyKeepsInvariant and TracepointsStampSwappedFields) |
| Biosnoop.Replay | pkg/biosnoop/tracer/bpf/biosnoop.bpf.c:75-207 | defines a run of hook invocations in order (stated by ReplayKeepsInvariant, ReplayOnlyAppends and RequestLifecycle) |
| Biosnoop.FilteredFiringChangesNothing | pkg/biosnoop/tracer/bpf/biosnoop.bpf.c:76-166 | with the cgroup filter on, a hook fired outside the cgroup changes no map and emits nothing |
| Biosnoop.StartHookRecordsTask | pkg/biosnoop/tracer/bpf/biosnoop.bpf.c:64-100 | each start hook replaces the request's infobyreq entry with the tgid and comm, and touches nothing else |
| Biosnoop.RqStartOnKnownRequest | pkg/biosnoop/tracer/bpf/biosnoop.bpf.c:108-121 | for a staged request, only the chosen timestamp changes; dev, the other timestamp and every other entry are kept, and the dev filter is not checked again |
| Biosnoop.RqStartOnNewRequest | pkg/biosnoop/tracer/bpf/biosnoop.bpf.c:108-124 | for a new request, dev is the disk's (0 without a disk). A device the filter rejects leaves the map unchanged; otherwise a stage is created with only the chosen timestamp set |
| Biosnoop.TracepointsStampSwappedFields | pkg/biosnoop/tracer/bpf/biosnoop.bpf.c:127-159 | the insert tracepoint stamps the issue field and the issue tracepoint the insert field, through the version-dependent argument |
| Biosnoop.CompleteWithoutStageDoesNothing | pkg/biosnoop/tracer/bpf/biosnoop.bpf.c:174-176 | completing a request with no stage emits nothing and changes no map |
| Biosnoop.CompleteEmitsIffDeltaPasses | pkg/biosnoop/tracer/bpf/biosnoop.bpf.c:174-205 | both entries are deleted. One event is emitted exactly when the delta from the insert field is >= 0 and >= min_ns. The event carries the comm and pid from infobyreq ("?" and 0 without an entry), the delta, ts, sector, len and cmd_flags |
| Biosnoop.UnknownCommReadsAsQuestionMark | pkg/biosnoop/tracer/bpf/biosnoop.bpf.c:182 | the placeholder comm reads back as "?" through the C-string conversion |
| Biosnoop.ApplyKeepsInvariant | pkg/biosnoop/tracer/bpf/biosnoop.bpf.c:102-205 | each hook keeps the invariant: with the dev filter on, every stage is for the target device; every emitted delta lies in [min_ns, 2^63) |
| Biosnoop.ReplayKeepsInvariant | pkg/biosnoop/tracer/bpf/biosnoop.bpf.c:75-207 | any sequence of hook invocations keeps that invariant |
| Biosnoop.ReplayOnlyAppends | pkg/biosnoop/tracer/bpf/biosnoop.bpf.c:200-201 | emitted events are never withdrawn; the output only grows |
| Biosnoop.RequestLifecycle | pkg/biosnoop/tracer/bpf/biosnoop.bpf.c:75-205 | start, insert, issue and complete on one request give one event with the task's tgid and comm and the time from issue to completion, and leave both maps empty |
| Biosnoop.Program.constructor | pkg/biosnoop/tracer/bpf/biosnoop.bpf.c:17-55 | the loaded program starts with empty maps and no output |
| Biosnoop.Program.TracePid | pkg/biosnoop/tracer/bpf/biosnoop.bpf.c:63-73 | trace_pid upserts the request's pid and comm |
| Biosnoop.Program.OnRequestStart | pkg/biosnoop/tracer/bpf/biosnoop.bpf.c:75-100 | the three start hooks, proved against AfterStart, keeping the invariant |
| Biosnoop.Program.TraceRqStart | pkg/biosnoop/tracer/bpf/biosnoop.bpf.c:102-125 | trace_rq_start, proved against AfterRqStart, keeping the invariant |
| Biosnoop.Program.ZBlockRqInsert | pkg/biosnoop/tracer/bpf/biosnoop.bpf.c:127-142 | the insert tracepoint, proved against Apply |
| Biosnoop.Program.ZBlockRqIssue | pkg/biosnoop/tracer/bpf/biosnoop.bpf.c:144-159 | the issue tracepoint, proved against Apply |
| Biosnoop.Program.BlockRqComplete | pkg/biosnoop/tracer/bpf/biosnoop.bpf.c:161-207 | the completion hook, proved against AfterComplete, keeping the invariant |
| Biosnoop.Program.Fire | pkg/biosnoop/tracer/bpf/biosnoop.bpf.c:75-207 | any hook invocation, proved against Apply |
| FsSlower.Step | pkg/checks/checks_fsslower.go:30-39 | one event: a non-etcd event changes nothing; an etcd event adds one to the count and raises maxLat to its latency when larger, and the op changes only when maxLat strictly rises, to the event's op |
| FsSlower.Aggregate | pkg/checks/checks_fsslower.go:24-39 | defines the totals after a run of events, from count 0, maxLat 0 and op "W" (stated by CountIsEtcdEvents, MaxLatIsMaximum and OpOfFirstMaximum) |
| FsSlower.CountIsEtcdEvents | pkg/checks/checks_fsslower.go:39 | count equals the number of etcd events seen |
| FsSlower.MaxLatIsMaximum | pkg/checks/checks_fsslower.go:34-37 | maxLat bounds every etcd latency, and is 0 or one of them |
| FsSlower.OpOfFirstMaximum | pkg/checks/checks_fsslower.go:34-37 | maxLatOp is the op of the first etcd event that reached maxLat, because ties keep the earlier op; it is "W" while maxLat is 0 |
| FsSlower.OnlyEtcdMatters | pkg/checks/checks_fsslower.go:30-32 | non-etcd events leave the totals unchanged: the totals over all events equal the totals over the etcd events |
| FsSlower.Monotone | pkg/checks/checks_fsslower.go:34-39 | more events never lower count or maxLat |
| FsSlower.TieKeepsEarlierOp | pkg/checks/checks_fsslower.go:29-39 | a worked run: a tie keeps the earlier op, and another command's event is ignored |
| FsSlower.Monitor.constructor | pkg/checks/checks_fsslower.go:24-27 | the initial totals are count 0, maxLat 0 and op "W", with the header shown |
| FsSlower.Monitor.OnEvent | pkg/checks/checks_fsslower.go:29-48 | a non-etcd event changes nothing. An etcd event applies one step and rewrites the view with the new count, its own latency, op and timestamp, and the running maximum. The totals always equal Aggregate of the events seen |
| Biolatency.GoInt | pkg/checks/checks_biolatency.go:69 | int(uint64) is the same 64 bits read as two's complement: in range, congruent modulo 2^64, and non-negative exactly below 2^63 |
| Biolatency.Label | pkg/checks/checks_biolatency.go:75 | defines an interval's label as start, a dash, then end in decimal (stated by LabelRoundTrip) |
| Biolatency.IsChartOf | pkg/checks/checks_biolatency.go:63-76 | defines the chart of a report: one value and one label per interval in order, and maxValue the largest of 20 and the values (stated by ChartIsUnique and BuildChart) |
| Biolatency.ChartIsUnique | pkg/checks/checks_biolatency.go:63-76 | the chart specification fixes the values, the labels and maxValue |
| Biolatency.LabelRoundTrip | pkg/checks/checks_biolatency.go:75 | splitting a label at its dash gives back the interval's start and end |
| Biolatency.TwoBucketChart | pkg/checks/checks_biolatency.go:63-76 | a worked round: counts 5 and 30 give values [5, 30], maxValue 30 and labels "0-1" and "1-2" |
| Biolatency.BuildChart | pkg/checks/checks_biolatency.go:63-76 | one value and one label per interval, in order; values[i] is int(Count); labels[i] is Start-End; maxValue is max(20, every value). Empty intervals give empty slices and 20 |
| Biolatency.PanicIndex | pkg/checks/checks_biolatency.go:57-61 | the index of the first undecodable report: every earlier round decodes |
| Biolatency.Rounds | pkg/checks/checks_biolatency.go:35-81 | the loop stops only at the first undecodable report, with a panic; every round before it ends as the `Outcome` its reply and publish result call for |
| Biotop.LastEtcd | pkg/checks/checks_biotop.go:39-46 | None exactly when the batch has no etcd stat; otherwise an etcd stat with no etcd stat after it |
| Biotop.LastEtcdIsLastOfFilter | pkg/checks/checks_biotop.go:39-46 | LastEtcd equals the naive reference: filter on etcd, then take the last |
| Biotop.TableOf | pkg/checks/checks_biotop.go:35-42 | defines what WriteTable writes for one stat: the columns pid, r/w, bytes and time, and one row of that stat (used by OnStats and ShownRowIsEtcd) |
| Biotop.TopView.OnStats | pkg/checks/checks_biotop.go:38-47 | with no etcd stat in the batch, the view is unchanged; otherwise the view holds exactly the one-row table of the last etcd stat |
| Biotop.ShownRowIsEtcd | pkg/checks/checks_biotop.go:40-42 | a batch with an etcd stat always rewrites the view. The table written has the columns pid, r/w, bytes, time and one row, taken from an etcd stat of the batch |

## Left out

- Floating point:
  - the `/1e9` time scale and `/1e6` latency scale in tracer.go;
  - the `float64` type of `startTs`, which rounds timestamps above 2^53.
  Times and latencies are integer nanoseconds.
- Text rendering:
  - the `Fprintf` texts and `%.2f ms` of fsslower;
  - `time.Unix(...).Format`;
  - the table layout of the columns formatter.
  The views are modelled as the data written to them.
- Concurrency: `go t.run()` runs on its own goroutine, and the model runs it sequentially.
  - In `OffcpuTracer.NewTracer`, the loop consumes the given reads before NewTracer returns.
  - In `OffcpuTracer.Tracer.Run`, it runs before the deferred close.
  - A close that interrupts the loop is modelled as the reader-closed read.
  - Waiting on signals and gadget contexts is outside the model.
- Foreign calls are inputs: eBPF loading, kallsyms, attaching, `perf.NewReader`, `Read`, `gadgets.CloseLink` and `objs.Close`. The unsafe binary decode of the raw sample is also an input (its fields arrive as `RawEvent`).
- OffcpuTracer.Tracer.AttachHooks: the kernel symbol lookup is done, but its result is unused, as in the source.
- Not modelled in tracer.go:
  - the enricher (`EnrichByMntNs`);
  - `SetEventHandler` with its runtime type check and panic;
  - `SetMountNsMap`, `NewInstance` and the `Config` fields;
  - `Run`'s read of the filesystem parameter;
  - the debug `Println` lines.
- In biosnoop, the event's `qdelta` and `dev` are left out because `block_rq_complete` reads them through an uninitialised `stagep`; `targ_queued` only controls `qdelta`, so it has no effect in the model.
- In biosnoop, the program is treated as if maps never fill up or fail:
  - the map capacity `MAX_ENTRIES` is not modelled;
  - update failures are not modelled;
  - a failure of `bpf_perf_event_output` is not modelled.
- In biosnoop, the comm is the bytes `bpf_get_current_comm` writes and is given as input. This does not model the `sizeof(&piddata.comm)` length quirk.
- In biosnoop, these kernel details are inputs of each hook:
  - the device number of the request's disk (with `MKDEV`);
  - cgroup membership;
  - the clock;
  - the request's sector, length and flags.
- In biosnoop, `KERNEL_VERSION` is libbpf's formula, not shown in this source.
- FsSlower.Monitor.OnEvent: the count is unbounded and does not wrap at 2^63, as Go's `int` would after that many events.
- Startup in the `Fsslower`, `Biotop` and `Biolatency` functions is not modelled:
  - rlimit removal;
  - tracer creation and its error print;
  - the deferred `Stop`;
  - the signal wait.
- In biolatency, the per-round gadget context is not modelled: its timeout and the deferred `Cancel` calls that pile up. JSON decoding is an input: a report's intervals, or a decode failure. The rounds are a finite prefix of the endless loop.
- In biotop, only the Stats fields the callback and the shown columns use are modelled; the tracer's `MaxRows` and `Interval` are not.
- main.go and pkg/checks/checks_biosnoop.go are not part of this model.
