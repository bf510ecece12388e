/** The slow file-system operation monitor of pkg/checks/checks_fsslower.go:
    the event callback keeps, over the events of the "etcd" command, a
    count, the largest latency and the operation that first reached it,
    and rewrites its text view on each such event. */
module FsSlower {
  import opened Common

  /** The fields of a slow-operation event the callback reads. */
  datatype FsEvent = FsEvent(comm: string, op: string, latency: u64, timestamp: u64)

  /** The three variables the callback captures: start, maxLat, maxLatOp. */
  datatype Totals = Totals(count: nat, maxLat: u64, maxLatOp: string)

  const Initial: Totals := Totals(0, 0, "W")

  /** What the text view shows: the header written before any event, or
      the report written after an etcd event (its count, its own latency,
      op and timestamp, and the running maximum). */
  datatype View =
    | Header(count: nat, maxLat: u64, maxLatOp: string)
    | Report(count: nat, latency: u64, op: string, timestamp: u64, maxLat: u64, maxLatOp: string)

  predicate IsEtcd(e: FsEvent) {
    e.comm == "etcd"
  }

  /** The effect of one event on the totals. */
  function Step(t: Totals, e: FsEvent): (r: Totals)
    ensures !IsEtcd(e) ==> r == t
    ensures IsEtcd(e) ==> r.count == t.count + 1 && r.maxLat >= e.latency
    ensures r.maxLat >= t.maxLat && (r.maxLat == t.maxLat || r.maxLat == e.latency)
    ensures r.maxLat > t.maxLat ==> r.maxLatOp == e.op
    ensures r.maxLatOp != t.maxLatOp ==> r.maxLat > t.maxLat
  {
    if !IsEtcd(e) then t
    else if e.latency > t.maxLat then Totals(t.count + 1, e.latency, e.op)
    else Totals(t.count + 1, t.maxLat, t.maxLatOp)
  }

  /** The totals after a sequence of events, oldest first. */
  function Aggregate(es: seq<FsEvent>): Totals
    decreases |es|
  {
    if es == [] then Initial else Step(Aggregate(es[..|es| - 1]), es[|es| - 1])
  }

  /** The etcd events of es, in order. */
  function EtcdOnly(es: seq<FsEvent>): seq<FsEvent>
    decreases |es|
  {
    if es == [] then []
    else if IsEtcd(es[|es| - 1]) then EtcdOnly(es[..|es| - 1]) + [es[|es| - 1]]
    else EtcdOnly(es[..|es| - 1])
  }

  /** Index j holds the first etcd event whose latency is m. */
  predicate FirstToReach(es: seq<FsEvent>, j: int, m: u64) {
    && 0 <= j < |es| && IsEtcd(es[j]) && es[j].latency == m
    && forall i :: 0 <= i < j && IsEtcd(es[i]) ==> es[i].latency < m
  }

  // ---------------------------------------------------------------------
  // Properties of the totals
  // ---------------------------------------------------------------------

  /** The count is the number of etcd events. */
  lemma {:induction false} CountIsEtcdEvents(es: seq<FsEvent>)
    ensures Aggregate(es).count == |EtcdOnly(es)|
    decreases |es|
  {
    if es != [] {
      CountIsEtcdEvents(es[..|es| - 1]);
    }
  }

  /** maxLat is the largest etcd latency, or 0 when there is none (or all are 0). */
  lemma {:induction false} MaxLatIsMaximum(es: seq<FsEvent>)
    ensures var m := Aggregate(es).maxLat;
      && (forall i :: 0 <= i < |es| && IsEtcd(es[i]) ==> es[i].latency <= m)
      && (m == 0 || exists i :: 0 <= i < |es| && IsEtcd(es[i]) && es[i].latency == m)
    decreases |es|
  {
    if es != [] {
      var init := es[..|es| - 1];
      MaxLatIsMaximum(init);
      var m := Aggregate(es).maxLat;
      forall i | 0 <= i < |es| && IsEtcd(es[i])
        ensures es[i].latency <= m
      {
        if i < |init| {
          assert es[i] == init[i];
        }
      }
      if m != 0 && m != es[|es| - 1].latency {
        var i :| 0 <= i < |init| && IsEtcd(init[i]) && init[i].latency == m;
        assert es[i] == init[i];
      }
    }
  }

  /** maxLatOp is the op of the first etcd event that reached maxLat: a
      later event with the same latency does not replace it, and while
      maxLat is 0 (no etcd event, or only zero latencies) it stays "W". */
  lemma {:induction false} OpOfFirstMaximum(es: seq<FsEvent>)
    ensures var t := Aggregate(es);
      && (t.maxLat == 0 ==> t.maxLatOp == "W")
      && (t.maxLat > 0 ==> exists j :: FirstToReach(es, j, t.maxLat) && t.maxLatOp == es[j].op)
    decreases |es|
  {
    if es != [] {
      var init, e := es[..|es| - 1], es[|es| - 1];
      OpOfFirstMaximum(init);
      MaxLatIsMaximum(init);
      var t0, t := Aggregate(init), Aggregate(es);
      if IsEtcd(e) && e.latency > t0.maxLat {
        assert FirstToReach(es, |es| - 1, t.maxLat) by {
          forall i | 0 <= i < |es| - 1 && IsEtcd(es[i])
            ensures es[i].latency < t.maxLat
          {
            assert es[i] == init[i];
          }
        }
      } else if t.maxLat > 0 {
        var j :| FirstToReach(init, j, t0.maxLat) && t0.maxLatOp == init[j].op;
        assert es[j] == init[j];
        assert FirstToReach(es, j, t.maxLat) by {
          forall i | 0 <= i < j && IsEtcd(es[i])
            ensures es[i].latency < t.maxLat
          {
            assert es[i] == init[i];
          }
        }
      }
    }
  }

  /** Events of other commands change nothing: only the etcd events matter. */
  lemma {:induction false} OnlyEtcdMatters(es: seq<FsEvent>)
    ensures Aggregate(es) == Aggregate(EtcdOnly(es))
    decreases |es|
  {
    if es != [] {
      var init, e := es[..|es| - 1], es[|es| - 1];
      OnlyEtcdMatters(init);
      if IsEtcd(e) {
        var f := EtcdOnly(es);
        assert f[..|f| - 1] == EtcdOnly(init);
      }
    }
  }

  lemma AggregateSnoc(es: seq<FsEvent>, e: FsEvent)
    ensures Aggregate(es + [e]) == Step(Aggregate(es), e)
  {
    assert (es + [e])[..|es|] == es;
  }

  /** More events never lower the count or maxLat. */
  lemma {:induction false} Monotone(es: seq<FsEvent>, more: seq<FsEvent>)
    ensures Aggregate(es).count <= Aggregate(es + more).count
    ensures Aggregate(es).maxLat <= Aggregate(es + more).maxLat
    decreases |more|
  {
    if more != [] {
      var init := more[..|more| - 1];
      var e := more[|more| - 1];
      Monotone(es, init);
      assert es + more == (es + init) + [e];
      AggregateSnoc(es + init, e);
      var t := Aggregate(es + init);
      assert Aggregate(es + more) == Step(t, e);
      assert t.count <= Step(t, e).count && t.maxLat <= Step(t, e).maxLat;
    } else {
      assert es + more == es;
    }
  }

  /** A worked run: a tie with the maximum keeps the earlier op, and an
      event of another command is ignored whatever its latency. */
  lemma TieKeepsEarlierOp()
    ensures Aggregate([FsEvent("etcd", "W", 15, 1), FsEvent("etcd", "R", 40, 2),
                       FsEvent("dockerd", "F", 90, 3), FsEvent("etcd", "F", 40, 4)])
            == Totals(3, 40, "R")
  {
    var es := [FsEvent("etcd", "W", 15, 1), FsEvent("etcd", "R", 40, 2),
               FsEvent("dockerd", "F", 90, 3), FsEvent("etcd", "F", 40, 4)];
    assert "dockerd" != "etcd";
    assert es[..3] == es[..4][..3] && es[..2] == es[..3][..2] && es[..1] == es[..2][..1];
    assert Aggregate(es[..1]) == Totals(1, 15, "W") by {
      assert es[..1][..0] == [];
    }
    assert Aggregate(es[..2]) == Totals(2, 40, "R");
    assert Aggregate(es[..3]) == Totals(2, 40, "R");
    assert es == es[..4];
  }

  // ---------------------------------------------------------------------
  // The callback and its captured state
  // ---------------------------------------------------------------------

  class Monitor {
    var start: nat
    var maxLat: u64
    var maxLatOp: string
    var view: View
    /** The events delivered so far, oldest first. */
    ghost var seen: seq<FsEvent>

    function Current(): Totals
      reads this
    {
      Totals(start, maxLat, maxLatOp)
    }

    ghost predicate Valid()
      reads this
    {
      Current() == Aggregate(seen)
    }

    /** The captured variables and the header line written before the
        tracer starts. */
    constructor ()
      ensures Valid() && seen == [] && Current() == Initial
      ensures view == Header(0, 0, "W")
    {
      start, maxLat, maxLatOp := 0, 0, "W";
      view := Header(start, maxLat, maxLatOp);
      seen := [];
    }

    /** eventCallback. */
    method OnEvent(e: FsEvent)
      requires Valid()
      modifies this
      ensures Valid() && seen == old(seen) + [e]
      ensures !IsEtcd(e) ==> Current() == old(Current()) && view == old(view)
      ensures IsEtcd(e) ==>
        && Current() == Step(old(Current()), e)
        && view == Report(start, e.latency, e.op, e.timestamp, maxLat, maxLatOp)
    {
      AggregateSnoc(seen, e);
      ghost var next := Step(Current(), e);
      seen := seen + [e];
      assert Aggregate(seen) == next;
      if e.comm != "etcd" {
        return;
      }
      if e.latency > maxLat {
        maxLat := e.latency;
        maxLatOp := e.op;
      }
      start := start + 1;
      view := Report(start, e.latency, e.op, e.timestamp, maxLat, maxLatOp);
    }
  }
}
