/** The block-I/O top view of pkg/checks/checks_biotop.go: for each batch
    of per-process statistics, the event callback walks the batch and, on
    every stat of the "etcd" command, clears the text view and writes a
    one-row table of that stat. */
module Biotop {
  import opened Common

  /** The fields of a block-I/O stat the callback and the table use. */
  datatype Stat = Stat(pid: int, comm: string, write: bool, bytes: nat, microSecs: nat)

  /** A row restricted to the shown columns pid, r/w, bytes and time. */
  datatype Row = Row(pid: int, write: bool, bytes: nat, time: nat)

  datatype Table = Table(columns: seq<string>, rows: seq<Row>)

  /** The columns the formatter is told to show, in order. */
  const ShownColumns: seq<string> := ["pid", "r/w", "bytes", "time"]

  predicate IsEtcd(s: Stat) {
    s.comm == "etcd"
  }

  function RowOf(s: Stat): Row {
    Row(s.pid, s.write, s.bytes, s.microSecs)
  }

  /** What WriteTable writes for one stat. */
  function TableOf(s: Stat): Table {
    Table(ShownColumns, [RowOf(s)])
  }

  /** stats[j] is an etcd stat and none after it is. */
  predicate IsLastEtcdAt(stats: seq<Stat>, j: int) {
    0 <= j < |stats| && IsEtcd(stats[j]) && forall i :: j < i < |stats| ==> !IsEtcd(stats[i])
  }

  /** The last etcd stat of the batch, if it has one. */
  function LastEtcd(stats: seq<Stat>): (r: Option<Stat>)
    ensures r.None? <==> forall i :: 0 <= i < |stats| ==> !IsEtcd(stats[i])
    ensures r.Some? ==> exists j :: IsLastEtcdAt(stats, j) && stats[j] == r.value
    decreases |stats|
  {
    if stats == [] then None
    else if IsEtcd(stats[|stats| - 1]) then
      assert IsLastEtcdAt(stats, |stats| - 1);
      Some(stats[|stats| - 1])
    else
      var init := stats[..|stats| - 1];
      var r := LastEtcd(init);
      assert forall i :: 0 <= i < |init| ==> init[i] == stats[i];
      assert r.Some? ==> exists j :: IsLastEtcdAt(stats, j) && stats[j] == r.value by {
        if r.Some? {
          var j :| IsLastEtcdAt(init, j) && init[j] == r.value;
          assert IsLastEtcdAt(stats, j);
        }
      }
      r
  }

  /** The etcd stats of a batch, in order. */
  function EtcdOnly(stats: seq<Stat>): seq<Stat>
    decreases |stats|
  {
    if stats == [] then []
    else if IsEtcd(stats[|stats| - 1]) then EtcdOnly(stats[..|stats| - 1]) + [stats[|stats| - 1]]
    else EtcdOnly(stats[..|stats| - 1])
  }

  /** LastEtcd agrees with the naive reading: filter the batch on etcd
      and take the last one. */
  lemma {:induction false} LastEtcdIsLastOfFilter(stats: seq<Stat>)
    ensures var f := EtcdOnly(stats);
      LastEtcd(stats) == if f == [] then None else Some(f[|f| - 1])
    decreases |stats|
  {
    if stats != [] && !IsEtcd(stats[|stats| - 1]) {
      LastEtcdIsLastOfFilter(stats[..|stats| - 1]);
    }
  }

  /** The text view, as the tables written to it since it was last cleared. */
  class TopView {
    var tables: seq<Table>

    constructor ()
      ensures tables == []
    {
      tables := [];
    }

    /** eventCallback: the view ends up holding exactly the table of the
        last etcd stat of the batch, or is left as it was when the batch
        has none. */
    method OnStats(stats: seq<Stat>)
      modifies this
      ensures LastEtcd(stats).None? ==> tables == old(tables)
      ensures LastEtcd(stats).Some? ==> tables == [TableOf(LastEtcd(stats).value)]
    {
      var i := 0;
      while i < |stats|
        invariant 0 <= i <= |stats|
        invariant LastEtcd(stats[..i]).None? ==> tables == old(tables)
        invariant LastEtcd(stats[..i]).Some? ==> tables == [TableOf(LastEtcd(stats[..i]).value)]
      {
        var stat := stats[i];
        assert stats[..i + 1][..i] == stats[..i];
        if stat.comm == "etcd" {
          tables := [];
          tables := tables + [TableOf(stat)];
        }
        i := i + 1;
      }
      assert stats[..i] == stats;
    }
  }

  /** A non-etcd stat is never what the view shows: a table the callback
      leaves is one row, in the shown columns, of an etcd stat of the batch. */
  lemma ShownRowIsEtcd(stats: seq<Stat>)
    requires exists i :: 0 <= i < |stats| && stats[i].comm == "etcd"
    ensures LastEtcd(stats).Some?
    ensures var t := TableOf(LastEtcd(stats).value);
      && t.columns == ["pid", "r/w", "bytes", "time"] && |t.rows| == 1
      && exists j :: 0 <= j < |stats| && IsEtcd(stats[j]) && t.rows[0] == RowOf(stats[j])
  {
  }
}
