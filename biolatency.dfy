/** The block-I/O latency chart of pkg/checks/checks_biolatency.go: an
    endless loop of rounds, each asking the profiler for a report of
    latency intervals and turning it into the values, labels and maximum
    of a bar chart. */
module Biolatency {
  import opened Common

  /** One histogram bucket of the report: its count and its bounds. */
  datatype Interval = Interval(count: u64, start: u64, end: u64)

  /** The arguments of one bc.Values call. */
  datatype Chart = Chart(values: seq<int>, maxValue: int, labels: seq<string>)

  /** The floor of maxValue. */
  const MinMaxValue: int := 20

  /** Go's int(x) for a uint64 x on a 64-bit platform: the same bits read
      as a two's-complement int64. */
  function GoInt(x: u64): (r: int)
    ensures -TWO_63 <= r < TWO_63
    ensures r >= 0 <==> x < TWO_63
    ensures (x - r) % TWO_64 == 0
  {
    if x < TWO_63 then x else x - TWO_64
  }

  /** fmt.Sprintf("%v-%v", start, end). */
  function Label(iv: Interval): string {
    Decimal(iv.start) + "-" + Decimal(iv.end)
  }

  /** c is the chart of the intervals: one value and one label per
      interval, in order, and maxValue the largest of 20 and the values. */
  predicate IsChartOf(c: Chart, intervals: seq<Interval>) {
    && |c.values| == |intervals| && |c.labels| == |intervals|
    && (forall i :: 0 <= i < |intervals| ==> c.values[i] == GoInt(intervals[i].count))
    && (forall i :: 0 <= i < |intervals| ==> c.labels[i] == Label(intervals[i]))
    && MinMaxValue <= c.maxValue
    && (forall i :: 0 <= i < |c.values| ==> c.values[i] <= c.maxValue)
    && (c.maxValue == MinMaxValue || exists i :: 0 <= i < |c.values| && c.values[i] == c.maxValue)
  }

  /** IsChartOf leaves no freedom: the report fixes the chart. */
  lemma ChartIsUnique(c: Chart, d: Chart, intervals: seq<Interval>)
    requires IsChartOf(c, intervals) && IsChartOf(d, intervals)
    ensures c == d
  {
  }

  /** The number in front of the first '-' of a string, and the rest after it. */
  function SplitAtDash(s: string): (string, string) {
    if s == [] then ([], [])
    else if s[0] == '-' then ([], s[1..])
    else var (a, b) := SplitAtDash(s[1..]); ([s[0]] + a, b)
  }

  lemma {:induction false} SplitDigitsDash(a: string, b: string)
    requires AllDigits(a)
    ensures SplitAtDash(a + "-" + b) == (a, b)
    decreases |a|
  {
    if a == [] {
      assert a + "-" + b == ['-'] + b;
    } else {
      var s := a + "-" + b;
      assert s[0] == a[0] && IsDigit(a[0]) && s[1..] == a[1..] + "-" + b;
      SplitDigitsDash(a[1..], b);
      assert [a[0]] + a[1..] == a;
    }
  }

  /** A label gives back the bounds it was made from. */
  lemma LabelRoundTrip(iv: Interval)
    ensures var (a, b) := SplitAtDash(Label(iv));
      AllDigits(a) && AllDigits(b) && DigitsValue(a) == iv.start && DigitsValue(b) == iv.end
  {
    SplitDigitsDash(Decimal(iv.start), Decimal(iv.end));
    DecimalValue(iv.start);
    DecimalValue(iv.end);
  }

  /** A worked round: counts 5 and 30 over the buckets 0-1 and 1-2 chart
      as values [5, 30] under a maximum of 30, raised above the floor. */
  lemma TwoBucketChart()
    ensures IsChartOf(Chart([5, 30], 30, ["0-1", "1-2"]), [Interval(5, 0, 1), Interval(30, 1, 2)])
  {
  }

  /** The report-to-chart loop of one round. */
  method BuildChart(intervals: seq<Interval>) returns (c: Chart)
    ensures IsChartOf(c, intervals)
    ensures intervals == [] ==> c == Chart([], MinMaxValue, [])
  {
    var values: seq<int> := [];
    var maxValue := MinMaxValue;
    var labels: seq<string> := [];
    for i := 0 to |intervals|
      invariant IsChartOf(Chart(values, maxValue, labels), intervals[..i])
    {
      values := values + [GoInt(intervals[i].count)];
      if GoInt(intervals[i].count) > maxValue {
        maxValue := GoInt(intervals[i].count);
      }
      labels := labels + [Label(intervals[i])];
    }
    assert intervals[..|intervals|] == intervals;
    c := Chart(values, maxValue, labels);
  }

  /** What RunWithResult gives back: an error, or bytes that decode to a
      report's intervals (None: json.Unmarshal fails). */
  datatype Reply = EngineFailed | Received(report: Option<seq<Interval>>)

  /** The inputs of one round: the reply, and whether bc.Values fails. */
  datatype Round = Round(reply: Reply, publishFails: bool)

  /** How a round that did not panic ended. */
  datatype Outcome =
    | Abandoned               // RunWithResult failed: continue
    | NotShown(chart: Chart)  // bc.Values failed: continue
    | Shown(chart: Chart)

  predicate Undecodable(r: Round) {
    r.reply == Received(None)
  }

  /** Index of the first round whose report does not decode, or |rounds|. */
  function PanicIndex(rounds: seq<Round>): (n: nat)
    ensures n <= |rounds|
    ensures forall i :: 0 <= i < n ==> !Undecodable(rounds[i])
    ensures n < |rounds| ==> Undecodable(rounds[n])
    decreases |rounds|
  {
    if rounds == [] then 0
    else if Undecodable(rounds[0]) then 0
    else 1 + PanicIndex(rounds[1..])
  }

  /** The outcome a round that does not panic must have. */
  predicate OutcomeOf(r: Round, o: Outcome) {
    match r.reply
    case EngineFailed => o == Abandoned
    case Received(report) =>
      report.Some? && !o.Abandoned? && IsChartOf(o.chart, report.value)
      && (o.Shown? <==> !r.publishFails)
  }

  /** The rounds loop over a finite run of rounds. It has no exit of its
      own: a round ends in one outcome and the next begins, and only an
      undecodable report stops it, with a panic. */
  method Rounds(rounds: seq<Round>) returns (outcomes: seq<Outcome>, panicked: bool)
    ensures |outcomes| == PanicIndex(rounds)
    ensures panicked <==> PanicIndex(rounds) < |rounds|
    ensures forall i :: 0 <= i < |outcomes| ==> OutcomeOf(rounds[i], outcomes[i])
  {
    outcomes := [];
    var i := 0;
    while i < |rounds|
      invariant 0 <= i <= |rounds| && i <= PanicIndex(rounds)
      invariant |outcomes| == i
      invariant forall j :: 0 <= j < i ==> OutcomeOf(rounds[j], outcomes[j])
      invariant PanicIndex(rounds) == i + PanicIndex(rounds[i..])
    {
      assert rounds[i..][1..] == rounds[i + 1..];
      var round := rounds[i];
      i := i + 1;
      if round.reply.EngineFailed? {
        outcomes := outcomes + [Abandoned];
        continue;
      }
      if round.reply.report.None? {
        return outcomes, true;
      }
      var c := BuildChart(round.reply.report.value);
      if round.publishFails {
        outcomes := outcomes + [NotShown(c)];
        continue;
      }
      outcomes := outcomes + [Shown(c)];
    }
    panicked := false;
  }
}
