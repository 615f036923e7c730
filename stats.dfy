/**
 The statistics one refresh works from: the broker-wide overview, one row per
 tube, and the fetch that falls back to placeholders when the broker cannot be
 asked. The broker's replies are dictionaries in the program; here they are
 records holding exactly the keys the display reads.
 */
module Stats {
  import opened Wrappers
  import opened Text

  /** A dictionary value: a number reported by the broker, or text (the
      placeholder `'-'`, or any other string). */
  datatype Value = Num(n: int) | Str(s: string)

  /** The placeholder shown for a statistic that could not be fetched. */
  const Unknown: Value := Str("-")

  /** `str(v)`, as `str.format` renders a value: a number as decimal text
      that reads back as the same number, text as itself. */
  function Show(v: Value): (r: string)
    ensures v.Num? ==> ParseInt(r) == Some(v.n)
    ensures v.Str? ==> r == v.s
  {
    match v
    case Num(n) => IntStrRoundTrip(n); IntStr(n)
    case Str(s) => s
  }

  /** The broker-wide statistics the summary reads. `uptime` is optional because
      the placeholder overview has no such key. */
  datatype Overview = Overview(
    pid: Value,
    uptime: Option<Value>,
    totalJobs: Value,
    currentConnections: Value,
    currentProducers: Value,
    currentWorkers: Value,
    currentTubes: Value,
    currentJobsReady: Value,
    currentJobsUrgent: Value,
    currentJobsBuried: Value,
    currentJobsReserved: Value)

  /** The statistics of one tube the data rows read. */
  datatype Tube = Tube(
    name: string,
    ready: Value,
    urgent: Value,
    reserved: Value,
    delayed: Value,
    buried: Value)

  /** The ways a fetch fails that the program catches: a type error, a socket
      error and a failed broker command. */
  datatype Failure = TypeError | SocketError | CommandFailed

  /** What asking the broker gives: its overview and the statistics of each tube
      in the order it lists the tubes, or the failure that interrupted the
      asking. */
  datatype Reply = Ok(stats: Overview, tubes: seq<Tube>) | Fail(error: Failure)

  /** The overview shown when the broker cannot be asked: every listed key
      holds the placeholder, and there is no `uptime` key. */
  function PlaceholderOverview(): (o: Overview)
    ensures AllUnknown(o) && o.uptime.None?
  {
    Overview(Unknown, None, Unknown, Unknown, Unknown, Unknown, Unknown, Unknown, Unknown, Unknown, Unknown)
  }

  /** The single row shown when the broker cannot be asked: the tube
      `default`, every count the placeholder. */
  function PlaceholderRow(): (t: Tube)
    ensures t.name == "default" && RowUnknown(t)
  {
    Tube("default", Unknown, Unknown, Unknown, Unknown, Unknown)
  }

  /** Every statistic of the overview other than the uptime is the placeholder. */
  predicate AllUnknown(o: Overview)
  {
    o.pid == Unknown && o.totalJobs == Unknown && o.currentConnections == Unknown &&
    o.currentProducers == Unknown && o.currentWorkers == Unknown && o.currentTubes == Unknown &&
    o.currentJobsReady == Unknown && o.currentJobsUrgent == Unknown &&
    o.currentJobsBuried == Unknown && o.currentJobsReserved == Unknown
  }

  /** Every count of the row is the placeholder. */
  predicate RowUnknown(t: Tube)
  {
    t.ready == Unknown && t.urgent == Unknown && t.reserved == Unknown && t.delayed == Unknown && t.buried == Unknown
  }

  /** `get_data`: the broker's answer when it gives one, otherwise the fallback
      overview the caller keeps and a list holding only the placeholder row. */
  function GetData(reply: Reply, fallback: Overview): (r: (Overview, seq<Tube>))
    ensures reply.Ok? ==> r.0 == reply.stats && |r.1| == |reply.tubes|
    ensures reply.Ok? ==> forall i :: 0 <= i < |r.1| ==> r.1[i] == reply.tubes[i]
    ensures reply.Fail? ==> r.0 == fallback && |r.1| == 1 && r.1[0].name == "default" && RowUnknown(r.1[0])
  {
    match reply
    case Ok(stats, tubes) => (stats, tubes)
    case Fail(_) => (fallback, [PlaceholderRow()])
  }

  /** On any failure, with the program's own placeholder overview as fallback,
      every overview statistic is the placeholder, there is no uptime, and the
      one row is the placeholder row. */
  lemma FallbackData(reply: Reply)
    requires reply.Fail?
    ensures var (o, rows) := GetData(reply, PlaceholderOverview());
      AllUnknown(o) && o.uptime.None? && rows == [PlaceholderRow()]
  {
  }
}
