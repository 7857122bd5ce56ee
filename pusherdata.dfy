/** The channel reconciler of src/pusherData.js: per-channel reports
    `(ch, [ts, value])` arrive in any order; each timestamp gets a sample
    array in the staging buffer, and once as many slots hold a truthy value
    as there are channels the completed row `[ts, label(ts), ...sample]` is
    pushed on the ready buffer and the staging entry is dropped. The
    channel list is a parameter and the 'LTS' local-time label an opaque
    function of the timestamp. */
module PusherData {
  import opened Common

  /** The array of channel values for one timestamp; `None` is a hole. */
  type Sample = seq<Option<real>>

  /** A completed row `[ts, localTime, ...sample]`. */
  datatype Row = Row(ts: int, localTime: string, values: Sample)

  /** One value delivered for channel `ch`: `stage(ch, [ts, value])`. */
  datatype Report = Report(ch: string, ts: int, value: real)

  /** `chToIndex(ch)`: the number after the first two characters; `None`
      when that text is not a decimal numeral (JavaScript gives `NaN`). */
  function ChToIndex(ch: string): (r: Option<nat>)
    ensures var tail := if |ch| >= 2 then ch[2..] else "";
            (r.Some? <==> AllDigits(tail)) && (r.Some? ==> r.value == DigitsValue(tail))
  {
    ParseDecimal(if |ch| >= 2 then ch[2..] else "")
  }

  /** A channel named by any two characters and a numeral has that number
      as its index. */
  lemma ChToIndexOfNumeral(prefix: string, n: nat)
    requires |prefix| == 2
    ensures ChToIndex(prefix + NatToString(n)) == Some(n)
  {
    assert (prefix + NatToString(n))[2..] == NatToString(n);
    DigitsValueOfNatToString(n);
  }

  function IndexOf(r: Report): Option<nat> { ChToIndex(r.ch) }

  /** Element `i` of a JavaScript array; beyond the end it reads `undefined`. */
  function Slot(s: Sample, i: nat): Option<real> {
    if i < |s| then s[i] else None
  }

  function Holes(k: nat): (s: Sample)
    ensures |s| == k && forall i :: 0 <= i < k ==> s[i] == None
  {
    seq(k, _ => None)
  }

  /** `sample[i] = v`: writing past the end grows the array, leaving holes. */
  function WriteSlot(s: Sample, i: nat, v: real): (r: Sample)
    ensures |r| == Max(|s|, i + 1)
    ensures Slot(r, i) == Some(v)
    ensures forall j: nat :: j != i ==> Slot(r, j) == Slot(s, j)
  {
    if i < |s| then s[i := Some(v)] else s + Holes(i - |s|) + [Some(v)]
  }

  /** A report writes its value into its channel's slot; a channel whose
      index is `NaN` sets a non-index property, which no array operation sees. */
  function WriteReport(s: Sample, r: Report): Sample {
    match IndexOf(r)
    case Some(i) => WriteSlot(s, i, r.value)
    case None => s
  }

  /** `Boolean(x)` for a slot: a hole and the value `0` are falsy. */
  predicate Truthy(x: Option<real>) {
    x.Some? && x.value != 0.0
  }

  /** `sample.filter(Boolean).length`. */
  function CountTruthy(s: Sample): nat {
    if s == [] then 0 else CountTruthy(s[..|s| - 1]) + (if Truthy(s[|s| - 1]) then 1 else 0)
  }

  lemma {:induction false} CountTruthyAppend(a: Sample, b: Sample)
    ensures CountTruthy(a + b) == CountTruthy(a) + CountTruthy(b)
    decreases |b|
  {
    if b == [] {
      assert a + b == a;
    } else {
      assert (a + b)[..|a + b| - 1] == a + b[..|b| - 1];
      CountTruthyAppend(a, b[..|b| - 1]);
    }
  }

  lemma {:induction false} CountTruthyHoles(k: nat)
    ensures CountTruthy(Holes(k)) == 0
  {
    if k > 0 {
      assert Holes(k)[..k - 1] == Holes(k - 1);
      CountTruthyHoles(k - 1);
    }
  }

  lemma CountTruthySingle(x: Option<real>)
    ensures CountTruthy([x]) == if Truthy(x) then 1 else 0
  {
    assert [x][..0] == [];
  }

  /** A write changes the truthy count only through the slot it writes:
      the old value there stops counting and the new one counts unless it
      is 0. So a report of 0 never moves a row towards completion. */
  lemma CountAfterWrite(s: Sample, i: nat, v: real)
    ensures CountTruthy(WriteSlot(s, i, v)) + (if Truthy(Slot(s, i)) then 1 else 0)
         == CountTruthy(s) + (if v != 0.0 then 1 else 0)
  {
    CountTruthySingle(Some(v));
    if i < |s| {
      assert s == s[..i] + [s[i]] + s[i + 1..];
      assert WriteSlot(s, i, v) == s[..i] + [Some(v)] + s[i + 1..];
      CountTruthyAppend(s[..i] + [s[i]], s[i + 1..]);
      CountTruthyAppend(s[..i], [s[i]]);
      CountTruthyAppend(s[..i] + [Some(v)], s[i + 1..]);
      CountTruthyAppend(s[..i], [Some(v)]);
      CountTruthySingle(s[i]);
    } else {
      CountTruthyAppend(s + Holes(i - |s|), [Some(v)]);
      CountTruthyAppend(s, Holes(i - |s|));
      CountTruthyHoles(i - |s|);
    }
  }

  /** Two samples that agree on every slot and have the same length are equal. */
  lemma SampleExtensional(a: Sample, b: Sample)
    requires |a| == |b|
    requires forall j: nat :: j < |a| ==> Slot(a, j) == Slot(b, j)
    ensures a == b
  {
    forall j | 0 <= j < |a|
      ensures a[j] == b[j]
    {
      assert Slot(a, j) == Slot(b, j);
    }
  }

  // ---------------------------------------------------------------------
  // The staging and ready buffers

  /** The reconciler's state: the staging map and the ready buffer. */
  datatype Buffers = Buffers(staging: map<int, Sample>, ready: seq<Row>)

  function Lookup(m: map<int, Sample>, ts: int): Sample {
    if ts in m then m[ts] else []
  }

  /** An entry stays staged only while its truthy count has not reached the
      channel count. */
  ghost predicate StagingInvariant(b: Buffers, channels: nat) {
    forall t :: t in b.staging ==>
      CountTruthy(b.staging[t]) != channels
      && (channels > 0 ==> CountTruthy(b.staging[t]) < channels)
  }

  /** `stage(ch, [ts, value])` with the staging buffer used as a map (get,
      set and delete). The first report for `ts` starts from an empty
      sample, later ones reuse the staged sample; the report's slot is
      written; a row whose truthy count equals the channel count is pushed
      on the ready buffer and its entry deleted. */
  function Stage(b: Buffers, channels: nat, localTime: int -> string, r: Report): Buffers {
    var sample := WriteReport(Lookup(b.staging, r.ts), r);
    if CountTruthy(sample) == channels then
      Buffers(b.staging - {r.ts}, b.ready + [Row(r.ts, localTime(r.ts), sample)])
    else
      Buffers(b.staging[r.ts := sample], b.ready)
  }

  /** A report either completes its row, which is appended to the ready
      buffer with its entry deleted, or leaves the ready buffer as it was
      and the written sample staged. The completed row is the staged sample
      (or a new empty one) with the report's slot written, and it holds as
      many truthy values as there are channels. */
  lemma StageOutcome(b: Buffers, channels: nat, localTime: int -> string, r: Report)
    ensures var b' := Stage(b, channels, localTime, r);
            var sample := WriteReport(Lookup(b.staging, r.ts), r);
            if CountTruthy(sample) == channels then
              && b'.ready == b.ready + [Row(r.ts, localTime(r.ts), sample)]
              && r.ts !in b'.staging
            else
              && b'.ready == b.ready
              && r.ts in b'.staging && b'.staging[r.ts] == sample
  {
  }

  /** A report touches no other timestamp's staging entry. */
  lemma StageFrame(b: Buffers, channels: nat, localTime: int -> string, r: Report, t: int)
    requires t != r.ts
    ensures var b' := Stage(b, channels, localTime, r);
            (t in b'.staging <==> t in b.staging) && (t in b.staging ==> b'.staging[t] == b.staging[t])
  {
  }

  /** Staging keeps its invariant: a write raises a truthy count by at most
      one, so a count below the channel count reaches it before it could
      pass it, and at that moment the entry leaves the staging buffer. */
  lemma StagePreservesInvariant(b: Buffers, channels: nat, localTime: int -> string, r: Report)
    requires StagingInvariant(b, channels)
    ensures StagingInvariant(Stage(b, channels, localTime, r), channels)
  {
    var old_ := Lookup(b.staging, r.ts);
    match IndexOf(r) {
      case Some(i) => CountAfterWrite(old_, i, r.value);
      case None =>
    }
  }

  /** Reports applied one after the other, in arrival order. */
  function StageAll(b: Buffers, channels: nat, localTime: int -> string, rs: seq<Report>): Buffers
    decreases |rs|
  {
    if rs == [] then b
    else Stage(StageAll(b, channels, localTime, rs[..|rs| - 1]), channels, localTime, rs[|rs| - 1])
  }

  /** The sample built by writing the reports, in order, into `s`. */
  function WriteAll(s: Sample, rs: seq<Report>): Sample
    decreases |rs|
  {
    if rs == [] then s else WriteReport(WriteAll(s, rs[..|rs| - 1]), rs[|rs| - 1])
  }

  /** Every report names a channel with a numeric index, no two the same
      index, with a truthy value, all for timestamp `ts`. */
  predicate OnePerChannel(rs: seq<Report>, ts: int) {
    && (forall k :: 0 <= k < |rs| ==> IndexOf(rs[k]).Some? && rs[k].value != 0.0 && rs[k].ts == ts)
    && (forall k, l :: 0 <= k < l < |rs| ==> IndexOf(rs[k]) != IndexOf(rs[l]))
  }

  /** A slot that none of the reports writes keeps its old content. */
  lemma {:induction false} SlotUnwritten(s: Sample, rs: seq<Report>, i: nat)
    requires forall k :: 0 <= k < |rs| ==> IndexOf(rs[k]) != Some(i)
    ensures Slot(WriteAll(s, rs), i) == Slot(s, i)
    decreases |rs|
  {
    if rs != [] {
      SlotUnwritten(s, rs[..|rs| - 1], i);
    }
  }

  /** Each report of a fresh timestamp fills a new truthy slot. */
  lemma {:induction false} CountWriteAll(rs: seq<Report>, ts: int)
    requires OnePerChannel(rs, ts)
    ensures CountTruthy(WriteAll([], rs)) == |rs|
    decreases |rs|
  {
    if rs != [] {
      var init, x := rs[..|rs| - 1], rs[|rs| - 1];
      CountWriteAll(init, ts);
      var i := IndexOf(x).value;
      SlotUnwritten([], init, i);
      CountAfterWrite(WriteAll([], init), i, x.value);
    }
  }

  /** While fewer than all channels of a fresh timestamp have reported, the
      staged sample holds exactly those reports and nothing is ready. */
  lemma {:induction false} StagePartial(b: Buffers, channels: nat, localTime: int -> string,
                                        rs: seq<Report>, ts: int)
    requires ts !in b.staging && OnePerChannel(rs, ts) && |rs| < channels
    ensures StageAll(b, channels, localTime, rs)
         == if rs == [] then b else Buffers(b.staging[ts := WriteAll([], rs)], b.ready)
    decreases |rs|
  {
    if rs != [] {
      var init, x := rs[..|rs| - 1], rs[|rs| - 1];
      assert OnePerChannel(init, ts);
      StagePartial(b, channels, localTime, init, ts);
      CountWriteAll(rs, ts);
      StageStaged(b, StageAll(b, channels, localTime, init), channels, localTime, WriteAll([], init), x);
    }
  }

  /** The step of `StagePartial`: one more report that leaves the row
      incomplete stays staged. */
  lemma StageStaged(b: Buffers, b1: Buffers, channels: nat, localTime: int -> string,
                    s0: Sample, x: Report)
    requires x.ts !in b.staging
    requires b1 == Buffers(b.staging[x.ts := s0], b.ready) || (b1 == b && s0 == [])
    requires CountTruthy(WriteReport(s0, x)) != channels
    ensures Stage(b1, channels, localTime, x) == Buffers(b.staging[x.ts := WriteReport(s0, x)], b.ready)
  {
    var sample := WriteReport(s0, x);
    if b1 == b {
      assert Stage(b1, channels, localTime, x) == Buffers(b.staging[x.ts := sample], b.ready);
    } else {
      assert Lookup(b1.staging, x.ts) == s0;
      assert Stage(b1, channels, localTime, x) == Buffers(b1.staging[x.ts := sample], b.ready);
      assert b1.staging[x.ts := sample] == b.staging[x.ts := sample];
    }
  }

  /** All channels of a fresh timestamp reporting once each, with truthy
      values, yield exactly one finished row, at the end of the ready
      buffer, and leave no staging entry behind. */
  lemma ReportAllChannels(b: Buffers, channels: nat, localTime: int -> string,
                          rs: seq<Report>, ts: int)
    requires ts !in b.staging && OnePerChannel(rs, ts) && |rs| == channels > 0
    ensures StageAll(b, channels, localTime, rs)
         == Buffers(b.staging, b.ready + [Row(ts, localTime(ts), WriteAll([], rs))])
  {
    var init := rs[..|rs| - 1];
    assert OnePerChannel(init, ts);
    StagePartial(b, channels, localTime, init, ts);
    CountWriteAll(rs, ts);
    StageCompletes(b, StageAll(b, channels, localTime, init), channels, localTime, WriteAll([], init), rs[|rs| - 1]);
  }

  /** The last step of `ReportAllChannels`: the report that completes the
      row moves it to the ready buffer and deletes its staging entry. */
  lemma StageCompletes(b: Buffers, b1: Buffers, channels: nat, localTime: int -> string,
                       s0: Sample, x: Report)
    requires x.ts !in b.staging
    requires b1 == Buffers(b.staging[x.ts := s0], b.ready) || (b1 == b && s0 == [])
    requires CountTruthy(WriteReport(s0, x)) == channels
    ensures Stage(b1, channels, localTime, x)
         == Buffers(b.staging, b.ready + [Row(x.ts, localTime(x.ts), WriteReport(s0, x))])
  {
    assert b1.staging - {x.ts} == b.staging;
  }

  /** Writes to two different slots commute. */
  lemma WriteReportCommutes(s: Sample, x: Report, y: Report)
    requires IndexOf(x).Some? && IndexOf(y).Some? && IndexOf(x) != IndexOf(y)
    ensures WriteReport(WriteReport(s, x), y) == WriteReport(WriteReport(s, y), x)
  {
    var a := WriteReport(WriteReport(s, x), y);
    var b := WriteReport(WriteReport(s, y), x);
    SampleExtensional(a, b);
  }

  /** A report can be moved behind later reports for other channels. */
  lemma {:induction false} WriteAllMoveToEnd(s: Sample, p: seq<Report>, x: Report, q: seq<Report>)
    requires IndexOf(x).Some?
    requires forall k :: 0 <= k < |q| ==> IndexOf(q[k]).Some? && IndexOf(q[k]) != IndexOf(x)
    ensures WriteAll(s, p + [x] + q) == WriteReport(WriteAll(s, p + q), x)
    decreases |q|
  {
    if q == [] {
      assert p + [x] + q == p + [x];
      assert p + q == p;
      WriteAllSnoc(s, p, x);
    } else {
      var q', y := q[..|q| - 1], q[|q| - 1];
      assert p + [x] + q == (p + [x] + q') + [y];
      assert p + q == (p + q') + [y];
      WriteAllSnoc(s, p + [x] + q', y);
      WriteAllSnoc(s, p + q', y);
      WriteAllMoveToEnd(s, p, x, q');
      WriteReportCommutes(WriteAll(s, p + q'), x, y);
    }
  }

  /** Writing one more report writes it last. */
  lemma WriteAllSnoc(s: Sample, rs: seq<Report>, x: Report)
    ensures WriteAll(s, rs + [x]) == WriteReport(WriteAll(s, rs), x)
  {
    assert (rs + [x])[..|rs|] == rs;
  }

  /** The sample does not depend on the order the reports arrive in. */
  lemma {:induction false} WriteAllOrderIndependent(s: Sample, rs: seq<Report>, rs': seq<Report>, ts: int)
    requires OnePerChannel(rs, ts) && OnePerChannel(rs', ts)
    requires multiset(rs) == multiset(rs')
    ensures WriteAll(s, rs) == WriteAll(s, rs')
    decreases |rs|
  {
    if rs == [] {
      assert |rs'| == |multiset(rs')| == 0;
    } else {
      var init, x := rs[..|rs| - 1], rs[|rs| - 1];
      assert x in multiset(rs') by {
        assert x in multiset(rs);
      }
      var p :| 0 <= p < |rs'| && rs'[p] == x;
      var rest := rs'[..p] + rs'[p + 1..];
      RemoveAtMultiset(rs, |rs| - 1);
      RemoveAtMultiset(rs', p);
      assert init + rs[|rs|..] == init;
      OnePerChannelRemoveAt(rs, |rs| - 1, ts);
      OnePerChannelRemoveAt(rs', p, ts);
      WriteAllOrderIndependent(s, init, rest, ts);
      WriteAllRemoveAt(s, rs', p);
    }
  }

  /** Taking out the element at `p` takes it out of the multiset. */
  lemma RemoveAtMultiset<T>(rs: seq<T>, p: nat)
    requires p < |rs|
    ensures multiset(rs[..p] + rs[p + 1..]) == multiset(rs) - multiset{rs[p]}
  {
    assert rs == rs[..p] + [rs[p]] + rs[p + 1..];
  }

  lemma OnePerChannelRemoveAt(rs: seq<Report>, p: nat, ts: int)
    requires p < |rs| && OnePerChannel(rs, ts)
    ensures OnePerChannel(rs[..p] + rs[p + 1..], ts)
  {
    var rest := rs[..p] + rs[p + 1..];
    assert forall k :: 0 <= k < |rest| ==> rest[k] == rs[if k < p then k else k + 1];
  }

  /** The report at `p` of a duplicate-free list can be written last. */
  lemma WriteAllRemoveAt(s: Sample, rs: seq<Report>, p: nat)
    requires p < |rs|
    requires forall k :: 0 <= k < |rs| ==> IndexOf(rs[k]).Some?
    requires forall k, l :: 0 <= k < l < |rs| ==> IndexOf(rs[k]) != IndexOf(rs[l])
    ensures WriteAll(s, rs) == WriteReport(WriteAll(s, rs[..p] + rs[p + 1..]), rs[p])
  {
    var before, after := rs[..p], rs[p + 1..];
    assert rs == before + [rs[p]] + after;
    forall k | 0 <= k < |after|
      ensures IndexOf(after[k]).Some? && IndexOf(after[k]) != IndexOf(rs[p])
    {
      assert after[k] == rs[p + 1 + k];
    }
    WriteAllMoveToEnd(s, before, rs[p], after);
  }

  /** Reconciliation is order independent: every permutation of the reports
      of all channels for a fresh timestamp leaves the same buffers, with the
      same finished row. */
  lemma ReportOrderIndependent(b: Buffers, channels: nat, localTime: int -> string,
                               rs: seq<Report>, rs': seq<Report>, ts: int)
    requires ts !in b.staging && |rs| == channels > 0
    requires OnePerChannel(rs, ts) && OnePerChannel(rs', ts)
    requires multiset(rs) == multiset(rs')
    ensures StageAll(b, channels, localTime, rs) == StageAll(b, channels, localTime, rs')
  {
    assert |rs'| == |multiset(rs')| == |multiset(rs)| == |rs|;
    ReportAllChannels(b, channels, localTime, rs, ts);
    ReportAllChannels(b, channels, localTime, rs', ts);
    WriteAllOrderIndependent([], rs, rs', ts);
  }

  /** Rows reach the ready buffer in completion order: a run of reports only
      ever appends to it. */
  lemma {:induction false} StageAllAppendsOnly(b: Buffers, channels: nat, localTime: int -> string,
                                               rs: seq<Report>)
    ensures var ready := StageAll(b, channels, localTime, rs).ready;
            |ready| >= |b.ready| && ready[..|b.ready|] == b.ready
    decreases |rs|
  {
    if rs != [] {
      StageAllAppendsOnly(b, channels, localTime, rs[..|rs| - 1]);
    }
  }

  // ---------------------------------------------------------------------
  // The monitor

  /** The log lines of one monitor tick for a staging buffer of `size`:
      a warning above 10 entries, then an error above 1000. */
  function MonitorLogs(size: nat): (logs: seq<Level>)
    ensures Warn in logs <==> size > 10
    ensures Error in logs <==> size > 1000
    ensures Error in logs ==> logs == [Warn, Error]
    ensures Info !in logs
  {
    (if size > 10 then [Warn] else []) + (if size > 1000 then [Error] else [])
  }

  // ---------------------------------------------------------------------
  // The reconciler object

  class Reconciler {
    const channelIds: seq<string>
    const localTime: int -> string
    var staging: map<int, Sample>
    var ready: seq<Row>

    ghost predicate Valid()
      reads this
    {
      StagingInvariant(Buffers(staging, ready), |channelIds|)
    }

    constructor (channelIds: seq<string>, localTime: int -> string)
      ensures Valid()
      ensures this.channelIds == channelIds && this.localTime == localTime
      ensures staging == map[] && ready == []
    {
      this.channelIds := channelIds;
      this.localTime := localTime;
      staging := map[];
      ready := [];
    }

    /** The event handler `stage(ch, [ts, value])`. */
    method StageReport(ch: string, ts: int, value: real)
      requires Valid()
      modifies this
      ensures Valid()
      ensures Buffers(staging, ready)
           == Stage(old(Buffers(staging, ready)), |channelIds|, localTime, Report(ch, ts, value))
    {
      ghost var before := Buffers(staging, ready);
      ghost var r := Report(ch, ts, value);
      StagePreservesInvariant(before, |channelIds|, localTime, r);
      // `stagingBuffer[ts] || []`, then the slot write.
      var sample := if ts in staging then staging[ts] else [];
      match ChToIndex(ch) {
        case Some(i) => sample := WriteSlot(sample, i, value);
        case None =>
      }
      assert sample == WriteReport(Lookup(before.staging, ts), r);
      if CountTruthy(sample) == |channelIds| {
        ready := ready + [Row(ts, localTime(ts), sample)];
        staging := staging - {ts};
      } else {
        staging := staging[ts := sample];
      }
    }

    /** One tick of the monitor interval. */
    method Monitor() returns (logs: seq<Level>)
      ensures logs == MonitorLogs(|staging|)
    {
      logs := [];
      if |staging| > 10 {
        logs := logs + [Warn];
      }
      if |staging| > 1000 {
        logs := logs + [Error];
      }
    }
  }

  // ---------------------------------------------------------------------
  // The staging buffer as written

  /** The staging buffer as src/pusherData.js literally uses it:
      `stagingBuffer[ts] = …` sets a property of the Map object (`props`),
      while `stagingBuffer.delete(ts)` and `stagingBuffer.size` act on the
      Map's entries (`entries`), which nothing ever adds to. */
  datatype LiteralBuffers = LiteralBuffers(props: map<int, Sample>, entries: map<int, Sample>, ready: seq<Row>)

  function StageAsWritten(b: LiteralBuffers, channels: nat, localTime: int -> string, r: Report): LiteralBuffers {
    var sample := WriteReport(Lookup(b.props, r.ts), r);
    var props := b.props[r.ts := sample];
    if CountTruthy(sample) == channels then
      LiteralBuffers(props, b.entries - {r.ts}, b.ready + [Row(r.ts, localTime(r.ts), sample)])
    else
      LiteralBuffers(props, b.entries, b.ready)
  }

  function StageAllAsWritten(b: LiteralBuffers, channels: nat, localTime: int -> string,
                             rs: seq<Report>): LiteralBuffers
    decreases |rs|
  {
    if rs == [] then b
    else StageAsWritten(StageAllAsWritten(b, channels, localTime, rs[..|rs| - 1]), channels, localTime, rs[|rs| - 1])
  }

  /** As written, the Map never gets an entry: its size stays 0 whatever
      arrives, so the monitor can never warn. */
  lemma {:induction false} AsWrittenSizeStaysZero(channels: nat, localTime: int -> string, rs: seq<Report>)
    ensures StageAllAsWritten(LiteralBuffers(map[], map[], []), channels, localTime, rs).entries == map[]
    ensures MonitorLogs(|StageAllAsWritten(LiteralBuffers(map[], map[], []), channels, localTime, rs).entries|) == []
    decreases |rs|
  {
    if rs != [] {
      AsWrittenSizeStaysZero(channels, localTime, rs[..|rs| - 1]);
    }
  }

  /** Two channels; a late second report for channel 0 after timestamp 7
      completed. As written, the completed sample is still a property of the
      Map and the late report pushes a second row for the same timestamp;
      with get/set/delete the late report starts a new staging entry. */
  lemma AsWrittenDuplicatesRow(localTime: int -> string)
    ensures var rs := [Report("ch0", 7, 1.0), Report("ch1", 7, 2.0), Report("ch0", 7, 3.0)];
            && |StageAllAsWritten(LiteralBuffers(map[], map[], []), 2, localTime, rs).ready| == 2
            && StageAll(Buffers(map[], []), 2, localTime, rs)
               == Buffers(map[7 := [Some(3.0)]], [Row(7, localTime(7), [Some(1.0), Some(2.0)])])
  {
    var r1, r2, r3 := Report("ch0", 7, 1.0), Report("ch1", 7, 2.0), Report("ch0", 7, 3.0);
    DuplicateWrites();
    AsWrittenScenario(localTime, r1, r2, r3);
    CorrectedScenario(localTime, r1, r2, r3);
  }

  /** The samples the three reports of the scenario write. */
  predicate ScenarioWrites(r1: Report, r2: Report, r3: Report) {
    && r1.ts == 7 && r2.ts == 7 && r3.ts == 7
    && WriteReport([], r1) == [Some(1.0)] && CountTruthy([Some(1.0)]) == 1
    && WriteReport([Some(1.0)], r2) == [Some(1.0), Some(2.0)] && CountTruthy([Some(1.0), Some(2.0)]) == 2
    && WriteReport([Some(1.0), Some(2.0)], r3) == [Some(3.0), Some(2.0)] && CountTruthy([Some(3.0), Some(2.0)]) == 2
    && WriteReport([], r3) == [Some(3.0)] && CountTruthy([Some(3.0)]) == 1
  }

  /** As written, the third report completes timestamp 7 a second time. */
  lemma AsWrittenScenario(localTime: int -> string, r1: Report, r2: Report, r3: Report)
    requires ScenarioWrites(r1, r2, r3)
    ensures |StageAllAsWritten(LiteralBuffers(map[], map[], []), 2, localTime, [r1, r2, r3]).ready| == 2
  {
    var l0 := LiteralBuffers(map[], map[], []);
    assert [r1, r2, r3][..2] == [r1, r2] && [r1, r2][..1] == [r1] && [r1][..0] == [];
    var l1 := StageAsWritten(l0, 2, localTime, r1);
    assert Lookup(l0.props, 7) == [];
    assert l1.props == map[7 := [Some(1.0)]] && l1.ready == [];
    var l2 := StageAsWritten(l1, 2, localTime, r2);
    assert Lookup(l1.props, 7) == [Some(1.0)];
    assert l2.props[7] == [Some(1.0), Some(2.0)] && |l2.ready| == 1;
    var l3 := StageAsWritten(l2, 2, localTime, r3);
    assert Lookup(l2.props, 7) == [Some(1.0), Some(2.0)];
    assert |l3.ready| == 2;
    assert StageAllAsWritten(l0, 2, localTime, [r1]) == l1;
    assert StageAllAsWritten(l0, 2, localTime, [r1, r2]) == l2;
  }

  /** With get/set/delete, the third report starts a new entry for 7. */
  lemma CorrectedScenario(localTime: int -> string, r1: Report, r2: Report, r3: Report)
    requires ScenarioWrites(r1, r2, r3)
    ensures StageAll(Buffers(map[], []), 2, localTime, [r1, r2, r3])
         == Buffers(map[7 := [Some(3.0)]], [Row(7, localTime(7), [Some(1.0), Some(2.0)])])
  {
    var b0 := Buffers(map[], []);
    var row := Row(7, localTime(7), [Some(1.0), Some(2.0)]);
    assert [r1, r2, r3][..2] == [r1, r2] && [r1, r2][..1] == [r1] && [r1][..0] == [];
    var b1 := Stage(b0, 2, localTime, r1);
    StageStaged(b0, b0, 2, localTime, [], r1);
    assert b1 == Buffers(map[7 := [Some(1.0)]], []);
    var b2 := Stage(b1, 2, localTime, r2);
    StageCompletes(b0, b1, 2, localTime, [Some(1.0)], r2);
    assert b2 == Buffers(map[], [row]);
    var b3 := Stage(b2, 2, localTime, r3);
    StageStaged(b2, b2, 2, localTime, [], r3);
    assert b3 == Buffers(map[7 := [Some(3.0)]], [row]);
    assert StageAll(b0, 2, localTime, [r1]) == b1;
    assert StageAll(b0, 2, localTime, [r1, r2]) == b2;
  }

  /** The samples and counts of the scenario above. */
  lemma DuplicateWrites()
    ensures ScenarioWrites(Report("ch0", 7, 1.0), Report("ch1", 7, 2.0), Report("ch0", 7, 3.0))
  {
    ScenarioIndices();
    ScenarioCounts();
    assert WriteSlot([], 0, 1.0) == [Some(1.0)];
    assert WriteSlot([Some(1.0)], 1, 2.0) == [Some(1.0), Some(2.0)];
    assert WriteSlot([Some(1.0), Some(2.0)], 0, 3.0) == [Some(3.0), Some(2.0)];
    assert WriteSlot([], 0, 3.0) == [Some(3.0)];
  }

  lemma ScenarioIndices()
    ensures ChToIndex("ch0") == Some(0) && ChToIndex("ch1") == Some(1)
  {
    ChToIndexOfNumeral("ch", 0);
    ChToIndexOfNumeral("ch", 1);
    assert "ch" + NatToString(0) == "ch0" && "ch" + NatToString(1) == "ch1";
  }

  lemma ScenarioCounts()
    ensures CountTruthy([Some(1.0)]) == 1 && CountTruthy([Some(3.0)]) == 1
    ensures CountTruthy([Some(1.0), Some(2.0)]) == 2 && CountTruthy([Some(3.0), Some(2.0)]) == 2
  {
    CountTruthySingle(Some(1.0));
    CountTruthySingle(Some(3.0));
    CountTruthySingle(Some(2.0));
    CountTruthyAppend([Some(1.0)], [Some(2.0)]);
    CountTruthyAppend([Some(3.0)], [Some(2.0)]);
    assert [Some(1.0)] + [Some(2.0)] == [Some(1.0), Some(2.0)];
    assert [Some(3.0)] + [Some(2.0)] == [Some(3.0), Some(2.0)];
  }

  /** With eleven timestamps that never complete, the staging map of the
      corrected handler holds eleven entries and the monitor warns; the Map
      as written is empty and the monitor stays silent. */
  lemma StuckTimestampsWarn(localTime: int -> string)
    ensures var rs := seq(11, k => Report("ch0", k, 1.0));
            && |StageAll(Buffers(map[], []), 2, localTime, rs).staging| == 11
            && MonitorLogs(|StageAll(Buffers(map[], []), 2, localTime, rs).staging|) == [Warn]
            && MonitorLogs(|StageAllAsWritten(LiteralBuffers(map[], map[], []), 2, localTime, rs).entries|) == []
  {
    var rs := seq(11, k => Report("ch0", k, 1.0));
    ChToIndexOfNumeral("ch", 0);
    assert "ch" + NatToString(0) == "ch0";
    assert CountTruthy(WriteSlot([], 0, 1.0)) == 1 by {
      assert WriteSlot([], 0, 1.0) == [Some(1.0)];
      CountTruthySingle(Some(1.0));
    }
    StuckEntries(localTime, rs, 11);
    AsWrittenSizeStaysZero(2, localTime, rs);
  }

  /** The staging map after one lone channel-0 report for each of the
      timestamps 0 .. n-1. */
  function StuckMap(n: nat): (m: map<int, Sample>)
    ensures forall t :: t in m ==> 0 <= t < n
    ensures |m| == n
  {
    if n == 0 then map[] else StuckMap(n - 1)[n - 1 := [Some(1.0)]]
  }

  lemma {:induction false} StuckEntries(localTime: int -> string, rs: seq<Report>, n: nat)
    requires |rs| == n && forall k :: 0 <= k < n ==> rs[k] == Report("ch0", k, 1.0)
    requires CountTruthy(WriteSlot([], 0, 1.0)) == 1 && ChToIndex("ch0") == Some(0)
    ensures StageAll(Buffers(map[], []), 2, localTime, rs) == Buffers(StuckMap(n), [])
    decreases n
  {
    if n > 0 {
      StuckEntries(localTime, rs[..n - 1], n - 1);
      assert WriteSlot([], 0, 1.0) == [Some(1.0)];
    }
  }
}
