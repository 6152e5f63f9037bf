/** What FanIn's stamp check finds out about lost batches: one subtopic, one agent, any in-order
    subset of the batches received. */
module LossDetection {
  import opened Wrappers
  import opened FanIn
  import opened Simulator
  import Float32

  /** A received batch: its number on the subtopic and the stamps it carries. */
  datatype Received = Received(number: nat, stamps: seq<int>)

  function Last(vs: seq<int>): int
    requires vs != []
  {
    vs[|vs| - 1]
  }

  /** Batches in sending order, each with stamps as the sender writes them; only the last may be a
      partial batch that does not end in its own number. */
  ghost predicate InOrder(bs: seq<Received>) {
    && (forall i :: 0 <= i < |bs| ==> Carries(bs[i].stamps, bs[i].number))
    && (forall i :: 0 <= i < |bs| - 1 ==> Last(bs[i].stamps) == bs[i].number)
    && (forall i, j :: 0 <= i < j < |bs| ==> bs[i].number < bs[j].number)
  }

  /** How many batches went missing right before received batch i. */
  function Lost(bs: seq<Received>, i: nat): int
    requires i < |bs|
  {
    bs[i].number - (if i == 0 then 0 else bs[i - 1].number) - 1
  }

  /** The exact condition for an ATTENTION at batch i: two or more batches missing, or one missing
      and the batch does not open with leftovers stamped one lower. */
  predicate Reported(bs: seq<Received>, i: nat)
    requires i < |bs| && bs[i].stamps != []
  {
    Lost(bs, i) >= 2 || (Lost(bs, i) == 1 && bs[i].stamps[0] == bs[i].number)
  }

  /** The number printed: on first contact the number missing, later one more than that. */
  function ReportAt(bs: seq<Received>, i: nat): int
    requires i < |bs| && bs[i].stamps != []
  {
    bs[i].stamps[0] - (if i == 0 then 1 else bs[i - 1].number)
  }

  ghost function Reports(bs: seq<Received>): seq<int>
    requires InOrder(bs)
  {
    if bs == [] then [] else
      var k := |bs| - 1;
      if Reported(bs, k) then Reports(bs[..k]) + [ReportAt(bs, k)] else Reports(bs[..k])
  }

  function AllStamps(bs: seq<Received>): seq<int> {
    if bs == [] then [] else AllStamps(bs[..|bs| - 1]) + bs[|bs| - 1].stamps
  }

  /** Within one batch only its first stamp can raise a report. */
  lemma {:induction false} WithinBatch(t: Tracked, vs: seq<int>, n: nat, i: nat)
    requires Carries(vs, n) && 1 <= i <= |vs|
    ensures Track(t, vs[..i]) == Tracked(Some(vs[i - 1]), TrackOne(t, vs[0]).reports)
  {
    TrackSnoc(t, vs[..i - 1], vs[i - 1]);
    assert vs[..i] == vs[..i - 1] + [vs[i - 1]];
    if i > 1 {
      WithinBatch(t, vs, n, i - 1);
    }
  }

  lemma InOrderPrefix(bs: seq<Received>)
    requires InOrder(bs) && bs != []
    ensures InOrder(bs[..|bs| - 1])
  {
  }

  /** The first stamp of batch i meets what the batches before it left behind. */
  lemma FirstStamp(bs: seq<Received>, i: nat, reports: seq<int>)
    requires InOrder(bs) && i < |bs|
    ensures TrackOne(Tracked(if i == 0 then None else Some(bs[i - 1].number), reports), bs[i].stamps[0]).reports
         == if Reported(bs, i) then reports + [ReportAt(bs, i)] else reports
  {
    var v, n := bs[i].stamps[0], bs[i].number;
    assert Carries(bs[i].stamps, n) && (v == n || v == n - 1) && v >= 1;
    assert i > 0 ==> bs[i - 1].number < n;
  }

  /** What the process knows just before batch k arrives. */
  ghost function KnownBefore(bs: seq<Received>): Tracked
    requires InOrder(bs) && bs != []
  {
    InOrderPrefix(bs);
    var k := |bs| - 1;
    Tracked(if k == 0 then None else Some(bs[k - 1].number), Reports(bs[..k]))
  }

  lemma FirstOfBatch(bs: seq<Received>)
    requires InOrder(bs) && bs != []
    ensures bs[|bs| - 1].stamps != []
    ensures TrackOne(KnownBefore(bs), bs[|bs| - 1].stamps[0]).reports == Reports(bs)
  {
    InOrderPrefix(bs);
    FirstStamp(bs, |bs| - 1, Reports(bs[..|bs| - 1]));
  }

  lemma DetectionStep(bs: seq<Received>)
    requires InOrder(bs) && bs != []
    ensures bs[|bs| - 1].stamps != []
    ensures Track(KnownBefore(bs), bs[|bs| - 1].stamps)
         == Tracked(Some(Last(bs[|bs| - 1].stamps)), Reports(bs))
  {
    var k := |bs| - 1;
    var vs := bs[k].stamps;
    InOrderPrefix(bs);
    assert vs[..|vs|] == vs;
    WithinBatch(KnownBefore(bs), vs, bs[k].number, |vs|);
    FirstOfBatch(bs);
  }

  lemma KnownFrom(bs: seq<Received>, t: Tracked)
    requires InOrder(bs) && |bs| > 1 && bs[|bs| - 2].stamps != [] && InOrder(bs[..|bs| - 1])
    requires t == Tracked(Some(Last(bs[|bs| - 2].stamps)), Reports(bs[..|bs| - 1]))
    ensures t == KnownBefore(bs)
  {
  }

  /** The detector computes exactly `Reports`. */
  lemma {:induction false} Detection(bs: seq<Received>)
    requires InOrder(bs) && bs != []
    ensures bs[|bs| - 1].stamps != []
    ensures Track(UNKNOWN, AllStamps(bs)) == Tracked(Some(Last(bs[|bs| - 1].stamps)), Reports(bs))
  {
    var k := |bs| - 1;
    InOrderPrefix(bs);
    if k > 0 {
      Detection(bs[..k]);
      assert bs[..k][k - 1] == bs[k - 1];
      KnownFrom(bs, Track(UNKNOWN, AllStamps(bs[..k])));
    } else {
      assert Track(UNKNOWN, AllStamps(bs[..k])) == KnownBefore(bs);
    }
    TrackConcat(UNKNOWN, AllStamps(bs[..k]), bs[k].stamps);
    DetectionStep(bs);
  }

  function SumInts(xs: seq<int>): int {
    if xs == [] then 0 else SumInts(xs[..|xs| - 1]) + xs[|xs| - 1]
  }

  /** Reports made after first contact; each of them prints one too many. */
  ghost function MidStream(bs: seq<Received>): int
    requires InOrder(bs)
  {
    |Reports(bs)| - (if bs != [] && Reported(bs, 0) then 1 else 0)
  }

  /** Gaps whose end is blurred by leftovers: each hides one lost batch. */
  ghost function Blurred(bs: seq<Received>): nat
    requires InOrder(bs)
  {
    if bs == [] then 0 else
      var k := |bs| - 1;
      Blurred(bs[..k]) + (if Lost(bs, k) >= 1 && bs[k].stamps[0] != bs[k].number then 1 else 0)
  }

  lemma SumSnoc(xs: seq<int>, x: int)
    ensures SumInts(xs + [x]) == SumInts(xs) + x
  {
    assert (xs + [x])[..|xs|] == xs;
  }

  /** What batch k adds to the corrected sum, and what its leftovers hide. */
  lemma GapAccounted(bs: seq<Received>, k: nat)
    requires InOrder(bs) && k < |bs|
    ensures bs[k].stamps != []
    ensures (if Reported(bs, k) then ReportAt(bs, k) - (if k == 0 then 0 else 1) else 0)
            + (if Lost(bs, k) >= 1 && bs[k].stamps[0] != bs[k].number then 1 else 0)
         == Lost(bs, k)
  {
    var v, n := bs[k].stamps[0], bs[k].number;
    assert Carries(bs[k].stamps, n) && (v == n || v == n - 1);
    assert k > 0 ==> bs[k - 1].number < n;
    assert Lost(bs, k) >= 0;
    assert Reported(bs, k) ==> ReportAt(bs, k) - (if k == 0 then 0 else 1) == Lost(bs, k) - (n - v);
  }

  ghost function Corrected(bs: seq<Received>): int
    requires InOrder(bs)
  {
    SumInts(Reports(bs)) - MidStream(bs) + Blurred(bs)
  }

  lemma CorrectedStep(bs: seq<Received>)
    requires InOrder(bs) && bs != [] && InOrder(bs[..|bs| - 1])
    ensures Corrected(bs) == Corrected(bs[..|bs| - 1]) + Lost(bs, |bs| - 1)
  {
    var k := |bs| - 1;
    GapAccounted(bs, k);
    SumSnoc(Reports(bs[..k]), ReportAt(bs, k));
    if k > 0 {
      assert bs[0].stamps != [] by {
        assert Carries(bs[0].stamps, bs[0].number);
      }
      assert Reported(bs[..k], 0) == Reported(bs, 0);
    }
  }

  /** Loss accounting: the corrected sum of the reports misses the true number of lost batches by
      exactly the number of blurred gaps. */
  lemma {:induction false} LossAccounting(bs: seq<Received>)
    requires InOrder(bs) && bs != []
    ensures SumInts(Reports(bs)) - MidStream(bs) + Blurred(bs) == bs[|bs| - 1].number - |bs|
  {
    var k := |bs| - 1;
    InOrderPrefix(bs);
    CorrectedStep(bs);
    if k > 0 {
      LossAccounting(bs[..k]);
      assert bs[..k][k - 1] == bs[k - 1];
    } else {
      assert bs[..k] == [];
    }
  }

  /** Batches that never open with leftovers: every loss is reported, and exactly. */
  ghost predicate Aligned(bs: seq<Received>) {
    forall i :: 0 <= i < |bs| ==> bs[i].stamps != [] && bs[i].stamps[0] == bs[i].number
  }

  lemma {:induction false} AlignedNeverBlurs(bs: seq<Received>)
    requires InOrder(bs) && Aligned(bs)
    ensures Blurred(bs) == 0
    ensures forall i :: 0 <= i < |bs| ==> (Reported(bs, i) <==> Lost(bs, i) >= 1)
  {
    if bs != [] {
      AlignedNeverBlurs(bs[..|bs| - 1]);
    }
  }

  /** How often batches went missing. */
  function Gaps(bs: seq<Received>): nat {
    if bs == [] then 0 else
      var k := |bs| - 1;
      Gaps(bs[..k]) + if Lost(bs, k) >= 1 then 1 else 0
  }

  lemma {:induction false} AlignedGaps(bs: seq<Received>)
    requires InOrder(bs) && Aligned(bs)
    ensures |Reports(bs)| == Gaps(bs)
  {
    if bs != [] {
      AlignedGaps(bs[..|bs| - 1]);
    }
  }

  // ---------- No loss: the float bound ----------

  predicate StepAt(vs: seq<int>, i: nat)
    requires 0 < i < |vs|
  {
    vs[i] == vs[i - 1] || vs[i] == vs[i - 1] + 1
  }

  /** Stamps as they arrive when nothing is lost: from 1, and never up by more than one. */
  predicate Climbs(vs: seq<int>) {
    && (vs != [] ==> vs[0] == 1)
    && forall i :: 0 < i < |vs| ==> StepAt(vs, i)
  }

  function RoundAll(vs: seq<int>): (ws: seq<int>)
    ensures |ws| == |vs|
  {
    seq(|vs|, i requires 0 <= i < |vs| => Float32.Round(vs[i]))
  }

  /** The k-th received batch has number k + 1: nothing is missing. */
  ghost predicate Gapless(bs: seq<Received>) {
    forall i :: 0 <= i < |bs| ==> bs[i].number == i + 1
  }

  lemma CarriesClimbs(vs: seq<int>, n: nat, i: nat)
    requires Carries(vs, n) && 0 < i < |vs|
    ensures StepAt(vs, i)
  {
    assert vs[i - 1] <= vs[i];
  }

  lemma ClimbJoin(before: seq<int>, vs: seq<int>, n: nat)
    requires Climbs(before) && Carries(vs, n)
    requires if before == [] then vs[0] == 1 else vs[0] == Last(before) || vs[0] == Last(before) + 1
    ensures Climbs(before + vs)
  {
    forall i | 0 < i < |before + vs|
      ensures StepAt(before + vs, i)
    {
      if i < |before| {
        assert StepAt(before, i);
      } else if i > |before| {
        CarriesClimbs(vs, n, i - |before|);
      }
    }
  }

  /** The next number follows on what the batches before it end in. */
  lemma NextBatch(bs: seq<Received>)
    requires InOrder(bs) && Gapless(bs) && bs != []
    ensures var k := |bs| - 1;
            && Carries(bs[k].stamps, k + 1)
            && (k == 0 ==> bs[k].stamps[0] == 1)
            && (k > 0 ==> bs[k - 1].stamps != [] && 0 <= bs[k].stamps[0] - Last(bs[k - 1].stamps) <= 1)
  {
    var k := |bs| - 1;
    assert Carries(bs[k].stamps, k + 1);
    assert k > 0 ==> Carries(bs[k - 1].stamps, k) && Last(bs[k - 1].stamps) == k;
  }

  lemma {:induction false} GaplessClimbs(bs: seq<Received>)
    requires InOrder(bs) && Gapless(bs)
    ensures Climbs(AllStamps(bs))
    ensures bs != [] ==> AllStamps(bs) != [] && bs[|bs| - 1].stamps != []
                         && Last(AllStamps(bs)) == Last(bs[|bs| - 1].stamps)
  {
    if bs != [] {
      var k := |bs| - 1;
      var before, vs := AllStamps(bs[..k]), bs[k].stamps;
      InOrderPrefix(bs);
      NextBatch(bs);
      GaplessClimbs(bs[..k]);
      assert if k == 0 then before == [] else before != [] && Last(before) == Last(bs[k - 1].stamps);
      ClimbJoin(before, vs, k + 1);
      assert Last(before + vs) == Last(vs);
    }
  }

  lemma {:induction false} ClimbBound(vs: seq<int>, i: nat)
    requires Climbs(vs) && i < |vs|
    ensures 1 <= vs[i] <= Last(vs)
    decreases |vs| - i, i
  {
    if i < |vs| - 1 {
      assert StepAt(vs, i + 1);
      ClimbBound(vs, i + 1);
    }
    ClimbPositive(vs, i);
  }

  lemma {:induction false} ClimbPositive(vs: seq<int>, i: nat)
    requires Climbs(vs) && i < |vs|
    ensures vs[i] >= 1
  {
    if i > 0 {
      assert StepAt(vs, i);
      ClimbPositive(vs, i - 1);
    }
  }

  lemma ClimbPrefix(vs: seq<int>, n: nat)
    requires Climbs(vs) && n <= |vs|
    ensures Climbs(vs[..n])
  {
    forall i | 0 < i < n
      ensures StepAt(vs[..n], i)
    {
      assert StepAt(vs, i);
    }
  }

  /** A climb passes every height on its way. */
  lemma {:induction false} ClimbPasses(vs: seq<int>, h: int) returns (i: nat)
    requires Climbs(vs) && vs != [] && 1 < h <= Last(vs)
    ensures 0 < i < |vs| && vs[i] == h && vs[i - 1] == h - 1
  {
    i := |vs| - 1;
    assert i > 0 && StepAt(vs, i);
    if vs[i] != h || vs[i - 1] != h - 1 {
      ClimbPrefix(vs, i);
      i := ClimbPasses(vs[..i], h);
    }
  }

  lemma RoundNear(v: int)
    requires 1 <= v <= Float32.EXACT + 1
    ensures Float32.Round(v) == if v <= Float32.EXACT then v else Float32.EXACT
  {
    Float32.FirstInexact();
    Float32.ExactBelow(if v <= Float32.EXACT then v else 0);
  }

  /** Up to 2^24 + 1 rounding keeps steps of zero or one, so the check stays silent. */
  lemma {:induction false} QuietBelow(vs: seq<int>, i: nat)
    requires Climbs(vs) && 0 < i <= |vs|
    requires forall j :: 0 <= j < i ==> vs[j] <= Float32.EXACT + 1
    ensures Track(UNKNOWN, RoundAll(vs)[..i]) == Tracked(Some(Float32.Round(vs[i - 1])), [])
  {
    var ws := RoundAll(vs);
    assert ws[..i] == ws[..i - 1] + [ws[i - 1]];
    TrackSnoc(UNKNOWN, ws[..i - 1], ws[i - 1]);
    ClimbPositive(vs, i - 1);
    RoundNear(vs[i - 1]);
    if i > 1 {
      assert StepAt(vs, i - 1);
      QuietBelow(vs, i - 1);
      ClimbPositive(vs, i - 2);
      RoundNear(vs[i - 2]);
    } else {
      assert ws[..0] == [];
    }
  }

  lemma {:induction false} ReportsGrow(t: Tracked, vs: seq<int>)
    ensures |Track(t, vs).reports| >= |t.reports|
  {
    if vs != [] {
      ReportsGrow(t, vs[..|vs| - 1]);
    }
  }

  lemma ReportsStay(t: Tracked, a: seq<int>, b: seq<int>)
    ensures |Track(t, a + b).reports| >= |Track(t, a).reports|
  {
    TrackConcat(t, a, b);
    ReportsGrow(Track(t, a), b);
  }

  /** The step from 2^24 + 1 to 2^24 + 2 arrives as a jump by two: a false alarm. */
  lemma FalseAlarmAbove(vs: seq<int>)
    requires Climbs(vs) && vs != [] && Last(vs) > Float32.EXACT + 1
    ensures Track(UNKNOWN, RoundAll(vs)).reports != []
  {
    var i := ClimbPasses(vs, Float32.EXACT + 2);
    var ws := RoundAll(vs);
    ClimbPrefix(vs, i);
    forall j | 0 <= j < i
      ensures vs[j] <= Float32.EXACT + 1
    {
      ClimbBound(vs[..i], j);
    }
    QuietBelow(vs, i);
    Float32.FirstInexact();
    TrackSnoc(UNKNOWN, ws[..i], ws[i]);
    assert ws[..i + 1] == ws[..i] + [ws[i]] && ws == ws[..i + 1] + ws[i + 1..];
    ReportsStay(UNKNOWN, ws[..i + 1], ws[i + 1..]);
  }

  /** No false alarms, exactly: when nothing is lost, the check is silent if and only if no stamp
      exceeds 2^24 + 1. */
  lemma NoFalseAlarms(vs: seq<int>)
    requires Climbs(vs)
    ensures Track(UNKNOWN, RoundAll(vs)).reports == [] <==> (vs != [] ==> Last(vs) <= Float32.EXACT + 1)
  {
    if vs == [] {
      assert RoundAll(vs) == [];
    } else if Last(vs) <= Float32.EXACT + 1 {
      forall j | 0 <= j < |vs|
        ensures vs[j] <= Float32.EXACT + 1
      {
        ClimbBound(vs, j);
      }
      QuietBelow(vs, |vs|);
      assert RoundAll(vs)[..|vs|] == RoundAll(vs);
    } else {
      FalseAlarmAbove(vs);
    }
  }
}
