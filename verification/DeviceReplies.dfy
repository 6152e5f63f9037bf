/** What a device-list response is worth while other handlers run: the UUIDs that an agent was sent
    are the ones stored for it until somebody else writes or deletes that agent. */
module DeviceReplies {
  import opened Records
  import opened Wrappers
  import opened Agents
  import opened DeviceRegistration
  import opened Manager

  // ---------- Lists named by different handlers ----------

  ghost function Uuids(ds: seq<Device>): set<Option<Uuid>> {
    set i | 0 <= i < |ds| :: ds[i].uuid
  }

  ghost predicate Older(ds: seq<Device>, gen: Uuid) {
    forall x :: x in Uuids(ds) ==> x.Some? && x.value < gen
  }

  ghost predicate Apart(ds: seq<Device>, es: seq<Device>) {
    Uuids(ds) !! Uuids(es)
  }

  lemma AssignedUuids(ds: seq<Device>, gen: Uuid)
    ensures Older(AssignDevices(ds, gen), gen + NamesIn(ds))
    ensures forall x :: x in Uuids(AssignDevices(ds, gen)) ==> x.Some? && gen <= x.value
  {
    forall i | 0 <= i < |ds|
      ensures AssignDevices(ds, gen)[i].uuid.Some?
      ensures gen <= AssignDevices(ds, gen)[i].uuid.value < gen + NamesIn(ds)
    {
      AssignedAt(ds, gen, i);
      NamesGrow(ds, i, |ds|);
      assert ds[..|ds|] == ds;
    }
  }

  lemma NewIsApart(earlier: seq<Device>, ds: seq<Device>, gen: Uuid)
    requires Older(earlier, gen)
    ensures Apart(earlier, AssignDevices(ds, gen))
  {
    AssignedUuids(ds, gen);
  }

  lemma MapHoldsUuids(ds: seq<Device>, id: string)
    requires id in ResponseMap(ds)
    ensures ResponseMap(ds)[id].uuid in Uuids(ds)
  {
    var i := LastEntry(DeviceEntries(ds), id);
    assert ResponseMap(ds)[id].uuid == ds[i].uuid;
  }

  /** Lists that were named apart make different response maps, unless both are empty. */
  lemma MapsDiffer(ds: seq<Device>, es: seq<Device>)
    requires Apart(ds, es) && ResponseMap(ds) != map[]
    ensures ResponseMap(ds) != ResponseMap(es)
  {
    var id :| id in ResponseMap(ds);
    MapHoldsUuids(ds, id);
    if id in ResponseMap(es) {
      MapHoldsUuids(es, id);
    }
  }

  // ---------- Handlers never share a name ----------

  /** The devices that a handler carries once it has named them. */
  function Named(t: Thread): seq<Device> {
    match t
    case DevicesGet(_, ds) => ds
    case DevicesUpdate(_, ds) => ds
    case DevicesRespond(_, ds) => ds
    case _ => []
  }

  predicate WritesWhatItNamed(t: Thread) {
    t.DevicesUpdate? ==> t.agent.devices == t.payload
  }

  ghost predicate NamesApart(s: State) {
    && (forall t :: 0 <= t < |s.threads| ==> Older(Named(s.threads[t]), s.gen) && WritesWhatItNamed(s.threads[t]))
    && (forall i, j :: 0 <= i < j < |s.threads| ==> Apart(Named(s.threads[i]), Named(s.threads[j])))
  }

  /** What a step does to the names that its thread carries. */
  lemma StepNames(s: State, tid: nat)
    requires NamesApart(s) && tid < |s.threads|
    ensures var s', t := Advance(s, tid), s.threads[tid];
            && s'.gen >= s.gen && s'.threads == s.threads[tid := s'.threads[tid]]
            && (Named(s'.threads[tid]) == Named(t) || Named(s'.threads[tid]) == []
                || (t.DevicesAssign? && Named(s'.threads[tid]) == AssignDevices(t.payload, s.gen)))
            && Older(Named(s'.threads[tid]), s'.gen) && WritesWhatItNamed(s'.threads[tid])
  {
    var t := s.threads[tid];
    if t.DevicesAssign? {
      AssignedUuids(t.payload, s.gen);
    }
  }

  lemma StepApart(s: State, tid: nat, ds: seq<Device>)
    requires NamesApart(s) && tid < |s.threads|
    requires Apart(ds, Named(s.threads[tid])) && Older(ds, s.gen)
    ensures Apart(ds, Named(Advance(s, tid).threads[tid]))
  {
    StepNames(s, tid);
    if s.threads[tid].DevicesAssign? {
      NewIsApart(ds, s.threads[tid].payload, s.gen);
    }
  }

  lemma ApplyNames(s: State, e: Event)
    requires NamesApart(s)
    ensures NamesApart(Apply(s, e))
  {
    if e.Step? && e.tid < |s.threads| {
      var s', tid := Apply(s, e), e.tid;
      StepNames(s, tid);
      forall i, j | 0 <= i < j < |s'.threads|
        ensures Apart(Named(s'.threads[i]), Named(s'.threads[j]))
      {
        assert Apart(Named(s.threads[i]), Named(s.threads[j]));
        if i == tid {
          StepApart(s, tid, Named(s.threads[j]));
        } else if j == tid {
          StepApart(s, tid, Named(s.threads[i]));
        }
      }
    }
  }

  lemma {:induction false} RunNames(es: seq<Event>)
    ensures NamesApart(Run(es))
  {
    if es != [] {
      RunNames(es[..|es| - 1]);
      ApplyNames(Run(es[..|es| - 1]), es[|es| - 1]);
    }
  }

  // ---------- After the write ----------

  /** Handler tid has written the list ds to agent u; it has answered with its map, or will, and
      nobody else carries any of these names. */
  ghost predicate Wrote(s: State, tid: nat, u: Uuid, ds: seq<Device>) {
    && tid < |s.threads| && u in s.saved && Older(ds, s.gen)
    && (s.threads[tid] == DevicesRespond(u, ds)
        || (s.threads[tid].Finished? && DevicesRegistered(u, ResponseMap(ds)) in s.sent))
    && forall i :: 0 <= i < |s.threads| && i != tid ==> Apart(ds, Named(s.threads[i]))
  }

  lemma WriteStep(s: State, tid: nat)
    requires Manager.Sound(s) && NamesApart(s) && tid < |s.threads| && s.threads[tid].DevicesUpdate?
    ensures var t := s.threads[tid];
            Wrote(Advance(s, tid), tid, t.agent.uuid, t.payload)
            && t.agent.uuid in Advance(s, tid).hash
            && Advance(s, tid).hash[t.agent.uuid].devices == t.payload
  {
    assert ThreadSound(s, s.threads[tid]);
    forall i | 0 <= i < |s.threads| && i != tid
      ensures Apart(s.threads[tid].payload, Named(s.threads[i]))
    {
      assert if i < tid then Apart(Named(s.threads[i]), Named(s.threads[tid]))
             else Apart(Named(s.threads[tid]), Named(s.threads[i]));
    }
  }

  lemma WroteStays(s: State, e: Event, tid: nat, u: Uuid, ds: seq<Device>)
    requires NamesApart(s) && Wrote(s, tid, u, ds)
    ensures Wrote(Apply(s, e), tid, u, ds)
  {
    if e.Step? && e.tid < |s.threads| {
      var s' := Apply(s, e);
      StepNames(s, e.tid);
      if e.tid != tid {
        StepApart(s, e.tid, ds);
        SentStays(s, e.tid, DevicesRegistered(u, ResponseMap(ds)));
      } else if s.threads[tid].DevicesRespond? {
        assert s'.sent[|s.sent|] == DevicesRegistered(u, ResponseMap(ds));
      }
    }
  }

  lemma SentStays(s: State, tid: nat, r: Reply)
    requires tid < |s.threads|
    ensures r in s.sent ==> r in Advance(s, tid).sent
  {
  }

  /** What handler tid wrote at event w. */
  function WrittenAt(es: seq<Event>, w: nat, tid: nat, u: Uuid): seq<Device>
    requires w < |es| && WritesAt(es, w, tid, u)
  {
    Run(es[..w]).threads[tid].payload
  }

  lemma {:induction false} WroteSince(es: seq<Event>, w: nat, tid: nat, u: Uuid, n: nat)
    requires w < n <= |es| && WritesAt(es, w, tid, u)
    ensures Wrote(Run(es[..n]), tid, u, WrittenAt(es, w, tid, u))
  {
    StepOf(es, n - 1);
    RunNames(es[..n - 1]);
    if n == w + 1 {
      RunSound(es[..w]);
      WriteStep(Run(es[..w]), tid);
    } else {
      WroteSince(es, w, tid, u, n - 1);
      WroteStays(Run(es[..n - 1]), es[n - 1], tid, u, WrittenAt(es, w, tid, u));
    }
  }

  // ---------- Until the next write or deletion ----------

  /** Event k is a device-list write or a deletion of agent u. */
  predicate ChangesAt(es: seq<Event>, k: nat, u: Uuid)
    requires k < |es|
  {
    || (es[k].Step? && WritesAt(es, k, es[k].tid, u))
    || (Holds(es, k, u) && !Holds(es, k + 1, u))
  }

  predicate Untouched(es: seq<Event>, a: nat, b: nat, u: Uuid)
    requires b <= |es|
  {
    forall k :: a <= k < b ==> !ChangesAt(es, k, u)
  }

  /** Other events leave a saved agent alone. */
  lemma OtherStep(es: seq<Event>, k: nat, u: Uuid)
    requires k < |es| && u in Run(es[..k]).saved && !ChangesAt(es, k, u)
    ensures u in Run(es[..k + 1]).hash <==> u in Run(es[..k]).hash
    ensures u in Run(es[..k]).hash ==> Run(es[..k + 1]).hash[u] == Run(es[..k]).hash[u]
  {
    StepOf(es, k);
    RunSound(es[..k]);
    var s := Run(es[..k]);
    if es[k].Step? && es[k].tid < |s.threads| {
      assert ThreadSound(s, s.threads[es[k].tid]);
    }
  }

  /** A later write is another handler's, and so are its names. */
  lemma ChangeStep(es: seq<Event>, k: nat, tid: nat, u: Uuid, ds: seq<Device>)
    requires k < |es| && ChangesAt(es, k, u) && Wrote(Run(es[..k]), tid, u, ds)
    ensures u in Run(es[..k + 1]).hash ==> Apart(ds, Run(es[..k + 1]).hash[u].devices)
  {
    StepOf(es, k);
    RunNames(es[..k]);
    var s := Run(es[..k]);
    if Holds(es, k + 1, u) {
      var other := es[k].tid;
      assert WritesAt(es, k, other, u) && other != tid;
      assert Apart(ds, Named(s.threads[other])) && WritesWhatItNamed(s.threads[other]);
    }
  }

  lemma RightAfter(es: seq<Event>, w: nat, tid: nat, u: Uuid)
    requires w < |es| && WritesAt(es, w, tid, u)
    ensures u in Run(es[..w + 1]).hash && Run(es[..w + 1]).hash[u].devices == WrittenAt(es, w, tid, u)
  {
    StepOf(es, w);
    RunSound(es[..w]);
    RunNames(es[..w]);
    WriteStep(Run(es[..w]), tid);
  }

  /** Agent u still has exactly this list, or none of its names. */
  ghost predicate StandsOrGone(s: State, u: Uuid, ds: seq<Device>, stands: bool) {
    if stands then u in s.hash && s.hash[u].devices == ds
    else u in s.hash ==> Apart(ds, s.hash[u].devices)
  }

  lemma StandsStep(es: seq<Event>, k: nat, tid: nat, u: Uuid, ds: seq<Device>, stands: bool)
    requires k < |es| && Wrote(Run(es[..k]), tid, u, ds) && StandsOrGone(Run(es[..k]), u, ds, stands)
    ensures StandsOrGone(Run(es[..k + 1]), u, ds, stands && !ChangesAt(es, k, u))
  {
    if ChangesAt(es, k, u) {
      ChangeStep(es, k, tid, u, ds);
    } else {
      OtherStep(es, k, u);
    }
  }

  lemma UntouchedSnoc(es: seq<Event>, a: nat, b: nat, u: Uuid)
    requires a < b <= |es|
    ensures Untouched(es, a, b, u) <==> Untouched(es, a, b - 1, u) && !ChangesAt(es, b - 1, u)
  {
  }

  /** After n events agent u has exactly the list that was written to it at w, if no event since then
      has changed the agent, and none of its names otherwise. */
  ghost predicate StandsUntilTouched(es: seq<Event>, w: nat, tid: nat, u: Uuid, n: nat) {
    && w < n <= |es| && WritesAt(es, w, tid, u)
    && StandsOrGone(Run(es[..n]), u, WrittenAt(es, w, tid, u), Untouched(es, w + 1, n, u))
  }

  lemma StoredStep(es: seq<Event>, w: nat, tid: nat, u: Uuid, k: nat)
    requires k < |es| && StandsUntilTouched(es, w, tid, u, k)
    ensures StandsUntilTouched(es, w, tid, u, k + 1)
  {
    WroteSince(es, w, tid, u, k);
    StandsStep(es, k, tid, u, WrittenAt(es, w, tid, u), Untouched(es, w + 1, k, u));
    UntouchedSnoc(es, w + 1, k + 1, u);
  }

  lemma StoredFirst(es: seq<Event>, w: nat, tid: nat, u: Uuid)
    requires w < |es| && WritesAt(es, w, tid, u)
    ensures StandsUntilTouched(es, w, tid, u, w + 1)
  {
    RightAfter(es, w, tid, u);
  }

  lemma {:induction false} StoredFrom(es: seq<Event>, w: nat, tid: nat, u: Uuid, k: nat, n: nat)
    requires k <= n <= |es| && StandsUntilTouched(es, w, tid, u, k)
    ensures StandsUntilTouched(es, w, tid, u, n)
    decreases n - k
  {
    if k < n {
      StoredStep(es, w, tid, u, k);
      StoredFrom(es, w, tid, u, k + 1, n);
    }
  }

  lemma StoredUntilTouched(es: seq<Event>, w: nat, tid: nat, u: Uuid, n: nat)
    requires w < n <= |es| && WritesAt(es, w, tid, u)
    ensures StandsUntilTouched(es, w, tid, u, n)
  {
    StoredFirst(es, w, tid, u);
    StoredFrom(es, w, tid, u, w + 1, n);
  }

  // ---------- Where replies come from ----------

  lemma StepToResponding(s: State, e: Event, tid: nat)
    requires tid < |Apply(s, e).threads| && Apply(s, e).threads[tid].DevicesRespond?
    ensures tid < |s.threads|
    ensures var t, t' := s.threads[tid], Apply(s, e).threads[tid];
            t' == t || (e == Step(tid) && t.DevicesUpdate? && t.agent.uuid == t'.uuid && t.payload == t'.payload)
  {
  }

  lemma {:induction false} RespondingWrote(es: seq<Event>, n: nat, tid: nat) returns (w: nat)
    requires n <= |es| && tid < |Run(es[..n]).threads| && Run(es[..n]).threads[tid].DevicesRespond?
    ensures var t := Run(es[..n]).threads[tid];
            w < n && WritesAt(es, w, tid, t.uuid) && WrittenAt(es, w, tid, t.uuid) == t.payload
  {
    assert n > 0 by {
      assert Run(es[..0]).threads == [];
    }
    StepOf(es, n - 1);
    var s := Run(es[..n - 1]);
    StepToResponding(s, es[n - 1], tid);
    if s.threads[tid].DevicesRespond? {
      w := RespondingWrote(es, n - 1, tid);
    } else {
      w := n - 1;
    }
  }

  lemma StepToSent(s: State, e: Event, k: nat)
    requires k < |Apply(s, e).sent| && Apply(s, e).sent[k].DevicesRegistered?
    ensures if k < |s.sent| then s.sent[k] == Apply(s, e).sent[k]
            else e.Step? && e.tid < |s.threads| && s.threads[e.tid].DevicesRespond?
                 && var t := s.threads[e.tid];
                 Apply(s, e).sent[k] == DevicesRegistered(t.uuid, ResponseMap(t.payload))
  {
  }

  /** Every device-list response was sent by a handler that had written the list it answers with. */
  lemma {:induction false} ReplyWasWritten(es: seq<Event>, n: nat, k: nat) returns (w: nat, tid: nat)
    requires n <= |es| && k < |Run(es[..n]).sent| && Run(es[..n]).sent[k].DevicesRegistered?
    ensures var r := Run(es[..n]).sent[k];
            w < n && WritesAt(es, w, tid, r.topicUuid)
            && r.deviceUuids == ResponseMap(WrittenAt(es, w, tid, r.topicUuid))
  {
    assert n > 0 by {
      assert Run(es[..0]).sent == [];
    }
    StepOf(es, n - 1);
    StepToSent(Run(es[..n - 1]), es[n - 1], k);
    if k < |Run(es[..n - 1]).sent| {
      w, tid := ReplyWasWritten(es, n - 1, k);
    } else {
      tid := es[n - 1].tid;
      w := RespondingWrote(es, n - 1, tid);
    }
  }

  /** Main result on device lists under interleaving. What a response tells the agent was written by
      its handler at some event w, and it is what the hash holds for that agent as long as there has
      been no device-list write and no deletion of it since; and no longer, if it names any device
      at all. */
  lemma RepliesStandUntilTouched(es: seq<Event>, k: nat) returns (w: nat, tid: nat)
    requires k < |Run(es).sent| && Run(es).sent[k].DevicesRegistered?
    ensures var r, hash := Run(es).sent[k], Run(es).hash;
            var u := r.topicUuid;
            && w < |es| && WritesAt(es, w, tid, u)
            && r.deviceUuids == ResponseMap(WrittenAt(es, w, tid, u))
            && (Untouched(es, w + 1, |es|, u) ==> u in hash && ResponseMap(hash[u].devices) == r.deviceUuids)
            && (r.deviceUuids != map[] && u in hash && ResponseMap(hash[u].devices) == r.deviceUuids ==>
                  Untouched(es, w + 1, |es|, u))
  {
    assert es[..|es|] == es;
    w, tid := ReplyWasWritten(es, |es|, k);
    var r, hash := Run(es).sent[k], Run(es).hash;
    var ds := WrittenAt(es, w, tid, r.topicUuid);
    StoredUntilTouched(es, w, tid, r.topicUuid, |es|);
    if !Untouched(es, w + 1, |es|, r.topicUuid) && r.topicUuid in hash && r.deviceUuids != map[] {
      MapsDiffer(ds, hash[r.topicUuid].devices);
    }
  }
}
