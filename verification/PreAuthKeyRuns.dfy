/** Whole lifetimes of a HeadscalePreAuthKey: any number of runs, crashed or not, and anything beside them. */
module PreAuthKeyRuns {
  import opened Wrappers
  import opened Decimal
  import opened Calls
  import opened PreAuthKeyWorld
  import opened PreAuthKeySafety
  import opened PreAuthKeyCalls
  import opened PreAuthKeyAnswers
  import opened PreAuthKey

  /** A run of the controller, or what somebody else does between runs. */
  datatype Event = Run(plan: seq<Choice>) | Beside(d: Disturbance)

  /** What came of an event: the calls a run made, the key they made, if any, and how the run ended. */
  datatype Deed = Ran(calls: seq<Request>, made: Option<nat>, outcome: Outcome) | Happened

  /** A resource as a user creates it, before the controller has seen it. */
  ghost predicate Initial(s: State) {
    && IsThere(s) && s.next <= UINT64_LIMIT && (forall id | id in s.keys :: id < s.next)
    && s.made == map[] && !s.overwritten && !s.missed && !s.bereft
    && |s.history| == 1 && s.history[0].Some? && var r := s.history[0].value;
    && r.version == 0 && r.keyId == "" && !r.deleting && r.condition == None
    && forall i | 0 <= i < |s.secrets| && s.secrets[i].Some? :: s.secrets[i].value.version == i
  }

  lemma InitialIsSafe(s: State)
    requires Initial(s)
    ensures Inv(s) && SightInv(s) && Recorded(s.history) == "" && s.made == map[] && !s.overwritten && IsThere(s)
  {
  }

  // ---------- Traces ----------

  /** A run: legitimate calls, each served by its choice of the plan, with all that `Reconcile` promises of them. */
  ghost predicate IsRun(s: State, plan: seq<Choice>, deed: Deed, t: State)
    requires IsThere(s) && IsThere(t) && deed.Ran?
  {
    && deed.calls != [] && deed.calls[0] == GetResource
    && AllLegit(s, plan, deed.calls) && t == After(s, plan, deed.calls)
    && Effects(s, t, deed.made)
    && (Alone(plan) ==> ByItself(s, t, 1))
    && (Head(plan).lag == 0 ==> t.overwritten == s.overwritten)
    && (ReadsDeletion(s, plan) && deed.outcome == Finished ==>
          && Last(t.history) == None
          && (RecordedRemoved(t) <==> SeesToDeletion(s, plan) || RecordedRemoved(s)))
    && (IsUndisturbedRun(plan, s) && Last(s.history).Some? ==> Settled(s, t, deed.outcome, deed.made))
  }

  ghost predicate IsStep(s: State, e: Event, deed: Deed, t: State)
    requires IsThere(s) && IsThere(t)
  {
    match e
    case Run(plan) => deed.Ran? && IsRun(s, plan, deed, t) && IsAnswered(s, plan, deed.calls, deed.outcome)
    case Beside(d) => deed.Happened? && t == Disturb(s, d)
  }

  /** The states between these events, and what came of each event. */
  ghost predicate IsTrace(trace: seq<State>, events: seq<Event>, deeds: seq<Deed>) {
    && |trace| == |events| + 1 && |deeds| == |events|
    && (forall i | 0 <= i < |trace| :: IsThere(trace[i]))
    && forall i | 0 <= i < |events| :: IsStep(trace[i], events[i], deeds[i], trace[i + 1])
  }

  lemma StepOf(trace: seq<State>, events: seq<Event>, deeds: seq<Deed>, n: nat)
    requires IsTrace(trace, events, deeds) && n < |events|
    ensures |trace| == |events| + 1 && |deeds| == |events| && IsThere(trace[n]) && IsThere(trace[n + 1])
    ensures IsStep(trace[n], events[n], deeds[n], trace[n + 1])
  {
  }

  lemma OneMoreEvent(trace: seq<State>, events: seq<Event>, deeds: seq<Deed>, e: Event, deed: Deed, t: State)
    requires IsTrace(trace, events, deeds) && IsThere(t) && IsThere(Last(trace)) && IsStep(Last(trace), e, deed, t)
    ensures IsTrace(trace + [t], events + [e], deeds + [deed])
    ensures (trace + [t])[0] == trace[0] && Last(trace + [t]) == t
  {
    hide IsStep;
    var more, then_, done := trace + [t], events + [e], deeds + [deed];
    forall i | 0 <= i < |then_| ensures IsStep(more[i], then_[i], done[i], more[i + 1]) {
      if i < |events| {
        assert IsStep(trace[i], events[i], deeds[i], trace[i + 1]);
      }
    }
  }

  // ---------- Conservation ----------

  /** Keys made and never recorded. */
  ghost function Orphans(s: State): set<nat> {
    set id | id in s.made && PrintNat(id) != Recorded(s.history)
  }

  /** Keys made that Headscale still has. */
  ghost function Kept(s: State): set<nat> {
    set id | id in s.made && id in s.keys
  }

  /** The keys made that Headscale still has are the orphans and the recorded key, unless that was removed. */
  lemma Conservation(s: State)
    requires Inv(s)
    ensures Orphans(s) <= Kept(s) && forall id | id in Kept(s) && id !in Orphans(s) :: PrintNat(id) == Recorded(s.history)
    ensures |Kept(s)| == |Orphans(s)| + if RecordedRemoved(s) then 0 else 1
    ensures forall id | id in Kept(s) :: s.keys[id] == s.made[id]
  {
    hide HistoryInv, DepartureInv, AgreementInv, DemandInv;
    if RecordedRemoved(s) {
      assert Kept(s) == Orphans(s);
    } else {
      var id :| id in s.made && PrintNat(id) == Recorded(s.history) && id in s.keys;
      forall other | other in s.made && PrintNat(other) == Recorded(s.history) ensures other == id {
        PrintInjective(other, id);
      }
      assert Kept(s) == Orphans(s) + {id};
    }
  }

  /** A run leaves one more orphan if it makes a key and does not get it recorded, and otherwise none. */
  lemma OrphansGrow(s: State, t: State, made: Option<nat>)
    requires Effects(s, t, made)
    ensures |Orphans(t)| == |Orphans(s)| + if made.Some? && Recorded(t.history) != PrintNat(made.value) then 1 else 0
  {
    if made == None {
      assert Orphans(t) == Orphans(s);
    } else {
      var id := made.value;
      if Recorded(t.history) == Recorded(s.history) {
        assert Orphans(t) == Orphans(s) + if PrintNat(id) != Recorded(s.history) then {id} else {};
      } else {
        RecordingLeavesNoOrphan(s, t, id);
      }
    }
  }

  lemma RecordingLeavesNoOrphan(s: State, t: State, id: nat)
    requires id !in s.made && id in t.made && t.made == s.made[id := t.made[id]]
    requires Recorded(s.history) == "" && Recorded(t.history) == PrintNat(id)
    ensures Orphans(t) == Orphans(s)
  {
    NothingPrintsEmpty(s);
    forall other | other in s.made ensures PrintNat(other) != PrintNat(id) {
      if PrintNat(other) == PrintNat(id) {
        PrintInjective(other, id);
      }
    }
  }

  /** The runs among the first `n` events that made a key and ended without its id on record. */
  ghost function StrandedRuns(trace: seq<State>, deeds: seq<Deed>, n: nat): set<nat>
    requires n <= |deeds| < |trace|
  {
    set i | 0 <= i < n && deeds[i].Ran? && deeds[i].made.Some?
      && Recorded(trace[i + 1].history) != PrintNat(deeds[i].made.value)
  }

  lemma StrandedRunsGrow(trace: seq<State>, deeds: seq<Deed>, n: nat, made: Option<nat>)
    requires n < |deeds| < |trace| && made == if deeds[n].Ran? then deeds[n].made else None
    ensures |StrandedRuns(trace, deeds, n + 1)| == |StrandedRuns(trace, deeds, n)|
      + if made.Some? && Recorded(trace[n + 1].history) != PrintNat(made.value) then 1 else 0
  {
    var strands := made.Some? && Recorded(trace[n + 1].history) != PrintNat(made.value);
    assert StrandedRuns(trace, deeds, n + 1) == StrandedRuns(trace, deeds, n) + if strands then {n} else {};
  }

  lemma NothingStrandedYet(trace: seq<State>, deeds: seq<Deed>)
    requires |deeds| < |trace|
    ensures StrandedRuns(trace, deeds, 0) == {}
  {
  }

  // ---------- What every trace keeps ----------

  lemma StepKeepsInv(s: State, e: Event, deed: Deed, t: State)
    requires Inv(s) && IsThere(s) && IsThere(t) && IsStep(s, e, deed, t)
    ensures Inv(t)
    ensures Effects(s, t, if deed.Ran? then deed.made else None)
    ensures e.Beside? || Head(e.plan).lag == 0 ==> t.overwritten == s.overwritten
  {
    hide IsAnswered, Inv, Disturb, Effects;
    match e {
      case Run(plan) => CallsKeepInv(s, plan, deed.calls);
      case Beside(d) =>
        DisturbKeepsInv(s, d);
        UndisturbedIsNoEffect(s, t);
    }
  }

  lemma StepKeepsSight(s: State, e: Event, deed: Deed, t: State)
    requires IsThere(s) && IsThere(t) && SightInv(s) && IsStep(s, e, deed, t)
    requires e.Run? && deed.Ran? ==> LooksAtPresent(e.plan, deed.calls)
    ensures SightInv(t)
  {
    hide IsAnswered, SightInv, Disturb, Effects, Settled, ReadsDeletion, SeesToDeletion;
    match e {
      case Run(plan) => CallsKeepSight(s, plan, deed.calls);
      case Beside(d) => DisturbKeepsSight(s, d);
    }
  }

  /** The invariant holds at every moment, and there is one orphan for each stranded run. */
  lemma {:induction false} TraceKeepsInv(trace: seq<State>, events: seq<Event>, deeds: seq<Deed>, n: nat)
    requires IsTrace(trace, events, deeds) && Inv(trace[0]) && n < |trace|
    ensures Inv(trace[n]) && trace[0].history <= trace[n].history
    ensures |deeds| == |events| && |trace| == |events| + 1
    ensures |Orphans(trace[n])| == |Orphans(trace[0])| + |StrandedRuns(trace, deeds, n)|
    decreases n
  {
    hide Inv, IsStep, Orphans, StrandedRuns, Recorded, PrintNat;
    if n == 0 {
      NothingStrandedYet(trace, deeds);
    } else {
      TraceKeepsInv(trace, events, deeds, n - 1);
      StepOf(trace, events, deeds, n - 1);
      var made := if deeds[n - 1].Ran? then deeds[n - 1].made else None;
      StepKeepsInv(trace[n - 1], events[n - 1], deeds[n - 1], trace[n]);
      OrphansGrow(trace[n - 1], trace[n], made);
      StrandedRunsGrow(trace, deeds, n - 1, made);
    }
  }

  /** Every run reads the present version of the resource first. */
  ghost predicate ReadsThePresent(events: seq<Event>) {
    forall e | e in events && e.Run? :: Head(e.plan).lag == 0
  }

  lemma {:induction false} NothingOverwritten(trace: seq<State>, events: seq<Event>, deeds: seq<Deed>, n: nat)
    requires IsTrace(trace, events, deeds) && Inv(trace[0]) && ReadsThePresent(events) && n < |trace|
    ensures trace[n].overwritten == trace[0].overwritten
    decreases n
  {
    hide Inv, IsStep;
    if n > 0 {
      NothingOverwritten(trace, events, deeds, n - 1);
      TraceKeepsInv(trace, events, deeds, n - 1);
      StepOf(trace, events, deeds, n - 1);
      StepKeepsInv(trace[n - 1], events[n - 1], deeds[n - 1], trace[n]);
      assert events[n - 1] in events;
    }
  }

  /** Every run that reads the Headscale reads the present. */
  ghost predicate LooksAtHeadscale(events: seq<Event>, deeds: seq<Deed>)
    requires |deeds| == |events|
  {
    forall i | 0 <= i < |events| && events[i].Run? && deeds[i].Ran? :: LooksAtPresent(events[i].plan, deeds[i].calls)
  }

  lemma {:induction false} TraceKeepsSight(trace: seq<State>, events: seq<Event>, deeds: seq<Deed>, n: nat)
    requires IsTrace(trace, events, deeds) && SightInv(trace[0]) && LooksAtHeadscale(events, deeds) && n < |trace|
    ensures SightInv(trace[n])
    decreases n
  {
    hide SightInv, IsStep, LooksAtPresent;
    if n > 0 {
      TraceKeepsSight(trace, events, deeds, n - 1);
      StepOf(trace, events, deeds, n - 1);
      StepKeepsSight(trace[n - 1], events[n - 1], deeds[n - 1], trace[n]);
    }
  }

  // ---------- Lifetimes ----------

  /** Over any lifetime and at every moment of it, no version changes a KeyID that an earlier version has. */
  lemma KeyIdIsWriteOnce(trace: seq<State>, events: seq<Event>, deeds: seq<Deed>, n: nat, i: nat, j: nat)
    requires IsTrace(trace, events, deeds) && Initial(trace[0]) && n < |trace|
    requires i <= j < |trace[n].history| && trace[n].history[i].Some? && trace[n].history[i].value.keyId != ""
    ensures trace[n].history[j].Some? ==> trace[n].history[j].value.keyId == trace[n].history[i].value.keyId
  {
    InitialIsSafe(trace[0]);
    TraceKeepsInv(trace, events, deeds, n);
    KeyIdStays(trace[n], i, j);
  }

  /**
   Over any lifetime and at every moment of it, Headscale has as many of the keys made as there were stranded runs,
   and the recorded key unless it was removed; and it was not, while the resource is not being deleted.
   */
  lemma KeysAreAccountedFor(trace: seq<State>, events: seq<Event>, deeds: seq<Deed>, n: nat)
    requires IsTrace(trace, events, deeds) && Initial(trace[0]) && n < |trace|
    ensures |Kept(trace[n])| == |StrandedRuns(trace, deeds, n)| + if RecordedRemoved(trace[n]) then 0 else 1
    ensures !Closing(trace[n]) ==> (RecordedRemoved(trace[n]) <==> Recorded(trace[n].history) == "")
  {
    var t := trace[n];
    InitialIsSafe(trace[0]);
    TraceKeepsInv(trace, events, deeds, n);
    assert Orphans(trace[0]) == {};
    Conservation(t);
    NothingPrintsEmpty(t);
    if !Closing(t) && Recorded(t.history) != "" {
      RecordedIsMade(t);
    }
  }

  lemma RecordedIsMade(s: State)
    requires Inv(s) && !Closing(s) && Recorded(s.history) != ""
    ensures exists id :: id in s.made && PrintNat(id) == Recorded(s.history) && id in s.keys
  {
    var id :| id in s.made && Last(s.history).value.keyId == PrintNat(id);
    assert id in s.keys;
  }

  /**
   Over any lifetime, a resource that is gone took its recorded key along unless its deletion was told that there
   is no Headscale; and if Headscale reads are of the present, unless Headscale was away during the deletion.
   */
  lemma GoneTookItsKey(trace: seq<State>, events: seq<Event>, deeds: seq<Deed>, n: nat)
    requires IsTrace(trace, events, deeds) && Initial(trace[0]) && n < |trace| && Last(trace[n].history) == None
    ensures trace[n].missed || RecordedRemoved(trace[n])
    ensures LooksAtHeadscale(events, deeds) ==> trace[n].bereft || RecordedRemoved(trace[n])
  {
    InitialIsSafe(trace[0]);
    TraceKeepsInv(trace, events, deeds, n);
    if LooksAtHeadscale(events, deeds) {
      TraceKeepsSight(trace, events, deeds, n);
    }
  }

  /**
   Over any lifetime and at every moment of it, every key made was asked for: some version of the resource, live, with
   its finalizer and without a KeyID, has a spec that says of the key what it was made with, and the key's user is
   the one named in that spec, or in some state of the HeadscaleUsers the one of a HeadscaleUser that owns the resource.
   */
  lemma EveryKeyWasAskedFor(trace: seq<State>, events: seq<Event>, deeds: seq<Deed>, n: nat, id: nat) returns (i: nat)
    requires IsTrace(trace, events, deeds) && Initial(trace[0]) && n < |trace| && id in trace[n].made
    ensures i < |trace[n].history| && trace[n].history[i].Some?
    ensures var r, wish := trace[n].history[i].value, trace[n].made[id].wish;
      && !r.deleting && r.finalizer && r.keyId == ""
      && wish.reusable == r.spec.reusable && wish.ephemeral == r.spec.ephemeral && wish.tags == r.spec.tags
      && (wish.lifetime.Some? <==> r.spec.expiration.Lasting? && r.spec.expiration.nanoseconds > 0)
      && (wish.lifetime.Some? ==> wish.lifetime.value == r.spec.expiration.nanoseconds)
      && (r.spec.userRef == "" ==> wish.user == r.spec.userID && (wish.user == 0 ==> r.spec.tags != []))
      && (r.spec.userRef != "" ==> r.spec.userID == 0 && ComesFromReference(trace[n], r, wish.user))
  {
    InitialIsSafe(trace[0]);
    TraceKeepsInv(trace, events, deeds, n);
    var s := trace[n];
    i :| 0 <= i < |s.history| && s.history[i].Some? && Grants(s.history[i].value, s.users, s.made[id].wish);
    var r := s.history[i].value;
    if r.spec.userRef != "" {
      var j :| 0 <= j < |s.users| && Names(r, s.users[j], s.made[id].wish.user);
      var user := s.users[j][r.spec.userRef];
      var k :| 0 <= k < |r.owners| && r.owners[k].uid == user.uid;
      assert r.owners[k] in r.owners;
    }
  }

  /** Some state of the HeadscaleUsers has, under the referenced name, one with this id that owns `r`. */
  ghost predicate ComesFromReference(s: State, r: Resource, user: nat) {
    exists j, o :: 0 <= j < |s.users| && r.spec.userRef in s.users[j] && o in r.owners
      && o.uid == s.users[j][r.spec.userRef].uid && ParseUint(s.users[j][r.spec.userRef].userId, UINT64_LIMIT) == Some(user)
  }

  /** Over any lifetime whose runs start from the present, the Secret holds the recorded key until the deletion. */
  lemma SecretHoldsTheRecordedKey(trace: seq<State>, events: seq<Event>, deeds: seq<Deed>, n: nat, id: nat)
    requires IsTrace(trace, events, deeds) && Initial(trace[0]) && ReadsThePresent(events) && n < |trace|
    requires !Closing(trace[n]) && id in trace[n].made && PrintNat(id) == Recorded(trace[n].history)
    ensures SecretHolds(trace[n], trace[n].made[id].text)
  {
    InitialIsSafe(trace[0]);
    TraceKeepsInv(trace, events, deeds, n);
    NothingOverwritten(trace, events, deeds, n);
  }

  /** Over any lifetime and at every moment of it, no version is reported ready without a KeyID. */
  lemma ReadyHasKeyId(trace: seq<State>, events: seq<Event>, deeds: seq<Deed>, n: nat, i: nat)
    requires IsTrace(trace, events, deeds) && Initial(trace[0]) && n < |trace|
    requires i < |trace[n].history| && trace[n].history[i].Some? && IsReady(trace[n].history[i].value)
    ensures trace[n].history[i].value.keyId != ""
  {
    hide HistoryInv, TableInv, ConservationInv, DepartureInv, AgreementInv, DemandInv;
    InitialIsSafe(trace[0]);
    TraceKeepsInv(trace, events, deeds, n);
  }

  /**
   And a resource that is ready and not being deleted has what it says: the key of its KeyID is in Headscale as it was
   made, for a wish that some version of the resource grants, and in the Secret unless a late run wrote that.
   */
  lemma ReadyHasItsKey(trace: seq<State>, events: seq<Event>, deeds: seq<Deed>, n: nat) returns (id: nat)
    requires IsTrace(trace, events, deeds) && Initial(trace[0]) && n < |trace|
    requires Last(trace[n].history).Some? && IsReady(Last(trace[n].history).value) && !Closing(trace[n])
    ensures var t := trace[n];
      && Last(t.history).value.keyId == PrintNat(id)
      && id in t.made && id in t.keys && t.keys[id] == t.made[id] && AskedFor(t, t.made[id].wish)
      && (SecretHolds(t, t.made[id].text) <==> !t.overwritten)
  {
    hide Inv, Initial, IsTrace;
    InitialIsSafe(trace[0]);
    TraceKeepsInv(trace, events, deeds, n);
    InvIsThere(trace[n]);
    id := ReadyState(trace[n]);
    SecretHoldsUnlessOverwritten(trace[n], id);
  }

  lemma ReadyState(s: State) returns (id: nat)
    requires Inv(s) && IsThere(s) && Last(s.history).Some? && IsReady(Last(s.history).value) && !Closing(s)
    ensures Last(s.history).value.keyId == PrintNat(id) == Recorded(s.history)
    ensures id in s.made && id in s.keys && s.keys[id] == s.made[id] && AskedFor(s, s.made[id].wish)
  {
    hide HistoryInv, ConservationInv, DepartureInv, AgreementInv, AskedFor;
    RecordedIsMade(s);
    id :| id in s.made && PrintNat(id) == Recorded(s.history) && id in s.keys;
  }

  /** One run of the reconciler is such a run. */
  method RunOnce(s: State, plan: seq<Choice>) returns (t: State, ghost deed: Deed)
    requires Inv(s) && IsThere(s)
    ensures Inv(t) && IsThere(t) && deed.Ran? && IsRun(s, plan, deed, t)
    ensures IsAnswered(s, plan, deed.calls, deed.outcome)
    ensures var seen := Seen(s.history, Head(plan).lag);
      IsLateRun(plan, s) && seen.Some? && OldNews(s, seen.value) ==> t.overwritten
  {
    hide Inv, Effects, Settled, ReadsDeletion, SeesToDeletion, IsUndisturbedRun, IsLateRun, IsAnswered;
    var reconciler := new Reconciler(s, plan);
    ghost var made;
    var outcome;
    outcome, made := reconciler.Reconcile();
    t := reconciler.cluster;
    deed := Ran(reconciler.issued, made, outcome);
    InvIsThere(t);
  }

  lemma TraceOfNothing(s: State)
    requires IsThere(s)
    ensures IsTrace([s], [], [])
  {
  }

  /** The controller lives through any events; what it does in them is a trace, to which all of the above applies. */
  method Live(s: State, events: seq<Event>) returns (t: State, ghost trace: seq<State>, ghost deeds: seq<Deed>)
    requires Inv(s) && IsThere(s)
    ensures IsTrace(trace, events, deeds) && trace[0] == s && Last(trace) == t && Inv(t)
  {
    hide IsAnswered, Inv, IsRun, Disturb, IsTrace;
    TraceOfNothing(s);
    t, trace, deeds := s, [s], [];
    for i := 0 to |events|
      invariant Inv(t) && IsThere(t)
      invariant trace != [] && trace[0] == s && Last(trace) == t && IsTrace(trace, events[..i], deeds)
    {
      ghost var deed := Happened;
      match events[i] {
        case Run(plan) => t, deed := RunOnce(t, plan);
        case Beside(d) =>
          DisturbKeepsInv(t, d);
          t := Disturb(t, d);
      }
      OneMoreEvent(trace, events[..i], deeds, events[i], deed, t);
      assert events[..i + 1] == events[..i] + [events[i]];
      trace, deeds := trace + [t], deeds + [deed];
    }
    assert events[..|events|] == events;
  }

  // ---------- A late read ----------

  /** While the resource is not being deleted, the Secret holds the recorded key unless a late run wrote it. */
  lemma SecretHoldsUnlessOverwritten(s: State, id: nat)
    requires Inv(s) && !Closing(s) && id in s.made && PrintNat(id) == Recorded(s.history)
    ensures SecretHolds(s, s.made[id].text) <==> !s.overwritten
  {
  }

  /** Nothing the controller does brings a recorded key back into a Secret that was overwritten. */
  lemma {:induction false} OverwrittenForEver(trace: seq<State>, events: seq<Event>, deeds: seq<Deed>, i: nat, n: nat)
    requires IsTrace(trace, events, deeds) && Inv(trace[0]) && i <= n < |trace| && trace[i].overwritten
    ensures trace[n].overwritten
    ensures !Closing(trace[n]) ==> forall id | id in trace[n].made && PrintNat(id) == Recorded(trace[n].history) ::
      !SecretHolds(trace[n], trace[n].made[id].text)
    decreases n
  {
    hide Inv, IsStep;
    TraceKeepsInv(trace, events, deeds, n);
    if i < n {
      OverwrittenForEver(trace, events, deeds, i, n - 1);
      TraceKeepsInv(trace, events, deeds, n - 1);
      StepOf(trace, events, deeds, n - 1);
      StepKeepsInv(trace[n - 1], events[n - 1], deeds[n - 1], trace[n]);
    }
    forall id | !Closing(trace[n]) && id in trace[n].made && PrintNat(id) == Recorded(trace[n].history)
      ensures !SecretHolds(trace[n], trace[n].made[id].text) {
      SecretHoldsUnlessOverwritten(trace[n], id);
    }
  }

  /** Nobody interferes and no call fails, but the first read may be late. */
  function CalmPlan(lag: nat, text: string): seq<Choice> {
    [Choice(Quiet, Success, lag, text)] + seq(11, i => Choice(Quiet, Success, 0, text))
  }

  lemma CalmPlanIsCalm(lag: nat, text: string, made: map<nat, Key>)
    requires text !in TextsOf(made)
    ensures |CalmPlan(lag, text)| == 12 && FreshTexts(CalmPlan(lag, text), made)
    ensures Calm(CalmPlan(lag, text)[1..]) && Alone(CalmPlan(lag, text)) && (lag == 0 ==> Calm(CalmPlan(lag, text)))
  {
  }

  /** After an undisturbed first run the version it started from is old news. */
  lemma FirstRunMakesOldNews(s: State, first: string, deed: Deed, t: State, userID: nat)
    requires Initial(s) && s.next + 2 <= UINT64_LIMIT && Last(s.headscales)
    requires s.history[0].value.finalizer && !s.history[0].value.spec.expiration.Garbled?
    requires Resolves(s.history[0].value, [Last(s.users)], userID)
    requires Inv(t) && IsThere(t) && deed.Ran? && IsRun(s, CalmPlan(0, first), deed, t)
    ensures deed.made.Some? && t.made.Keys == {deed.made.value} && PrintNat(deed.made.value) == Recorded(t.history)
    ensures Seen(t.history, |t.history| - 1) == s.history[0] && OldNews(t, s.history[0].value)
    ensures !Closing(t) && HasSpace(t)
  {
    hide Inv, AllLegit, After, ReadsDeletion, SeesToDeletion;
    var r := s.history[0].value;
    GoMeansResolved(r, Last(s.users), userID);
    CalmPlanIsCalm(0, first, s.made);
    assert Settled(s, t, deed.outcome, deed.made);
    PresentIsRecorded(t, Last(t.history).value);
    PrintNotEmpty(deed.made.value);
    assert t.made == map[deed.made.value := t.made[deed.made.value]];
  }

  /**
   The agreement needs runs that start from the present. For every resource that asks for a key, two runs in
   which no call fails, the second starting from the version the first one started from, leave a Secret that does
   not hold the recorded key.
   */
  method LateReadSplitsSecretAndKeyId(s: State, first: string, second: string)
    returns (t: State, ghost id: nat, lag: nat, text: string, ghost trace: seq<State>, ghost deeds: seq<Deed>)
    requires Initial(s) && s.next + 2 <= UINT64_LIMIT && Last(s.headscales) && first != second
    requires s.history[0].value.finalizer && !s.history[0].value.spec.expiration.Garbled?
    requires exists userID :: Resolves(s.history[0].value, [Last(s.users)], userID)
    ensures IsTrace(trace, [Run(CalmPlan(0, first)), Run(CalmPlan(lag, text))], deeds) && trace[0] == s && trace[2] == t
    ensures Seen(trace[1].history, lag) == s.history[0]
    ensures id in t.made && PrintNat(id) == Recorded(t.history) && !Closing(t)
    ensures !SecretHolds(t, t.made[id].text)
  {
    hide IsAnswered, Inv, IsRun, OldNews, FreshTexts, Resolves, TextsOf;
    InitialIsSafe(s);
    ghost var userID :| Resolves(s.history[0].value, [Last(s.users)], userID);
    ghost var deed;
    t, deed := RunOnce(s, CalmPlan(0, first));
    FirstRunMakesOldNews(s, first, deed, t, userID);
    id, trace, deeds := deed.made.value, [s, t], [deed];
    text := if first in TextsOf(t.made) then second else first;
    OnlyOneText(t, id, first, second);
    lag := |t.history| - 1;
    CalmPlanIsCalm(lag, text, t.made);
    ghost var u := t;
    t, deed := RunOnce(t, CalmPlan(lag, text));
    trace, deeds := trace + [t], deeds + [deed];
    RecordStays(u, CalmPlan(lag, text), deed, t, id);
    SecretHoldsUnlessOverwritten(t, id);
  }

  lemma OnlyOneText(s: State, id: nat, first: string, second: string)
    requires s.made.Keys == {id} && first != second
    ensures first in TextsOf(s.made) ==> second !in TextsOf(s.made)
  {
  }

  lemma RecordStays(s: State, plan: seq<Choice>, deed: Deed, t: State, id: nat)
    requires IsThere(s) && IsThere(t) && deed.Ran? && IsRun(s, plan, deed, t) && Alone(plan)
    requires id in s.made && PrintNat(id) == Recorded(s.history) && !Closing(s)
    ensures id in t.made && PrintNat(id) == Recorded(t.history) && !Closing(t)
  {
    PrintNotEmpty(id);
  }

  // ---------- A Headscale that is away ----------

  /** A key is made, its Headscale is removed, and then the resource is deleted. */
  function AwayHistory(first: string, second: string): seq<Event> {
    [Run(CalmPlan(0, first)), Beside(SetHeadscale(false)), Beside(AskDeletion), Run(CalmPlan(0, second))]
  }

  /** After these three events nothing of the key has changed, and the resource waits for its deletion. */
  lemma AwayWaits(s: State, t: State, u: State, id: nat)
    requires Inv(s) && IsThere(s) && !Closing(s) && PrintNat(id) == Recorded(s.history) && id in s.made
    requires t == Disturb(s, SetHeadscale(false)) && IsThere(t) && u == Disturb(t, AskDeletion) && IsThere(u)
    ensures Last(u.history).Some? && Last(u.history).value.deleting && !Last(u.headscales)
    ensures u.made == s.made && u.keys == s.keys && u.next == s.next && Recorded(u.history) == Recorded(s.history)
    ensures id in u.keys
  {
    hide TableInv, DepartureInv, AgreementInv, DemandInv;
    PrintNotEmpty(id);
    RecordedOfMore(t.history, Last(u.history));
  }

  /**
   A deletion that does not find the Headscale leaves the key. For every resource that asks for a key: its key is
   made, the Headscale goes away, the resource is deleted, and an undisturbed run lets it go, with its key, as it was
   made, still in Headscale's table.
   */
  lemma AwayHeadscaleLeavesKey(trace: seq<State>, first: string, second: string, deeds: seq<Deed>) returns (id: nat)
    requires |trace| == 5 && IsTrace(trace, AwayHistory(first, second), deeds) && second !in TextsOf(trace[1].made)
    requires Initial(trace[0]) && trace[0].next + 2 <= UINT64_LIMIT && Last(trace[0].headscales)
    requires trace[0].history[0].value.finalizer && !trace[0].history[0].value.spec.expiration.Garbled?
    requires exists userID :: Resolves(trace[0].history[0].value, [Last(trace[0].users)], userID)
    ensures Last(trace[4].history) == None && PrintNat(id) == Recorded(trace[4].history)
    ensures id in trace[4].made && id in trace[4].keys && trace[4].keys[id] == trace[4].made[id]
  {
    hide IsAnswered, Inv, IsTrace, IsRun, OldNews, Disturb, CalmPlan, Resolves;
    var s, events := trace[0], AwayHistory(first, second);
    InitialIsSafe(s);
    var userID :| Resolves(s.history[0].value, [Last(s.users)], userID);
    StepOf(trace, events, deeds, 0);
    StepOf(trace, events, deeds, 1);
    StepOf(trace, events, deeds, 2);
    StepOf(trace, events, deeds, 3);
    TraceKeepsInv(trace, events, deeds, 1);
    TraceKeepsInv(trace, events, deeds, 3);
    TraceKeepsInv(trace, events, deeds, 4);
    FirstRunMakesOldNews(s, first, deeds[0], trace[1], userID);
    id := deeds[0].made.value;
    AwayWaits(trace[1], trace[2], trace[3], id);
    LastRunLeaves(trace[3], second, deeds[3], trace[4], id);
  }

  lemma LastRunLeaves(s: State, text: string, deed: Deed, t: State, id: nat)
    requires Inv(s) && Inv(t) && IsThere(s) && IsThere(t) && deed.Ran? && IsRun(s, CalmPlan(0, text), deed, t)
    requires Last(s.history).Some? && Last(s.history).value.deleting && !Last(s.headscales) && HasSpace(s)
    requires id in s.keys && id in s.made && PrintNat(id) == Recorded(s.history) && text !in TextsOf(s.made)
    ensures Last(t.history) == None && PrintNat(id) == Recorded(t.history)
    ensures id in t.made && id in t.keys && t.keys[id] == t.made[id]
  {
    hide AllLegit, After, ReadsDeletion, SeesToDeletion;
    CalmPlanIsCalm(0, text, s.made);
    assert Settled(s, t, deed.outcome, deed.made);
    PrintNotEmpty(id);
    Conservation(t);
    assert !RecordedRemoved(t);
    var other :| other in t.made && PrintNat(other) == Recorded(t.history) && other in t.keys;
    PrintInjective(other, id);
  }
}
