/** Whole lifetimes of a HeadscaleUser: any number of runs, crashed or not, and anything beside them. */
module HeadscaleUserRuns {
  import opened Wrappers
  import opened Decimal
  import opened Calls
  import opened HeadscaleUserWorld
  import opened HeadscaleUserCalls
  import opened HeadscaleUser

  /** A run of the controller, or what somebody else does between runs. */
  datatype Event = Run(plan: seq<Choice>) | Beside(d: Disturbance)

  /** What came of an event: the calls a run made and how it ended. */
  datatype Deed = Ran(calls: seq<Request>, outcome: Outcome) | Happened

  /** A resource as a user creates it, before the controller has seen it. */
  ghost predicate Initial(s: State) {
    && IsThere(s) && TableInv(s) && s.removed == {}
    && |s.history| == 1 && s.history[0].Some? && var r := s.history[0].value;
    && r.version == 0 && r.userId == "" && r.createdAt == "" && !r.deleting && r.spec.username == s.username
  }

  lemma InitialIsSafe(s: State)
    requires Initial(s)
    ensures Inv(s) && Recorded(s.history) == ""
  {
  }

  // ---------- Traces ----------

  /** A run: legitimate calls, each served by its choice of the plan, with all that `Reconcile` promises of them. */
  ghost predicate IsRun(s: State, plan: seq<Choice>, deed: Deed, t: State)
    requires IsThere(s) && IsThere(t) && deed.Ran?
  {
    && deed.calls != [] && deed.calls[0] == GetResource
    && AllLegit(s, plan, deed.calls) && t == After(s, plan, deed.calls)
    && s.history <= t.history && t.username == s.username
    && (NobodyLeaves(plan) ==> OthersStay(s, t))
    && (NobodyLeaves(plan) && IsTaken(s, s.username) ==> Recorded(t.history) == Recorded(s.history))
    && (IsUndisturbedRun(plan, s) && Last(s.history).Some? ==> Settled(s, t, deed.outcome))
    && (IsCutShort(plan, s) ==> Abandons(s, t))
  }

  ghost predicate IsStep(s: State, e: Event, deed: Deed, t: State)
    requires IsThere(s) && IsThere(t)
  {
    match e
    case Run(plan) => deed.Ran? && IsRun(s, plan, deed, t) && IsAnswered(s, plan, deed.calls, t, deed.outcome)
    case Beside(d) => deed.Happened? && t == Disturb(s, d)
  }

  /** The states between these events, and what came of each event. */
  ghost predicate IsTrace(trace: seq<State>, events: seq<Event>, deeds: seq<Deed>) {
    && |trace| == |events| + 1 && |deeds| == |events|
    && (forall i | 0 <= i < |trace| :: IsThere(trace[i]))
    && forall i | 0 <= i < |events| :: IsStep(trace[i], events[i], deeds[i], trace[i + 1])
  }

  lemma StepOf(trace: seq<State>, events: seq<Event>, deeds: seq<Deed>, n: nat)
    requires IsTrace(trace, events, deeds) && n < |events|
    ensures |trace| == |events| + 1 && |deeds| == |events| && IsThere(trace[n]) && IsThere(trace[n + 1])
    ensures IsStep(trace[n], events[n], deeds[n], trace[n + 1])
  {
  }

  lemma TraceOfNothing(s: State)
    requires IsThere(s)
    ensures IsTrace([s], [], [])
  {
  }

  lemma OneMoreEvent(trace: seq<State>, events: seq<Event>, deeds: seq<Deed>, e: Event, deed: Deed, t: State)
    requires IsTrace(trace, events, deeds) && IsThere(t) && IsThere(Last(trace)) && IsStep(Last(trace), e, deed, t)
    ensures IsTrace(trace + [t], events + [e], deeds + [deed])
    ensures (trace + [t])[0] == trace[0] && Last(trace + [t]) == t
  {
    hide IsStep;
    var more, then_, done := trace + [t], events + [e], deeds + [deed];
    forall i | 0 <= i < |then_| ensures IsStep(more[i], then_[i], done[i], more[i + 1]) {
      if i < |events| {
        assert IsStep(trace[i], events[i], deeds[i], trace[i + 1]);
      }
    }
  }

  lemma TraceLength(trace: seq<State>, events: seq<Event>, deeds: seq<Deed>)
    requires IsTrace(trace, events, deeds)
    ensures |trace| == |events| + 1 && |deeds| == |events|
  {
  }

  /** What begins where another trace ends continues it. */
  lemma TracesJoin(trace: seq<State>, events: seq<Event>, deeds: seq<Deed>,
                   more: seq<State>, then_: seq<Event>, done: seq<Deed>)
    requires IsTrace(trace, events, deeds) && IsTrace(more, then_, done) && Last(trace) == more[0]
    ensures IsTrace(trace + more[1..], events + then_, deeds + done)
  {
    hide IsStep;
    var all, both, did, m := trace + more[1..], events + then_, deeds + done, |events|;
    forall i | 0 <= i < |all| ensures all[i] == (if i <= m then trace[i] else more[i - m]) {
    }
    forall i | 0 <= i < |both| ensures IsStep(all[i], both[i], did[i], all[i + 1]) {
      if i < m {
        StepOf(trace, events, deeds, i);
      } else {
        assert all[i] == more[i - m] && all[i + 1] == more[i - m + 1];
        StepOf(more, then_, done, i - m);
      }
    }
  }

  // ---------- What every trace keeps ----------

  lemma StepKeepsInv(s: State, e: Event, deed: Deed, t: State)
    requires Inv(s) && IsThere(s) && IsThere(t) && IsStep(s, e, deed, t)
    ensures Inv(t) && t.username == s.username && s.history <= t.history
  {
    hide Inv, Disturb;
    match e {
      case Run(plan) => CallsKeepInv(s, plan, deed.calls);
      case Beside(d) => DisturbKeepsInv(s, d);
    }
  }

  /** The invariant holds at every moment. */
  lemma {:induction false} TraceKeepsInv(trace: seq<State>, events: seq<Event>, deeds: seq<Deed>, n: nat)
    requires IsTrace(trace, events, deeds) && Inv(trace[0]) && n < |trace|
    ensures Inv(trace[n]) && trace[n].username == trace[0].username && trace[0].history <= trace[n].history
    decreases n
  {
    hide Inv, IsStep;
    if n > 0 {
      TraceKeepsInv(trace, events, deeds, n - 1);
      StepOf(trace, events, deeds, n - 1);
      StepKeepsInv(trace[n - 1], events[n - 1], deeds[n - 1], trace[n]);
    }
  }

  /**
   Over any lifetime and at every moment of it, a UserID, in whatever version, is that of the one user with the
   resource's name or of a user that is gone; a UserID whose user exists stays in all later versions; and the
   controller has deleted no user but the one recorded in a resource being deleted.
   */
  lemma UserIsIdentified(trace: seq<State>, events: seq<Event>, deeds: seq<Deed>, n: nat)
    requires IsTrace(trace, events, deeds) && Initial(trace[0]) && n < |trace|
    ensures forall i: nat, id: nat | Version(trace[n], i) && trace[n].history[i].value.userId == PrintNat(id)
        && id in trace[n].table ::
      && trace[n].table[id].username == trace[0].username
      && forall other | other in trace[n].table && trace[n].table[other].username == trace[0].username :: other == id
    ensures forall i: nat, j: nat, id: nat | 0 <= i <= j && Version(trace[n], i) && Version(trace[n], j)
        && id in trace[n].table && trace[n].history[i].value.userId == PrintNat(id) ::
      trace[n].history[j].value.userId == PrintNat(id)
    ensures forall id | id in trace[n].removed ::
      id !in trace[n].table && Closing(trace[n]) && PrintNat(id) == Recorded(trace[n].history)
  {
    hide IsTrace, IsStep;
    InitialIsSafe(trace[0]);
    TraceKeepsInv(trace, events, deeds, n);
    var t := trace[n];
    forall i: nat, id: nat | Version(t, i) && t.history[i].value.userId == PrintNat(id) && id in t.table
      ensures t.table[id].username == t.username
      ensures forall other | other in t.table && t.table[other].username == t.username :: other == id {
      RecordedIsOurUser(t, i, id);
    }
    forall i: nat, j: nat, id: nat | 0 <= i <= j && Version(t, i) && Version(t, j) && id in t.table
        && t.history[i].value.userId == PrintNat(id)
      ensures t.history[j].value.userId == PrintNat(id) {
      UserIdStaysWhileUserExists(t, i, j, id);
    }
  }

  // ---------- Departures ----------

  /** This run let the resource go, after an answer about the Headscale as the deletion of this user calls for. */
  ghost predicate LetGo(s: State, plan: seq<Choice>, deed: Deed, userId: string)
    requires IsThere(s) && deed.Ran?
  {
    exists k | 0 <= k < |deed.calls| ::
      LetsGo(deed.calls[k]) && HadAnAnswer(s, plan, deed.calls[..k], userId)
  }

  /**
   A run that a resource with its finalizer or with a UserID does not outlive was told that there is no Headscale, or
   saw it and then attempted to remove the recorded user.
   */
  lemma RunLetsGo(s: State, plan: seq<Choice>, deed: Deed, t: State)
    requires Inv(s) && IsThere(s) && IsThere(t) && deed.Ran? && IsRun(s, plan, deed, t)
    requires IsAnswered(s, plan, deed.calls, t, deed.outcome)
    requires Last(s.history).Some? && Last(t.history) == None && (IsHeld(s) || Recorded(t.history) != "")
    ensures LetGo(s, plan, deed, Recorded(t.history))
  {
    hide Inv, Legit, AllLegit, HadAnAnswer, NobodyLeaves, IsUndisturbedRun, Settled, IsCutShort, Abandons,
      OthersStay, Warrants;
    var k := CallsLetGo(s, plan, deed.calls);
    assert IsCalledFor(s, plan, deed.calls[..k], deed.calls[k]);
  }

  /** A run that is not told whether the Headscale is there lets no resource go, nor does it finish with a deletion. */
  lemma UntoldRunKeepsTheResource(s: State, plan: seq<Choice>, deed: Deed, t: State)
    requires Inv(s) && IsThere(s) && IsThere(t) && deed.Ran? && IsRun(s, plan, deed, t)
    requires IsAnswered(s, plan, deed.calls, t, deed.outcome)
    requires IsHeld(s) && !WasTold(s, plan, deed.calls)
    ensures IsHeld(t)
    ensures var first := FirstRead(s, plan); first.Resourced? && first.r.deleting ==> deed.outcome != Finished
  {
    hide Inv, IsRun;
    CallsHoldInRun(s, plan, deed, t);
    if !IsHeld(t) {
      RunLetsGo(s, plan, deed, t);
      var k :| 0 <= k < |deed.calls| && LetsGo(deed.calls[k]) && HadAnAnswer(s, plan, deed.calls[..k], Recorded(t.history));
      AnsweredIsTold(s, plan, deed.calls, k, Recorded(t.history));
    }
    var first := FirstRead(s, plan);
    if first.Resourced? && first.r.deleting && deed.outcome == Finished {
      FinishedMeansGone(s, plan, deed, t);
    }
  }

  lemma CallsHoldInRun(s: State, plan: seq<Choice>, deed: Deed, t: State)
    requires Inv(s) && IsThere(s) && IsThere(t) && deed.Ran? && IsRun(s, plan, deed, t) && IsHeld(s)
    ensures IsHeld(t) || Last(t.history) == None
  {
    hide Inv, AllLegit, After, OthersStay, IsCutShort, Abandons, Settled, IsUndisturbedRun, NobodyLeaves;
    CallsHold(s, plan, deed.calls);
  }

  lemma AnsweredIsTold(s: State, plan: seq<Choice>, calls: seq<Request>, k: nat, userId: string)
    requires IsThere(s) && k < |calls| && HadAnAnswer(s, plan, calls[..k], userId)
    ensures WasTold(s, plan, calls)
  {
    hide Exchange, After, TriesRemoval;
    var m :| 0 <= m < k && calls[..k][m].GetHeadscale?
      && var reply := ReplyTo(s, plan, calls[..k], m);
        IsMissing(reply) || (reply == Done && (userId == "" || TriesRemoval(s, plan, calls[..k], m, userId)));
    assert calls[..k][..m] == calls[..m];
    assert calls[m].GetHeadscale?;
  }

  lemma FinishedMeansGone(s: State, plan: seq<Choice>, deed: Deed, t: State)
    requires IsThere(s) && IsThere(t) && deed.Ran? && IsRun(s, plan, deed, t)
    requires IsAnswered(s, plan, deed.calls, t, deed.outcome) && deed.outcome == Finished
    requires var first := FirstRead(s, plan); first.Resourced? && first.r.deleting
    ensures Last(t.history) == None
  {
    hide Exchange, AllLegit, After, OthersStay, IsCutShort, Abandons, Settled, AllCalledFor, Warrants;
  }

  lemma GoneStaysInStep(s: State, e: Event, deed: Deed, t: State)
    requires IsThere(s) && IsThere(t) && IsStep(s, e, deed, t) && Last(s.history) == None
    ensures t.history == s.history
  {
    hide AllLegit, After, OthersStay, IsCutShort, Abandons, Settled, IsAnswered;
    if e.Run? {
      CallsLeaveGone(s, e.plan, deed.calls);
    }
  }

  lemma GoesWithRecord(s: State, e: Event, deed: Deed, t: State)
    requires Inv(s) && IsThere(s) && IsThere(t) && IsStep(s, e, deed, t)
    requires Last(s.history).Some? && Last(t.history) == None && Recorded(t.history) != ""
    ensures e.Run? && LetGo(s, e.plan, deed, Recorded(t.history))
  {
    hide Inv, IsRun, LetGo, Disturb;
    match e {
      case Run(plan) => RunLetsGo(s, plan, deed, t);
      case Beside(d) => HeldWhenDisturbed(s, d);
    }
  }

  /** Over any lifetime, a resource that is gone and had a UserID was let go by such a run. */
  lemma {:induction false} GoneWasAnswered(trace: seq<State>, events: seq<Event>, deeds: seq<Deed>, n: nat) returns (i: nat)
    requires IsTrace(trace, events, deeds) && Initial(trace[0]) && n < |trace|
    requires Last(trace[n].history) == None && Recorded(trace[n].history) != ""
    ensures i < n && |events| == |deeds| == |trace| - 1 && IsThere(trace[i]) && events[i].Run? && deeds[i].Ran?
    ensures LetGo(trace[i], events[i].plan, deeds[i], Recorded(trace[n].history))
    decreases n
  {
    hide Inv, IsTrace, IsRun, LetGo, Disturb;
    TraceLength(trace, events, deeds);
    PartOf(trace, events, deeds, n - 1);
    var s, t, e := trace[n - 1], trace[n], events[n - 1];
    if Last(s.history) == None {
      GoneStaysInStep(s, e, deeds[n - 1], t);
      i := GoneWasAnswered(trace, events, deeds, n - 1);
    } else {
      i := n - 1;
      GoesWithRecord(s, e, deeds[n - 1], t);
    }
  }

  // ---------- Users that nobody knows ----------

  /** From event `n` on nobody else deletes users, between runs or during them. */
  ghost predicate NobodyLeavesFrom(events: seq<Event>, n: nat) {
    forall i | n <= i < |events| :: if events[i].Run? then NobodyLeaves(events[i].plan) else !events[i].d.OthersRemove?
  }

  lemma StrandedAfterStep(s: State, e: Event, deed: Deed, t: State)
    requires Inv(s) && IsThere(s) && IsThere(t) && IsStep(s, e, deed, t) && Stranded(s)
    requires if e.Run? then NobodyLeaves(e.plan) else !e.d.OthersRemove?
    ensures Stranded(t) && Recorded(t.history) == Recorded(s.history)
  {
    hide Inv, Disturb, OthersStay, Settled, After, AllLegit, IsAnswered, IsCutShort, Abandons;
    assert IsTaken(s, s.username);
    if e.Beside? {
      UsersStayUndisturbed(s, e.d);
      DisturbKeepsInv(s, e.d);
      UsersAreOthers(s, t);
    }
    StrandedStays(s, t);
  }

  /** A stranded resource stays stranded for as long as nobody else deletes users, also when it is deleted itself. */
  lemma {:induction false} StrandedForEver(trace: seq<State>, events: seq<Event>, deeds: seq<Deed>, i: nat, n: nat)
    requires IsTrace(trace, events, deeds) && Inv(trace[0]) && i <= n < |trace|
    requires Stranded(trace[i]) && NobodyLeavesFrom(events, i)
    ensures Stranded(trace[n]) && Recorded(trace[n].history) == Recorded(trace[i].history)
    decreases n
  {
    hide Inv, IsStep, Stranded, NobodyLeaves;
    if i < n {
      StrandedForEver(trace, events, deeds, i, n - 1);
      TraceKeepsInv(trace, events, deeds, n - 1);
      StepOf(trace, events, deeds, n - 1);
      StrandedAfterStep(trace[n - 1], events[n - 1], deeds[n - 1], trace[n]);
    }
  }

  /** What others do makes no user of the resource's name. */
  lemma OthersMakeOthers(s: State, d: Disturbance)
    requires Inv(s)
    ensures !ForgetsUser(s, Disturb(s, d))
  {
  }

  lemma StrandedInStep(s: State, e: Event, deed: Deed, t: State)
    requires Inv(s) && IsThere(s) && IsThere(t) && IsStep(s, e, deed, t) && !Stranded(s)
    requires if e.Run? then NobodyLeaves(e.plan) else !e.d.OthersRemove?
    ensures Stranded(t) <==> e.Run? && ForgetsUser(s, t)
  {
    hide Inv, Disturb, OthersStay, Settled, After, AllLegit, IsAnswered, IsCutShort, Abandons, Stranded, ForgetsUser,
      NamesStay, Undisturbed;
    StepKeepsInv(s, e, deed, t);
    match e {
      case Run(plan) => CallsKeepNames(s, plan, deed.calls);
      case Beside(d) =>
        DisturbKeepsInv(s, d);
        NamesStayUndisturbed(s, t);
        WhatStays(s, t);
        OthersMakeOthers(s, d);
    }
    StrandedByForgetting(s, t);
  }

  /** Some run among the first `n` events made a user of the resource's name and ended without its id on record. */
  ghost predicate SomeRunForgot(trace: seq<State>, events: seq<Event>, n: nat)
    requires n <= |events| < |trace|
  {
    exists i | 0 <= i < n :: events[i].Run? && ForgetsUser(trace[i], trace[i + 1])
  }

  /** With nobody else deleting users, exactly such a run strands the resource: it crashed, or something failed. */
  lemma {:induction false} StrandedExactly(trace: seq<State>, events: seq<Event>, deeds: seq<Deed>, n: nat)
    requires IsTrace(trace, events, deeds) && Inv(trace[0]) && n < |trace|
    requires !Stranded(trace[0]) && NobodyLeavesFrom(events, 0)
    ensures |trace| == |events| + 1 && (Stranded(trace[n]) <==> SomeRunForgot(trace, events, n))
    decreases n
  {
    hide Inv, IsStep, Stranded, ForgetsUser, NobodyLeaves;
    if n > 0 {
      StrandedExactly(trace, events, deeds, n - 1);
      TraceKeepsInv(trace, events, deeds, n - 1);
      StepOf(trace, events, deeds, n - 1);
      if Stranded(trace[n - 1]) {
        StrandedAfterStep(trace[n - 1], events[n - 1], deeds[n - 1], trace[n]);
      } else {
        StrandedInStep(trace[n - 1], events[n - 1], deeds[n - 1], trace[n]);
      }
    }
  }

  /** What an undisturbed run makes of a resource that is not being deleted and whose Headscale is there. */
  lemma OneRunSettles(s: State, plan: seq<Choice>, deed: Deed, t: State)
    requires Inv(s) && Inv(t) && IsThere(s) && IsThere(t) && deed.Ran? && IsRun(s, plan, deed, t)
    requires IsUndisturbedRun(plan, s) && !Closing(s) && Last(s.headscales)
    ensures !Closing(t) && Last(t.headscales)
    ensures Recorded(s.history) == "" || IsTaken(s, s.username) ==> (HasItsUser(t) <==> !Stranded(s))
    ensures Recorded(s.history) != "" && !IsTaken(s, s.username) ==> Recorded(t.history) == "" && !IsTaken(t, t.username)
  {
    hide AllLegit, After, OthersStay, IsCutShort, Abandons, NobodyLeaves;
    CallsByItself(s, plan, deed.calls);
    assert VersionInv(Last(s.history).value, s);
    PresentIsLastVersion(s, Last(s.history).value);
    PresentIsLastVersion(t, Last(t.history).value);
    FreshIsNotRecorded(s);
  }

  /** A run that finds the recorded user gone clears the UserID and leaves the condition: what was ready is reported so. */
  lemma ClearingKeepsTheCondition(s: State, plan: seq<Choice>, deed: Deed, t: State)
    requires Inv(s) && IsThere(s) && IsThere(t) && deed.Ran? && IsRun(s, plan, deed, t)
    requires IsUndisturbedRun(plan, s) && !Closing(s) && Last(s.headscales)
    requires Recorded(s.history) != "" && !IsTaken(s, s.username)
    ensures Last(t.history).Some? && var was, now := Last(s.history).value, Last(t.history).value;
      now == was.(version := now.version, userId := "", createdAt := "") && deed.outcome == Finished && t.table == s.table
  {
    hide AllLegit, After, OthersStay, IsCutShort, Abandons, NobodyLeaves;
    assert VersionInv(Last(s.history).value, s);
    PresentIsLastVersion(s, Last(s.history).value);
  }

  /** Two undisturbed runs give a resource its user if and only if it is not stranded. */
  lemma TwoRunsGiveTheUser(trace: seq<State>, events: seq<Event>, deeds: seq<Deed>, i: nat)
    requires IsTrace(trace, events, deeds) && Inv(trace[0]) && i + 1 < |events|
    requires !Closing(trace[i]) && Last(trace[i].headscales)
    requires events[i].Run? && IsUndisturbedRun(events[i].plan, trace[i])
    requires events[i + 1].Run? && IsUndisturbedRun(events[i + 1].plan, trace[i + 1])
    ensures HasItsUser(trace[i + 2]) <==> !Stranded(trace[i])
  {
    hide Inv, IsTrace, IsRun, Stranded, HasItsUser, IsTaken, IsUndisturbedRun, Closing;
    StepOf(trace, events, deeds, i);
    StepOf(trace, events, deeds, i + 1);
    var s, t, u := trace[i], trace[i + 1], trace[i + 2];
    TraceKeepsInv(trace, events, deeds, i);
    TraceKeepsInv(trace, events, deeds, i + 1);
    TraceKeepsInv(trace, events, deeds, i + 2);
    OneRunSettles(s, events[i].plan, deeds[i], t);
    OneRunSettles(t, events[i + 1].plan, deeds[i + 1], u);
    HasItsUserOrIsStranded(s);
    HasItsUserOrIsStranded(t);
    if Stranded(s) {
      UndisturbedLeavesUsers(events[i].plan, s);
      StrandedAfterStep(s, events[i], deeds[i], t);
    }
  }

  lemma UndisturbedLeavesUsers(plan: seq<Choice>, s: State)
    requires IsUndisturbedRun(plan, s)
    ensures NobodyLeaves(plan)
  {
  }

  /** A run that is cut short after making the user strands the resource: nothing the controller does repairs that. */
  lemma CutShortStrandsForEver(trace: seq<State>, events: seq<Event>, deeds: seq<Deed>, i: nat, n: nat)
    requires IsTrace(trace, events, deeds) && Inv(trace[0]) && i < n < |trace| && i < |events|
    requires events[i].Run? && IsCutShort(events[i].plan, trace[i]) && NobodyLeavesFrom(events, i + 1)
    ensures Stranded(trace[n]) && Recorded(trace[n].history) == Recorded(trace[i].history)
  {
    hide Inv, Stranded, Abandons, IsTrace, Settled, IsCutShort, OthersStay, NobodyLeaves;
    TraceKeepsInv(trace, events, deeds, i);
    StepOf(trace, events, deeds, i);
    AbandonedIsStranded(trace[i], trace[i + 1]);
    AbandonedRecord(trace[i], trace[i + 1]);
    StrandedForEver(trace, events, deeds, i + 1, n);
  }

  lemma AbandonedRecord(s: State, t: State)
    requires Abandons(s, t)
    ensures Recorded(t.history) == Recorded(s.history)
  {
  }

  // ---------- The controller ----------

  /** One run of the reconciler is such a run. */
  method RunOnce(s: State, plan: seq<Choice>) returns (t: State, ghost deed: Deed)
    requires Inv(s) && IsThere(s)
    ensures Inv(t) && IsThere(t) && deed.Ran? && IsRun(s, plan, deed, t)
    ensures IsAnswered(s, plan, deed.calls, t, deed.outcome)
  {
    hide Inv, Settled, IsUndisturbedRun, IsAnswered, IsCutShort, Abandons, OthersStay;
    var reconciler := new Reconciler(s, plan);
    var outcome := reconciler.Reconcile();
    t := reconciler.cluster;
    deed := Ran(reconciler.issued, outcome);
    InvIsThere(t);
  }

  /** The controller lives through any events; what it does in them is a trace, to which all of the above applies. */
  method Live(s: State, events: seq<Event>) returns (t: State, ghost trace: seq<State>, ghost deeds: seq<Deed>)
    requires Inv(s) && IsThere(s)
    ensures IsTrace(trace, events, deeds) && trace[0] == s && Last(trace) == t && Inv(t)
  {
    hide IsAnswered, Inv, IsRun, Disturb, IsTrace;
    TraceOfNothing(s);
    t, trace, deeds := s, [s], [];
    for i := 0 to |events|
      invariant Inv(t) && IsThere(t)
      invariant trace != [] && trace[0] == s && Last(trace) == t && IsTrace(trace, events[..i], deeds)
    {
      ghost var deed := Happened;
      match events[i] {
        case Run(plan) => t, deed := RunOnce(t, plan);
        case Beside(d) =>
          DisturbKeepsInv(t, d);
          t := Disturb(t, d);
      }
      OneMoreEvent(trace, events[..i], deeds, events[i], deed, t);
      assert events[..i + 1] == events[..i] + [events[i]];
      trace, deeds := trace + [t], deeds + [deed];
    }
    assert events[..|events|] == events;
  }

  /** Nobody interferes and no call fails, but the first read may be late, and the run may end after so many calls. */
  function CalmPlan(lag: nat, calls: nat): seq<Choice> {
    [Choice(Quiet, Success, lag, None)] + seq(calls, i => Choice(Quiet, Success, 0, None))
  }

  lemma CalmPlanIsCalm(lag: nat, calls: nat)
    ensures Calm(CalmPlan(lag, calls)[1..]) && Alone(CalmPlan(lag, calls)) && NobodyLeaves(CalmPlan(lag, calls))
    ensures lag == 0 ==> Calm(CalmPlan(lag, calls))
  {
  }

  /** The resource waits for its user: finalizer set, Headscale there, no UserID, and no user of that name. */
  ghost predicate IsUnmet(s: State) {
    && IsThere(s) && Last(s.headscales) && !IsTaken(s, s.username)
    && Last(s.history).Some? && var r := Last(s.history).value;
    !r.deleting && r.finalizer && r.userId == ""
  }

  /**
   A crash between the creation of the user and the status update leaves a resource that never gets a UserID:
   whatever happens later, as long as nobody deletes the user.
   */
  method CrashAfterCreationStrandsForever(s: State, events: seq<Event>)
    returns (t: State, ghost trace: seq<State>, ghost deeds: seq<Deed>)
    requires Inv(s) && IsUnmet(s) && HasSpace(s) && NobodyLeavesFrom(events, 0)
    ensures IsTrace(trace, [Run(CalmPlan(0, 3))] + events, deeds) && trace[0] == s && Last(trace) == t
    ensures forall n | 1 <= n < |trace| :: Stranded(trace[n]) && Recorded(trace[n].history) == ""
  {
    hide Inv, IsTrace, Stranded, IsCutShort, NobodyLeaves;
    ghost var all := [Run(CalmPlan(0, 3))] + events;
    CrashIsCutShort(s);
    t, trace, deeds := Live(s, [Run(CalmPlan(0, 3))] + events);
    forall n | 1 <= n < |trace| ensures Stranded(trace[n]) && Recorded(trace[n].history) == "" {
      CutShortStrandsForEver(trace, all, deeds, 0, n);
    }
  }

  lemma CrashIsCutShort(s: State)
    requires Inv(s) && IsUnmet(s) && HasSpace(s)
    ensures IsCutShort(CalmPlan(0, 3), s) && Recorded(s.history) == "" && IsThere(s)
  {
    CalmPlanIsCalm(0, 3);
  }

  // ---------- A late read ----------

  /** Somebody deletes the user; then a run starts from a version that has no UserID yet; then the resource goes. */
  function LateHistory(id: nat, lag: nat): seq<Event> {
    [Run(CalmPlan(0, 7)), Beside(OthersRemove(id)), Run(CalmPlan(lag, 7)), Run(CalmPlan(0, 7)), Beside(AskDeletion),
     Run(CalmPlan(0, 7))]
  }

  /** After an undisturbed first run and the deletion of its user, a run from the first version is cut short. */
  lemma LateRunIsCutShort(s: State, deed: Deed, t: State, u: State)
    requires Initial(s) && IsUnmet(s) && s.next + 2 <= UINT64_LIMIT
    requires Inv(t) && IsThere(t) && deed.Ran? && IsRun(s, CalmPlan(0, 7), deed, t)
    requires u == Disturb(t, OthersRemove(s.next))
    ensures Recorded(u.history) == PrintNat(s.next) && !Closing(u) && IsGone(PrintNat(s.next), u)
    ensures |u.history| > 1 && IsCutShort(CalmPlan(|u.history| - 1, 7), u)
  {
    hide Inv, AllLegit, After, OthersStay, IsCutShort, Abandons;
    CalmPlanIsCalm(0, 7);
    assert Settled(s, t, deed.outcome);
    PrintNotEmpty(s.next);
    CallsByItself(s, CalmPlan(0, 7), deed.calls);
    RemovedIsGone(u, s.next);
    LateIsCutShort(u, s);
  }

  lemma LateIsCutShort(u: State, s: State)
    requires Initial(s) && IsUnmet(s) && IsThere(u) && s.history < u.history && u.username == s.username
    requires Last(u.headscales) && u.table == s.table && HasSpace(u)
    ensures IsCutShort(CalmPlan(|u.history| - 1, 7), u)
  {
    CalmPlanIsCalm(|u.history| - 1, 7);
  }

  /** An undisturbed run on a resource whose name is taken finds it ready, whoever has the name. */
  lemma TakenIsReady(s: State, deed: Deed, t: State)
    requires Inv(s) && Inv(t) && IsThere(s) && IsThere(t) && deed.Ran? && IsRun(s, CalmPlan(0, 7), deed, t)
    requires !Closing(s) && Recorded(s.history) != "" && Last(s.headscales) && IsTaken(s, s.username)
    ensures t.table == s.table && !Closing(t) && Recorded(t.history) == Recorded(s.history)
    ensures Last(t.history).Some? && IsReported(Last(t.history).value, true, UserReady) && t.headscales == s.headscales
  {
    hide AllLegit, After, OthersStay, IsCutShort, Abandons, Settled;
    CalmPlanIsCalm(0, 7);
    PresentIsLastVersion(s, Last(s.history).value);
    CallsByItself(s, CalmPlan(0, 7), deed.calls);
    TakenSettles(s, t, deed.outcome);
  }

  lemma TakenSettles(s: State, t: State, outcome: Outcome)
    requires Inv(s) && IsThere(s) && IsThere(t) && !Closing(s) && Settled(s, t, outcome)
    requires Last(s.headscales) && Last(s.history).value.userId != "" && IsTaken(s, s.username)
    ensures Reported(s, t, true, UserReady, Last(s.history).value.userId)
  {
    assert VersionInv(Last(s.history).value, s);
  }

  /** A deletion, undisturbed, leaves every user but the recorded one. */
  lemma DeletionLeavesOthers(s: State, u: State, deed: Deed, t: State)
    requires Inv(s) && IsThere(s) && !Closing(s) && Recorded(s.history) != "" && IsTaken(s, s.username)
    requires u == Disturb(s, AskDeletion) && Inv(u)
    requires IsThere(t) && deed.Ran? && IsRun(u, CalmPlan(0, 7), deed, t)
    ensures Last(t.history) == None
  {
    hide AllLegit, After, OthersStay, IsCutShort, Abandons;
    CalmPlanIsCalm(0, 7);
    assert VersionInv(Last(s.history).value, s);
    assert Settled(u, t, deed.outcome);
  }

  /** What the late run does to the state it starts from. */
  lemma LateRunLeaves(s: State, lag: nat, deed: Deed, t: State)
    requires IsThere(s) && IsThere(t) && deed.Ran? && IsRun(s, CalmPlan(lag, 7), deed, t)
    requires IsCutShort(CalmPlan(lag, 7), s) && !Closing(s)
    ensures !Closing(t) && Last(t.headscales)
  {
    hide AllLegit, OthersStay, Abandons, Settled, Closing, After;
    CalmPlanIsCalm(lag, 7);
    CallsByItself(s, CalmPlan(lag, 7), deed.calls);
  }

  lemma StrandedIsTaken(s: State)
    requires Stranded(s)
    ensures IsTaken(s, s.username)
  {
  }

  lemma SomeoneElse(s: State, id: nat) returns (other: nat)
    requires Stranded(s) && Recorded(s.history) == PrintNat(id)
    ensures other in s.table && s.table[other].username == s.username && other != id
  {
    other :| other in s.table && s.table[other].username == s.username && PrintNat(other) != Recorded(s.history);
  }

  lemma PartOf(trace: seq<State>, events: seq<Event>, deeds: seq<Deed>, n: nat)
    requires IsTrace(trace, events, deeds) && Initial(trace[0]) && n < |events|
    ensures |deeds| == |events| && |trace| == |events| + 1 && IsThere(trace[n]) && IsThere(trace[n + 1])
    ensures Inv(trace[n]) && Inv(trace[n + 1]) && IsStep(trace[n], events[n], deeds[n], trace[n + 1])
    ensures trace[n].username == trace[0].username == trace[n + 1].username && trace[0].history <= trace[n].history
  {
    hide Inv;
    InitialIsSafe(trace[0]);
    StepOf(trace, events, deeds, n);
    TraceKeepsInv(trace, events, deeds, n);
    TraceKeepsInv(trace, events, deeds, n + 1);
  }

  /**
   Late reads lose users even if no run crashes and no call fails. For every resource that waits for its user: its
   user is made, somebody deletes it, and a run starts from the first version. It makes a second user, and its
   status update is refused. From then on the resource is reported ready with the UserID of a user that is gone,
   and its deletion leaves the second user behind.
   */
  lemma LateReadLeaksAUser(trace: seq<State>, lag: nat, deeds: seq<Deed>) returns (id: nat)
    requires |trace| == 7 && IsTrace(trace, LateHistory(trace[0].next, lag), deeds) && lag == |trace[2].history| - 1
    requires Initial(trace[0]) && IsUnmet(trace[0]) && trace[0].next + 2 <= UINT64_LIMIT
    ensures Seen(trace[2].history, lag) == trace[0].history[0]
    ensures Last(trace[4].history).Some? && var r := Last(trace[4].history).value;
      IsReported(r, true, UserReady) && r.userId == PrintNat(trace[0].next) && IsGone(r.userId, trace[4])
    ensures Last(trace[6].history) == None
    ensures id in trace[6].table && trace[6].table[id].username == trace[0].username && id != trace[0].next
  {
    hide Inv, IsTrace, IsRun, IsUnmet, IsTaken, IsGone, IsReported, Stranded, IsAnswered, IsCutShort, Abandons,
      OthersStay, Disturb, CalmPlan;
    var s := trace[0];
    var events := LateHistory(s.next, lag);
    InitialIsSafe(s);
    PartOf(trace, events, deeds, 0);
    PartOf(trace, events, deeds, 1);
    PartOf(trace, events, deeds, 2);
    PartOf(trace, events, deeds, 3);
    PartOf(trace, events, deeds, 4);
    PartOf(trace, events, deeds, 5);
    LateRunIsCutShort(s, deeds[0], trace[1], trace[2]);
    LateRunLeaves(trace[2], lag, deeds[2], trace[3]);
    NobodyLeavesAfterwards(s.next, lag);
    CutShortStrandsForEver(trace, events, deeds, 2, 3);
    CutShortStrandsForEver(trace, events, deeds, 2, 4);
    CutShortStrandsForEver(trace, events, deeds, 2, 6);
    StrandedIsTaken(trace[3]);
    StrandedIsTaken(trace[4]);
    PrintNotEmpty(s.next);
    TakenIsReady(trace[3], deeds[3], trace[4]);
    StrandedMeansGone(trace[4]);
    DeletionLeavesOthers(trace[4], trace[5], deeds[5], trace[6]);
    id := SomeoneElse(trace[6], s.next);
  }

  lemma NobodyLeavesAfterwards(id: nat, lag: nat)
    ensures NobodyLeavesFrom(LateHistory(id, lag), 3)
  {
    CalmPlanIsCalm(0, 7);
  }

  /** There is such a history for every resource that waits for its user. */
  method LateReadHappens(s: State) returns (lag: nat, ghost trace: seq<State>, ghost deeds: seq<Deed>)
    requires Initial(s) && IsUnmet(s) && s.next + 2 <= UINT64_LIMIT
    ensures IsTrace(trace, LateHistory(s.next, lag), deeds) && trace[0] == s && lag == |trace[2].history| - 1
  {
    hide Inv, IsTrace, IsRun, IsStep, CalmPlan;
    InitialIsSafe(s);
    ghost var first := [Run(CalmPlan(0, 7)), Beside(OthersRemove(s.next))];
    var t;
    t, trace, deeds := Live(s, [Run(CalmPlan(0, 7)), Beside(OthersRemove(s.next))]);
    TraceLength(trace, first, deeds);
    InvIsThere(t);
    lag := |t.history| - 1;
    ghost var rest := [Run(CalmPlan(lag, 7)), Run(CalmPlan(0, 7)), Beside(AskDeletion), Run(CalmPlan(0, 7))];
    ghost var more, done;
    t, more, done := Live(t, [Run(CalmPlan(lag, 7)), Run(CalmPlan(0, 7)), Beside(AskDeletion), Run(CalmPlan(0, 7))]);
    TraceLength(more, rest, done);
    TracesJoin(trace, first, deeds, more, rest, done);
    assert first + rest == LateHistory(s.next, lag);
    trace, deeds := trace + more[1..], deeds + done;
  }
}
