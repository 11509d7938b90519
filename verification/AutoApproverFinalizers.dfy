/** Finalizers: no approver is pushed without one, and with one none goes before its deletion was seen to. */
module AutoApproverFinalizers {
  import opened Wrappers
  import opened Policy
  import opened AutoApprover
  import opened AutoApproverLog
  import opened AutoApproverSafety
  import opened AutoApproverTheorems
  import opened AutoApproverReads
  import opened AutoApproverDrain

  predicate IsPast(w: Worker) {
    w.Fetching? || w.Listing? || w.Pushing? || w.Reporting? || w.Releasing?
  }

  /** Past that step the worker's object has its finalizer, and it is released only in a deletion. */
  predicate Protected(w: Worker) {
    (IsPast(w) ==> w.obj.finalizer) && (w.Releasing? ==> w.obj.deleting)
  }

  lemma StartProtects(s: State, call: Call)
    requires s.worker.Started?
    ensures Protected(Get(s, s.worker.name, call).worker)
  {
  }

  lemma Finalized(s: State, n: Name, o: Approver, call: Call)
    ensures var w := EnsureFinalizer(s, n, o, call).worker; w.Idle? || (w.Fetching? && w.obj.finalizer)
  {
  }

  lemma FinalizingProtects(s: State, call: Call)
    requires s.worker.Finalizing?
    ensures Protected(EnsureFinalizer(s, s.worker.name, s.worker.obj, call).worker)
  {
    hide EnsureFinalizer;
    Finalized(s, s.worker.name, s.worker.obj, call);
  }

  lemma FetchProtects(s: State, call: Call)
    requires s.worker.Fetching? && Protected(s.worker)
    ensures Protected(Fetch(s, s.worker.name, s.worker.obj, call).worker)
  {
  }

  lemma ListProtects(s: State, call: Call)
    requires s.worker.Listing? && Protected(s.worker)
    ensures Protected(ListLive(s, s.worker.name, s.worker.obj, s.worker.acl, call).worker)
  {
    hide Live;
  }

  lemma PushProtects(s: State, call: Call)
    requires s.worker.Pushing? && Protected(s.worker)
    ensures Protected(Push(s, s.worker.name, s.worker.obj, s.worker.acl, s.worker.live, call).worker)
  {
    hide Render, Live, Fresh;
  }

  lemma ReportProtects(s: State, call: Call, changed: bool)
    requires s.worker.Reporting? && Protected(s.worker)
    ensures Protected(Report(s, s.worker.name, s.worker.failed, call, changed).worker)
  {
  }

  lemma WorkProtects(s: State, call: Call, changed: bool)
    requires Protected(s.worker)
    ensures Protected(Reconcile(s, call, changed).worker)
  {
    hide Get, EnsureFinalizer, Fetch, ListLive, Push, Report, Release, Protected;
    match s.worker {
      case Idle =>
      case Started(_) => StartProtects(s, call);
      case Finalizing(_, _) => FinalizingProtects(s, call);
      case Fetching(_, _) => FetchProtects(s, call);
      case Listing(_, _, _) => ListProtects(s, call);
      case Pushing(_, _, _, _) => PushProtects(s, call);
      case Reporting(_, _, _) => ReportProtects(s, call, changed);
      case Releasing(n, o) => ReleaseEnds(s, n, o, call);
    }
  }

  lemma ReleaseEnds(s: State, n: Name, o: Approver, call: Call)
    ensures Release(s, n, o, call).worker.Idle? && Protected(Release(s, n, o, call).worker)
  {
  }

  lemma StepProtects(s: State, a: Action)
    requires Enabled(s, a) && Protected(s.worker)
    ensures Protected(Apply(s, a).worker)
  {
    hide Reconcile, Protected;
    if a.Work? {
      WorkProtects(s, a.call, a.changed);
    } else {
      OthersProtect(s, a);
    }
  }

  lemma OthersProtect(s: State, a: Action)
    requires Enabled(s, a) && Protected(s.worker) && !a.Work?
    ensures Protected(Apply(s, a).worker)
  {
    hide Reconcile;
  }

  lemma {:induction false} RunProtects(s: State, run: seq<Action>)
    requires After(s, run).Some? && Protected(s.worker)
    ensures Protected(After(s, run).value.worker)
    decreases |run|
  {
    hide Protected, Apply;
    if run != [] {
      StepProtects(s, run[0]);
      RunProtects(Apply(s, run[0]), run[1..]);
    }
  }

  /**
   Over every run, whoever changes an active policy has its finalizer: the change is made in the reconcile of an
   approver that targets this Headscale, on a version of it that the API server has or had, with the finalizer set.
   */
  lemma EveryPusherHasItsFinalizer(run: seq<Action>, i: nat, h: Name, s: State, t: State) returns (o: Approver)
    requires i < |run| && Comes(run, i, s) && Comes(run, i + 1, t) && Changes(s, t, h)
    ensures s.worker.Pushing? && s.worker.obj == o && o.ref == h
    ensures o.finalizer && o in s.history
  {
    hide Protected, Apply, LogInv, Reconcile;
    var s' := StepOf(run, i + 1, t);
    OnlyPushesChange(s, run[i], h);
    InitialIsProtected();
    InitialInv();
    RunProtects(INITIAL, run[..i]);
    RunKeepsInv(INITIAL, run[..i]);
    o := s.worker.obj;
    HeldIsStored(s);
  }

  lemma InitialIsProtected()
    ensures Protected(INITIAL.worker)
  {
  }

  lemma HeldIsStored(s: State)
    requires LogInv(s) && s.worker.Pushing? && Protected(s.worker)
    ensures s.worker.obj in s.history && s.worker.obj.finalizer
  {
    assert Stored(s.history, s.worker.obj);
  }

  // ---------- Releases ----------

  /** What may lead the worker to let go of an approver: its entries are out of the policy, or there is no getting them out. */
  ghost predicate SeesTo(s: State, call: Call, t: State) {
    match s.worker
    case Fetching(_, o) =>
      o.deleting && (!call.Succeeds? || o.ref !in s.headCache || !s.headCache[o.ref].policyMode.Database?)
    case Listing(_, o, _) => o.deleting && !call.Succeeds?
    case Pushing(_, o, acl, live) =>
      && o.deleting
      && (call.Fails? || Render(acl, live).Err? || (o.ref in t.active && Render(acl, live) == Ok(t.active[o.ref])))
    case _ => false
  }

  lemma FetchSeesTo(s: State, call: Call)
    requires s.worker.Fetching?
    ensures var t := Fetch(s, s.worker.name, s.worker.obj, call);
      t.worker.Releasing? ==> SeesTo(s, call, t) && t.worker == Releasing(s.worker.name, s.worker.obj)
  {
  }

  lemma ListSeesTo(s: State, call: Call)
    requires s.worker.Listing?
    ensures var t := ListLive(s, s.worker.name, s.worker.obj, s.worker.acl, call);
      t.worker.Releasing? ==> SeesTo(s, call, t) && t.worker == Releasing(s.worker.name, s.worker.obj)
  {
    hide Live;
  }

  lemma PushSeesTo(s: State, call: Call)
    requires s.worker.Pushing?
    ensures var t := Push(s, s.worker.name, s.worker.obj, s.worker.acl, s.worker.live, call);
      t.worker.Releasing? ==> SeesTo(s, call, t) && t.worker == Releasing(s.worker.name, s.worker.obj)
  {
    hide Render, Live, Fresh;
  }

  lemma GettingDoesNoMore(s: State, n: Name, call: Call)
    requires s.worker.Started?
    ensures !Get(s, n, call).worker.Releasing? && Get(s, n, call).server == s.server
  {
  }

  lemma WritesReleaseNothing(s: State, n: Name, o: Approver, call: Call, changed: bool, failed: bool)
    ensures !EnsureFinalizer(s, n, o, call).worker.Releasing?
    ensures s.worker.Reporting? ==> !Report(s, n, failed, call, changed).worker.Releasing?
  {
    hide Write;
  }

  /** A release follows on such a step, in the same reconcile. */
  lemma ReleaseFollows(s: State, call: Call, changed: bool)
    requires Reconcile(s, call, changed).worker.Releasing?
    ensures var t := Reconcile(s, call, changed);
      SeesTo(s, call, t) && t.worker == Releasing(s.worker.name, s.worker.obj)
  {
    hide Get, EnsureFinalizer, Fetch, ListLive, Push, Report, Release, SeesTo;
    match s.worker {
      case Idle =>
      case Started(n) => GettingDoesNoMore(s, n, call);
      case Finalizing(n, o) => WritesReleaseNothing(s, n, o, call, changed, false);
      case Fetching(_, _) => FetchSeesTo(s, call);
      case Listing(_, _, _) => ListSeesTo(s, call);
      case Pushing(_, _, _, _) => PushSeesTo(s, call);
      case Reporting(n, o, failed) => WritesReleaseNothing(s, n, o, call, changed, failed);
      case Releasing(n, o) => ReleaseEnds(s, n, o, call);
    }
  }

  /** How many calls at most lie between the worker and a release. */
  function CallsLeft(w: Worker): nat {
    match w
    case Fetching(_, _) => 3
    case Listing(_, _, _) => 2
    case Pushing(_, _, _, _) => 1
    case _ => 0
  }

  lemma FetchGoesOn(s: State, n: Name, o: Approver, call: Call)
    requires o.deleting
    ensures var t := Fetch(s, n, o, call);
      t.queue == s.queue && (t.worker == Releasing(n, o) || (t.worker.Listing? && t.worker.name == n && t.worker.obj == o))
  {
  }

  lemma ListGoesOn(s: State, n: Name, o: Approver, acl: AclPolicy, call: Call)
    requires o.deleting
    ensures var t := ListLive(s, n, o, acl, call);
      t.queue == s.queue && (t.worker == Releasing(n, o) || (t.worker.Pushing? && t.worker.name == n && t.worker.obj == o))
  {
    hide Live;
  }

  lemma PushGoesOn(s: State, n: Name, o: Approver, acl: AclPolicy, live: map<Name, ApproverSpec>, call: Call)
    requires o.deleting
    ensures Push(s, n, o, acl, live, call).worker == Releasing(n, o) && Push(s, n, o, acl, live, call).queue == s.queue
  {
    hide Render, Live, Fresh;
  }

  /** Clean-up is best effort: however its calls end, a deletion comes to the release, by at most three of them. */
  lemma DeletionIsNotHeldUp(s: State, call: Call, changed: bool)
    requires (s.worker.Fetching? || s.worker.Listing? || s.worker.Pushing?) && s.worker.obj.deleting
    ensures var t := Reconcile(s, call, changed);
      && t.queue == s.queue && (CallsLeft(t.worker) > 0 || t.worker.Releasing?)
      && t.worker.name == s.worker.name && t.worker.obj == s.worker.obj && CallsLeft(t.worker) < CallsLeft(s.worker) <= 3
  {
    hide Get, EnsureFinalizer, Fetch, ListLive, Push, Report, Release;
    match s.worker {
      case Fetching(n, o) => FetchGoesOn(s, n, o, call);
      case Listing(n, o, acl) => ListGoesOn(s, n, o, acl, call);
      case Pushing(n, o, acl, live) => PushGoesOn(s, n, o, acl, live, call);
      case _ =>
    }
  }

  lemma WritesRemoveNothing(s: State, n: Name, o: Approver, call: Call, changed: bool, failed: bool)
    ensures s.server.Keys <= EnsureFinalizer(s, n, o, call).server.Keys
    ensures s.worker.Reporting? ==> s.server.Keys <= Report(s, n, failed, call, changed).server.Keys
  {
  }

  lemma FetchingLeavesServer(s: State, n: Name, o: Approver, call: Call)
    ensures Fetch(s, n, o, call).server == s.server
  {
  }

  lemma PushingLeavesServer(s: State, n: Name, o: Approver, acl: AclPolicy, live: map<Name, ApproverSpec>, call: Call)
    ensures ListLive(s, n, o, acl, call).server == s.server && Push(s, n, o, acl, live, call).server == s.server
  {
    hide Render, Live, Fresh;
  }

  lemma WorkRemoves(s: State, call: Call, changed: bool, n: Name)
    requires n in s.server && n !in Reconcile(s, call, changed).server
    ensures s.worker.Releasing? && s.worker.name == n && Accepts(s, n, s.worker.obj)
  {
    hide Get, EnsureFinalizer, Fetch, ListLive, Push, Report;
    match s.worker {
      case Idle =>
      case Started(m) => GettingDoesNoMore(s, m, call);
      case Finalizing(m, o) => WritesRemoveNothing(s, m, o, call, changed, false);
      case Fetching(m, o) => FetchingLeavesServer(s, m, o, call);
      case Listing(m, o, acl) => PushingLeavesServer(s, m, o, acl, map[], call);
      case Pushing(m, o, acl, live) => PushingLeavesServer(s, m, o, acl, live, call);
      case Reporting(m, o, failed) => WritesRemoveNothing(s, m, o, call, changed, failed);
      case Releasing(_, _) =>
    }
  }

  /**
   Over every run, an approver with its finalizer leaves the API server in one way only: it is being deleted, and the
   worker, holding its present version, releases it.
   */
  lemma OnlyReleasesRemove(run: seq<Action>, i: nat, n: Name, s: State, t: State)
    requires i < |run| && Comes(run, i, s) && Comes(run, i + 1, t)
    requires n in s.server && s.server[n].finalizer && n !in t.server
    ensures run[i].Work? && s.worker == Releasing(n, s.server[n]) && s.server[n].deleting
  {
    hide Protected, LogInv;
    var s' := StepOf(run, i + 1, t);
    InitialIsProtected();
    InitialInv();
    RunProtects(INITIAL, run[..i]);
    RunKeepsInv(INITIAL, run[..i]);
    RemovalIsRelease(s, run[i], n);
  }

  lemma RemovalIsRelease(s: State, a: Action, n: Name)
    requires LogInv(s) && Protected(s.worker) && Enabled(s, a)
    requires n in s.server && s.server[n].finalizer && n !in Apply(s, a).server
    ensures a.Work? && s.worker == Releasing(n, s.server[n]) && s.server[n].deleting
  {
    hide Reconcile, LogInv;
    if a.Work? {
      WorkRemoves(s, a.call, a.changed, n);
      HeldIsServed(s);
    }
  }

  // ---------- Deletions are attended to ----------

  /** The worker has taken up the deletion of `n`, or is about to. */
  predicate Handles(w: Worker, n: Name) {
    w == Started(n) || (Busy(w) && w.name == n && w.obj.deleting)
  }

  /** Whoever the cache knows to be in deletion, and the log does not know to be gone, is queued or in hand. */
  predicate Attended(s: State) {
    forall n | n in s.cache && s.cache[n].deleting && Gone(n) !in s.log :: n in s.queue || Handles(s.worker, n)
  }

  /** A step of the worker leaves the cache, adds to queue and log, and lets go of a deletion only by a release or a retry. */
  predicate Attends(s: State, t: State) {
    && t.cache == s.cache && s.queue <= t.queue && s.log <= t.log
    && forall n | n in s.cache && s.cache[n].deleting && Handles(s.worker, n) ::
         n in t.queue || Handles(t.worker, n) || Gone(n) in t.log
  }

  lemma GetAttends(s: State, call: Call)
    requires LogInv(s) && s.worker.Started?
    ensures Attends(s, Get(s, s.worker.name, call))
  {
    var n := s.worker.name;
    if n in s.cache {
      assert Stored(s.history, s.cache[n]);
    }
  }

  lemma FinalizingAttends(s: State, n: Name, o: Approver, call: Call)
    requires s.worker.Finalizing? && !s.worker.obj.deleting
    ensures Attends(s, EnsureFinalizer(s, n, o, call))
  {
  }

  lemma FetchAttends(s: State, call: Call)
    requires s.worker.Fetching?
    ensures Attends(s, Fetch(s, s.worker.name, s.worker.obj, call))
  {
  }

  lemma ListAttends(s: State, call: Call)
    requires s.worker.Listing?
    ensures Attends(s, ListLive(s, s.worker.name, s.worker.obj, s.worker.acl, call))
  {
    hide Live;
  }

  lemma PushAttends(s: State, call: Call)
    requires s.worker.Pushing?
    ensures Attends(s, Push(s, s.worker.name, s.worker.obj, s.worker.acl, s.worker.live, call))
  {
    hide Render, Live, Fresh;
  }

  lemma ReportAttends(s: State, call: Call, changed: bool)
    requires s.worker.Reporting? && !s.worker.obj.deleting
    ensures Attends(s, Report(s, s.worker.name, s.worker.failed, call, changed))
  {
  }

  lemma ReleaseAttends(s: State, call: Call)
    requires s.worker.Releasing?
    ensures Attends(s, Release(s, s.worker.name, s.worker.obj, call))
  {
    var n := s.worker.name;
    assert Gone(n) in s.log + [Gone(n)];
  }

  lemma WorkAttends(s: State, call: Call, changed: bool)
    requires LogInv(s) && WorkerInv(s)
    ensures Attends(s, Reconcile(s, call, changed))
  {
    hide Get, EnsureFinalizer, Fetch, ListLive, Push, Report, Release, Attends, LogInv;
    match s.worker {
      case Idle => IdleAttends(s);
      case Started(_) => GetAttends(s, call);
      case Finalizing(n, o) => FinalizingAttends(s, n, o, call);
      case Fetching(_, _) => FetchAttends(s, call);
      case Listing(_, _, _) => ListAttends(s, call);
      case Pushing(_, _, _, _) => PushAttends(s, call);
      case Reporting(_, _, _) => ReportAttends(s, call, changed);
      case Releasing(_, _) => ReleaseAttends(s, call);
    }
  }

  lemma IdleAttends(s: State)
    requires s.worker.Idle?
    ensures Attends(s, s)
  {
  }

  lemma AttendedAfterWork(s: State, t: State)
    requires Attended(s) && Attends(s, t)
    ensures Attended(t)
  {
    forall n | n in t.cache && t.cache[n].deleting && Gone(n) !in t.log ensures n in t.queue || Handles(t.worker, n) {
      assert Gone(n) !in s.log;
    }
  }

  lemma DeliveryAttends(s: State)
    requires Attended(s) && s.log != []
    ensures Attended(DeliverFirst(s))
  {
    var t := DeliverFirst(s);
    forall n | n in t.cache && t.cache[n].deleting && Gone(n) !in t.log ensures n in t.queue || Handles(t.worker, n) {
      assert forall e :: e in s.log <==> e == s.log[0] || e in t.log;
    }
  }

  lemma OthersAttend(s: State, a: Action)
    requires Enabled(s, a) && Attended(s) && !a.Work? && !a.DeliverApprover?
    ensures Attended(Apply(s, a))
  {
    hide Reconcile, DeliverFirst;
    var t := Apply(s, a);
    forall n | n in t.cache && t.cache[n].deleting && Gone(n) !in t.log ensures n in t.queue || Handles(t.worker, n) {
      assert a.Restart? || Gone(n) !in s.log;
    }
  }

  lemma StepAttends(s: State, a: Action)
    requires Inv(s) && Enabled(s, a) && Attended(s)
    ensures Attended(Apply(s, a))
  {
    hide Reconcile, LogInv, WorkerInv, Good, DeliverFirst, Attended;
    if a.Work? {
      WorkAttends(s, a.call, a.changed);
      AttendedAfterWork(s, Apply(s, a));
    } else if a.DeliverApprover? {
      DeliveryAttends(s);
    } else {
      OthersAttend(s, a);
    }
  }

  lemma {:induction false} RunAttends(s: State, run: seq<Action>)
    requires Inv(s) && After(s, run).Some? && Attended(s)
    ensures Attended(After(s, run).value)
    decreases |run|
  {
    hide Inv, Apply, Attended;
    if run != [] {
      StepKeepsInv(s, run[0]);
      StepAttends(s, run[0]);
      RunAttends(Apply(s, run[0]), run[1..]);
    }
  }

  /** Over every run, where everything is drained no deletion is left: each approver asked to go is gone. */
  lemma DrainedLeavesNoDeletion(run: seq<Action>, n: Name)
    requires After(INITIAL, run).Some? && Drained(After(INITIAL, run).value)
    requires n in After(INITIAL, run).value.server
    ensures !After(INITIAL, run).value.server[n].deleting
  {
    InitialInv();
    RunAttends(INITIAL, run);
    RunKeepsInv(INITIAL, run);
    var s := After(INITIAL, run).value;
    DrainedCacheIsServer(s);
  }

  lemma DrainedCacheIsServer(s: State)
    requires LogInv(s) && s.log == []
    ensures s.cache == s.server
  {
  }
}
