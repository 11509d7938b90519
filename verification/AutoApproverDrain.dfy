/**
 Left alone, the auto-approver controller comes to rest: without user steps and failures every step
 lowers a measure, because its own writes are filtered out of the watch.
 */
module AutoApproverDrain {
  import opened Wrappers
  import opened Policy
  import opened AutoApprover
  import opened AutoApproverLog
  import opened AutoApproverSafety
  import opened AutoApproverTheorems

  /** A step of the watches or the worker in which nothing fails and no update is refused. */
  ghost predicate Smooth(s: State, a: Action) {
    Enabled(s, a) &&
    match a
    case DeliverApprover => true
    case DeliverHeadscale => true
    case Pop(_) => true
    case Work(call, changed) => call.Succeeds? && WorkIsSmooth(s, changed)
    case _ => false
  }

  ghost predicate WorkIsSmooth(s: State, changed: bool) {
    match s.worker
    case Finalizing(n, o) => o.finalizer || Accepts(s, n, o)
    case Releasing(n, o) => Accepts(s, n, o)
    case Pushing(_, _, acl, live) => Render(acl, live).Ok?
    case Reporting(n, _, _) => changed ==> n in s.server
    case _ => true
  }

  // ---------- The measure ----------

  function Terminating(s: State): set<Name> {
    set n | n in s.server && s.server[n].deleting
  }

  /** What one queued name costs: more than all the steps of its reconcile. */
  const PER_NAME := 9

  function LogCost(c: map<Name, Approver>, log: seq<Event<Approver>>): nat
    decreases |log|
  {
    if log == [] then 0
    else 1 + (if Passes(c, log[0]) then PER_NAME else 0) + LogCost(Observe(c, log[0]), log[1..])
  }

  function Names(s: State): set<Name> {
    s.cache.Keys + set e | e in s.log :: e.name
  }

  function Remaining(w: Worker): nat {
    match w
    case Idle => 0
    case Started(_) => 8
    case Finalizing(_, _) => 7
    case Fetching(_, _) => 5
    case Listing(_, _, _) => 4
    case Pushing(_, _, _, _) => 3
    case Reporting(_, _, failed) => if failed then PER_NAME + 2 else 2
    case Releasing(_, _) => 2
  }

  function HeadCost(events: nat, names: nat): nat {
    if events == 0 then 0 else 1 + PER_NAME * names + HeadCost(events - 1, names)
  }

  function Load(s: State): nat {
    HeadCost(|s.headLog|, |Names(s)|) + LogCost(s.cache, s.log) + PER_NAME * |s.queue| + Remaining(s.worker)
  }

  predicate Lower(t: State, s: State) {
    |Terminating(t)| < |Terminating(s)| || (|Terminating(t)| == |Terminating(s)| && Load(t) < Load(s))
  }

  lemma {:induction false} LogCostAppend(c: map<Name, Approver>, log: seq<Event<Approver>>, e: Event<Approver>)
    ensures LogCost(c, log + [e]) == LogCost(c, log) + 1 + (if Passes(Replay(c, log), e) then PER_NAME else 0)
    decreases |log|
  {
    if log == [] {
      assert (log + [e])[1..] == [];
    } else {
      LogCostAppend(Observe(c, log[0]), log[1..], e);
      assert (log + [e])[1..] == log[1..] + [e];
    }
  }

  lemma SubsetSize(a: set<Name>, b: set<Name>)
    requires a <= b
    ensures |a| <= |b|
  {
    assert b == a + (b - a);
  }

  lemma UnionSize(a: set<Name>, b: set<Name>)
    ensures |a + b| <= |a| + |b|
  {
    assert a + b == a + (b - a);
    SubsetSize(b - a, b);
  }

  lemma HeadCostStep(events: nat, names: nat)
    requires events > 0
    ensures HeadCost(events, names) == 1 + PER_NAME * names + HeadCost(events - 1, names)
  {
  }

  lemma {:induction false} HeadCostMonotone(events: nat, less: nat, more: nat)
    requires less <= more
    ensures HeadCost(events, less) <= HeadCost(events, more)
  {
    if events > 0 {
      HeadCostMonotone(events - 1, less, more);
    }
  }

  // ---------- Every step lowers it ----------

  lemma DeliverLowers(s: State)
    requires s.log != []
    ensures Lower(DeliverFirst(s), s)
  {
    var e, t := s.log[0], DeliverFirst(s);
    assert Terminating(t) == Terminating(s);
    assert Names(t) <= Names(s) by {
      assert e in s.log && forall x :: x in t.log ==> x in s.log;
    }
    SubsetSize(Names(t), Names(s));
    HeadCostMonotone(|s.headLog|, |Names(t)|, |Names(s)|);
    UnionSize(s.queue, {e.name});
  }

  lemma DeliverHeadLowers(s: State)
    requires s.headLog != []
    ensures Lower(DeliverFirstHead(s), s)
  {
    hide LogCost, HeadCost, PassesHead, Targeting, Remaining, Observe;
    var t := DeliverFirstHead(s);
    assert Terminating(t) == Terminating(s) && Names(t) == Names(s);
    HeadCostStep(|s.headLog|, |Names(s)|);
    DeliveryQueuesAtMost(s);
  }

  lemma DeliveryQueuesAtMost(s: State)
    requires s.headLog != []
    ensures |DeliverFirstHead(s).queue| <= |s.queue| + |Names(s)|
  {
    var targets := Targeting(s.cache, s.headLog[0].name);
    SubsetSize(targets, Names(s));
    UnionSize(s.queue, targets);
  }

  lemma PopLowers(s: State, n: Name)
    requires Enabled(s, Pop(n))
    ensures Lower(Apply(s, Pop(n)), s)
  {
    var t := Apply(s, Pop(n));
    SameNames(s, t);
    assert |t.queue| == |s.queue| - 1;
  }

  lemma SameNames(s: State, t: State)
    requires t.server == s.server && t.cache == s.cache && t.log == s.log
    ensures Terminating(t) == Terminating(s) && Names(t) == Names(s)
  {
  }

  /** A write that the filter drops costs one event and no reconcile. */
  lemma FilteredWrite(s: State, n: Name, o: Approver)
    requires Replay(s.cache, s.log) == s.server && n in s.server
    requires o.generation == s.server[n].generation && o.deleting == s.server[n].deleting
    ensures LogCost(s.cache, Write(s, n, o).log) == LogCost(s.cache, s.log) + 1
    ensures Terminating(Write(s, n, o)) == Terminating(s)
    ensures Names(Write(s, n, o)) == Names(s)
  {
    var v := o.(version := |s.history|);
    var t := Write(s, n, o);
    LogCostAppend(s.cache, s.log, Put(n, v));
    ReplayFrom(s.cache, s.log, n);
    forall m ensures m in Names(t) <==> m in Names(s) {
      if m in Names(t) && m !in s.cache {
        var e :| e in t.log && e.name == m;
        assert e in s.log || e == Put(n, v);
        if e == Put(n, v) {
          assert Put(n, s.server[n]) in s.log;
        }
      }
      if m in Names(s) && m !in s.cache {
        var e :| e in s.log && e.name == m;
        assert e in t.log;
      }
    }
  }

  lemma SameStore(s: State, t: State)
    requires t.server == s.server && t.cache == s.cache && t.log == s.log
    ensures Terminating(t) == Terminating(s) && Names(t) == Names(s)
  {
  }

  lemma SameStoreLowers(s: State, t: State)
    requires t.server == s.server && t.cache == s.cache && t.log == s.log && t.headLog == s.headLog
    requires t.queue == s.queue && Remaining(t.worker) < Remaining(s.worker)
    ensures Lower(t, s)
  {
    assert Terminating(t) == Terminating(s) && Names(t) == Names(s);
  }

  /** A step that costs one filtered event, paid for by queue and worker. */
  lemma FilteredStepLowers(s: State, n: Name, o: Approver, t: State)
    requires Replay(s.cache, s.log) == s.server && n in s.server
    requires o.generation == s.server[n].generation && o.deleting == s.server[n].deleting
    requires var u := Write(s, n, o); t.server == u.server && t.log == u.log
    requires t.cache == s.cache && t.headLog == s.headLog
    requires PER_NAME * |t.queue| + Remaining(t.worker) + 1 < PER_NAME * |s.queue| + Remaining(s.worker)
    ensures Lower(t, s)
  {
    FilteredWrite(s, n, o);
    SameStore(t, Write(s, n, o));
  }

  lemma FinalizerLowers(s: State)
    requires s.worker.Finalizing? && Replay(s.cache, s.log) == s.server
    requires var n, o := s.worker.name, s.worker.obj; o.finalizer || (n in s.server && s.server[n] == o)
    ensures Lower(EnsureFinalizer(s, s.worker.name, s.worker.obj, Succeeds), s)
  {
    var n, o := s.worker.name, s.worker.obj;
    var t := EnsureFinalizer(s, n, o, Succeeds);
    if o.finalizer {
      SameStoreLowers(s, t);
    } else {
      FilteredStepLowers(s, n, o.(finalizer := true), t);
    }
  }

  lemma ReportLowers(s: State, changed: bool)
    requires s.worker.Reporting? && Replay(s.cache, s.log) == s.server
    requires changed ==> s.worker.name in s.server
    ensures Lower(Report(s, s.worker.name, s.worker.failed, Succeeds, changed), s)
  {
    hide Names, Terminating, HeadCost, Replay;
    var n := s.worker.name;
    var t := Report(s, n, s.worker.failed, Succeeds, changed);
    UnionSize(s.queue, {n});
    if changed {
      FilteredStepLowers(s, n, s.server[n], t);
    } else {
      SameStore(s, t);
    }
  }

  lemma ReleaseLowers(s: State)
    requires s.worker.Releasing? && s.worker.obj.deleting
    requires s.worker.name in s.server && s.server[s.worker.name] == s.worker.obj
    ensures Lower(Release(s, s.worker.name, s.worker.obj, Succeeds), s)
  {
    var n := s.worker.name;
    var t := Release(s, n, s.worker.obj, Succeeds);
    assert Terminating(s) == Terminating(t) + {n} && n !in Terminating(t);
  }

  lemma SmoothWorkLowers(s: State, changed: bool)
    requires LogInv(s) && WorkerInv(s) && !s.worker.Idle? && WorkIsSmooth(s, changed)
    ensures Lower(Reconcile(s, Succeeds, changed), s)
  {
    hide Lower, Get, EnsureFinalizer, Fetch, ListLive, Push, Report, Release;
    assert Busy(s.worker) && Accepts(s, s.worker.name, s.worker.obj) ==> s.server[s.worker.name] == s.worker.obj;
    match s.worker {
      case Finalizing(_, _) => FinalizerLowers(s);
      case Reporting(_, _, _) => ReportLowers(s, changed);
      case Releasing(_, _) => ReleaseLowers(s);
      case Started(_) => GetLowers(s);
      case Fetching(_, _) => FetchLowers(s);
      case Listing(_, _, _) => ListLowers(s);
      case Pushing(_, _, _, _) => PushLowers(s);
    }
  }

  lemma GetLowers(s: State)
    requires s.worker.Started?
    ensures Lower(Get(s, s.worker.name, Succeeds), s)
  {
    hide Lower;
    SameStoreLowers(s, Get(s, s.worker.name, Succeeds));
  }

  lemma FetchLowers(s: State)
    requires s.worker.Fetching?
    ensures Lower(Fetch(s, s.worker.name, s.worker.obj, Succeeds), s)
  {
    SameStoreLowers(s, Fetch(s, s.worker.name, s.worker.obj, Succeeds));
  }

  lemma ListLowers(s: State)
    requires s.worker.Listing?
    ensures Lower(ListLive(s, s.worker.name, s.worker.obj, s.worker.acl, Succeeds), s)
  {
    SameStoreLowers(s, ListLive(s, s.worker.name, s.worker.obj, s.worker.acl, Succeeds));
  }

  lemma PushLowers(s: State)
    requires s.worker.Pushing? && WorkIsSmooth(s, false)
    ensures Lower(Push(s, s.worker.name, s.worker.obj, s.worker.acl, s.worker.live, Succeeds), s)
  {
    SameStoreLowers(s, Push(s, s.worker.name, s.worker.obj, s.worker.acl, s.worker.live, Succeeds));
  }

  /** Deletions in progress first, then the work in logs, queue and worker: each smooth step lowers the pair. */
  lemma SmoothStepLowers(s: State, a: Action)
    requires LogInv(s) && WorkerInv(s) && Smooth(s, a)
    ensures Lower(Apply(s, a), s)
  {
    match a {
      case DeliverApprover => DeliverLowers(s);
      case DeliverHeadscale => DeliverHeadLowers(s);
      case Pop(n) => PopLowers(s, n);
      case Work(call, changed) => SmoothWorkLowers(s, changed);
    }
  }

  ghost predicate IsDrain(states: nat -> State, actions: nat -> Action) {
    forall j: nat | Smooth(states(j), actions(j)) :: states(j + 1) == Apply(states(j), actions(j))
  }

  ghost predicate StopsAfter(states: nat -> State, actions: nat -> Action, i: nat) {
    exists j: nat :: j >= i && !Smooth(states(j), actions(j))
  }

  /** So no sequence of steps stays smooth forever. */
  lemma {:induction false} DrainingStops(states: nat -> State, actions: nat -> Action, i: nat)
    requires Inv(states(i)) && IsDrain(states, actions)
    ensures StopsAfter(states, actions, i)
    decreases |Terminating(states(i))|, Load(states(i))
  {
    if Smooth(states(i), actions(i)) {
      DrainStep(states(i), actions(i), states(i + 1));
      DrainingStops(states, actions, i + 1);
    }
  }

  lemma DrainStep(s: State, a: Action, t: State)
    requires Inv(s) && Smooth(s, a) && t == Apply(s, a)
    ensures Inv(t) && Lower(t, s)
  {
    SmoothStepLowers(s, a);
    StepKeepsInv(s, a);
  }

  // ---------- Where it stops ----------

  predicate Drained(s: State) {
    s.log == [] && s.headLog == [] && s.queue == {} && s.worker.Idle?
  }

  /** The worker is about to retry: its snapshot is outdated, or the base it read does not parse. */
  ghost predicate MustRetry(s: State) {
    && s.log == [] && s.headLog == []
    && match s.worker
       case Finalizing(n, o) => !o.finalizer && !Accepts(s, n, o)
       case Releasing(n, o) => !Accepts(s, n, o)
       case Pushing(_, _, acl, live) => Render(acl, live).Err?
       case _ => false
  }

  /** Nothing else stops it: short of a drained state there is a smooth step, or a retry is due. */
  lemma SmoothUntilDrained(s: State)
    requires forall a :: !Smooth(s, a)
    ensures Drained(s) || MustRetry(s)
  {
    assert !Smooth(s, DeliverApprover) && !Smooth(s, DeliverHeadscale);
    assert !Smooth(s, Work(Succeeds, false));
    if s.worker.Idle? && s.queue != {} {
      var n :| n in s.queue;
      assert Smooth(s, Pop(n));
    }
  }

  /** A drained state agrees with the API server on every governed Headscale. */
  lemma DrainedAgrees(run: seq<Action>, h: Name)
    requires After(INITIAL, run).Some? && Drained(After(INITIAL, run).value)
    requires Governed(After(INITIAL, run).value, h) && h !in After(INITIAL, run).value.unaccounted
    ensures Agrees(After(INITIAL, run).value, h)
  {
    InitialInv();
    RunKeepsInv(INITIAL, run);
    PendingNoNewsIsUpToDate(After(INITIAL, run).value, h);
    QuiescentAgreement(run, h);
  }

  // ---------- Retries ----------

  /** The worker holds an object that is no longer the one on the API server. */
  predicate IsOutdated(s: State) {
    Busy(s.worker) && !Accepts(s, s.worker.name, s.worker.obj)
  }

  /** A step in which no call fails, though an update may be refused; the watches go first. */
  predicate Prompt(s: State, a: Action) {
    && Enabled(s, a)
    && (a.DeliverApprover? || a.DeliverHeadscale? || a.Pop? || (a.Work? && a.call.Succeeds?))
    && (s.log != [] || s.headLog != [] ==> a.DeliverApprover? || a.DeliverHeadscale?)
  }

  /** Every base the controller has seen or will see parses. */
  ghost predicate AllParse(s: State) {
    && (forall h | h in s.headCache :: Parses(s.headCache[h].acl))
    && (forall e | e in s.headLog && e.Put? :: Parses(e.obj.acl))
    && (s.worker.Listing? || s.worker.Pushing? ==> Parses(s.worker.acl))
  }

  /** An outdated object first, then deletions in progress, then the work that is left. */
  predicate Sooner(t: State, s: State) {
    (IsOutdated(s) && !IsOutdated(t)) || ((IsOutdated(t) ==> IsOutdated(s)) && Lower(t, s))
  }

  lemma CaughtUp(s: State)
    requires LogInv(s) && s.log == []
    ensures s.cache == s.server
  {
  }

  /** With everything delivered, what the worker reads is what the API server has. */
  lemma NothingGetsOutdated(s: State, a: Action)
    requires LogInv(s) && WorkerInv(s) && Prompt(s, a) && !IsOutdated(s)
    ensures !IsOutdated(Apply(s, a))
  {
    if a.Work? && s.worker.Started? {
      CaughtUp(s);
    }
  }

  lemma RefusalEndsWork(s: State, a: Action)
    requires LogInv(s) && WorkerInv(s) && Prompt(s, a) && AllParse(s) && !Smooth(s, a)
    ensures IsOutdated(s) && !IsOutdated(Apply(s, a))
  {
    if s.worker.Pushing? {
      ParsedRenders(s.worker.acl, s.worker.live);
    }
  }

  lemma DeliveryKeepsParsing(s: State)
    requires AllParse(s) && s.headLog != []
    ensures AllParse(DeliverFirstHead(s))
  {
    assert s.headLog[0] in s.headLog && forall e | e in s.headLog[1..] :: e in s.headLog;
  }

  /** The worker changes no Headscale, and what it reads of one is in the cache. */
  ghost predicate LeavesHeads(s: State, t: State) {
    && t.headCache == s.headCache && t.headLog == s.headLog
    && (t.worker.Listing? ==> exists h :: h in s.headCache && t.worker.acl == s.headCache[h].acl)
    && (t.worker.Pushing? ==> s.worker.Listing? && t.worker.acl == s.worker.acl)
  }

  lemma GetLeavesHeads(s: State, n: Name)
    ensures LeavesHeads(s, Get(s, n, Succeeds))
  {
  }

  lemma FetchLeavesHeads(s: State, n: Name, o: Approver)
    ensures LeavesHeads(s, Fetch(s, n, o, Succeeds))
  {
  }

  lemma ListLeavesHeads(s: State, n: Name, o: Approver)
    requires s.worker.Listing?
    ensures LeavesHeads(s, ListLive(s, n, o, s.worker.acl, Succeeds))
  {
    hide Live;
  }

  lemma PushLeavesHeads(s: State, n: Name, o: Approver, acl: AclPolicy, live: map<Name, ApproverSpec>)
    ensures LeavesHeads(s, Push(s, n, o, acl, live, Succeeds))
  {
    hide Render, Fresh;
  }

  lemma FinalizerLeavesHeads(s: State, n: Name, o: Approver)
    ensures LeavesHeads(s, EnsureFinalizer(s, n, o, Succeeds))
  {
    hide Accepts;
  }

  lemma ReportLeavesHeads(s: State, n: Name, failed: bool, changed: bool)
    ensures LeavesHeads(s, Report(s, n, failed, Succeeds, changed))
  {
  }

  lemma ReleaseLeavesHeads(s: State, n: Name, o: Approver)
    ensures LeavesHeads(s, Release(s, n, o, Succeeds))
  {
    hide Accepts;
  }

  lemma WorkKeepsParsing(s: State, changed: bool)
    requires AllParse(s) && !s.worker.Idle?
    ensures AllParse(Reconcile(s, Succeeds, changed)) && Reconcile(s, Succeeds, changed).headLog == s.headLog
  {
    hide Parses, Get, EnsureFinalizer, Fetch, ListLive, Push, Report, Release;
    match s.worker {
      case Started(n) => GetLeavesHeads(s, n);
      case Finalizing(n, o) => FinalizerLeavesHeads(s, n, o);
      case Fetching(n, o) => FetchLeavesHeads(s, n, o);
      case Listing(n, o, _) => ListLeavesHeads(s, n, o);
      case Pushing(n, o, acl, live) => PushLeavesHeads(s, n, o, acl, live);
      case Reporting(n, o, failed) => ReportLeavesHeads(s, n, failed, changed);
      case Releasing(n, o) => ReleaseLeavesHeads(s, n, o);
    }
  }

  lemma SteadyKeepsParsing(s: State, a: Action)
    requires Steady(s, a) && AllParse(s)
    ensures AllParse(Apply(s, a))
  {
    match a {
      case DeliverApprover =>
      case DeliverHeadscale => DeliveryKeepsParsing(s);
      case Pop(_) =>
      case Work(_, changed) => WorkKeepsParsing(s, changed);
    }
  }

  lemma PromptStepComesSooner(s: State, a: Action)
    requires Inv(s) && Prompt(s, a) && AllParse(s)
    ensures Inv(Apply(s, a)) && AllParse(Apply(s, a)) && Sooner(Apply(s, a), s)
  {
    StepKeepsInv(s, a);
    SteadyKeepsParsing(s, a);
    if Smooth(s, a) {
      SmoothStepLowers(s, a);
      if !IsOutdated(s) {
        NothingGetsOutdated(s, a);
      }
    } else {
      RefusalEndsWork(s, a);
    }
  }

  ghost predicate GoesOnPromptly(states: nat -> State, actions: nat -> Action) {
    forall j: nat | Prompt(states(j), actions(j)) :: states(j + 1) == Apply(states(j), actions(j))
  }

  ghost predicate EndsPromptly(states: nat -> State, actions: nat -> Action, i: nat) {
    exists j: nat :: j >= i && !Prompt(states(j), actions(j))
  }

  /** Refused updates and their retries included, no sequence of prompt steps goes on forever. */
  lemma {:induction false} DrainingEnds(states: nat -> State, actions: nat -> Action, i: nat)
    requires Inv(states(i)) && AllParse(states(i)) && GoesOnPromptly(states, actions)
    ensures EndsPromptly(states, actions, i)
    decreases if IsOutdated(states(i)) then 1 else 0, |Terminating(states(i))|, Load(states(i))
  {
    if Prompt(states(i), actions(i)) {
      PromptStepComesSooner(states(i), actions(i));
      assert states(i + 1) == Apply(states(i), actions(i));
      DrainingEnds(states, actions, i + 1);
    }
  }

  /** And where no prompt step is left, everything is drained. */
  lemma PromptUntilDrained(s: State)
    requires forall a :: !Prompt(s, a)
    ensures Drained(s)
  {
    assert !Prompt(s, DeliverApprover) && !Prompt(s, DeliverHeadscale);
    assert !Prompt(s, Work(Succeeds, false));
    if s.worker.Idle? && s.queue != {} {
      var n :| n in s.queue;
      assert Prompt(s, Pop(n));
    }
  }

  // ---------- Any fair schedule ----------

  /** A step in which no call fails, in whatever order watches and worker move. */
  predicate Steady(s: State, a: Action) {
    Enabled(s, a) && (a.DeliverApprover? || a.DeliverHeadscale? || a.Pop? || (a.Work? && a.call.Succeeds?))
  }

  function Unfinalized(s: State): set<Name> {
    set n | n in s.server && !s.server[n].finalizer
  }

  /** What is taken up counts like what is queued until its reconcile ends, and a retry to come like a failure. */
  function Taken(w: Worker): nat {
    if w.Idle? then 0 else if w.Reporting? && w.failed then PER_NAME + 2 else PER_NAME
  }

  /** What is left to do, with retries free of charge. */
  function Standing(s: State): nat {
    HeadCost(|s.headLog|, |Names(s)|) + LogCost(s.cache, s.log) + PER_NAME * |s.queue| + Taken(s.worker)
    + 2 * |Unfinalized(s)|
  }

  predicate NoHigher(t: State, s: State) {
    |Terminating(t)| < |Terminating(s)| || (|Terminating(t)| == |Terminating(s)| && Standing(t) <= Standing(s))
  }

  predicate Below(t: State, s: State) {
    |Terminating(t)| < |Terminating(s)| || (|Terminating(t)| == |Terminating(s)| && Standing(t) < Standing(s))
  }

  /** A delivery lowers what is left. */
  lemma DeliveryGoesBelow(s: State, a: Action)
    requires Enabled(s, a) && (a.DeliverApprover? || a.DeliverHeadscale?)
    ensures Below(Apply(s, a), s)
  {
    if a.DeliverApprover? {
      DeliverLowers(s);
    } else {
      DeliverHeadLowers(s);
    }
    SameUnfinalized(s, Apply(s, a));
  }

  lemma SameUnfinalized(s: State, t: State)
    requires t.server == s.server
    ensures Terminating(t) == Terminating(s) && Unfinalized(t) == Unfinalized(s)
  {
  }

  lemma SameStoreNoHigher(s: State, t: State)
    requires t.server == s.server && t.cache == s.cache && t.log == s.log && t.headLog == s.headLog
    requires PER_NAME * |t.queue| + Taken(t.worker) <= PER_NAME * |s.queue| + Taken(s.worker)
    ensures NoHigher(t, s)
  {
    SameStore(s, t);
    SameUnfinalized(s, t);
  }

  lemma RequeueNoHigher(s: State, n: Name)
    requires !s.worker.Idle?
    ensures NoHigher(Requeue(s, n), s)
  {
    UnionSize(s.queue, {n});
    SameStoreNoHigher(s, Requeue(s, n));
  }

  /** A write that the filter drops is paid for by the end of a reconcile or by the finalizer it sets. */
  lemma FilteredWriteBelow(s: State, n: Name, o: Approver, t: State)
    requires Replay(s.cache, s.log) == s.server && n in s.server
    requires o.generation == s.server[n].generation && o.deleting == s.server[n].deleting
    requires var u := Write(s, n, o); t.server == u.server && t.log == u.log
    requires t.cache == s.cache && t.headLog == s.headLog
    requires PER_NAME * |t.queue| + Taken(t.worker) + 2 * |Unfinalized(t)| + 1
      < PER_NAME * |s.queue| + Taken(s.worker) + 2 * |Unfinalized(s)|
    ensures Below(t, s)
  {
    FilteredWrite(s, n, o);
    SameStore(t, Write(s, n, o));
  }

  lemma GrantBelow(s: State)
    requires s.worker.Finalizing? && !s.worker.obj.finalizer && Replay(s.cache, s.log) == s.server
    requires var n, o := s.worker.name, s.worker.obj; n in s.server && s.server[n] == o
    ensures Below(EnsureFinalizer(s, s.worker.name, s.worker.obj, Succeeds), s)
  {
    var n, o := s.worker.name, s.worker.obj;
    var t := EnsureFinalizer(s, n, o, Succeeds);
    assert Unfinalized(s) == Unfinalized(t) + {n} && n !in Unfinalized(t);
    FilteredWriteBelow(s, n, o.(finalizer := true), t);
  }

  lemma FinalizerNoHigher(s: State)
    requires s.worker.Finalizing? && Replay(s.cache, s.log) == s.server
    requires var n, o := s.worker.name, s.worker.obj; Accepts(s, n, o) ==> s.server[n] == o
    ensures NoHigher(EnsureFinalizer(s, s.worker.name, s.worker.obj, Succeeds), s)
    ensures EnsureFinalizer(s, s.worker.name, s.worker.obj, Succeeds).log != s.log ==>
      Below(EnsureFinalizer(s, s.worker.name, s.worker.obj, Succeeds), s)
  {
    var n, o := s.worker.name, s.worker.obj;
    if o.finalizer {
      SameStoreNoHigher(s, EnsureFinalizer(s, n, o, Succeeds));
    } else if Accepts(s, n, o) {
      GrantBelow(s);
    } else {
      RequeueNoHigher(s, n);
    }
  }

  lemma ReportNoHigher(s: State, changed: bool)
    requires s.worker.Reporting? && Replay(s.cache, s.log) == s.server
    ensures NoHigher(Report(s, s.worker.name, s.worker.failed, Succeeds, changed), s)
    ensures Report(s, s.worker.name, s.worker.failed, Succeeds, changed).log != s.log ==>
      Below(Report(s, s.worker.name, s.worker.failed, Succeeds, changed), s)
  {
    hide Terminating;
    var n := s.worker.name;
    var t := Report(s, n, s.worker.failed, Succeeds, changed);
    hide NoHigher, Below, LogCost, HeadCost;
    UnionSize(s.queue, {n});
    if changed && n in s.server {
      assert Unfinalized(t) == Unfinalized(s);
      FilteredWriteBelow(s, n, s.server[n], t);
      BelowIsNoHigher(s, t);
    } else {
      SameStoreNoHigher(s, t);
    }
  }

  lemma ReleaseNoHigher(s: State)
    requires s.worker.Releasing? && s.worker.obj.deleting
    requires Accepts(s, s.worker.name, s.worker.obj) ==> s.server[s.worker.name] == s.worker.obj
    ensures NoHigher(Release(s, s.worker.name, s.worker.obj, Succeeds), s)
    ensures Release(s, s.worker.name, s.worker.obj, Succeeds).log != s.log ==>
      Below(Release(s, s.worker.name, s.worker.obj, Succeeds), s)
  {
    var n := s.worker.name;
    if Accepts(s, n, s.worker.obj) {
      var t := Release(s, n, s.worker.obj, Succeeds);
      assert Terminating(s) == Terminating(t) + {n} && n !in Terminating(t);
    } else {
      RequeueNoHigher(s, n);
    }
  }

  /** The steps that read, and the push, write no approver. */
  lemma GetNoHigher(s: State)
    requires s.worker.Started?
    ensures var t := Get(s, s.worker.name, Succeeds); NoHigher(t, s) && t.log == s.log
  {
    hide NoHigher;
    SameStoreNoHigher(s, Get(s, s.worker.name, Succeeds));
  }

  lemma FetchNoHigher(s: State)
    requires s.worker.Fetching?
    ensures var t := Fetch(s, s.worker.name, s.worker.obj, Succeeds); NoHigher(t, s) && t.log == s.log
  {
    hide NoHigher;
    SameStoreNoHigher(s, Fetch(s, s.worker.name, s.worker.obj, Succeeds));
  }

  lemma ListNoHigher(s: State)
    requires s.worker.Listing?
    ensures var t := ListLive(s, s.worker.name, s.worker.obj, s.worker.acl, Succeeds); NoHigher(t, s) && t.log == s.log
  {
    hide NoHigher, Live;
    SameStoreNoHigher(s, ListLive(s, s.worker.name, s.worker.obj, s.worker.acl, Succeeds));
  }

  lemma PushNoHigher(s: State)
    requires s.worker.Pushing? && Parses(s.worker.acl)
    ensures var t := Push(s, s.worker.name, s.worker.obj, s.worker.acl, s.worker.live, Succeeds);
      NoHigher(t, s) && t.log == s.log
  {
    hide NoHigher, Live, Render, Fresh, Parses;
    ParsedRenders(s.worker.acl, s.worker.live);
    SameStoreNoHigher(s, Push(s, s.worker.name, s.worker.obj, s.worker.acl, s.worker.live, Succeeds));
  }

  lemma WorkNoHigher(s: State, changed: bool)
    requires LogInv(s) && WorkerInv(s) && AllParse(s) && !s.worker.Idle?
    ensures NoHigher(Reconcile(s, Succeeds, changed), s)
    ensures Reconcile(s, Succeeds, changed).log != s.log ==> Below(Reconcile(s, Succeeds, changed), s)
  {
    hide NoHigher, Below, Get, EnsureFinalizer, Fetch, ListLive, Push, Report, Release;
    assert Busy(s.worker) && Accepts(s, s.worker.name, s.worker.obj) ==> s.server[s.worker.name] == s.worker.obj;
    match s.worker {
      case Finalizing(_, _) => FinalizerNoHigher(s);
      case Reporting(_, _, _) => ReportNoHigher(s, changed);
      case Releasing(_, _) => ReleaseNoHigher(s);
      case Started(_) => GetNoHigher(s);
      case Fetching(_, _) => FetchNoHigher(s);
      case Listing(_, _, _) => ListNoHigher(s);
      case Pushing(_, _, _, _) => PushNoHigher(s);
    }
  }

  lemma PopNoHigher(s: State, n: Name)
    requires Enabled(s, Pop(n))
    ensures NoHigher(Apply(s, Pop(n)), s)
  {
    assert |Apply(s, Pop(n)).queue| == |s.queue| - 1;
    SameStoreNoHigher(s, Apply(s, Pop(n)));
  }

  lemma BelowIsNoHigher(s: State, t: State)
    requires Below(t, s)
    ensures NoHigher(t, s)
  {
  }

  /** No step without failure raises what is left, and one after which more is undelivered lowers it. */
  lemma SteadyStepNoHigher(s: State, a: Action)
    requires Inv(s) && Steady(s, a) && AllParse(s)
    ensures Inv(Apply(s, a)) && AllParse(Apply(s, a)) && NoHigher(Apply(s, a), s)
    ensures IsDelivered(s) && !IsDelivered(Apply(s, a)) ==> Below(Apply(s, a), s)
  {
    hide Good, LogInv, WorkerInv, AllParse, Standing, Terminating, NoHigher, Below, Reconcile;
    StepKeepsInv(s, a);
    SteadyKeepsParsing(s, a);
    if Delivers(a) {
      DeliveryGoesBelow(s, a);
      BelowIsNoHigher(s, Apply(s, a));
    } else if a.Pop? {
      PopNoHigher(s, a.name);
    } else {
      WorkKeepsParsing(s, a.changed);
      WorkNoHigher(s, a.changed);
    }
  }

  predicate IsDelivered(s: State) {
    s.log == [] && s.headLog == []
  }

  ghost predicate GoesOn(states: nat -> State, actions: nat -> Action) {
    forall j: nat | Steady(states(j), actions(j)) :: states(j + 1) == Apply(states(j), actions(j))
  }

  ghost predicate Ends(states: nat -> State, actions: nat -> Action, i: nat) {
    exists j: nat :: j >= i && !Steady(states(j), actions(j))
  }

  predicate Delivers(a: Action) {
    a.DeliverApprover? || a.DeliverHeadscale?
  }

  /** Whenever events are pending, some delivery happens at some time. */
  ghost predicate IsFair(states: nat -> State, actions: nat -> Action) {
    forall i: nat | !IsDelivered(states(i)) :: exists j: nat :: j >= i && Delivers(actions(j))
  }

  lemma {:induction false} StaysNoHigher(states: nat -> State, actions: nat -> Action, i: nat, j: nat)
    requires i <= j && Inv(states(i)) && AllParse(states(i)) && GoesOn(states, actions) && !Ends(states, actions, i)
    ensures Inv(states(j)) && AllParse(states(j)) && NoHigher(states(j), states(i))
    decreases j
  {
    hide Inv, AllParse, Standing, Terminating, Apply;
    if i < j {
      StaysNoHigher(states, actions, i, j - 1);
      assert Steady(states(j - 1), actions(j - 1));
      assert states(j - 1 + 1) == Apply(states(j - 1), actions(j - 1));
      SteadyStepNoHigher(states(j - 1), actions(j - 1));
    }
  }

  /**
   Refused updates and their retries included, and in whatever order watches and worker move: if pending events are
   delivered at some time, no sequence of steps without failure goes on forever.
   */
  lemma {:induction false} FairDrainingEnds(states: nat -> State, actions: nat -> Action, i: nat)
    requires Inv(states(i)) && AllParse(states(i)) && GoesOn(states, actions) && IsFair(states, actions)
    ensures Ends(states, actions, i)
    decreases |Terminating(states(i))|, Standing(states(i)), if IsOutdated(states(i)) then 1 else 0, Load(states(i))
  {
    hide Inv, AllParse, Standing, Terminating, Load, IsOutdated, Enabled, Apply;
    if !Ends(states, actions, i) {
      if IsDelivered(states(i)) {
        var s, a := states(i), actions(i);
        assert Steady(s, a) && states(i + 1) == Apply(s, a);
        SteadyStepNoHigher(s, a);
        if IsDelivered(states(i + 1)) {
          PromptStepComesSooner(s, a);
        }
        FairDrainingEnds(states, actions, i + 1);
      } else {
        var j: nat :| j >= i && Delivers(actions(j));
        StaysNoHigher(states, actions, i, j);
        assert Steady(states(j), actions(j)) && states(j + 1) == Apply(states(j), actions(j));
        DeliveryGoesBelow(states(j), actions(j));
        SteadyStepNoHigher(states(j), actions(j));
        FairDrainingEnds(states, actions, j + 1);
      }
    }
  }

  ghost predicate PromptRun(s: State, run: seq<Action>)
    decreases |run|
  {
    run != [] ==> Prompt(s, run[0]) && PromptRun(Apply(s, run[0]), run[1..])
  }

  /** So from every state of every run whose bases parse, prompt steps lead to a drained one. */
  lemma {:induction false} Drains(s: State) returns (run: seq<Action>)
    requires Inv(s) && AllParse(s)
    ensures PromptRun(s, run) && After(s, run).Some? && Drained(After(s, run).value)
    decreases if IsOutdated(s) then 1 else 0, |Terminating(s)|, Load(s)
  {
    if a :| Prompt(s, a) {
      PromptStepComesSooner(s, a);
      var rest := Drains(Apply(s, a));
      run := [a] + rest;
      assert run[1..] == rest;
    } else {
      PromptUntilDrained(s);
      run := [];
    }
  }
}
