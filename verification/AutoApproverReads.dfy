/** Where active policies come from: every one was read off the caches, of a Headscale in database mode. */
module AutoApproverReads {
  import opened Wrappers
  import opened Policy
  import opened AutoApprover
  import opened AutoApproverSafety

  /** A run up to its `i`-th action. */
  ghost predicate Comes(run: seq<Action>, i: nat, s: State) {
    i <= |run| && After(INITIAL, run[..i]) == Some(s)
  }

  lemma {:induction false} LastAction(s: State, run: seq<Action>)
    requires run != [] && After(s, run).Some?
    ensures var before := After(s, run[..|run| - 1]);
      && before.Some? && Enabled(before.value, run[|run| - 1])
      && After(s, run).value == Apply(before.value, run[|run| - 1])
    decreases |run|
  {
    if |run| == 1 {
      assert run[..0] == [] && run[1..] == [];
    } else {
      LastAction(Apply(s, run[0]), run[1..]);
      assert run[1..][..|run| - 2] == run[..|run| - 1][1..];
    }
  }

  /** The state before an action of a run, and what the action makes of it. */
  lemma StepOf(run: seq<Action>, i: nat, t: State) returns (s: State)
    requires Comes(run, i, t) && i > 0
    ensures Comes(run, i - 1, s) && Enabled(s, run[i - 1]) && t == Apply(s, run[i - 1])
  {
    LastAction(INITIAL, run[..i]);
    assert run[..i][..i - 1] == run[..i - 1];
    s := After(INITIAL, run[..i - 1]).value;
  }

  /** Before action `j` the worker is about to read `h`, and its cache has `h` in database mode with this base. */
  ghost predicate ReadsBase(run: seq<Action>, j: nat, n: Name, h: Name, acl: AclPolicy) {
    exists s :: Comes(run, j, s) && s.worker.Fetching? && s.worker.name == n && s.worker.obj.ref == h
      && h in s.headCache && s.headCache[h].policyMode.Database? && s.headCache[h].acl == acl
  }

  /** Before action `k` the worker is about to list, and these are the approvers of `h` in its cache not being deleted. */
  ghost predicate ReadsLive(run: seq<Action>, k: nat, n: Name, h: Name, live: map<Name, ApproverSpec>) {
    exists s :: Comes(run, k, s) && s.worker.Listing? && s.worker.name == n && s.worker.obj.ref == h
      && (forall m :: m in live <==> m in s.cache && s.cache[m].ref == h && !s.cache[m].deleting)
      && (forall m | m in live :: live[m] == s.cache[m].spec)
  }

  /** From action `j` up to action `i` the worker is in the one reconcile of `n`, for `h`, and has not pushed yet. */
  ghost predicate Holds(run: seq<Action>, j: nat, i: nat, n: Name, h: Name) {
    forall m, s | j < m <= i && Comes(run, m, s) :: HoldsSnapshot(s.worker, h) && s.worker.name == n
  }

  /** A step other than the worker's own leaves a snapshot alone, or ends its process. */
  lemma SnapshotStays(s: State, a: Action, h: Name)
    requires Enabled(s, a) && HoldsSnapshot(Apply(s, a).worker, h)
    ensures a.Work? || Apply(s, a).worker == s.worker
  {
  }

  /** Only reading the Headscale leads to listing, and only listing to pushing; other steps write no policy either. */
  predicate Passing(s: State, t: State) {
    !t.worker.Listing? && !t.worker.Pushing? && t.active == s.active && t.headCache == s.headCache
    && t.heads == s.heads && t.headLog == s.headLog
  }

  lemma GetPasses(s: State, n: Name, call: Call)
    ensures Passing(s, Get(s, n, call))
  {
  }

  lemma FinalizerPasses(s: State, n: Name, o: Approver, call: Call)
    ensures Passing(s, EnsureFinalizer(s, n, o, call))
  {
  }

  lemma ReportPasses(s: State, n: Name, failed: bool, call: Call, changed: bool)
    requires s.worker.Reporting?
    ensures Passing(s, Report(s, n, failed, call, changed))
  {
  }

  lemma ReleasePasses(s: State, n: Name, o: Approver, call: Call)
    ensures Passing(s, Release(s, n, o, call))
  {
  }

  lemma WorkPasses(s: State, call: Call, changed: bool)
    requires !s.worker.Fetching? && !s.worker.Listing? && !s.worker.Pushing?
    ensures Passing(s, Reconcile(s, call, changed))
  {
    hide Get, EnsureFinalizer, Fetch, ListLive, Push, Report, Release;
    match s.worker {
      case Idle =>
      case Started(n) => GetPasses(s, n, call);
      case Finalizing(n, o) => FinalizerPasses(s, n, o, call);
      case Reporting(n, _, failed) => ReportPasses(s, n, failed, call, changed);
      case Releasing(n, o) => ReleasePasses(s, n, o, call);
    }
  }

  lemma ReadingTheBase(s: State, call: Call)
    requires s.worker.Fetching?
    ensures var t, o := Fetch(s, s.worker.name, s.worker.obj, call), s.worker.obj;
      && t == s.(worker := t.worker, queue := t.queue, unaccounted := t.unaccounted)
      && !t.worker.Pushing?
      && (t.worker.Listing? ==>
            && t.worker.name == s.worker.name && t.worker.obj == o
            && o.ref in s.headCache && s.headCache[o.ref].policyMode.Database? && s.headCache[o.ref].acl == t.worker.acl)
  {
  }

  lemma ReadingTheLive(s: State, call: Call)
    requires s.worker.Listing?
    ensures var w := s.worker;
      var t := ListLive(s, w.name, w.obj, w.acl, call);
      && t == s.(worker := t.worker, unaccounted := t.unaccounted)
      && (t.worker.Listing? || t.worker.Pushing? ==> t.worker == Pushing(w.name, w.obj, w.acl, Live(s.cache, w.obj.ref)))
  {
    hide Live;
  }

  lemma Setting(s: State, call: Call)
    requires s.worker.Pushing?
    ensures var w := s.worker;
      var t := Push(s, w.name, w.obj, w.acl, w.live, call);
      && t == s.(worker := t.worker, active := t.active, unaccounted := t.unaccounted)
      && !t.worker.Listing? && !t.worker.Pushing?
      && (t.active == s.active ||
           (Render(w.acl, w.live).Ok? && t.active == s.active[w.obj.ref := Render(w.acl, w.live).value]))
  {
    hide Render, Live, Fresh;
  }

  lemma ListingComesFrom(s: State, call: Call, changed: bool)
    requires Reconcile(s, call, changed).worker.Listing?
    ensures var t := Reconcile(s, call, changed);
      && s.worker.Fetching? && t.worker.name == s.worker.name && t.worker.obj == s.worker.obj
      && t.worker.obj.ref in s.headCache && s.headCache[t.worker.obj.ref].policyMode.Database?
      && s.headCache[t.worker.obj.ref].acl == t.worker.acl
  {
    hide Get, EnsureFinalizer, Fetch, ListLive, Push, Report, Release;
    match s.worker {
      case Fetching(_, _) => ReadingTheBase(s, call);
      case Listing(_, _, _) => ReadingTheLive(s, call);
      case Pushing(_, _, _, _) => Setting(s, call);
      case _ => WorkPasses(s, call, changed);
    }
  }

  lemma PushingComesFrom(s: State, call: Call, changed: bool)
    requires Reconcile(s, call, changed).worker.Pushing?
    ensures var t := Reconcile(s, call, changed);
      && s.worker.Listing? && t.worker.name == s.worker.name && t.worker.obj == s.worker.obj && t.worker.acl == s.worker.acl
      && t.worker.live == Live(s.cache, s.worker.obj.ref)
  {
    hide Get, EnsureFinalizer, Fetch, ListLive, Push, Report, Release, Live;
    match s.worker {
      case Fetching(_, _) => ReadingTheBase(s, call);
      case Listing(_, _, _) => ReadingTheLive(s, call);
      case Pushing(_, _, _, _) => Setting(s, call);
      case _ => WorkPasses(s, call, changed);
    }
  }

  lemma HoldsOn(run: seq<Action>, j: nat, i: nat, n: Name, h: Name, t: State)
    requires Comes(run, i, t) && i > 0 && HoldsSnapshot(t.worker, h) && t.worker.name == n
    requires Holds(run, j, i - 1, n, h) || j == i - 1
    ensures Holds(run, j, i, n, h)
  {
  }

  /** A base in the worker's hands was read, in database mode, earlier in the same reconcile. */
  lemma {:induction false} BaseWasRead(run: seq<Action>, i: nat, t: State) returns (j: nat)
    requires Comes(run, i, t) && t.worker.Listing?
    ensures j < i && ReadsBase(run, j, t.worker.name, t.worker.obj.ref, t.worker.acl)
    ensures Holds(run, j, i, t.worker.name, t.worker.obj.ref)
    decreases i
  {
    hide Reconcile, Live, DeliverFirst, DeliverFirstHead;
    var w := t.worker;
    var s := StepOf(run, i, t);
    SnapshotStays(s, run[i - 1], w.obj.ref);
    if s.worker == w {
      j := BaseWasRead(run, i - 1, s);
    } else {
      ListingComesFrom(s, run[i - 1].call, run[i - 1].changed);
      j := i - 1;
    }
    HoldsOn(run, j, i, w.name, w.obj.ref, t);
  }

  /** And a list of approvers was taken from the cache between then and now. */
  lemma {:induction false} LiveWasRead(run: seq<Action>, i: nat, t: State) returns (j: nat, k: nat)
    requires Comes(run, i, t) && t.worker.Pushing?
    ensures j < k < i && ReadsBase(run, j, t.worker.name, t.worker.obj.ref, t.worker.acl)
    ensures ReadsLive(run, k, t.worker.name, t.worker.obj.ref, t.worker.live)
    ensures Holds(run, j, i, t.worker.name, t.worker.obj.ref)
    decreases i
  {
    hide Reconcile, DeliverFirst, DeliverFirstHead;
    var w := t.worker;
    var s := StepOf(run, i, t);
    SnapshotStays(s, run[i - 1], w.obj.ref);
    if s.worker == w {
      j, k := LiveWasRead(run, i - 1, s);
    } else {
      PushingComesFrom(s, run[i - 1].call, run[i - 1].changed);
      j := BaseWasRead(run, i - 1, s);
      k := i - 1;
    }
    HoldsOn(run, j, i, w.name, w.obj.ref, t);
  }

  /** The active policy of `h` is another one, or the first, or gone. */
  predicate Changes(s: State, t: State, h: Name) {
    (h in s.active) != (h in t.active) || (h in s.active && s.active[h] != t.active[h])
  }

  lemma WorkSets(s: State, call: Call, changed: bool)
    ensures var t, w := Reconcile(s, call, changed), s.worker;
      t.active == s.active ||
        (w.Pushing? && Render(w.acl, w.live).Ok? && t.active == s.active[w.obj.ref := Render(w.acl, w.live).value])
  {
    hide Get, EnsureFinalizer, Fetch, ListLive, Push, Report, Release, Live, Render;
    match s.worker {
      case Fetching(_, _) => ReadingTheBase(s, call);
      case Listing(_, _, _) => ReadingTheLive(s, call);
      case Pushing(_, _, _, _) => Setting(s, call);
      case _ => WorkPasses(s, call, changed);
    }
  }

  lemma OnlyPushesChange(s: State, a: Action, h: Name)
    requires Enabled(s, a) && Changes(s, Apply(s, a), h)
    ensures var w := s.worker;
      && a.Work? && w.Pushing? && w.obj.ref == h
      && h in Apply(s, a).active && Render(w.acl, w.live) == Ok(Apply(s, a).active[h])
  {
    hide Reconcile, Live, Render;
    if a.Work? {
      WorkSets(s, a.call, a.changed);
    }
  }

  /**
   Over every run, each change of an active policy is a push of what the same reconcile read: at one moment the base
   of a Headscale in database mode, at a later one the approvers that target it and are not being deleted.
   */
  lemma EveryPolicyWasRead(run: seq<Action>, i: nat, h: Name, s: State, t: State)
    returns (j: nat, k: nat, n: Name, acl: AclPolicy, live: map<Name, ApproverSpec>)
    requires i < |run| && Comes(run, i, s) && Comes(run, i + 1, t) && Changes(s, t, h)
    ensures j < k < i && ReadsBase(run, j, n, h, acl) && ReadsLive(run, k, n, h, live) && Holds(run, j, i, n, h)
    ensures h in t.active && PolicyDocument(Some(acl), InNameOrder(live)) == Ok(t.active[h])
  {
    var s' := StepOf(run, i + 1, t);
    OnlyPushesChange(s, run[i], h);
    n, acl, live := s.worker.name, s.worker.acl, s.worker.live;
    j, k := LiveWasRead(run, i, s);
  }

  // ---------- Headscales in other modes ----------

  /** The user never puts `h` in database mode. */
  predicate NeverDatabase(run: seq<Action>, h: Name) {
    forall a | a in run && a.PutHeadscale? && a.head == h :: a.policyMode.Other?
  }

  /** Nobody has seen `h` in database mode, and nothing was pushed to it. */
  predicate Unpushed(s: State, h: Name) {
    && (h in s.heads ==> s.heads[h].policyMode.Other?)
    && (h in s.headCache ==> s.headCache[h].policyMode.Other?)
    && (forall e | e in s.headLog && e.Put? && e.name == h :: e.obj.policyMode.Other?)
    && !HoldsSnapshot(s.worker, h)
    && h !in s.active
  }

  lemma UserKeepsUnpushed(s: State, a: Action, h: Name)
    requires Enabled(s, a) && Unpushed(s, h) && IsUser(a) && NeverDatabase([a], h)
    ensures Unpushed(Apply(s, a), h)
  {
    assert a in [a];
  }

  lemma UnpushedStays(s: State, t: State, h: Name)
    requires Unpushed(s, h) && t.heads == s.heads && t.headCache == s.headCache && t.headLog == s.headLog
    requires !HoldsSnapshot(t.worker, h) && h !in t.active
    ensures Unpushed(t, h)
  {
  }

  lemma UnpushedSays(s: State, h: Name)
    requires Unpushed(s, h)
    ensures !HoldsSnapshot(s.worker, h) && h !in s.active && (h in s.headCache ==> !s.headCache[h].policyMode.Database?)
  {
  }

  lemma FetchKeepsUnpushed(s: State, call: Call, h: Name)
    requires Unpushed(s, h) && s.worker.Fetching?
    ensures Unpushed(Fetch(s, s.worker.name, s.worker.obj, call), h)
  {
    hide Unpushed, Fetch;
    UnpushedSays(s, h);
    ReadingTheBase(s, call);
    UnpushedStays(s, Fetch(s, s.worker.name, s.worker.obj, call), h);
  }

  lemma ListKeepsUnpushed(s: State, call: Call, h: Name)
    requires Unpushed(s, h) && s.worker.Listing?
    ensures Unpushed(ListLive(s, s.worker.name, s.worker.obj, s.worker.acl, call), h)
  {
    hide Unpushed, ListLive, Live;
    UnpushedSays(s, h);
    ReadingTheLive(s, call);
    UnpushedStays(s, ListLive(s, s.worker.name, s.worker.obj, s.worker.acl, call), h);
  }

  lemma PushKeepsUnpushed(s: State, call: Call, h: Name)
    requires Unpushed(s, h) && s.worker.Pushing?
    ensures Unpushed(Push(s, s.worker.name, s.worker.obj, s.worker.acl, s.worker.live, call), h)
  {
    hide Unpushed, Push, Render;
    UnpushedSays(s, h);
    Setting(s, call);
    UnpushedStays(s, Push(s, s.worker.name, s.worker.obj, s.worker.acl, s.worker.live, call), h);
  }

  lemma PassingKeepsUnpushed(s: State, t: State, h: Name)
    requires Unpushed(s, h) && Passing(s, t)
    ensures Unpushed(t, h)
  {
  }

  lemma WorkKeepsUnpushed(s: State, call: Call, changed: bool, h: Name)
    requires Unpushed(s, h)
    ensures Unpushed(Reconcile(s, call, changed), h)
  {
    hide Unpushed, Passing, Get, EnsureFinalizer, Fetch, ListLive, Push, Report, Release;
    match s.worker {
      case Fetching(_, _) => FetchKeepsUnpushed(s, call, h);
      case Listing(_, _, _) => ListKeepsUnpushed(s, call, h);
      case Pushing(_, _, _, _) => PushKeepsUnpushed(s, call, h);
      case _ =>
        WorkPasses(s, call, changed);
        PassingKeepsUnpushed(s, Reconcile(s, call, changed), h);
    }
  }

  lemma StepKeepsUnpushed(s: State, a: Action, h: Name)
    requires Enabled(s, a) && Unpushed(s, h) && NeverDatabase([a], h)
    ensures Unpushed(Apply(s, a), h)
  {
    hide Reconcile;
    match a {
      case Work(call, changed) => WorkKeepsUnpushed(s, call, changed, h);
      case DeliverHeadscale => assert s.headLog[0] in s.headLog && forall e | e in s.headLog[1..] :: e in s.headLog;
      case DeliverApprover =>
      case Pop(_) =>
      case Restart =>
      case _ => UserKeepsUnpushed(s, a, h);
    }
  }

  lemma {:induction false} RunKeepsUnpushed(s: State, run: seq<Action>, h: Name)
    requires After(s, run).Some? && Unpushed(s, h) && NeverDatabase(run, h)
    ensures Unpushed(After(s, run).value, h)
    decreases |run|
  {
    if run != [] {
      assert run[0] in run && forall a | a in run[1..] :: a in run;
      StepKeepsUnpushed(s, run[0], h);
      RunKeepsUnpushed(Apply(s, run[0]), run[1..], h);
    }
  }

  /** A Headscale that is never in database mode gets no policy, whatever its approvers ask for. */
  lemma OtherModesGetNoPolicy(run: seq<Action>, h: Name)
    requires After(INITIAL, run).Some? && NeverDatabase(run, h)
    ensures h !in After(INITIAL, run).value.active
  {
    RunKeepsUnpushed(INITIAL, run, h);
  }

  // ---------- What wakes the worker ----------

  /** Delivering an event of an approver queues it unless it is known and neither its generation nor its deletion is news. */
  lemma ApproverNewsIsQueued(s: State)
    requires s.log != []
    ensures var t, e := Apply(s, DeliverApprover), s.log[0];
      var isNews := e.Gone? || e.name !in s.cache
        || s.cache[e.name].generation != e.obj.generation || s.cache[e.name].deleting != e.obj.deleting;
      forall n :: n in t.queue <==> n in s.queue || (n == e.name && isNews)
  {
  }

  /** And an event of a Headscale, unless it is known and its generation is no news, queues every approver that targets it. */
  lemma HeadscaleNewsIsQueued(s: State)
    requires s.headLog != []
    ensures var t, e := Apply(s, DeliverHeadscale), s.headLog[0];
      var isNews := e.Gone? || e.name !in s.headCache || s.headCache[e.name].generation != e.obj.generation;
      forall n :: n in t.queue <==> n in s.queue || (n in s.cache && s.cache[n].ref == e.name && isNews)
  {
  }
}
