/**
 Deleting an approver before its finalizer is set: whatever the watches and the worker do afterwards, in whatever
 order and with whatever failures, its entries stay in the active policy.
 */
module AutoApproverDeletion {
  import opened Wrappers
  import opened Policy
  import opened AutoApprover
  import opened AutoApproverLog
  import opened AutoApproverSafety
  import opened AutoApproverTheorems

  /** A step of the watches or the worker, in which any call may fail. */
  predicate IsOwn(a: Action) {
    a.DeliverApprover? || a.DeliverHeadscale? || a.Pop? || a.Work?
  }

  /** An event that queues no approver of `h` but `n`. */
  predicate QueuesNone(c: map<Name, Approver>, e: Event<Approver>, h: Name, n: Name) {
    e.name != n ==>
      if e.name in c && c[e.name].ref == h then e.Put? && !Passes(c, e) else e.Put? ==> e.obj.ref != h
  }

  predicate LogQueuesNone(c: map<Name, Approver>, log: seq<Event<Approver>>, h: Name, n: Name)
    decreases |log|
  {
    log == [] || (QueuesNone(c, log[0], h, n) && LogQueuesNone(Observe(c, log[0]), log[1..], h, n))
  }

  /** Of the approvers of `h` only `n` is queued, taken up or announced, and `n` has no finalizer. */
  predicate OnlyNewsOf(s: State, h: Name, n: Name) {
    && (forall e | e in s.headLog :: e.name != h)
    && (forall m | m in s.queue && m in s.cache && s.cache[m].ref == h :: m == n)
    && (n in s.cache ==> s.cache[n].ref == h && !s.cache[n].finalizer && !s.cache[n].deleting)
    && (forall e | e in s.log && e.name == n && e.Put? :: e.obj.ref == h && !e.obj.finalizer && !e.obj.deleting)
    && LogQueuesNone(s.cache, s.log, h, n)
    && OnlyWorksOn(s, h, n)
  }

  predicate OnlyWorksOn(s: State, h: Name, n: Name) {
    var w := s.worker;
    && (!w.Idle? && w.name in s.cache && s.cache[w.name].ref == h ==> w.name == n)
    && (w.Finalizing? && (w.obj.ref == h || w.name == n) ==> w.name == n && !w.obj.finalizer)
    && (Busy(w) && !w.Finalizing? ==> w.obj.ref != h && w.name != n)
  }

  lemma {:induction false} LogQueuesNoneAppend(c: map<Name, Approver>, log: seq<Event<Approver>>, e: Event<Approver>,
      h: Name, n: Name)
    requires LogQueuesNone(c, log, h, n) && QueuesNone(Replay(c, log), e, h, n)
    ensures LogQueuesNone(c, log + [e], h, n)
    decreases |log|
  {
    if log == [] {
      assert (log + [e])[1..] == [];
    } else {
      LogQueuesNoneAppend(Observe(c, log[0]), log[1..], e, h, n);
      assert (log + [e])[1..] == log[1..] + [e];
    }
  }

  /** The deleted approver is gone, and nothing else about `h` has changed since `s`. */
  ghost predicate LeftBehind(s: State, t: State, h: Name, n: Name) {
    && n !in t.server && OnlyNewsOf(t, h, n)
    && Live(t.server, h) == Live(s.server, h) - {n}
    && h in s.heads && h in t.heads && t.heads[h] == s.heads[h]
    && h in s.active && h in t.active && t.active[h] == s.active[h]
  }

  lemma DeletionQueuesNone(s: State, n: Name, h: Name)
    requires LogInv(s) && n in s.server && LogQueuesNone(s.cache, s.log, h, n)
    ensures LogQueuesNone(s.cache, Remove(s, n).log, h, n) && Live(Remove(s, n).server, h) == Live(s.server, h) - {n}
  {
    LogQueuesNoneAppend(s.cache, s.log, Gone(n), h, n);
  }

  lemma DeletionLeavesBehind(s: State, n: Name, h: Name)
    requires LogInv(s) && n in s.server && IsLive(s, n, h) && !s.server[n].finalizer
    requires h in s.heads && h in s.active && OnlyNewsOf(s, h, n)
    ensures LeftBehind(s, Apply(s, DeleteApprover(n)), h, n)
  {
    hide LogInv, LogQueuesNone, Live;
    DeletionQueuesNone(s, n, h);
  }

  // ---------- One step ----------

  lemma DeliveryLeavesBehind(s: State, t: State, h: Name, n: Name)
    requires LeftBehind(s, t, h, n) && t.log != []
    ensures LeftBehind(s, DeliverFirst(t), h, n)
  {
    var e, u := t.log[0], DeliverFirst(t);
    assert e in t.log && forall x | x in u.log :: x in t.log;
    forall m | m in u.queue && m in u.cache && u.cache[m].ref == h ensures m == n {
    }
  }

  lemma HeadDeliveryLeavesBehind(s: State, t: State, h: Name, n: Name)
    requires LeftBehind(s, t, h, n) && t.headLog != []
    ensures LeftBehind(s, DeliverFirstHead(t), h, n)
  {
    var e := t.headLog[0];
    assert e in t.headLog && e.name != h;
  }

  /** A write of what the API server has, but for the finalizer, is no news. */
  predicate Rewrites(t: State, m: Name, o: Approver) {
    && m in t.server && o.ref == t.server[m].ref && o.spec == t.server[m].spec
    && o.deleting == t.server[m].deleting && o.generation == t.server[m].generation
  }

  lemma RewriteQueuesNone(t: State, m: Name, o: Approver, h: Name, n: Name)
    requires LogInv(t) && Rewrites(t, m, o) && m != n && LogQueuesNone(t.cache, t.log, h, n)
    ensures LogQueuesNone(t.cache, Write(t, m, o).log, h, n)
  {
    LogQueuesNoneAppend(t.cache, t.log, Put(m, o.(version := |t.history|)), h, n);
  }

  lemma RewriteLeavesLive(t: State, m: Name, o: Approver, h: Name)
    requires Rewrites(t, m, o)
    ensures Live(Write(t, m, o).server, h) == Live(t.server, h)
  {
  }

  lemma WriteLeavesBehind(s: State, t: State, m: Name, o: Approver, w: Worker, queue: set<Name>, h: Name, n: Name)
    requires LeftBehind(s, t, h, n) && LogInv(t) && Rewrites(t, m, o)
    requires OnlyWorksOn(t.(worker := w), h, n)
    requires forall x | x in queue && x in t.cache && t.cache[x].ref == h :: x == n
    ensures LeftBehind(s, Write(t, m, o).(worker := w, queue := queue), h, n)
  {
    hide LogInv, LogQueuesNone, Live;
    RewriteQueuesNone(t, m, o, h, n);
    RewriteLeavesLive(t, m, o, h);
  }

  /** An accepted object is the one on the API server. */
  lemma AcceptedIsServed(t: State, m: Name, o: Approver)
    requires LogInv(t) && Accepts(t, m, o) && Stored(t.history, o)
    ensures t.server[m] == o
  {
  }

  lemma WorkLeavesBehind(s: State, t: State, call: Call, changed: bool, h: Name, n: Name)
    requires LeftBehind(s, t, h, n) && LogInv(t) && !t.worker.Idle?
    ensures LeftBehind(s, Reconcile(t, call, changed), h, n)
  {
    hide LeftBehind, LogInv, Get, EnsureFinalizer, Fetch, ListLive, Push, Report, Release;
    match t.worker {
      case Started(_) => StartLeavesBehind(s, t, call, h, n);
      case Finalizing(_, _) => FinalizerLeavesBehind(s, t, call, h, n);
      case Fetching(_, _) => FetchLeavesBehind(s, t, call, h, n);
      case Listing(_, _, _) => ListLeavesBehind(s, t, call, h, n);
      case Pushing(_, _, _, _) => PushLeavesBehind(s, t, call, h, n);
      case Reporting(_, _, _) => ReportLeavesBehind(s, t, call, changed, h, n);
      case Releasing(_, _) => ReleaseLeavesBehind(s, t, call, h, n);
    }
  }

  /** The worker goes on without a write. */
  lemma MoveLeavesBehind(s: State, t: State, u: State, h: Name, n: Name)
    requires LeftBehind(s, t, h, n) && OnlyWorksOn(u, h, n) && h in u.active && u.active[h] == t.active[h]
    requires u == t.(queue := u.queue, worker := u.worker, active := u.active, unaccounted := u.unaccounted)
    requires forall m | m in u.queue && m in u.cache && u.cache[m].ref == h :: m == n
    ensures LeftBehind(s, u, h, n)
  {
    hide Live, LogQueuesNone, OnlyWorksOn;
  }

  /** What is queued of `h`, and what the worker may be working on. */
  lemma WhatIsQueued(s: State, t: State, h: Name, n: Name)
    requires LeftBehind(s, t, h, n)
    ensures OnlyWorksOn(t, h, n) && h in t.active && forall m | m in t.queue && m in t.cache && t.cache[m].ref == h :: m == n
    ensures n !in t.server && (n in t.cache ==> t.cache[n].ref == h && !t.cache[n].finalizer && !t.cache[n].deleting)
  {
  }

  lemma FetchLeavesBehind(s: State, t: State, call: Call, h: Name, n: Name)
    requires LeftBehind(s, t, h, n) && t.worker.Fetching?
    ensures LeftBehind(s, Fetch(t, t.worker.name, t.worker.obj, call), h, n)
  {
    hide LeftBehind;
    WhatIsQueued(s, t, h, n);
    MoveLeavesBehind(s, t, Fetch(t, t.worker.name, t.worker.obj, call), h, n);
  }

  lemma ListLeavesBehind(s: State, t: State, call: Call, h: Name, n: Name)
    requires LeftBehind(s, t, h, n) && t.worker.Listing?
    ensures LeftBehind(s, ListLive(t, t.worker.name, t.worker.obj, t.worker.acl, call), h, n)
  {
    hide LeftBehind, Live;
    WhatIsQueued(s, t, h, n);
    MoveLeavesBehind(s, t, ListLive(t, t.worker.name, t.worker.obj, t.worker.acl, call), h, n);
  }

  /** A push sets no policy but that of the Headscale it is for. */
  lemma PushMoves(t: State, call: Call)
    requires t.worker.Pushing?
    ensures var o := t.worker.obj; var u := Push(t, t.worker.name, o, t.worker.acl, t.worker.live, call);
      && u == t.(worker := u.worker, active := u.active, unaccounted := u.unaccounted)
      && (u.worker.Releasing? || u.worker.Reporting?) && u.worker.name == t.worker.name && u.worker.obj == o
      && forall g | g != o.ref && g in t.active :: g in u.active && u.active[g] == t.active[g]
  {
    hide Render, Live, Fresh;
  }

  lemma PushLeavesBehind(s: State, t: State, call: Call, h: Name, n: Name)
    requires LeftBehind(s, t, h, n) && t.worker.Pushing?
    ensures LeftBehind(s, Push(t, t.worker.name, t.worker.obj, t.worker.acl, t.worker.live, call), h, n)
  {
    hide LeftBehind, Push;
    PushMoves(t, call);
    WhatIsQueued(s, t, h, n);
    MoveLeavesBehind(s, t, Push(t, t.worker.name, t.worker.obj, t.worker.acl, t.worker.live, call), h, n);
  }

  lemma StartLeavesBehind(s: State, t: State, call: Call, h: Name, n: Name)
    requires LeftBehind(s, t, h, n) && t.worker.Started?
    ensures LeftBehind(s, Get(t, t.worker.name, call), h, n)
  {
    hide LeftBehind;
    WhatIsQueued(s, t, h, n);
    MoveLeavesBehind(s, t, Get(t, t.worker.name, call), h, n);
  }

  lemma FinalizerLeavesBehind(s: State, t: State, call: Call, h: Name, n: Name)
    requires LeftBehind(s, t, h, n) && LogInv(t) && t.worker.Finalizing?
    ensures LeftBehind(s, EnsureFinalizer(t, t.worker.name, t.worker.obj, call), h, n)
  {
    hide LeftBehind, LogInv;
    var m, o := t.worker.name, t.worker.obj;
    WhatIsQueued(s, t, h, n);
    if !o.finalizer && !call.Fails? && Accepts(t, m, o) {
      HeldIsServed(t);
      var v := o.(finalizer := true, version := |t.history|);
      WriteLeavesBehind(s, t, m, o.(finalizer := true), if call.Lost? then Idle else Fetching(m, v),
        if call.Lost? then t.queue + {m} else t.queue, h, n);
    } else {
      MoveLeavesBehind(s, t, EnsureFinalizer(t, m, o, call), h, n);
    }
  }

  lemma ReportLeavesBehind(s: State, t: State, call: Call, changed: bool, h: Name, n: Name)
    requires LeftBehind(s, t, h, n) && LogInv(t) && t.worker.Reporting?
    ensures LeftBehind(s, Report(t, t.worker.name, t.worker.failed, call, changed), h, n)
  {
    hide LogInv, LogQueuesNone, Live;
    var m := t.worker.name;
    if changed && !call.Fails? && m in t.server {
      WriteLeavesBehind(s, t, m, t.server[m], Idle, if t.worker.failed || call.Lost? then t.queue + {m} else t.queue, h, n);
    }
  }

  lemma ReleaseLeavesBehind(s: State, t: State, call: Call, h: Name, n: Name)
    requires LeftBehind(s, t, h, n) && LogInv(t) && t.worker.Releasing?
    ensures LeftBehind(s, Release(t, t.worker.name, t.worker.obj, call), h, n)
  {
    hide Stored, Store, LogQueuesNone, Live;
    var m, o := t.worker.name, t.worker.obj;
    if !call.Fails? && Accepts(t, m, o) {
      AcceptedIsServed(t, m, o);
      RemovalLeavesBehind(s, t, m, if call.Lost? then t.queue + {m} else t.queue, h, n);
    }
  }

  lemma RemovalQueuesNone(t: State, m: Name, h: Name, n: Name)
    requires LogInv(t) && m in t.server && m != n && t.server[m].ref != h && LogQueuesNone(t.cache, t.log, h, n)
    ensures LogQueuesNone(t.cache, Remove(t, m).log, h, n) && Live(Remove(t, m).server, h) == Live(t.server, h)
  {
    hide Stored, LogQueuesNone, HeadStore, QueuesNone;
    LogQueuesNoneAppend(t.cache, t.log, Gone(m), h, n);
    assert Live(t.server - {m}, h) == Live(t.server, h);
  }

  lemma RemovalLeavesBehind(s: State, t: State, m: Name, queue: set<Name>, h: Name, n: Name)
    requires LeftBehind(s, t, h, n) && LogInv(t) && m in t.server && m != n && t.server[m].ref != h
    requires forall x | x in queue && x in t.cache && t.cache[x].ref == h :: x == n
    ensures LeftBehind(s, Remove(t, m).(worker := Idle, queue := queue), h, n)
  {
    hide LogInv, LogQueuesNone, Live;
    RemovalQueuesNone(t, m, h, n);
  }

  lemma StepLeavesBehind(s: State, t: State, a: Action, h: Name, n: Name)
    requires LeftBehind(s, t, h, n) && LogInv(t) && Enabled(t, a) && IsOwn(a)
    ensures LeftBehind(s, Apply(t, a), h, n)
  {
    match a {
      case DeliverApprover => DeliveryLeavesBehind(s, t, h, n);
      case DeliverHeadscale => HeadDeliveryLeavesBehind(s, t, h, n);
      case Pop(_) =>
      case Work(call, changed) => WorkLeavesBehind(s, t, call, changed, h, n);
    }
  }

  // ---------- Every run ----------

  lemma {:induction false} RunLeavesBehind(s: State, t: State, run: seq<Action>, h: Name, n: Name)
    requires LeftBehind(s, t, h, n) && Inv(t) && After(t, run).Some? && forall a | a in run :: IsOwn(a)
    ensures LeftBehind(s, After(t, run).value, h, n)
    decreases |run|
  {
    if run != [] {
      assert run[0] in run && forall a | a in run[1..] :: a in run;
      StepLeavesBehind(s, t, run[0], h, n);
      StepKeepsInv(t, run[0]);
      RunLeavesBehind(s, Apply(t, run[0]), run[1..], h, n);
    }
  }

  /**
   However the controller goes on after such a deletion, the active policy stays as it was; so it agrees again
   exactly if the entries of the deleted approver are those of others too.
   */
  lemma DeletionWithoutFinalizer(s: State, n: Name, h: Name, run: seq<Action>)
    requires Inv(s) && n in s.server && IsLive(s, n, h) && !s.server[n].finalizer
    requires h in s.heads && Agrees(s, h) && OnlyNewsOf(s, h, n)
    requires After(Apply(s, DeleteApprover(n)), run).Some? && forall a | a in run :: IsOwn(a)
    ensures var t := After(Apply(s, DeleteApprover(n)), run).value;
      && h in t.heads && t.heads[h] == s.heads[h] && h in t.active && t.active[h] == s.active[h]
      && Live(t.server, h) == Live(s.server, h) - {n}
      && (Agrees(t, h) <==> Render(s.heads[h].acl, Live(s.server, h) - {n}) == Render(s.heads[h].acl, Live(s.server, h)))
  {
    DeletionLeavesBehind(s, n, h);
    StepKeepsInv(s, DeleteApprover(n));
    RunLeavesBehind(s, Apply(s, DeleteApprover(n)), run, h, n);
  }

  /** With a base that has no section of its own: exactly if the remaining approvers have the same entries. */
  lemma DeletionIsHarmlessIfRedundant(s: State, n: Name, h: Name, run: seq<Action>)
    requires Inv(s) && n in s.server && IsLive(s, n, h) && !s.server[n].finalizer
    requires h in s.heads && Agrees(s, h) && OnlyNewsOf(s, h, n)
    requires After(Apply(s, DeleteApprover(n)), run).Some? && forall a | a in run :: IsOwn(a)
    requires Parses(s.heads[h].acl) && !Supplies(s.heads[h].acl.inlineText, AUTO_APPROVERS)
    ensures var t := After(Apply(s, DeleteApprover(n)), run).value;
      h in t.heads && (Agrees(t, h) <==>
        SameEntries(InNameOrder(Live(s.server, h) - {n}), InNameOrder(Live(s.server, h))))
  {
    DeletionWithoutFinalizer(s, n, h, run);
    RedundantEntries(s.heads[h].acl, Live(s.server, h), Live(s.server, h) - {n});
  }
}
