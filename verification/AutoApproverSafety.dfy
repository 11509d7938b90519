/**
 Quiescent agreement: when nothing about a database-mode Headscale is queued, in flight or still on
 its way to the caches, its active policy is the merge of its current base and live approvers.
 */
module AutoApproverSafety {
  import opened Wrappers
  import opened Policy
  import opened AutoApprover
  import opened AutoApproverLog

  // ---------- Why the policy is, or will be, right ----------

  predicate HasLive(cache: map<Name, Approver>, h: Name) {
    exists n :: n in cache && cache[n].ref == h && !cache[n].deleting
  }

  /** By the caches, `h` is a database-mode Headscale with at least one live approver. */
  predicate Needs(s: State, h: Name) {
    h in s.headCache && s.headCache[h].policyMode.Database? && HasLive(s.cache, h)
  }

  ghost predicate Current(s: State, h: Name) {
    && h in s.headCache && h in s.active
    && Render(s.headCache[h].acl, Live(s.cache, h)) == Ok(s.active[h])
  }

  predicate Busy(w: Worker) {
    !w.Idle? && !w.Started?
  }

  /** The worker is in `handleDeletion` of `n`, which the API server would still let it release. */
  predicate Releases(s: State, n: Name) {
    Busy(s.worker) && s.worker.name == n && s.worker.obj.deleting && Accepts(s, n, s.worker.obj)
  }

  /** A reconcile of `n` started now would push the policy of `h`. */
  predicate WouldPush(s: State, n: Name, h: Name) {
    && n in s.cache && s.cache[n].ref == h
    && (s.cache[n].deleting ==> Gone(n) !in s.log && !Releases(s, n))
  }

  predicate Queued(s: State, h: Name) {
    exists n :: n in s.queue && WouldPush(s, n, h)
  }

  /** The worker holds a snapshot of the policy of `h`, or part of one. */
  predicate HoldsSnapshot(w: Worker, h: Name) {
    (w.Listing? || w.Pushing?) && w.obj.ref == h
  }

  /** The running reconcile will push the current policy of `h` or queue its approver again. */
  ghost predicate InFlight(s: State, h: Name) {
    match s.worker
    case Idle => false
    case Started(n) => WouldPush(s, n, h)
    case Finalizing(n, o) => o.ref == h && WouldPush(s, n, h)
    case Fetching(n, o) => o.ref == h && (o.deleting || WouldPush(s, n, h))
    case Listing(n, o, acl) =>
      o.ref == h && (o.deleting || WouldPush(s, n, h)) && h in s.headCache && acl == s.headCache[h].acl
    case Pushing(n, o, acl, live) => o.ref == h && (o.deleting || WouldPush(s, n, h)) && Fresh(s, h, acl, live)
    case Reporting(n, o, failed) => failed && o.ref == h && WouldPush(s, n, h)
    case Releasing(_, _) => false
  }

  ghost predicate Good(s: State, h: Name) {
    Needs(s, h) && h !in s.unaccounted ==>
      Queued(s, h) || InFlight(s, h) || (Current(s, h) && !HoldsSnapshot(s.worker, h))
  }

  predicate WorkerInv(s: State) {
    var w := s.worker;
    && (w.Finalizing? || w.Reporting? ==> !w.obj.deleting)
    && (w.Releasing? ==> w.obj.deleting)
    && (Busy(w) && Releases(s, w.name) ==>
          w.name in s.cache && s.cache[w.name].deleting && w.obj.version <= s.cache[w.name].version
          && Gone(w.name) !in s.log)
    && (Busy(w) && !w.obj.deleting && !w.Reporting? ==>
          WouldPush(s, w.name, w.obj.ref) || w.obj.ref in s.unaccounted)
  }

  ghost predicate Inv(s: State) {
    LogInv(s) && WorkerInv(s) && forall h :: Good(s, h)
  }

  // ---------- Users ----------

  predicate SameCaches(s: State, t: State) {
    && s.cache == t.cache && s.headCache == t.headCache && s.queue == t.queue && s.worker == t.worker
    && s.active == t.active && s.unaccounted == t.unaccounted
  }

  /** A change on the API server that the caches have not seen yet spoils nothing. */
  lemma UnseenChange(s: State, t: State)
    requires Inv(s) && SameCaches(s, t)
    requires forall n | n in s.cache && s.cache[n].deleting && Gone(n) !in s.log :: Gone(n) !in t.log
    requires forall n | Releases(t, n) :: Releases(s, n)
    ensures WorkerInv(t) && forall h :: Good(t, h)
  {
    forall n, h | WouldPush(s, n, h) ensures WouldPush(t, n, h) {
    }
    forall h ensures Good(t, h) {
      assert Good(s, h);
      if Queued(s, h) {
        var n :| n in s.queue && WouldPush(s, n, h);
        assert WouldPush(t, n, h);
      }
    }
  }

  predicate IsUser(a: Action) {
    a.CreateApprover? || a.EditApprover? || a.DeleteApprover?
    || a.PutHeadscale? || a.TouchHeadscale? || a.RemoveHeadscale?
  }

  lemma UserKeepsInv(s: State, a: Action)
    requires Inv(s) && Enabled(s, a) && IsUser(a)
    ensures Inv(Apply(s, a))
  {
    var t := Apply(s, a);
    match a {
      case CreateApprover(n, ref, spec) => UserWrite(s, n, Approver(ref, spec, false, false, 1, 0));
      case EditApprover(n, spec) =>
        UserWrite(s, n, s.server[n].(spec := spec, generation := s.server[n].generation + 1));
      case DeleteApprover(n) => UserDelete(s, n);
      case PutHeadscale(h, acl, mode) => UserPutsHead(s, h, acl, mode);
      case TouchHeadscale(h) => UserHeadEvent(s, t, Put(h, s.heads[h]));
      case RemoveHeadscale(h) => UserHeadEvent(s, t, Gone(h));
    }
  }

  lemma UserPutsHead(s: State, h: Name, acl: AclPolicy, mode: PolicyMode)
    requires Inv(s)
    ensures Inv(Apply(s, PutHeadscale(h, acl, mode)))
  {
    UserHeadEvent(s, Apply(s, PutHeadscale(h, acl, mode)),
      Put(h, Headscale(acl, mode, if h in s.heads then s.heads[h].generation + 1 else 1)));
  }

  lemma UserDelete(s: State, n: Name)
    requires Inv(s) && Enabled(s, DeleteApprover(n))
    ensures Inv(Apply(s, DeleteApprover(n)))
  {
    if s.server[n].finalizer {
      UserWrite(s, n, s.server[n].(deleting := true, generation := s.server[n].generation + 1));
    } else {
      UserRemove(s, n);
    }
  }

  lemma UserWrite(s: State, n: Name, o: Approver)
    requires Inv(s) && Known(s, n, o) && (o.deleting ==> o.finalizer)
    ensures Inv(Write(s, n, o))
  {
    WriteKeepsLog(s, n, o);
    NewVersionIsNotHeld(s, Write(s, n, o));
    UnseenChange(s, Write(s, n, o));
  }

  lemma NewVersionIsNotHeld(s: State, t: State)
    requires LogInv(s) && t.worker == s.worker
    requires forall n | n in t.server :: (n in s.server && t.server[n] == s.server[n]) || t.server[n].version >= |s.history|
    ensures forall n | Releases(t, n) :: Releases(s, n)
  {
  }

  lemma UserRemove(s: State, n: Name)
    requires Inv(s) && n in s.server && !s.server[n].finalizer
    ensures Inv(Remove(s, n))
  {
    RemoveKeepsLog(s, n);
    if n in s.cache && Gone(n) !in s.log {
      Stays(s.cache, s.log, n);
      assert Stored(s.history, s.cache[n]);
    }
    UnseenChange(s, Remove(s, n));
  }

  lemma UserHeadEvent(s: State, t: State, e: Event<Headscale>)
    requires Inv(s) && FollowsHead(s.heads, e)
    requires t == s.(heads := Observe(s.heads, e), headLog := s.headLog + [e])
    ensures Inv(t)
  {
    HeadEventKeepsLog(s, t, e);
    UnseenChange(s, t);
  }

  lemma HeadEventKeepsLog(s: State, t: State, e: Event<Headscale>)
    requires LogInv(s) && FollowsHead(s.heads, e)
    requires t == s.(heads := Observe(s.heads, e), headLog := s.headLog + [e])
    ensures LogInv(t)
  {
    ReplayAppend(s.headCache, s.headLog, e);
    OrderedHeadsAppend(s.headCache, s.headLog, e);
  }

  // ---------- Watches ----------

  lemma DeliverHeadKeepsPushers(s: State)
    requires Inv(s) && s.headLog != []
    ensures LogInv(DeliverFirstHead(s)) && WorkerInv(DeliverFirstHead(s))
    ensures forall n, h | WouldPush(s, n, h) :: WouldPush(DeliverFirstHead(s), n, h)
  {
    hide Good;
  }

  lemma DeliverHeadKeepsGood(s: State, h: Name)
    requires LogInv(s) && Good(s, h) && s.headLog != []
    requires forall n, h | WouldPush(s, n, h) :: WouldPush(DeliverFirstHead(s), n, h)
    ensures Good(DeliverFirstHead(s), h)
  {
    var e, t := s.headLog[0], DeliverFirstHead(s);
    if h == e.name && PassesHead(s.headCache, e) {
      if Needs(t, h) {
        var n :| n in s.cache && s.cache[n].ref == h && !s.cache[n].deleting;
        assert n in t.queue && WouldPush(t, n, h);
      }
    } else {
      assert h in t.headCache <==> h in s.headCache;
      assert h in t.headCache ==> t.headCache[h] == s.headCache[h];
      if Queued(s, h) {
        var n :| n in s.queue && WouldPush(s, n, h);
        assert n in t.queue && WouldPush(t, n, h);
      }
    }
  }

  lemma DeliverHeadKeepsInv(s: State)
    requires Inv(s) && s.headLog != []
    ensures Inv(DeliverFirstHead(s))
  {
    hide Good, LogInv, WorkerInv, WouldPush;
    DeliverHeadKeepsPushers(s);
    forall h ensures Good(DeliverFirstHead(s), h) {
      assert Good(s, h);
      DeliverHeadKeepsGood(s, h);
    }
  }

  /** What the delivery of an approver event leaves of a reason to push. */
  lemma DeliverKeepsPushers(s: State, n: Name, h: Name)
    requires Inv(s) && s.log != [] && WouldPush(s, n, h)
    ensures WouldPush(DeliverFirst(s), n, h) || h in DeliverFirst(s).unaccounted
  {
    var e, t := s.log[0], DeliverFirst(s);
    assert forall x :: x in s.log <==> x == e || x in t.log;
    if e.name == n && e.Put? && e.obj.deleting && !s.cache[n].deleting {
      TailKeepsShape(s.cache, s.log);
    }
  }

  lemma DeliverKeepsWorkerInv(s: State)
    requires Inv(s) && s.log != []
    ensures WorkerInv(DeliverFirst(s))
  {
    var e, t, w := s.log[0], DeliverFirst(s), s.worker;
    assert forall x :: x in s.log <==> x == e || x in t.log;
    if Busy(w) && !w.obj.deleting && !w.Reporting? && WouldPush(s, w.name, w.obj.ref) {
      DeliverKeepsPushers(s, w.name, w.obj.ref);
    }
  }

  lemma DeliverKeepsGood(s: State, h: Name)
    requires Inv(s) && s.log != []
    ensures Good(DeliverFirst(s), h)
  {
    var e, t := s.log[0], DeliverFirst(s);
    var n := e.name;
    assert forall x :: x in s.log <==> x == e || x in t.log;
    assert Good(s, h);
    if Needs(t, h) && h !in t.unaccounted {
      DeliverKeepsWorkerInv(s);
      if Live(s.cache, h) != Live(t.cache, h) {
        ViewChangeIsQueued(s, h);
      } else {
        SameViewSameNeed(s, t, h);
        if Queued(s, h) {
          var m :| m in s.queue && WouldPush(s, m, h);
          DeliverKeepsPushers(s, m, h);
          assert m in t.queue;
        } else if InFlight(s, h) && WouldPush(s, s.worker.name, h) {
          DeliverKeepsPushers(s, s.worker.name, h);
        }
      }
    }
  }

  lemma SameViewSameNeed(s: State, t: State, h: Name)
    requires Live(s.cache, h) == Live(t.cache, h) && s.headCache == t.headCache
    ensures Needs(s, h) <==> Needs(t, h)
  {
    assert forall n :: n in Live(s.cache, h) <==> n in Live(t.cache, h);
    if HasLive(s.cache, h) {
      var n :| n in s.cache && s.cache[n].ref == h && !s.cache[n].deleting;
      assert n in Live(s.cache, h);
    }
    if HasLive(t.cache, h) {
      var n :| n in t.cache && t.cache[n].ref == h && !t.cache[n].deleting;
      assert n in Live(t.cache, h);
    }
  }

  lemma LiveIgnores(c: map<Name, Approver>, e: Event<Approver>, h: Name)
    requires Follows(c, e)
    requires e.Gone? ==> c[e.name].deleting || c[e.name].ref != h
    requires e.Put? ==> e.obj.ref != h || !Passes(c, e) || (e.name in c && c[e.name].deleting)
    ensures Live(Observe(c, e), h) == Live(c, h)
  {
    assert forall n :: n in Live(Observe(c, e), h) <==> n in Live(c, h);
  }

  /** Every event that changes the merged entries of `h` passes the filter, unless an approver went without deletion. */
  lemma ViewChangeIsQueued(s: State, h: Name)
    requires Inv(s) && s.log != []
    requires Live(s.cache, h) != Live(DeliverFirst(s).cache, h) && h !in DeliverFirst(s).unaccounted
    ensures Queued(DeliverFirst(s), h)
  {
    var e, t := s.log[0], DeliverFirst(s);
    var n := e.name;
    if e.Gone? && (s.cache[n].deleting || s.cache[n].ref != h) {
      LiveIgnores(s.cache, e, h);
    }
    if e.Put? && (e.obj.ref != h || !Passes(s.cache, e) || (n in s.cache && s.cache[n].deleting)) {
      LiveIgnores(s.cache, e, h);
    }
    if e.Put? && e.obj.deleting {
      assert e in s.log;
      assert Stored(s.history, e.obj);
      TailKeepsShape(s.cache, s.log);
      assert Gone(n) !in t.log;
    }
    assert n in t.queue && WouldPush(t, n, h);
  }

  lemma DeliverKeepsInv(s: State)
    requires Inv(s) && s.log != []
    ensures Inv(DeliverFirst(s))
  {
    DeliverKeepsLog(s);
    DeliverKeepsWorkerInv(s);
    forall h ensures Good(DeliverFirst(s), h) {
      DeliverKeepsGood(s, h);
    }
  }

  // ---------- The worker ----------

  lemma PopKeepsInv(s: State, n: Name)
    requires Inv(s) && Enabled(s, Pop(n))
    ensures Inv(Apply(s, Pop(n)))
  {
    var t := Apply(s, Pop(n));
    forall h ensures Good(t, h) {
      assert Good(s, h);
      if Queued(s, h) {
        var m :| m in s.queue && WouldPush(s, m, h);
        assert WouldPush(t, m, h);
        assert m == n || m in t.queue;
      }
    }
  }

  /** What the steps of a reconcile have in common: caches stay, and what was queued stays queued. */
  predicate Continues(s: State, t: State) {
    && s.cache == t.cache && s.headCache == t.headCache && s.queue <= t.queue
    && (forall n | n in s.queue && n in s.cache && s.cache[n].deleting && Gone(n) !in s.log && !Releases(s, n) ::
          Gone(n) !in t.log && !Releases(t, n))
  }

  lemma ContinuesKeepsQueued(s: State, t: State, h: Name)
    requires Continues(s, t) && Queued(s, h)
    ensures Queued(t, h)
  {
    var n :| n in s.queue && WouldPush(s, n, h);
    assert n in t.queue && WouldPush(t, n, h);
  }

  lemma GetKeepsInv(s: State, call: Call)
    requires Inv(s) && s.worker.Started?
    ensures Inv(Get(s, s.worker.name, call))
  {
    var n, t := s.worker.name, Get(s, s.worker.name, call);
    assert n in s.cache ==> Stored(s.history, s.cache[n]);
    if n in s.cache && Accepts(s, n, s.cache[n]) {
      AcceptedMeansCaughtUp(s, n);
    }
    forall h ensures Good(t, h) {
      assert Good(s, h);
      GetKeepsGood(s, call, h);
    }
  }

  lemma GetKeepsGood(s: State, call: Call, h: Name)
    requires WorkerInv(s) && Good(s, h) && s.worker.Started?
    requires s.worker.name in s.cache && s.cache[s.worker.name].deleting ==> s.cache[s.worker.name].finalizer
    ensures Good(Get(s, s.worker.name, call), h)
  {
    var n, t := s.worker.name, Get(s, s.worker.name, call);
    if WouldPush(s, n, h) {
      assert t.worker.Idle? ==> n in t.queue && WouldPush(t, n, h);
    } else if Queued(s, h) {
      var m :| m in s.queue && WouldPush(s, m, h);
      assert m in t.queue && WouldPush(t, m, h);
    }
  }

  lemma SameRemovals(s: State, t: State)
    requires exists e: Event<Approver> :: e.Put? && t.log == s.log + [e]
    ensures forall m :: Gone(m) in t.log <==> Gone(m) in s.log
  {
  }

  lemma HeldIsServed(s: State)
    requires LogInv(s) && Busy(s.worker) && Accepts(s, s.worker.name, s.worker.obj)
    ensures s.server[s.worker.name] == s.worker.obj && (s.worker.obj.deleting ==> s.worker.obj.finalizer)
  {
  }

  lemma ServedIsSound(s: State, n: Name)
    requires LogInv(s) && n in s.server
    ensures s.server[n].deleting ==> s.server[n].finalizer
  {
    assert Stored(s.history, s.server[n]);
  }

  lemma WriteStores(s: State, n: Name, o: Approver)
    requires LogInv(s) && Known(s, n, o) && (o.deleting ==> o.finalizer)
    ensures Stored(Write(s, n, o).history, o.(version := |s.history|))
  {
  }

  lemma FinalizerKeepsLog(s: State, call: Call)
    requires LogInv(s) && s.worker.Finalizing?
    ensures var t := EnsureFinalizer(s, s.worker.name, s.worker.obj, call);
      LogInv(t) && forall m :: Gone(m) in t.log <==> Gone(m) in s.log
  {
    hide Store, HeadStore, Stored;
    var n, o := s.worker.name, s.worker.obj;
    var t := EnsureFinalizer(s, n, o, call);
    if !o.finalizer && !call.Fails? && Accepts(s, n, o) {
      HeldIsServed(s);
      WriteKeepsLog(s, n, o.(finalizer := true));
      WriteStores(s, n, o.(finalizer := true));
      var e := Put(n, o.(finalizer := true, version := |s.history|));
      assert t.log == s.log + [e];
      SameRemovals(s, t);
    }
  }

  lemma EnsureFinalizerKeepsInv(s: State, call: Call)
    requires Inv(s) && s.worker.Finalizing?
    ensures Inv(EnsureFinalizer(s, s.worker.name, s.worker.obj, call))
  {
    hide LogInv, Good, Continues, Current, WouldPush;
    var t := EnsureFinalizer(s, s.worker.name, s.worker.obj, call);
    FinalizerKeepsLog(s, call);
    WrittenAsLive(s, call);
    forall h ensures Good(t, h) {
      assert Good(s, h);
      LiveMoveKeepsGood(s, t, h);
    }
  }

  lemma WrittenAsLive(s: State, call: Call)
    requires WorkerInv(s) && s.worker.Finalizing?
    ensures var t := EnsureFinalizer(s, s.worker.name, s.worker.obj, call); WorkerInv(t) && Continues(s, t)
  {
    var n := s.worker.name;
    var t := EnsureFinalizer(s, n, s.worker.obj, call);
    NothingRemoved(s, call);
    LivesOn(s, t);
  }

  lemma NothingRemoved(s: State, call: Call)
    requires s.worker.Finalizing? && !s.worker.obj.deleting
    ensures var n := s.worker.name; var t := EnsureFinalizer(s, n, s.worker.obj, call);
      && (forall m | Gone(m) !in s.log :: Gone(m) !in t.log) && s.queue <= t.queue
      && t == s.(server := t.server, log := t.log, history := t.history, queue := t.queue, worker := t.worker)
      && (t.worker.Idle? || (t.worker.Fetching? && t.worker.name == n && t.worker.obj.ref == s.worker.obj.ref
                             && !t.worker.obj.deleting))
  {
  }

  lemma LivesOn(s: State, t: State)
    requires WorkerInv(s) && s.worker.Finalizing? && s.queue <= t.queue
    requires forall m | Gone(m) !in s.log :: Gone(m) !in t.log
    requires t == s.(server := t.server, log := t.log, history := t.history, queue := t.queue, worker := t.worker)
    requires t.worker.Idle? || (t.worker.Fetching? && t.worker.name == s.worker.name
      && t.worker.obj.ref == s.worker.obj.ref && !t.worker.obj.deleting)
    ensures WorkerInv(t) && Continues(s, t)
  {
    assert forall m :: !Releases(s, m) && !Releases(t, m);
    if WouldPush(s, s.worker.name, s.worker.obj.ref) {
      assert WouldPush(t, s.worker.name, s.worker.obj.ref);
    }
  }

  /** A live reconcile without a snapshot that moves on, or stops and is queued again, keeps every reason. */
  lemma LiveMoveKeepsGood(s: State, t: State, h: Name)
    requires WorkerInv(s) && Good(s, h) && Continues(s, t)
    requires s.worker.Finalizing? || (s.worker.Reporting? && s.worker.failed)
    requires s.active == t.active && s.unaccounted == t.unaccounted
    requires forall m :: Gone(m) in t.log <==> Gone(m) in s.log
    requires t.worker.Idle? ==> s.worker.name in t.queue
    requires t.worker.Idle? || (t.worker.Fetching?
      && t.worker.name == s.worker.name && t.worker.obj.ref == s.worker.obj.ref && !t.worker.obj.deleting)
    ensures Good(t, h)
  {
    if Queued(s, h) {
      ContinuesKeepsQueued(s, t, h);
    } else if s.worker.obj.ref == h && WouldPush(s, s.worker.name, h) {
      assert WouldPush(t, s.worker.name, h);
    }
  }

  lemma FetchKeepsInv(s: State, call: Call)
    requires Inv(s) && s.worker.Fetching?
    ensures Inv(Fetch(s, s.worker.name, s.worker.obj, call))
  {
    hide Good, WorkerInv, Continues, Store, HeadStore;
    FetchKeepsWorkerInv(s, call);
    forall h ensures Good(Fetch(s, s.worker.name, s.worker.obj, call), h) {
      assert Good(s, h);
      FetchKeepsGood(s, call, h);
    }
  }

  lemma FetchKeepsWorkerInv(s: State, call: Call)
    requires WorkerInv(s) && s.worker.Fetching?
    ensures WorkerInv(Fetch(s, s.worker.name, s.worker.obj, call))
    ensures Continues(s, Fetch(s, s.worker.name, s.worker.obj, call))
  {
    hide Fetch;
    FetchMoves(s, call);
    MoveKeepsWorkerInv(s, Fetch(s, s.worker.name, s.worker.obj, call));
  }

  /** What fetching may lead to. */
  lemma FetchMoves(s: State, call: Call)
    requires WorkerInv(s) && s.worker.Fetching?
    ensures Moves(s, Fetch(s, s.worker.name, s.worker.obj, call))
  {
    hide WorkerInv;
  }

  /** The worker goes on with the object it holds, or gives it back, and writes nothing. */
  predicate Moves(s: State, t: State)
    requires Busy(s.worker)
  {
    && t == s.(queue := t.queue, worker := t.worker, unaccounted := t.unaccounted)
    && s.queue <= t.queue && s.unaccounted <= t.unaccounted
    && (t.worker.Idle? || (Busy(t.worker) && t.worker.name == s.worker.name && t.worker.obj == s.worker.obj
          && !t.worker.Finalizing? && (t.worker.Releasing? ==> t.worker.obj.deleting)
          && (t.worker.Reporting? ==> !t.worker.obj.deleting)))
  }

  lemma MoveKeepsWorkerInv(s: State, t: State)
    requires WorkerInv(s) && Busy(s.worker) && !s.worker.Reporting? && Moves(s, t)
    ensures WorkerInv(t) && Continues(s, t)
  {
  }

  lemma FetchKeepsGood(s: State, call: Call, h: Name)
    requires Good(s, h) && s.worker.Fetching?
    requires WorkerInv(s) && Continues(s, Fetch(s, s.worker.name, s.worker.obj, call))
    ensures Good(Fetch(s, s.worker.name, s.worker.obj, call), h)
  {
    var n, o := s.worker.name, s.worker.obj;
    var t := Fetch(s, n, o, call);
    if Queued(s, h) {
      ContinuesKeepsQueued(s, t, h);
    } else if o.ref == h && !o.deleting && WouldPush(s, n, h) {
      assert WouldPush(t, n, h);
    }
  }

  lemma ListKeepsInv(s: State, call: Call)
    requires Inv(s) && s.worker.Listing?
    ensures Inv(ListLive(s, s.worker.name, s.worker.obj, s.worker.acl, call))
  {
    hide Good, WorkerInv, Continues, Store, HeadStore;
    ListKeepsWorkerInv(s, call);
    forall h ensures Good(ListLive(s, s.worker.name, s.worker.obj, s.worker.acl, call), h) {
      assert Good(s, h);
      ListKeepsGood(s, call, h);
    }
  }

  lemma ListKeepsWorkerInv(s: State, call: Call)
    requires WorkerInv(s) && s.worker.Listing?
    ensures WorkerInv(ListLive(s, s.worker.name, s.worker.obj, s.worker.acl, call))
    ensures Continues(s, ListLive(s, s.worker.name, s.worker.obj, s.worker.acl, call))
  {
  }

  lemma ListKeepsGood(s: State, call: Call, h: Name)
    requires Good(s, h) && s.worker.Listing?
    requires WorkerInv(s) && Continues(s, ListLive(s, s.worker.name, s.worker.obj, s.worker.acl, call))
    ensures Good(ListLive(s, s.worker.name, s.worker.obj, s.worker.acl, call), h)
  {
    var n, o := s.worker.name, s.worker.obj;
    var t := ListLive(s, n, o, s.worker.acl, call);
    if Queued(s, h) {
      ContinuesKeepsQueued(s, t, h);
    } else if o.ref == h && !o.deleting && WouldPush(s, n, h) {
      assert WouldPush(t, n, h);
    }
  }

  lemma PushKeepsInv(s: State, call: Call)
    requires Inv(s) && s.worker.Pushing?
    ensures Inv(Push(s, s.worker.name, s.worker.obj, s.worker.acl, s.worker.live, call))
  {
    hide Good, WorkerInv, Continues, Store, HeadStore;
    PushKeepsWorkerInv(s, call);
    forall h ensures Good(Push(s, s.worker.name, s.worker.obj, s.worker.acl, s.worker.live, call), h) {
      assert Good(s, h);
      PushKeepsGood(s, call, h);
    }
  }

  lemma PushKeepsWorkerInv(s: State, call: Call)
    requires WorkerInv(s) && s.worker.Pushing?
    ensures WorkerInv(Push(s, s.worker.name, s.worker.obj, s.worker.acl, s.worker.live, call))
    ensures Continues(s, Push(s, s.worker.name, s.worker.obj, s.worker.acl, s.worker.live, call))
  {
    hide Render, Fresh, Live;
  }

  lemma PushKeepsGood(s: State, call: Call, h: Name)
    requires Good(s, h) && s.worker.Pushing?
    requires WorkerInv(s) && Continues(s, Push(s, s.worker.name, s.worker.obj, s.worker.acl, s.worker.live, call))
    ensures Good(Push(s, s.worker.name, s.worker.obj, s.worker.acl, s.worker.live, call), h)
  {
    hide Render, WorkerInv, Live;
    var n, o := s.worker.name, s.worker.obj;
    var t := Push(s, n, o, s.worker.acl, s.worker.live, call);
    if Queued(s, h) {
      ContinuesKeepsQueued(s, t, h);
    } else if o.ref == h && !o.deleting && WouldPush(s, n, h) {
      assert WouldPush(t, n, h);
    }
  }

  lemma ReportKeepsLog(s: State, call: Call, changed: bool)
    requires LogInv(s) && s.worker.Reporting?
    ensures var t := Report(s, s.worker.name, s.worker.failed, call, changed);
      LogInv(t) && forall m :: Gone(m) in t.log <==> Gone(m) in s.log
  {
    hide Store, HeadStore, Stored;
    var n := s.worker.name;
    var t := Report(s, n, s.worker.failed, call, changed);
    if changed && !call.Fails? && n in s.server {
      ServedIsSound(s, n);
      WriteKeepsLog(s, n, s.server[n]);
      assert t.log == s.log + [Put(n, s.server[n].(version := |s.history|))];
      SameRemovals(s, t);
    }
  }

  lemma ReportKeepsInv(s: State, call: Call, changed: bool)
    requires Inv(s) && s.worker.Reporting?
    ensures Inv(Report(s, s.worker.name, s.worker.failed, call, changed))
  {
    hide LogInv, Good;
    var t := Report(s, s.worker.name, s.worker.failed, call, changed);
    ReportKeepsLog(s, call, changed);
    forall h ensures Good(t, h) {
      assert Good(s, h);
      ReportKeepsGood(s, t, h);
    }
  }

  lemma ReportKeepsGood(s: State, t: State, h: Name)
    requires WorkerInv(s) && Good(s, h) && s.worker.Reporting?
    requires t.worker.Idle? && s.queue <= t.queue && (s.worker.failed ==> s.worker.name in t.queue)
    requires s.cache == t.cache && s.headCache == t.headCache && s.active == t.active && s.unaccounted == t.unaccounted
    requires forall m :: Gone(m) in t.log <==> Gone(m) in s.log
    ensures Good(t, h)
  {
    if s.worker.failed {
      LiveMoveKeepsGood(s, t, h);
    } else if Queued(s, h) {
      ContinuesKeepsQueued(s, t, h);
    }
  }

  lemma ReleaseKeepsInv(s: State, call: Call)
    requires Inv(s) && s.worker.Releasing?
    ensures Inv(Release(s, s.worker.name, s.worker.obj, call))
  {
    var n, o := s.worker.name, s.worker.obj;
    var t := Release(s, n, o, call);
    if !call.Fails? && Accepts(s, n, o) {
      Stays(s.cache, s.log, n);
      RemoveKeepsLog(s, n);
    }
    forall h ensures Good(t, h) {
      assert Good(s, h);
      ReleaseKeepsGood(s, call, h);
    }
  }

  lemma ReleaseKeepsGood(s: State, call: Call, h: Name)
    requires WorkerInv(s) && Good(s, h) && s.worker.Releasing?
    ensures Good(Release(s, s.worker.name, s.worker.obj, call), h)
  {
    var n, t := s.worker.name, Release(s, s.worker.name, s.worker.obj, call);
    assert forall m | m != n :: Gone(m) in t.log <==> Gone(m) in s.log;
    if Queued(s, h) {
      ContinuesKeepsQueued(s, t, h);
    }
  }

  lemma RestartKeepsInv(s: State)
    requires Inv(s)
    ensures Inv(Apply(s, Restart))
  {
    var t := Apply(s, Restart);
    forall h ensures Good(t, h) {
      if Needs(t, h) {
        var n :| n in t.cache && t.cache[n].ref == h && !t.cache[n].deleting;
        assert n in t.queue && WouldPush(t, n, h);
      }
    }
  }

  lemma StepKeepsInv(s: State, a: Action)
    requires Inv(s) && Enabled(s, a)
    ensures Inv(Apply(s, a))
  {
    match a {
      case DeliverApprover => DeliverKeepsInv(s);
      case DeliverHeadscale => DeliverHeadKeepsInv(s);
      case Pop(n) => PopKeepsInv(s, n);
      case Restart => RestartKeepsInv(s);
      case Work(call, changed) =>
        match s.worker {
          case Started(_) => GetKeepsInv(s, call);
          case Finalizing(_, _) => EnsureFinalizerKeepsInv(s, call);
          case Fetching(_, _) => FetchKeepsInv(s, call);
          case Listing(_, _, _) => ListKeepsInv(s, call);
          case Pushing(_, _, _, _) => PushKeepsInv(s, call);
          case Reporting(_, _, _) => ReportKeepsInv(s, call, changed);
          case Releasing(_, _) => ReleaseKeepsInv(s, call);
        }
      case _ => UserKeepsInv(s, a);
    }
  }

  lemma {:induction false} RunKeepsInv(s: State, run: seq<Action>)
    requires Inv(s) && After(s, run).Some?
    ensures Inv(After(s, run).value)
    decreases |run|
  {
    if run != [] {
      StepKeepsInv(s, run[0]);
      RunKeepsInv(Apply(s, run[0]), run[1..]);
    }
  }
}
