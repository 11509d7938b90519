/** What the ordered watch logs and the version check guarantee about stale reads. */
module AutoApproverLog {
  import opened AutoApprover

  lemma {:induction false} ReplayAppend<T>(c: map<Name, T>, log: seq<Event<T>>, e: Event<T>)
    ensures Replay(c, log + [e]) == Observe(Replay(c, log), e)
    decreases |log|
  {
    if log == [] {
      assert (log + [e])[1..] == [];
    } else {
      ReplayAppend(Observe(c, log[0]), log[1..], e);
      assert (log + [e])[1..] == log[1..] + [e];
    }
  }

  /** An event the API server can emit for an object last seen as in `c`. */
  predicate Follows(c: map<Name, Approver>, e: Event<Approver>) {
    match e
    case Put(n, o) =>
      if n in c then
        && c[n].ref == o.ref
        && c[n].version < o.version
        && (c[n].deleting ==> o.deleting)
        && (c[n].finalizer ==> o.finalizer)
        && (c[n].generation == o.generation && c[n].deleting == o.deleting ==> c[n].spec == o.spec)
      else !o.deleting
    case Gone(n) => n in c
  }

  predicate FollowsHead(c: map<Name, Headscale>, e: Event<Headscale>) {
    match e
    case Put(h, o) => h in c && c[h].generation == o.generation ==> c[h] == o
    case Gone(h) => h in c
  }

  predicate Ordered(c: map<Name, Approver>, log: seq<Event<Approver>>)
    decreases |log|
  {
    log == [] || (Follows(c, log[0]) && Ordered(Observe(c, log[0]), log[1..]))
  }

  predicate OrderedHeads(c: map<Name, Headscale>, log: seq<Event<Headscale>>)
    decreases |log|
  {
    log == [] || (FollowsHead(c, log[0]) && OrderedHeads(Observe(c, log[0]), log[1..]))
  }

  lemma {:induction false} OrderedAppend(c: map<Name, Approver>, log: seq<Event<Approver>>, e: Event<Approver>)
    requires Ordered(c, log) && Follows(Replay(c, log), e)
    ensures Ordered(c, log + [e])
    decreases |log|
  {
    if log == [] {
      assert (log + [e])[1..] == [];
    } else {
      OrderedAppend(Observe(c, log[0]), log[1..], e);
      assert (log + [e])[1..] == log[1..] + [e];
    }
  }

  lemma {:induction false} OrderedHeadsAppend(c: map<Name, Headscale>, log: seq<Event<Headscale>>, e: Event<Headscale>)
    requires OrderedHeads(c, log) && FollowsHead(Replay(c, log), e)
    ensures OrderedHeads(c, log + [e])
    decreases |log|
  {
    if log == [] {
      assert (log + [e])[1..] == [];
    } else {
      OrderedHeadsAppend(Observe(c, log[0]), log[1..], e);
      assert (log + [e])[1..] == log[1..] + [e];
    }
  }

  predicate Mentions(log: seq<Event<Approver>>, n: Name) {
    exists e :: e in log && e.name == n
  }

  /** What the log still has to say about an object the cache holds and whose removal is not in it. */
  lemma {:induction false} Stays(c: map<Name, Approver>, log: seq<Event<Approver>>, n: Name)
    requires Ordered(c, log) && n in c && Gone(n) !in log
    ensures n in Replay(c, log)
    ensures var o := Replay(c, log)[n];
      && o.ref == c[n].ref && (c[n].deleting ==> o.deleting) && (c[n].finalizer ==> o.finalizer)
      && c[n].version <= o.version
      && (Mentions(log, n) ==> c[n].version < o.version)
      && (!Mentions(log, n) ==> o == c[n])
    decreases |log|
  {
    if log != [] {
      assert forall e :: e in log <==> e == log[0] || e in log[1..];
      Stays(Observe(c, log[0]), log[1..], n);
      assert Mentions(log, n) <==> log[0].name == n || Mentions(log[1..], n);
    }
  }

  /** Once finalized, an object in the log keeps its finalizer until its removal. */
  lemma {:induction false} PutStays(c: map<Name, Approver>, log: seq<Event<Approver>>, j: nat)
    requires Ordered(c, log) && j < |log| && log[j].Put? && Gone(log[j].name) !in log[j..]
    ensures log[j].name in Replay(c, log)
    ensures log[j].obj.finalizer ==> Replay(c, log)[log[j].name].finalizer
    ensures log[j].obj.deleting ==> Replay(c, log)[log[j].name].deleting
    decreases |log|
  {
    if j == 0 {
      assert forall e :: e in log[1..] ==> e in log[0..];
      Stays(Observe(c, log[0]), log[1..], log[0].name);
    } else {
      assert log[1..][j - 1..] == log[j..];
      PutStays(Observe(c, log[0]), log[1..], j - 1);
    }
  }

  /** In a log no removal follows a finalized version: finalizers go only once the cache has caught up. */
  predicate Settled(log: seq<Event<Approver>>) {
    forall i, j | 0 <= i < j < |log| && log[i].Put? && log[i].obj.finalizer :: log[j] != Gone(log[i].name)
  }

  /** Versions in the log rise, from above every cached one. */
  predicate Rising(c: map<Name, Approver>, log: seq<Event<Approver>>) {
    && (forall i, j | 0 <= i < j < |log| && log[i].Put? && log[j].Put? :: log[i].obj.version < log[j].obj.version)
    && (forall n, e | n in c && e in log && e.Put? :: c[n].version < e.obj.version)
  }

  /** Where the API server's object comes from. */
  lemma {:induction false} ReplayFrom(c: map<Name, Approver>, log: seq<Event<Approver>>, n: Name)
    requires n in Replay(c, log)
    ensures Put(n, Replay(c, log)[n]) in log || (n in c && Replay(c, log)[n] == c[n] && !Mentions(log, n))
    decreases |log|
  {
    if log != [] {
      ReplayFrom(Observe(c, log[0]), log[1..], n);
      assert forall e :: e in log <==> e == log[0] || e in log[1..];
    }
  }

  predicate Stored(history: seq<Approver>, o: Approver) {
    o.version < |history| && history[o.version] == o && (o.deleting ==> o.finalizer)
  }

  /** Cache, log and API server agree up to delay, and a version number names one object. */
  predicate Store(server: map<Name, Approver>, cache: map<Name, Approver>, log: seq<Event<Approver>>,
                  history: seq<Approver>) {
    && Replay(cache, log) == server
    && Ordered(cache, log)
    && Settled(log)
    && Rising(cache, log)
    && (forall n | n in cache && Gone(n) in log :: cache[n].deleting || !cache[n].finalizer)
    && (forall n | n in server :: Stored(history, server[n]))
    && (forall n | n in cache :: Stored(history, cache[n]))
    && (forall e | e in log && e.Put? :: Stored(history, e.obj))
  }

  predicate HeadStore(heads: map<Name, Headscale>, cache: map<Name, Headscale>, log: seq<Event<Headscale>>) {
    Replay(cache, log) == heads && OrderedHeads(cache, log)
  }

  predicate LogInv(s: State) {
    && Store(s.server, s.cache, s.log, s.history)
    && HeadStore(s.heads, s.headCache, s.headLog)
    && (!s.worker.Idle? && !s.worker.Started? ==> Stored(s.history, s.worker.obj))
  }

  predicate Known(s: State, n: Name, v: Approver) {
    if n in s.server then
      && s.server[n].ref == v.ref
      && (s.server[n].deleting ==> v.deleting)
      && (s.server[n].finalizer ==> v.finalizer)
      && (s.server[n].generation == v.generation && s.server[n].deleting == v.deleting ==> s.server[n].spec == v.spec)
    else !v.deleting
  }

  lemma PutKeepsShape(c: map<Name, Approver>, log: seq<Event<Approver>>, n: Name, v: Approver)
    requires Settled(log) && Rising(c, log)
    requires forall m | m in c :: c[m].version < v.version
    requires forall e | e in log && e.Put? :: e.obj.version < v.version
    ensures Settled(log + [Put(n, v)]) && Rising(c, log + [Put(n, v)])
  {
    var t := log + [Put(n, v)];
    forall i | 0 <= i < |log| ensures t[i] == log[i] && t[i] in log {
    }
    forall e | e in t ensures e in log || e == Put(n, v) {
    }
  }

  lemma WriteKeepsLog(s: State, n: Name, o: Approver)
    requires LogInv(s) && Known(s, n, o) && (o.deleting ==> o.finalizer)
    ensures LogInv(Write(s, n, o))
  {
    hide HeadStore, Follows, Rising;
    var v := o.(version := |s.history|);
    ReplayAppend(s.cache, s.log, Put(n, v));
    OrderedAppend(s.cache, s.log, Put(n, v));
    PutKeepsShape(s.cache, s.log, n, v);
    PutKeepsStored(s.server, s.cache, s.log, s.history, n, v);
  }

  lemma PutKeepsStored(server: map<Name, Approver>, cache: map<Name, Approver>, log: seq<Event<Approver>>,
      history: seq<Approver>, n: Name, v: Approver)
    requires Store(server, cache, log, history) && v.version == |history| && (v.deleting ==> v.finalizer)
    ensures Stored(history + [v], v) && forall m | m in server :: Stored(history + [v], server[m])
    ensures forall m | m in cache :: Stored(history + [v], cache[m])
    ensures forall e | e in log + [Put(n, v)] && e.Put? :: Stored(history + [v], e.obj)
    ensures forall m | m in cache && Gone(m) in log + [Put(n, v)] :: cache[m].deleting || !cache[m].finalizer
  {
    forall e | e in log + [Put(n, v)] ensures e in log || e == Put(n, v) {
    }
  }

  /** An object removed without a pending finalized version leaves the log settled. */
  lemma GoneKeepsShape(c: map<Name, Approver>, log: seq<Event<Approver>>, n: Name)
    requires Settled(log) && Rising(c, log) && Ordered(c, log)
    requires n in Replay(c, log) && (Replay(c, log)[n].finalizer ==> !Mentions(log, n))
    ensures Settled(log + [Gone(n)]) && Rising(c, log + [Gone(n)])
  {
    forall i | 0 <= i < |log| && log[i].Put? && log[i].obj.finalizer ensures log[i].name != n {
      if log[i].name == n {
        assert log[i] in log && Gone(n) !in log[i..];
        PutStays(c, log, i);
      }
    }
  }

  lemma RemoveKeepsLog(s: State, n: Name)
    requires LogInv(s) && n in s.server
    requires s.server[n].finalizer ==> n in s.cache && s.cache[n].deleting && !Mentions(s.log, n)
    ensures LogInv(Remove(s, n))
  {
    ReplayAppend(s.cache, s.log, Gone(n));
    OrderedAppend(s.cache, s.log, Gone(n));
    GoneKeepsShape(s.cache, s.log, n);
    forall e | e in Remove(s, n).log ensures e in s.log || e == Gone(n) {
    }
    if n in s.cache && Gone(n) !in s.log {
      Stays(s.cache, s.log, n);
    }
  }

  lemma TailKeepsShape(c: map<Name, Approver>, log: seq<Event<Approver>>)
    requires log != [] && Settled(log) && Rising(c, log)
    ensures Settled(log[1..]) && Rising(Observe(c, log[0]), log[1..])
    ensures log[0].Put? && log[0].obj.finalizer ==> Gone(log[0].name) !in log
  {
    forall j | 0 <= j < |log| - 1 ensures log[1..][j] == log[j + 1] && log[1..][j] in log {
    }
  }

  lemma DeliverKeepsLog(s: State)
    requires LogInv(s) && s.log != []
    ensures LogInv(DeliverFirst(s))
  {
    var t := DeliverFirst(s);
    TailKeepsShape(s.cache, s.log);
    forall e ensures e in s.log <==> e == s.log[0] || e in t.log {
    }
  }

  /** A cached version the API server still accepts is the last word on its object: nothing newer is on its way. */
  lemma AcceptedMeansCaughtUp(s: State, n: Name)
    requires LogInv(s) && n in s.cache && Accepts(s, n, s.cache[n])
    ensures s.cache[n] == s.server[n] && !Mentions(s.log, n)
  {
    ReplayFrom(s.cache, s.log, n);
  }
}
