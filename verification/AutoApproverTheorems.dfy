/** What the auto-approver controller guarantees, over all its runs. */
module AutoApproverTheorems {
  import opened Wrappers
  import opened Policy
  import opened AutoApprover
  import opened AutoApproverLog
  import opened AutoApproverSafety
  import Strings

  /** Whatever is on its way to the caches does not change what they say of `h`: its base, its mode, its live approvers. */
  predicate UpToDate(s: State, h: Name) {
    && Live(s.cache, h) == Live(s.server, h)
    && (h in s.heads ==>
      h in s.headCache && s.headCache[h].acl == s.heads[h].acl && s.headCache[h].policyMode == s.heads[h].policyMode)
  }

  /** Nothing that matters to `h` is on its way to the caches, queued or being reconciled. */
  predicate Quiet(s: State, h: Name) {
    && UpToDate(s, h)
    && (forall n | n in s.queue && n in s.cache :: s.cache[n].ref != h)
    && (s.worker.Started? && s.worker.name in s.cache ==> s.cache[s.worker.name].ref != h)
    && (Busy(s.worker) ==> s.worker.obj.ref != h)
  }

  /** On the API server, `h` is a database-mode Headscale with a live approver. */
  predicate Governed(s: State, h: Name) {
    h in s.heads && s.heads[h].policyMode.Database? && HasLive(s.server, h)
  }

  ghost predicate Agrees(s: State, h: Name)
    requires h in s.heads
  {
    h in s.active && Render(s.heads[h].acl, Live(s.server, h)) == Ok(s.active[h])
  }

  lemma InitialInv()
    ensures Inv(INITIAL)
  {
  }

  /**
   Whenever things are quiet around a governed Headscale, its active policy is the merge of its
   current base and live approvers, unless some removal is unaccounted for.
   */
  lemma QuiescentAgreement(run: seq<Action>, h: Name)
    requires After(INITIAL, run).Some?
    requires var s := After(INITIAL, run).value; Quiet(s, h) && Governed(s, h) && h !in s.unaccounted
    ensures Agrees(After(INITIAL, run).value, h)
  {
    InitialInv();
    RunKeepsInv(INITIAL, run);
    QuietMeansCurrent(After(INITIAL, run).value, h);
  }

  lemma QuietMeansCurrent(s: State, h: Name)
    requires Inv(s) && Quiet(s, h) && Governed(s, h) && h !in s.unaccounted
    ensures Agrees(s, h)
  {
    assert Good(s, h);
    var n :| n in s.server && s.server[n].ref == h && !s.server[n].deleting;
    assert n in Live(s.server, h) && n in Live(s.cache, h);
    assert HasLive(s.cache, h);
  }

  // ---------- Undelivered events that change nothing ----------

  /** An event that leaves the live approvers of `h` as they are: of another's approver, or of an unchanged spec. */
  predicate IsNoNews(c: map<Name, Approver>, e: Event<Approver>, h: Name) {
    if e.name in c && c[e.name].ref == h then
      c[e.name].deleting || (e.Put? && !Passes(c, e))
    else e.Put? ==> e.obj.ref != h
  }

  predicate BringsNoNews(c: map<Name, Approver>, log: seq<Event<Approver>>, h: Name)
    decreases |log|
  {
    log == [] || (IsNoNews(c, log[0], h) && BringsNoNews(Observe(c, log[0]), log[1..], h))
  }

  predicate BringsNoHeadNews(c: map<Name, Headscale>, log: seq<Event<Headscale>>, h: Name)
    decreases |log|
  {
    log == [] ||
      ((log[0].name == h ==> log[0].Put? && h in c && !PassesHead(c, log[0]))
       && BringsNoHeadNews(Observe(c, log[0]), log[1..], h))
  }

  lemma {:induction false} NoNewsKeepsLive(c: map<Name, Approver>, log: seq<Event<Approver>>, h: Name)
    requires Ordered(c, log) && BringsNoNews(c, log, h)
    ensures Live(Replay(c, log), h) == Live(c, h)
    decreases |log|
  {
    if log != [] {
      NoNewsKeepsLive(Observe(c, log[0]), log[1..], h);
    }
  }

  lemma {:induction false} NoNewsKeepsHead(c: map<Name, Headscale>, log: seq<Event<Headscale>>, h: Name)
    requires OrderedHeads(c, log) && BringsNoHeadNews(c, log, h)
    ensures var d := Replay(c, log); (h in d <==> h in c) && (h in d ==> d[h] == c[h])
    decreases |log|
  {
    if log != [] {
      NoNewsKeepsHead(Observe(c, log[0]), log[1..], h);
    }
  }

  /** Status writes, finalizer writes and whatever concerns others may be pending: the caches are up to date on `h`. */
  lemma PendingNoNewsIsUpToDate(s: State, h: Name)
    requires LogInv(s) && BringsNoNews(s.cache, s.log, h) && BringsNoHeadNews(s.headCache, s.headLog, h)
    ensures UpToDate(s, h)
  {
    NoNewsKeepsLive(s.cache, s.log, h);
    NoNewsKeepsHead(s.headCache, s.headLog, h);
  }

  // ---------- When is every removal accounted for ----------

  /** The step neither removes an approver that has no finalizer nor gives up the push of a deletion. */
  ghost predicate Careful(s: State, a: Action) {
    && (a.DeleteApprover? && a.name in s.server ==> s.server[a.name].finalizer)
    && (a.Work? && (s.worker.Fetching? || s.worker.Listing? || s.worker.Pushing?) && s.worker.obj.deleting ==>
          && (a.call.Succeeds? || (s.worker.Pushing? && a.call.Lost?))
          && (s.worker.Pushing? ==> Render(s.worker.acl, s.worker.live).Ok?))
  }

  ghost predicate CarefulRun(s: State, run: seq<Action>)
    decreases |run|
  {
    run != [] && Enabled(s, run[0]) ==> Careful(s, run[0]) && CarefulRun(Apply(s, run[0]), run[1..])
  }

  /** Every removal in the log is that of an object already seen being deleted. */
  predicate Announced(c: map<Name, Approver>, log: seq<Event<Approver>>)
    decreases |log|
  {
    log == [] || ((log[0].Gone? ==> log[0].name in c && c[log[0].name].deleting)
                  && Announced(Observe(c, log[0]), log[1..]))
  }

  lemma {:induction false} AnnouncedAppend(c: map<Name, Approver>, log: seq<Event<Approver>>, e: Event<Approver>)
    requires Announced(c, log)
    requires e.Gone? ==> e.name in Replay(c, log) && Replay(c, log)[e.name].deleting
    ensures Announced(c, log + [e])
    decreases |log|
  {
    if log == [] {
      assert (log + [e])[1..] == [];
    } else {
      AnnouncedAppend(Observe(c, log[0]), log[1..], e);
      assert (log + [e])[1..] == log[1..] + [e];
    }
  }

  lemma CarefulStep(s: State, a: Action)
    requires Inv(s) && Enabled(s, a) && Careful(s, a)
    requires Announced(s.cache, s.log) && s.unaccounted == {}
    ensures Announced(Apply(s, a).cache, Apply(s, a).log) && Apply(s, a).unaccounted == {}
  {
    match a {
      case DeliverApprover =>
      case DeliverHeadscale =>
      case Pop(_) =>
      case Restart =>
      case Work(call, changed) => CarefulWork(s, call, changed);
      case _ => CarefulUser(s, a);
    }
  }

  lemma CarefulUser(s: State, a: Action)
    requires Enabled(s, a) && Careful(s, a) && IsUser(a) && Announced(s.cache, s.log)
    ensures Announced(Apply(s, a).cache, Apply(s, a).log) && Apply(s, a).unaccounted == s.unaccounted
  {
    var t := Apply(s, a);
    if t.log != s.log {
      assert t.log == s.log + [Put(a.name, t.server[a.name])];
      AnnouncedAppend(s.cache, s.log, Put(a.name, t.server[a.name]));
    }
  }

  lemma CarefulWork(s: State, call: Call, changed: bool)
    requires LogInv(s) && WorkerInv(s) && Enabled(s, Work(call, changed)) && Careful(s, Work(call, changed))
    requires Announced(s.cache, s.log) && s.unaccounted == {}
    ensures var t := Reconcile(s, call, changed); Announced(t.cache, t.log) && t.unaccounted == {}
  {
    hide Announced, Get, EnsureFinalizer, Fetch, ListLive, Push, Report, Release;
    match s.worker {
      case Started(n) => CarefulStart(s, call);
      case Finalizing(_, _) => CarefulFinalizer(s, call);
      case Reporting(_, _, _) => CarefulReport(s, call, changed);
      case Releasing(_, _) => CarefulRelease(s, call);
      case Fetching(_, _) => CarefulFetch(s, call);
      case Listing(_, _, _) => CarefulList(s, call);
      case Pushing(_, _, _, _) => CarefulPush(s, call);
    }
  }

  lemma CarefulStart(s: State, call: Call)
    requires s.worker.Started?
    ensures Untouched(s, Get(s, s.worker.name, call))
  {
  }

  lemma CarefulFinalizer(s: State, call: Call)
    requires s.worker.Finalizing? && Announced(s.cache, s.log)
    ensures var t := EnsureFinalizer(s, s.worker.name, s.worker.obj, call);
      Announced(t.cache, t.log) && t.unaccounted == s.unaccounted
  {
    hide Announced;
    AnnouncedAppend(s.cache, s.log, Put(s.worker.name, s.worker.obj.(finalizer := true, version := |s.history|)));
  }

  lemma CarefulReport(s: State, call: Call, changed: bool)
    requires s.worker.Reporting? && Announced(s.cache, s.log)
    ensures var t := Report(s, s.worker.name, s.worker.failed, call, changed);
      Announced(t.cache, t.log) && t.unaccounted == s.unaccounted
  {
    var n := s.worker.name;
    if n in s.server {
      AnnouncedAppend(s.cache, s.log, Put(n, s.server[n].(version := |s.history|)));
    }
  }

  lemma CarefulRelease(s: State, call: Call)
    requires s.worker.Releasing? && s.worker.obj.deleting && Announced(s.cache, s.log)
    requires Replay(s.cache, s.log) == s.server
    requires Accepts(s, s.worker.name, s.worker.obj) ==> s.server[s.worker.name] == s.worker.obj
    ensures var t := Release(s, s.worker.name, s.worker.obj, call);
      Announced(t.cache, t.log) && t.unaccounted == s.unaccounted
  {
    if Accepts(s, s.worker.name, s.worker.obj) {
      AnnouncedAppend(s.cache, s.log, Gone(s.worker.name));
    }
  }

  predicate Untouched(s: State, t: State) {
    t.cache == s.cache && t.log == s.log && t.unaccounted == s.unaccounted
  }

  lemma CarefulFetch(s: State, call: Call)
    requires s.worker.Fetching? && (s.worker.obj.deleting ==> call.Succeeds?)
    ensures Untouched(s, Fetch(s, s.worker.name, s.worker.obj, call))
  {
  }

  lemma CarefulList(s: State, call: Call)
    requires s.worker.Listing? && (s.worker.obj.deleting ==> call.Succeeds?)
    ensures Untouched(s, ListLive(s, s.worker.name, s.worker.obj, s.worker.acl, call))
  {
  }

  lemma CarefulPush(s: State, call: Call)
    requires s.worker.Pushing? && s.unaccounted == {}
    requires s.worker.obj.deleting ==> !call.Fails? && Render(s.worker.acl, s.worker.live).Ok?
    ensures Untouched(s, Push(s, s.worker.name, s.worker.obj, s.worker.acl, s.worker.live, call))
  {
  }

  lemma {:induction false} CarefulRunStep(s: State, run: seq<Action>)
    requires Inv(s) && After(s, run).Some? && CarefulRun(s, run)
    requires Announced(s.cache, s.log) && s.unaccounted == {}
    ensures After(s, run).value.unaccounted == {}
    decreases |run|
  {
    if run != [] {
      CarefulStep(s, run[0]);
      StepKeepsInv(s, run[0]);
      CarefulRunStep(Apply(s, run[0]), run[1..]);
    }
  }

  /** With finalizers in place before deletions, and deletion-time pushes that succeed, agreement is unconditional. */
  lemma CarefulRunsAgree(run: seq<Action>, h: Name)
    requires After(INITIAL, run).Some? && CarefulRun(INITIAL, run)
    requires Quiet(After(INITIAL, run).value, h) && Governed(After(INITIAL, run).value, h)
    ensures Agrees(After(INITIAL, run).value, h)
  {
    InitialInv();
    CarefulRunStep(INITIAL, run);
    QuiescentAgreement(run, h);
  }

  // ---------- Entry by entry ----------

  lemma {:induction false} SpecsOfMembers(live: map<Name, ApproverSpec>, names: seq<Name>, a: ApproverSpec)
    ensures a in SpecsOf(live, names) <==> exists n :: n in names && n in live && live[n] == a
    decreases |names|
  {
    if names != [] {
      SpecsOfMembers(live, names[1..], a);
      assert forall n :: n in names <==> n == names[0] || n in names[1..];
    }
  }

  lemma InNameOrderMembers(live: map<Name, ApproverSpec>, a: ApproverSpec)
    ensures a in InNameOrder(live) <==> exists n :: n in live && live[n] == a
  {
    Strings.CanonicalIs(live.Keys);
    SpecsOfMembers(live, Strings.Canonical(live.Keys), a);
    assert forall n :: n in Strings.Canonical(live.Keys) <==> n in Strings.Elements(Strings.Canonical(live.Keys));
  }

  ghost predicate Parses(acl: AclPolicy) {
    Readable(acl.inlineText)
  }

  predicate SomeoneApproves(s: State, h: Name, cidr: string, tag: string) {
    exists n, r ::
      n in s.server && s.server[n].ref == h && !s.server[n].deleting
      && r in s.server[n].spec.routes && r.cidr == cidr && tag in r.tags
  }

  predicate SomeoneApprovesExit(s: State, h: Name, tag: string) {
    exists n :: n in s.server && s.server[n].ref == h && !s.server[n].deleting && tag in s.server[n].spec.exitNodeTags
  }

  predicate HasLiveEntries(s: State, n: Name, h: Name)
    requires n in s.server
  {
    IsLive(s, n, h) && (s.server[n].spec.routes != [] || s.server[n].spec.exitNodeTags != [])
  }

  predicate IsLive(s: State, n: Name, h: Name)
    requires n in s.server
  {
    s.server[n].ref == h && !s.server[n].deleting
  }

  /** The operator writes the section of `h`: a live approver has entries, or the base has no section of its own. */
  ghost predicate WritesSection(s: State, h: Name)
    requires h in s.heads
  {
    || (exists n :: n in s.server && HasLiveEntries(s, n, h))
    || (Parses(s.heads[h].acl) && !Supplies(s.heads[h].acl.inlineText, AUTO_APPROVERS))
  }

  /** A tag stands under a CIDR, or as an exit tag, in the active policy exactly when some live approver puts it there. */
  lemma ActiveEntriesAreTheLiveOnes(run: seq<Action>, h: Name, cidr: string, tag: string)
    requires After(INITIAL, run).Some?
    requires var s := After(INITIAL, run).value; Quiet(s, h) && Governed(s, h) && h !in s.unaccounted && WritesSection(s, h)
    ensures h in After(INITIAL, run).value.active
    ensures tag in ListedAt(RoutesIn(After(INITIAL, run).value.active[h]), cidr)
        <==> SomeoneApproves(After(INITIAL, run).value, h, cidr, tag)
    ensures tag in ExitNodeIn(After(INITIAL, run).value.active[h])
        <==> SomeoneApprovesExit(After(INITIAL, run).value, h, tag)
  {
    QuiescentAgreement(run, h);
    var s := After(INITIAL, run).value;
    var specs := InNameOrder(Live(s.server, h));
    LiveSpecs(s, h);
    assert OwnsSection(Some(s.heads[h].acl), specs) by {
      if n :| n in s.server && HasLiveEntries(s, n, h) {
        assert SpecifiedByLive(s, h, s.server[n].spec);
      }
    }
    EntriesExactness(Some(s.heads[h].acl), specs, s.active[h], cidr, tag);
    LiveSpecsApprove(s, h, cidr, tag);
  }

  /**
   The rest of the active policy is the user's: besides the operator's keys it has exactly what the inline policy of
   `h` has, unchanged; which can be read, or there is no agreement to speak of.
   */
  lemma ActiveKeepsTheInlineBase(run: seq<Action>, h: Name, key: string)
    requires After(INITIAL, run).Some?
    requires var s := After(INITIAL, run).value;
      && Quiet(s, h) && Governed(s, h) && h !in s.unaccounted
      && (key == "tagOwners" ==> s.heads[h].acl.tagOwners == map[])
      && (key == "autoApprovers" ==> forall n | n in s.server :: !HasLiveEntries(s, n, h))
    ensures var s := After(INITIAL, run).value;
      var text := s.heads[h].acl.inlineText;
      && h in s.active && (text.Blank? || text.Parsed?)
      && (key in s.active[h] <==> text.Parsed? && key in text.doc)
      && (key in s.active[h] ==> s.active[h][key] == text.doc[key])
  {
    QuiescentAgreement(run, h);
    var s := After(INITIAL, run).value;
    var specs := InNameOrder(Live(s.server, h));
    LiveSpecs(s, h);
    FailsExactly(Some(s.heads[h].acl), specs);
    if HasEntries(specs) {
      var a :| a in specs && (a.routes != [] || a.exitNodeTags != []);
      assert SpecifiedByLive(s, h, a);
    }
    OtherKeysPassThrough(Some(s.heads[h].acl), specs, s.active[h], key);
  }

  /** And its tag owners are those of `h`. */
  lemma ActiveOwnersAreTheBases(run: seq<Action>, h: Name, tag: string)
    requires After(INITIAL, run).Some?
    requires var s := After(INITIAL, run).value;
      && Quiet(s, h) && Governed(s, h) && h !in s.unaccounted
      && s.heads[h].acl.tagOwners != map[]
    ensures var s := After(INITIAL, run).value;
      var owners := s.heads[h].acl.tagOwners;
      && h in s.active
      && (tag in FieldsAt(s.active[h], TAG_OWNERS) <==> tag in owners)
      && (tag in owners ==>
            var l := ListedAt(FieldsAt(s.active[h], TAG_OWNERS), tag);
            Strings.Increasing(l) && Strings.Elements(l) == Strings.Elements(owners[tag]))
  {
    QuiescentAgreement(run, h);
    var s := After(INITIAL, run).value;
    OwnersExactness(s.heads[h].acl, InNameOrder(Live(s.server, h)), s.active[h], tag);
  }

  ghost predicate SpecifiedByLive(s: State, h: Name, a: ApproverSpec) {
    exists n :: n in s.server && IsLive(s, n, h) && s.server[n].spec == a
  }

  lemma LiveSpecs(s: State, h: Name)
    ensures forall a :: a in InNameOrder(Live(s.server, h)) <==> SpecifiedByLive(s, h, a)
  {
    var live := Live(s.server, h);
    forall a ensures a in InNameOrder(live) <==> SpecifiedByLive(s, h, a) {
      InNameOrderMembers(live, a);
      if n :| n in s.server && IsLive(s, n, h) && s.server[n].spec == a {
        assert n in live && live[n] == a;
      }
    }
  }

  lemma LiveSpecsApprove(s: State, h: Name, cidr: string, tag: string)
    ensures Approves(InNameOrder(Live(s.server, h)), cidr, tag) <==> SomeoneApproves(s, h, cidr, tag)
    ensures ApprovesExit(InNameOrder(Live(s.server, h)), tag) <==> SomeoneApprovesExit(s, h, tag)
  {
    hide Live;
    LiveSpecs(s, h);
    var specs := InNameOrder(Live(s.server, h));
    if Approves(specs, cidr, tag) {
      var a, r :| a in specs && r in a.routes && r.cidr == cidr && tag in r.tags;
      var n :| n in s.server && IsLive(s, n, h) && s.server[n].spec == a;
      assert r in s.server[n].spec.routes;
    }
    if SomeoneApproves(s, h, cidr, tag) {
      var n, r :| n in s.server && s.server[n].ref == h && !s.server[n].deleting
        && r in s.server[n].spec.routes && r.cidr == cidr && tag in r.tags;
      assert SpecifiedByLive(s, h, s.server[n].spec);
    }
    if SomeoneApprovesExit(s, h, tag) {
      var n :| n in s.server && s.server[n].ref == h && !s.server[n].deleting && tag in s.server[n].spec.exitNodeTags;
      assert SpecifiedByLive(s, h, s.server[n].spec);
    }
  }

  // ---------- What goes wrong without care, and how it heals ----------

  /** Runs grow at the end. */
  lemma {:induction false} AfterOneMore(s: State, run: seq<Action>, a: Action)
    requires After(s, run).Some? && Enabled(After(s, run).value, a)
    ensures After(s, run + [a]) == Some(Apply(After(s, run).value, a))
    decreases |run|
  {
    if run == [] {
      assert (run + [a])[1..] == [];
    } else {
      AfterOneMore(Apply(s, run[0]), run[1..], a);
      assert (run + [a])[1..] == run[1..] + [a];
    }
  }

  lemma ParsedRenders(acl: AclPolicy, live: map<Name, ApproverSpec>)
    requires Parses(acl)
    ensures Render(acl, live).Ok?
  {
  }

  /** An undisturbed reconcile of a live approver gets to reading the Headscale. */
  lemma UndisturbedStart(s: State, n: Name) returns (run: seq<Action>)
    requires s.worker.Idle? && n in s.queue && n in s.cache && !s.cache[n].deleting
    requires s.cache[n].finalizer || Accepts(s, n, s.cache[n])
    ensures After(s, run).Some? && run == [Pop(n), Work(Succeeds, false), Work(Succeeds, false)]
    ensures var t := After(s, run).value;
      t.worker.Fetching? && t.worker.name == n && t.worker.obj.ref == s.cache[n].ref && !t.worker.obj.deleting
      && t.cache == s.cache && t.headCache == s.headCache
  {
    var w := Work(Succeeds, false);
    run := [];
    AfterOneMore(s, run, Pop(n));
    run := run + [Pop(n)];
    AfterOneMore(s, run, w);
    run := run + [w];
    assert After(s, run).value.worker == Finalizing(n, s.cache[n]);
    AfterOneMore(s, run, w);
    run := run + [w];
  }

  /** And from there to pushing the current merge. */
  lemma UndisturbedPush(s: State, start: seq<Action>, h: Name) returns (run: seq<Action>)
    requires After(s, start).Some? && var t := After(s, start).value;
      t.worker.Fetching? && t.worker.obj.ref == h && !t.worker.obj.deleting
      && h in t.headCache && t.headCache[h].policyMode.Database? && Parses(t.headCache[h].acl)
    ensures After(s, run).Some? && run == start + [Work(Succeeds, false), Work(Succeeds, false), Work(Succeeds, false)]
    ensures var t := After(s, run).value;
      Current(t, h) && h !in t.unaccounted
      && t.cache == After(s, start).value.cache && t.headCache == After(s, start).value.headCache
  {
    hide Render, Parses, Enabled, Live, Passes;
    var t, w := After(s, start).value, Work(Succeeds, false);
    ParsedRenders(t.headCache[h].acl, Live(t.cache, h));
    AfterOneMore(s, start, w);
    run := start + [w];
    AfterOneMore(s, run, w);
    run := run + [w];
    var u := After(s, run).value;
    assert u.worker == Pushing(t.worker.name, t.worker.obj, t.headCache[h].acl, Live(t.cache, h));
    AfterOneMore(s, run, w);
    run := run + [w];
  }

  /**
   Stale entries go with the next reconcile of any sibling: whatever was unaccounted for, one
   undisturbed reconcile of a live approver of `h` leaves the current merge active.
   */
  lemma SiblingRepairs(s: State, n: Name, h: Name) returns (run: seq<Action>)
    requires s.worker.Idle? && n in s.queue && n in s.cache && s.cache[n].ref == h && !s.cache[n].deleting
    requires s.cache[n].finalizer || Accepts(s, n, s.cache[n])
    requires h in s.headCache && s.headCache[h].policyMode.Database? && Parses(s.headCache[h].acl)
    ensures After(s, run).Some? && run == [Pop(n)] + seq(5, _ => Work(Succeeds, false))
    ensures var t := After(s, run).value;
      Current(t, h) && h !in t.unaccounted && t.cache == s.cache && t.headCache == s.headCache
  {
    var start := UndisturbedStart(s, n);
    run := UndisturbedPush(s, start, h);
  }

  /**
   A user who deletes an approver before the controller has put its finalizer on it, while a sibling's
   push already carried its entries: one way to a quiet state, with the old policy still active.
   */
  lemma DeletionComesToRest(s: State, n: Name, h: Name) returns (run: seq<Action>)
    requires s.cache == s.server && s.headCache == s.heads && s.log == [] && s.headLog == []
    requires s.worker.Idle? && s.queue == {n}
    requires n in s.server && s.server[n].ref == h && !s.server[n].deleting && !s.server[n].finalizer
    requires h in s.heads && Agrees(s, h)
    ensures After(s, run).Some? && [DeleteApprover(n)] <= run && forall a | a in run[1..] :: !IsUser(a)
    ensures var t := After(s, run).value;
      && Quiet(t, h) && h in t.unaccounted && t.server == s.server - {n} && t.heads == s.heads && t.active == s.active
      && (Agrees(t, h) <==>
           Render(s.heads[h].acl, Live(t.server, h)) == Render(s.heads[h].acl, Live(s.server, h)))
  {
    run := [];
    AfterOneMore(s, run, DeleteApprover(n));
    run := run + [DeleteApprover(n)];
    var t1 := After(s, run).value;
    assert t1.log == [Gone(n)];
    AfterOneMore(s, run, DeliverApprover);
    run := run + [DeliverApprover];
    var t2 := After(s, run).value;
    assert t2.queue == {n} && t2.log == [];
    AfterOneMore(s, run, Pop(n));
    run := run + [Pop(n)];
    AfterOneMore(s, run, Work(Succeeds, false));
    run := run + [Work(Succeeds, false)];
  }

  /** What "redundant" means: the approvers that remain have the same entries. */
  lemma RedundantEntries(acl: AclPolicy, before: map<Name, ApproverSpec>, after: map<Name, ApproverSpec>)
    requires Parses(acl)
    requires !Supplies(acl.inlineText, AUTO_APPROVERS)
    ensures Render(acl, after) == Render(acl, before) <==> SameEntries(InNameOrder(after), InNameOrder(before))
  {
    DocumentIsCanonical(Some(acl), InNameOrder(after), InNameOrder(before));
  }

  /** The state before such a deletion is reached: `b` is reconciled while `n` is new, and its push carries both. */
  lemma SiblingCarriesNewcomer(h: Name, acl: AclPolicy, b: Name, specB: ApproverSpec, n: Name, specN: ApproverSpec)
    returns (run: seq<Action>)
    requires b != n && Parses(acl)
    ensures After(INITIAL, run).Some?
    ensures var s := After(INITIAL, run).value;
      && s.cache == s.server && s.headCache == s.heads && s.log == [] && s.headLog == []
      && s.worker.Idle? && s.queue == {n} && s.server.Keys == {b, n}
      && s.server[n].ref == h && !s.server[n].deleting && !s.server[n].finalizer && s.server[n].spec == specN
      && s.server[b].ref == h && !s.server[b].deleting && s.server[b].spec == specB
      && h in s.heads && s.heads[h].policyMode.Database? && s.heads[h].acl == acl && Agrees(s, h)
  {
    hide Enabled, Live, Passes;
    var w := Work(Succeeds, false);
    run := ReadyToList(h, acl, b, specB, n, specN);
    var s1 := After(INITIAL, run).value;
    AfterOneMore(INITIAL, run, w);
    run := run + [w];
    var s2 := After(INITIAL, run).value;
    assert s2.worker == Pushing(b, s1.worker.obj, acl, Live(s1.cache, h));
    AfterOneMore(INITIAL, run, w);
    run := run + [w];
    var s3 := After(INITIAL, run).value;
    assert s3.worker == Reporting(b, s1.worker.obj, false);
    AfterOneMore(INITIAL, run, w);
    run := run + [w];
  }

  lemma Introduced(h: Name, acl: AclPolicy, b: Name, spec: ApproverSpec) returns (run: seq<Action>)
    ensures After(INITIAL, run).Some?
    ensures var v0, hs := Approver(h, spec, false, false, 1, 0), Headscale(acl, Database, 1);
      After(INITIAL, run).value == State(map[b := v0], map[b := v0], [], [v0], map[h := hs], map[h := hs], [],
        map[], {b}, Idle, {})
  {
    run := [];
    AfterOneMore(INITIAL, run, PutHeadscale(h, acl, Database));
    run := run + [PutHeadscale(h, acl, Database)];
    AfterOneMore(INITIAL, run, DeliverHeadscale);
    run := run + [DeliverHeadscale];
    AfterOneMore(INITIAL, run, CreateApprover(b, h, spec));
    run := run + [CreateApprover(b, h, spec)];
    AfterOneMore(INITIAL, run, DeliverApprover);
    run := run + [DeliverApprover];
  }

  lemma Finalized(h: Name, acl: AclPolicy, b: Name, spec: ApproverSpec) returns (run: seq<Action>)
    ensures After(INITIAL, run).Some?
    ensures var v0, v1, hs := Approver(h, spec, false, false, 1, 0), Approver(h, spec, true, false, 1, 1),
        Headscale(acl, Database, 1);
      After(INITIAL, run).value == State(map[b := v1], map[b := v0], [Put(b, v1)], [v0, v1],
        map[h := hs], map[h := hs], [], map[], {}, Fetching(b, v1), {})
  {
    var w := Work(Succeeds, false);
    run := Introduced(h, acl, b, spec);
    AfterOneMore(INITIAL, run, Pop(b));
    run := run + [Pop(b)];
    AfterOneMore(INITIAL, run, w);
    run := run + [w];
    AfterOneMore(INITIAL, run, w);
    run := run + [w];
  }

  lemma ReadyToList(h: Name, acl: AclPolicy, b: Name, specB: ApproverSpec, n: Name, specN: ApproverSpec)
    returns (run: seq<Action>)
    requires b != n
    ensures After(INITIAL, run).Some?
    ensures var s, vb := After(INITIAL, run).value, Approver(h, specB, true, false, 1, 1);
      && s.server == map[b := vb, n := Approver(h, specN, false, false, 1, 2)] == s.cache
      && s.heads == map[h := Headscale(acl, Database, 1)] == s.headCache && s.log == [] && s.headLog == []
      && s.queue == {n} && s.worker == Listing(b, vb, acl)
  {
    hide Enabled, Push;
    var w := Work(Succeeds, false);
    run := Finalized(h, acl, b, specB);
    AfterOneMore(INITIAL, run, w);
    run := run + [w];
    AfterOneMore(INITIAL, run, CreateApprover(n, h, specN));
    run := run + [CreateApprover(n, h, specN)];
    AfterOneMore(INITIAL, run, DeliverApprover);
    run := run + [DeliverApprover];
    AfterOneMore(INITIAL, run, DeliverApprover);
    run := run + [DeliverApprover];
  }

  lemma {:induction false} AfterConcat(s: State, first: seq<Action>, second: seq<Action>)
    requires After(s, first).Some?
    ensures After(s, first + second) == After(After(s, first).value, second)
    decreases |first|
  {
    if first == [] {
      assert first + second == second;
    } else {
      AfterConcat(Apply(s, first[0]), first[1..], second);
      assert (first + second)[1..] == first[1..] + second;
    }
  }

  /** So agreement does fail: a quiet run whose active policy still grants what no live approver asks for. */
  lemma AgreementCanFail(h: Name, acl: AclPolicy, b: Name, specB: ApproverSpec, n: Name, specN: ApproverSpec, tag: string)
    returns (run: seq<Action>)
    requires b != n && acl.inlineText == Blank
    requires tag in specN.exitNodeTags && tag !in specB.exitNodeTags
    ensures After(INITIAL, run).Some?
    ensures var s := After(INITIAL, run).value; Quiet(s, h) && Governed(s, h) && !Agrees(s, h)
  {
    var first := SiblingCarriesNewcomer(h, acl, b, specB, n, specN);
    var s := After(INITIAL, first).value;
    var second := DeletionComesToRest(s, n, h);
    AfterConcat(INITIAL, first, second);
    run := first + second;
    var t := After(INITIAL, run).value;
    assert b in t.server && HasLive(t.server, h);
    var before, after := Live(s.server, h), Live(t.server, h);
    RedundantEntries(acl, before, after);
    InNameOrderMembers(before, specN);
    assert before[n] == specN && ApprovesExit(InNameOrder(before), tag);
    if ApprovesExit(InNameOrder(after), tag) {
      var a :| a in InNameOrder(after) && tag in a.exitNodeTags;
      InNameOrderMembers(after, a);
    }
    assert !EntriesAgree(InNameOrder(after), InNameOrder(before), "", tag);
  }
}
