/** The HeadscaleUser reconciler. */
module HeadscaleUser {
  import opened Wrappers
  import opened Decimal
  import opened Calls
  import opened HeadscaleUserWorld
  import opened HeadscaleUserCalls

  /** The resource's condition says this of its present generation. */
  ghost predicate IsReported(r: Resource, ready: bool, reason: Reason) {
    && r.condition.Some? && r.condition.value.ready == ready && r.condition.value.reason == reason
    && r.condition.value.generation == r.generation
  }

  /** The user is there or can be made. */
  predicate CanHaveUser(s: State) {
    HasSpace(s) || IsTaken(s, s.username)
  }

  /** No call fails, nothing happens in between, and reads are current. */
  ghost predicate IsUndisturbedRun(plan: seq<Choice>, s: State) {
    Calm(plan) && |plan| >= 8 && CanHaveUser(s)
  }

  /** The resource is gone, and its user with it if Headscale is there. */
  ghost predicate SettledDeletion(s: State, t: State, r: Resource, outcome: Outcome)
    requires IsThere(s) && IsThere(t)
  {
    && outcome == Finished && Last(t.history) == None
    && (forall id | id in s.table && id !in t.table :: PrintNat(id) == r.userId)
    && (Last(s.headscales) && r.userId != "" ==> IsGone(r.userId, t))
  }

  /** The resource is as it was but for the UserID and the creation time, which are cleared. */
  ghost predicate Cleared(t: State, r: Resource)
    requires IsThere(t)
  {
    Last(t.history) == Some(r.(version := |t.history| - 1, userId := "", createdAt := ""))
  }

  ghost predicate Reported(s: State, t: State, ready: bool, reason: Reason, userId: string)
    requires IsThere(s) && IsThere(t)
  {
    && t.table == s.table
    && Last(t.history).Some? && IsReported(Last(t.history).value, ready, reason) && Last(t.history).value.userId == userId
  }

  /** The user is as the resource specifies it, recorded and reported. */
  ghost predicate SettledCreation(s: State, t: State, r: Resource, outcome: Outcome)
    requires IsThere(s) && IsThere(t)
  {
    && outcome == Finished && t.table == s.table[s.next := r.spec] && t.next == s.next + 1
    && Last(t.history).Some? && Last(t.history).value.userId == PrintNat(s.next)
    && IsReported(Last(t.history).value, true, UserCreated)
  }

  /** What a run that nothing interferes with brings about, by the state it starts in. */
  ghost predicate Settled(s: State, t: State, outcome: Outcome)
    requires IsThere(s) && IsThere(t) && Last(s.history).Some?
  {
    var r := Last(s.history).value;
    if r.deleting then SettledDeletion(s, t, r, outcome)
    else if !Last(s.headscales) then outcome == RetryAfter(30) && Reported(s, t, false, HeadscaleNotFound, r.userId)
    else if r.userId != "" then
      if IsTaken(s, r.spec.username) then outcome == Finished && Reported(s, t, true, UserReady, r.userId)
      else
        && outcome == Finished && t.table == s.table
        && Cleared(t, r)
    else if IsTaken(s, r.spec.username) then
      outcome == RetryAfter(30) && Reported(s, t, false, UserCreationFailed, "")
    else SettledCreation(s, t, r, outcome)
  }

  /** A user has the resource's name, but it is not the one that the resource has on record. */
  ghost predicate Stranded(s: State) {
    exists id :: id in s.table && s.table[id].username == s.username && PrintNat(id) != Recorded(s.history)
  }

  /** With a user of the resource's name there, that is so exactly if none is on record or the one on record is gone. */
  lemma StrandedMeansGone(s: State)
    requires Inv(s) && IsTaken(s, s.username)
    ensures Stranded(s) <==> Recorded(s.history) == "" || IsGone(Recorded(s.history), s)
  {
    var id :| id in s.table && s.table[id].username == s.username;
    PrintNotEmpty(id);
    if Recorded(s.history) != "" {
      RecordedIsKnown(s, s.history);
      var known :| known in s.known && s.known[known] == s.username && Recorded(s.history) == PrintNat(known);
      if known in s.table {
        assert id == known;
      } else {
        RemovedIsGone(s, known);
      }
    }
  }

  /** The user that the resource has on record is there and has its name. */
  ghost predicate HasItsUser(s: State) {
    exists id :: id in s.table && s.table[id].username == s.username && PrintNat(id) == Recorded(s.history)
  }

  /** From `s` to `t` a user of the resource's name was made whose id is not on record at the end. */
  ghost predicate ForgetsUser(s: State, t: State) {
    exists id :: id in t.table && id !in s.known && t.table[id].username == t.username && PrintNat(id) != Recorded(t.history)
  }

  /** With no stranded resource to begin with, that is the only way to one, so long as nobody else deletes users. */
  lemma StrandedByForgetting(s: State, t: State)
    requires Inv(s) && Inv(t) && NamesStay(s, t) && !Stranded(s)
    requires IsTaken(s, s.username) ==> Recorded(t.history) == Recorded(s.history)
    ensures Stranded(t) <==> ForgetsUser(s, t)
  {
  }

  /** A resource whose name is taken either has its user or is stranded. */
  lemma HasItsUserOrIsStranded(s: State)
    requires Inv(s)
    ensures !(HasItsUser(s) && Stranded(s)) && (IsTaken(s, s.username) <==> HasItsUser(s) || Stranded(s))
  {
  }

  /** From `s` to `t` a user of the resource's name was made, and nothing put on record. */
  ghost predicate Abandons(s: State, t: State) {
    && s.next in t.table && t.table[s.next].username == t.username == s.username
    && Recorded(t.history) == Recorded(s.history)
  }

  lemma AbandonedIsStranded(s: State, t: State)
    requires Inv(s) && Abandons(s, t)
    ensures Stranded(t)
  {
    FreshIsNotRecorded(s);
  }

  lemma AbandonedStays(s: State, profile: Profile, m: State, t: State)
    requires profile.username == s.username && m == WithUser(s, profile) && UsersStay(m, t)
    requires t.username == m.username && Recorded(t.history) == Recorded(m.history)
    ensures Abandons(s, t)
  {
    assert s.next in m.table;
  }

  lemma StrandedStays(s: State, t: State)
    requires Stranded(s) && OthersStay(s, t) && t.username == s.username && Recorded(t.history) == Recorded(s.history)
    ensures Stranded(t)
  {
    var id :| id in s.table && s.table[id].username == s.username && PrintNat(id) != Recorded(s.history);
    assert id in t.table;
  }

  /**
   A run that finds no user and makes one but does not get to put it on record: it ends after making it, or it
   started from an old version, so that the status update is refused.
   */
  ghost predicate IsCutShort(plan: seq<Choice>, s: State) {
    && IsThere(s) && Last(s.headscales) && !IsTaken(s, s.username) && HasSpace(s)
    && plan != [] && plan[0].before == Quiet && plan[0].answer == Success && Calm(plan[1..])
    && (|plan| == 4 || (|plan| >= 8 && plan[0].lag > 0))
    && var seen := Seen(s.history, plan[0].lag);
    seen.Some? && !seen.value.deleting && seen.value.finalizer && seen.value.userId == ""
  }

  /** The creation time to record with a new user: what Headscale reports of it, if anything. */
  function TimeOf(c: Choice): string {
    if c.createdAt.Some? then c.createdAt.value else ""
  }

  lemma AnswerIsHad(s: State, plan: seq<Choice>, calls: seq<Request>, m: nat, userId: string)
    requires IsThere(s) && m < |calls| && calls[m].GetHeadscale?
    requires var reply := ReplyTo(s, plan, calls, m);
      || (reply.Failed? && reply.error.code == NotFound)
      || (reply == Done && (userId == "" || TriesRemoval(s, plan, calls, m, userId)))
    ensures HadAnAnswer(s, plan, calls, userId)
  {
  }

  lemma ConnectReply(s: State, c: Choice)
    requires IsThere(s)
    ensures var reply := Exchange(s, c, Connect).1; reply == Done || reply.Failed?
  {
  }

  lemma PatchReply(s: State, c: Choice, patch: StatusPatch)
    requires IsThere(s)
    ensures var reply := Exchange(s, c, PatchStatus(patch)).1; reply.Resourced? || reply.Failed?
  {
  }

  lemma UpdateIsAnswered(s: State, c: Choice, r: Resource)
    requires IsThere(s)
    ensures var reply := Exchange(s, c, Update(r)).1; reply.Resourced? || reply.Failed?
  {
  }

  lemma StatusReply(s: State, c: Choice, r: Resource)
    requires IsThere(s)
    ensures var reply := Exchange(s, c, UpdateStatus(r)).1; reply.Resourced? || reply.Failed?
  {
  }

  lemma HeadscaleReply(s: State, c: Choice)
    requires IsThere(s)
    ensures var reply := Exchange(s, c, GetHeadscale).1; reply == Done || reply.Failed?
  {
  }

  /**
   However its calls end, a run makes each for what it was told before, ends as the last of them was answered, makes
   no call but the first when that fails, and finishes with a resource being deleted only once that is gone.
   */
  ghost predicate IsAnswered(s: State, plan: seq<Choice>, calls: seq<Request>, t: State, outcome: Outcome)
    requires IsThere(s) && t.history != []
  {
    var first := FirstRead(s, plan);
    && AllCalledFor(s, plan, calls) && Warrants(s, plan, calls, outcome)
    && (first.Failed? ==> calls == [GetResource])
    && (first.Resourced? && first.r.deleting && outcome == Finished ==> Last(t.history) == None)
  }

  function Trouble(reply: Reply): Error {
    if reply.Failed? then reply.error else Error(Other, "")
  }

  class Reconciler {
    var cluster: State
    var plan: seq<Choice>
    var key: Resource
    ghost const start: State
    ghost const script: seq<Choice>
    ghost var issued: seq<Request>

    constructor (s: State, p: seq<Choice>)
      requires IsThere(s)
      ensures Traced() && cluster == s && plan == p && issued == [] && start == s && script == p
    {
      cluster, plan, start, script, issued := s, p, s, p, [];
      key := Resource(0, 0, Profile("", "", "", ""), false, false, "", "", None);
    }

    /** The state is what the calls made so far have turned the first state into. */
    ghost predicate Traced()
      reads this`cluster, this`plan, this`issued
    {
      && IsThere(start) && AllLegit(start, script, issued)
      && cluster == After(start, script, issued) && plan == Rest(script, |issued|)
      && (issued != [] ==> issued[0] == GetResource)
      && AllCalledFor(start, script, issued)
    }

    lemma SoFar()
      requires Traced()
      ensures IsThere(start) && plan == Rest(script, |issued|)
    {
    }

    /** What the last call was answered warrants such an end of the run. */
    ghost predicate Ends(outcome: Outcome)
      reads this`issued
    {
      IsThere(start) && Warrants(start, script, issued, outcome)
    }

    /** What the calls so far were answered calls for this one. */
    ghost predicate CalledFor(q: Request)
      reads this`issued
    {
      IsThere(start) && IsCalledFor(start, script, issued, q)
    }

    /** What the last call was answered bears out such a condition. */
    ghost predicate BornOut(ready: bool, reason: Reason)
      reads this`issued
    {
      IsThere(start) && BearsOut(start, script, issued, ready, reason)
    }

    /** Likewise, and the resource has been read. */
    ghost predicate Underway()
      reads this`cluster, this`plan, this`issued
    {
      Traced() && issued != []
    }

    /** One call to the API server or to Headscale. */
    method Call(q: Request) returns (reply: Reply)
      requires Traced() && (issued == [] ==> q == GetResource)
      requires Inv(cluster) && Legit(cluster, q)
      requires CalledFor(q)
      modifies this`cluster, this`plan, this`issued
      ensures Underway() && issued == old(issued) + [q]
      ensures IsThere(start) && ReplyTo(start, script, issued, |issued| - 1) == reply
      ensures (cluster, reply) == Exchange(old(cluster), Head(old(plan)), q)
      ensures plan == Tail(old(plan))
      ensures Inv(cluster) && (IsMild(q) ==> Undisturbed(old(cluster), cluster))
      ensures !Head(old(plan)).before.OthersRemove? && !q.RemoveUser? ==> UsersStay(old(cluster), cluster)
    {
      hide Inv, Legit, Exchange, After, AllLegit, Undisturbed, UsersStay, IsCalledFor, AllCalledFor;
      InvIsThere(cluster);
      ExchangeKeepsInv(cluster, Head(plan), q);
      if IsMild(q) {
        MildExchange(cluster, Head(plan), q);
      }
      if !Head(plan).before.OthersRemove? && !q.RemoveUser? {
        UsersStayExchanged(cluster, Head(plan), q);
      }
      OneMoreCall(start, script, issued, q);
      OneMoreReply(start, script, issued, q);
      OneMoreCalledFor(start, script, issued, q);
      var exchanged := Exchange(cluster, Head(plan), q);
      cluster, reply, plan, issued := exchanged.0, exchanged.1, Tail(plan), issued + [q];
    }

    /** The object in hand is the present version. */
    ghost predicate Present()
      reads this
    {
      cluster.history != [] && Last(cluster.history) == Some(key)
    }

    lemma ReportIsCalledFor(before: Resource, condition: Condition)
      requires BornOut(condition.ready, condition.reason) && before.condition != Some(condition)
      ensures CalledFor(PatchStatus(DiffStatus(before, before.(condition := Some(condition)))))
    {
    }

    /** `updateStatusCondition`: a patch of what changed, made without a version check. */
    method UpdateStatusCondition(ready: bool, reason: Reason, about: string) returns (err: Option<Error>)
      requires Underway() && Inv(cluster) && BornOut(ready, reason)
      modifies this
      ensures Underway() && Inv(cluster) && Undisturbed(old(cluster), cluster) && Spent(old(plan), plan, 1)
      ensures NobodyLeaves(old(plan)) ==> UsersStay(old(cluster), cluster)
      ensures old(Calm(plan) && plan != [] && Present() && !key.deleting) ==>
        && err == None && Present() && cluster == old(cluster).(history := cluster.history)
        && key == old(key).(version := key.version, condition := Some(Condition(ready, reason, about, old(key.generation))))
      ensures old(plan) == [] ==> cluster == old(cluster)
      ensures Ends(if err != None then Errored else if ready then Finished else RetryAfter(WaitAfter(reason)))
    {
      hide IsCalledFor, Warrants, Traced, Exchange, Inv, ReplyTo, BearsOut, Undisturbed, UsersStay;
      err := None;
      SoFar();
      InvIsThere(cluster);
      NothingHappens(cluster);
      var before := key;
      var condition := Condition(ready, reason, about, key.generation);
      if key.condition == Some(condition) {
        ConditionWarrants(start, script, issued, ready, reason);
        return;
      }
      key := key.(condition := Some(condition));
      if Calm(plan) && plan != [] && Last(cluster.history) == Some(before) && !before.deleting {
        CalmPatch(cluster, Head(plan), before, condition);
      }
      ReportIsCalledFor(before, condition);
      PatchReply(cluster, Head(plan), DiffStatus(before, key));
      DeadCall(cluster, PatchStatus(DiffStatus(before, key)));
      var reply := Call(PatchStatus(DiffStatus(before, key)));
      AfterReporting(start, script, issued, ready, reason);
      if reply.Resourced? {
        key := reply.r;
      } else {
        err := Some(Trouble(reply));
      }
    }

    method Decline(reason: Reason, about: string, end: Outcome) returns (outcome: Outcome)
      requires Underway() && Inv(cluster) && BornOut(false, reason) && end == RetryAfter(WaitAfter(reason))
      modifies this
      ensures Underway() && Inv(cluster) && Undisturbed(old(cluster), cluster) && Spent(old(plan), plan, 1)
      ensures NobodyLeaves(old(plan)) ==> UsersStay(old(cluster), cluster)
      ensures outcome == end || outcome == Errored
      ensures old(Calm(plan) && plan != [] && Present() && !key.deleting) ==>
        && outcome == end && Present() && cluster == old(cluster).(history := cluster.history)
        && key.userId == old(key.userId) && IsReported(key, false, reason)
      ensures old(plan) == [] ==> cluster == old(cluster)
      ensures Ends(outcome)
    {
      hide Traced, Underway, Ends, BornOut;
      var err := UpdateStatusCondition(false, reason, about);
      outcome := if err == None then end else Errored;
    }

    method Accept(reason: Reason) returns (outcome: Outcome)
      requires Underway() && Inv(cluster) && BornOut(true, reason)
      modifies this
      ensures Underway() && Inv(cluster) && Undisturbed(old(cluster), cluster) && Spent(old(plan), plan, 1)
      ensures NobodyLeaves(old(plan)) ==> UsersStay(old(cluster), cluster)
      ensures old(Calm(plan) && plan != [] && Present() && !key.deleting) ==>
        && outcome == Finished && Present() && cluster == old(cluster).(history := cluster.history)
        && key.userId == old(key.userId) && IsReported(key, true, reason)
      ensures Ends(outcome)
    {
      hide Traced, Underway, Ends, BornOut;
      var err := UpdateStatusCondition(true, reason, "");
      outcome := if err == None then Finished else Errored;
    }

    /** `r.Update` of the object in hand, which the reply replaces. */
    method UpdateResource() returns (err: Option<Error>)
      requires Underway() && Inv(cluster) && Legit(cluster, Update(key))
      requires CalledFor(Update(key))
      modifies this
      ensures Underway() && Inv(cluster) && Undisturbed(old(cluster), cluster) && plan == Tail(old(plan))
      ensures NobodyLeaves(old(plan)) ==> UsersStay(old(cluster), cluster)
      ensures err == None ==>
        && key == old(key).(version := key.version)
        && (if key.deleting && !key.finalizer then Last(cluster.history).None? else TrueCopy(cluster, key))
      ensures old(Calm(plan) && plan != [] && key.version == |cluster.history| - 1) ==>
        && err == None && cluster == old(cluster).(history := cluster.history)
        && (!key.deleting || key.finalizer ==> Present())
      ensures (err != None ==> Ends(Errored)) && (err == None && key.deleting && !key.finalizer ==> Ends(Finished))
    {
      hide Traced, Inv, Exchange, ReplyTo, CalledFor, Undisturbed, UsersStay;
      err := None;
      InvIsThere(cluster);
      ghost var s0, c := cluster, Head(plan);
      var q := Update(key);
      if Calm(plan) && plan != [] && key.version == |cluster.history| - 1 {
        CalmUpdate(cluster, c, key);
      }
      UpdateIsAnswered(s0, c, key);
      var reply := Call(q);
      if reply.Resourced? {
        UpdateReply(s0, c, key);
        key := reply.r;
      } else {
        err := Some(Trouble(reply));
      }
    }

    /** `ensureFinalizer`. */
    method EnsureFinalizer() returns (err: Option<Error>)
      requires Underway() && Inv(cluster) && TrueCopy(cluster, key) && !key.deleting
      modifies this
      ensures Underway() && Inv(cluster) && Undisturbed(old(cluster), cluster) && Spent(old(plan), plan, 1)
      ensures NobodyLeaves(old(plan)) ==> UsersStay(old(cluster), cluster)
      ensures err == None ==> TrueCopy(cluster, key) && key == old(key).(version := key.version, finalizer := true)
      ensures old(Calm(plan) && plan != [] && Present()) ==>
        err == None && Present() && cluster == old(cluster).(history := cluster.history)
      ensures old(key.finalizer) ==> err == None && key == old(key) && cluster == old(cluster) && plan == old(plan)
      ensures err != None ==> Ends(Errored)
    {
      hide Traced, Ends;
      err := None;
      if !key.finalizer {
        if Present() {
          PresentIsLastVersion(cluster, key);
        }
        key := key.(finalizer := true);
        SoFar();
        err := UpdateResource();
      }
    }

    method OpenClient() returns (err: Option<Error>)
      requires Underway() && Inv(cluster) && CalledFor(Connect)
      modifies this`cluster, this`plan, this`issued
      ensures Underway() && Inv(cluster) && Undisturbed(old(cluster), cluster) && plan == Tail(old(plan))
      ensures NobodyLeaves(old(plan)) ==> UsersStay(old(cluster), cluster)
      ensures IsCalm(Head(old(plan))) ==> err == None && cluster == old(cluster)
      ensures issued == old(issued) + [Connect] && IsThere(start)
      ensures err == None <==> ClientIsOpen(start, script, issued)
      ensures err != None ==> ReplyTo(start, script, issued, |issued| - 1).Failed?
    {
      hide Traced, ReplyTo, IsCalledFor;
      ConnectReply(cluster, Head(plan));
      var reply := Call(Connect);
      err := if reply == Done then None else Some(Trouble(reply));
    }

    /** Whether the Headscale is there; `None` means the read failed. */
    method FindHeadscale() returns (found: Option<bool>)
      requires Underway() && Inv(cluster)
      modifies this`cluster, this`plan, this`issued
      ensures Underway() && Inv(cluster) && Undisturbed(old(cluster), cluster) && plan == Tail(old(plan))
      ensures NobodyLeaves(old(plan)) ==> UsersStay(old(cluster), cluster)
      ensures IsCalm(Head(old(plan))) ==> cluster == old(cluster) && found == Some(Last(old(cluster).headscales))
      ensures issued == old(issued) + [GetHeadscale] && IsThere(start)
      ensures var reply := ReplyTo(start, script, issued, |issued| - 1);
        && (found == Some(true) <==> reply == Done)
        && (found == Some(false) <==> reply.Failed? && reply.error.code == NotFound)
      ensures (found == Some(true) ==> CalledFor(Connect)) && (found == Some(false) ==> BornOut(false, HeadscaleNotFound))
      ensures found == None ==> Ends(Errored)
    {
      hide Traced, ReplyTo;
      SoFar();
      HeadscaleReply(cluster, Head(plan));
      var reply := Call(GetHeadscale);
      found := if reply == Done then Some(true) else if Trouble(reply).code == NotFound then Some(false) else None;
    }

    /** A status update of the object in hand; when it fails the object keeps what was not persisted. */
    method UpdateTheStatus() returns (err: Option<Error>)
      requires Underway() && Inv(cluster) && Legit(cluster, UpdateStatus(key)) && CalledFor(UpdateStatus(key))
      modifies this
      ensures Underway() && Inv(cluster) && OnlyRecord(old(cluster), cluster, old(key.userId)) && plan == Tail(old(plan))
      ensures NobodyLeaves(old(plan)) ==> UsersStay(old(cluster), cluster)
      ensures err == None ==> Present() && Recorded(cluster.history) == key.userId
      ensures key == old(key).(version := key.version)
      ensures old(Calm(plan) && plan != [] && key.version == |cluster.history| - 1) ==>
        err == None && cluster == old(cluster).(history := cluster.history)
      ensures old(plan == [] || (Calm(plan) && key.version < |cluster.history| - 1)) ==>
        err != None && cluster == old(cluster)
      ensures err == None ==> Ends(Finished) && BornOut(true, UserCreated)
      ensures err != None ==> BornOut(false, UserCreationFailed) && (key.userId == "" ==> Ends(Errored))
    {
      hide Inv, UsersStay, Exchange, IsCalledFor, BearsOut, Warrants, Traced, ReplyTo, CalledFor;
      SoFar();
      InvIsThere(cluster);
      DeadCall(cluster, UpdateStatus(key));
      StatusReply(cluster, Head(plan), key);
      StatusExchanged(cluster, Head(plan), key);
      if Calm(plan) && plan != [] && key.version < |cluster.history| - 1 {
        LateStatus(cluster, Head(plan), key);
      }
      if Calm(plan) && plan != [] && key.version == |cluster.history| - 1 {
        CalmStatus(cluster, Head(plan), key);
      }
      var reply := Call(UpdateStatus(key));
      AfterRecording(start, script, issued);
      if reply.Resourced? {
        key := reply.r;
        err := None;
      } else {
        err := Some(Trouble(reply));
      }
    }

    // ---------- Creation ----------

    method MakeAUser(profile: Profile) returns (id: nat, createdAt: Option<string>, err: Option<Error>)
      requires Underway() && Inv(cluster) && profile.username == cluster.username && IsSpecified(cluster, profile)
      requires CalledFor(CreateUser(profile))
      modifies this`cluster, this`plan, this`issued
      ensures Underway() && Inv(cluster) && Undisturbed(old(cluster), cluster) && plan == Tail(old(plan))
      ensures NobodyLeaves(old(plan)) ==>
        UsersStay(old(cluster), cluster) && (IsTaken(old(cluster), profile.username) ==> err != None)
      ensures err == None ==> id in cluster.known && cluster.known[id] == profile.username
      ensures IsCalm(Head(old(plan))) && (HasSpace(old(cluster)) || IsTaken(old(cluster), profile.username)) ==>
        if IsTaken(old(cluster), profile.username) then err != None && cluster == old(cluster)
        else err == None && id == old(cluster).next && cluster == WithUser(old(cluster), profile)
      ensures createdAt == Head(old(plan)).createdAt
      ensures issued == old(issued) + [CreateUser(profile)] && IsThere(start)
      ensures err == None ==> ReplyTo(start, script, issued, |issued| - 1) == Created(id)
      ensures createdAt == Head(Rest(script, |issued| - 1)).createdAt
      ensures err != None ==> BornOut(false, UserCreationFailed)
    {
      hide Inv, UsersStay, Undisturbed, IsCalledFor, BearsOut, Warrants, Traced, ReplyTo, CalledFor;
      ghost var s0, c := cluster, Head(plan);
      SoFar();
      InvIsThere(s0);
      createdAt := Head(plan).createdAt;
      CreateReply(s0, c, profile);
      if !c.before.OthersRemove? && IsTaken(s0, profile.username) {
        UsersStayUndisturbed(s0, c.before);
        TakenStays(s0, Disturb(s0, c.before), profile.username);
      }
      var reply := Call(CreateUser(profile));
      AfterCreating(start, script, issued);
      id, err := if reply.Created? then reply.id else 0, if reply.Created? then None else Some(Trouble(reply));
    }

    /** The user first, its id in the status second. */
    method MakeAndRecord() returns (err: Option<Error>)
      requires Underway() && Inv(cluster) && TrueCopy(cluster, key) && !key.deleting && key.finalizer && key.userId == ""
      requires CalledFor(CreateUser(key.spec))
      modifies this
      ensures Underway() && Inv(cluster) && old(cluster).history <= cluster.history && cluster.username == old(cluster).username
      ensures NobodyLeaves(old(plan)) ==> UsersStay(old(cluster), cluster)
      ensures NobodyLeaves(old(plan)) && IsTaken(old(cluster), old(cluster).username) ==>
        err != None && Recorded(cluster.history) == Recorded(old(cluster).history)
      ensures err == None ==> Present() && key.userId != "" && Recorded(cluster.history) == key.userId
      ensures old(Calm(plan) && |plan| >= 2 && Present() && CanHaveUser(cluster)) ==>
        if IsTaken(old(cluster), old(cluster).username) then err != None && cluster == old(cluster) && key == old(key)
        else
          && err == None && !key.deleting && key.userId == PrintNat(old(cluster).next)
          && cluster.table == old(cluster).table[old(cluster).next := old(key).spec]
          && cluster.next == old(cluster).next + 1
      ensures old(Calm(plan) && (|plan| == 1 || (|plan| >= 2 && key.version < |cluster.history| - 1))
                  && HasSpace(cluster) && !IsTaken(cluster, cluster.username)) ==>
        err != None && cluster == WithUser(old(cluster), old(key).spec)
      ensures Spent(old(plan), plan, 2)
      ensures err == None ==> BornOut(true, UserCreated) && key.createdAt == TimeOf(Head(old(plan)))
      ensures err != None ==> BornOut(false, UserCreationFailed)
    {
      hide Inv, Undisturbed, UsersStay, Legit, Traced, Underway, Ends, BornOut, ReplyTo, IsCalm, Recorded, VersionInv;
      ghost var s0, stay := cluster, NobodyLeaves(plan);
      CopyIsSound(s0, key);
      if Present() {
        PresentIsLastVersion(s0, key);
      }
      var id, createdAt;
      id, createdAt, err := MakeAUser(key.spec);
      ghost var s1 := cluster;
      WhatStays(s0, s1);
      if err != None {
        return;
      }
      InvIsThere(s1);
      RecordingIsLegit(s0, s1, key, id, createdAt);
      key := key.(userId := PrintNat(id), createdAt := if createdAt.Some? then createdAt.value else key.createdAt);
      err := UpdateTheStatus();
      UsersStayTwice(s0, s1, cluster, stay);
    }

    /**
     `createUser`: the user first, its id in the status second. While a user of that name exists and stays, no
     run gets any further.
     */
    method CreateTheUser() returns (err: Option<Error>)
      requires Underway() && Inv(cluster) && TrueCopy(cluster, key) && !key.deleting && key.finalizer && key.userId == ""
      requires CalledFor(Connect)
      modifies this
      ensures Underway() && Inv(cluster) && old(cluster).history <= cluster.history && cluster.username == old(cluster).username
      ensures NobodyLeaves(old(plan)) ==> UsersStay(old(cluster), cluster)
      ensures NobodyLeaves(old(plan)) && IsTaken(old(cluster), old(cluster).username) ==>
        err != None && Recorded(cluster.history) == Recorded(old(cluster).history)
      ensures err == None ==> Present() && key.userId != "" && Recorded(cluster.history) == key.userId
      ensures old(Calm(plan) && |plan| >= 3 && Present() && CanHaveUser(cluster)) ==>
        if IsTaken(old(cluster), old(cluster).username) then err != None && cluster == old(cluster) && key == old(key)
        else
          && err == None && !key.deleting && key.userId == PrintNat(old(cluster).next)
          && cluster.table == old(cluster).table[old(cluster).next := old(key).spec]
          && cluster.next == old(cluster).next + 1
      ensures old(Calm(plan) && (|plan| == 2 || (|plan| >= 3 && key.version < |cluster.history| - 1))
                  && HasSpace(cluster) && !IsTaken(cluster, cluster.username)) ==>
        err != None && cluster == WithUser(old(cluster), old(key).spec)
      ensures Spent(old(plan), plan, 3)
      ensures err == None ==> BornOut(true, UserCreated) && key.createdAt == TimeOf(Head(Tail(old(plan))))
      ensures err != None ==> BornOut(false, UserCreationFailed)
    {
      hide Inv, Undisturbed, UsersStay, Traced, Underway, Ends, ReplyTo;
      ghost var s0, stay := cluster, NobodyLeaves(plan);
      err := OpenClient();
      ghost var s1 := cluster;
      WhatStays(s0, s1);
      if err != None {
        return;
      }
      if stay && IsTaken(s0, s0.username) {
        TakenStays(s0, s1, s0.username);
      }
      CopyUndisturbed(s0, s1, key);
      err := MakeAndRecord();
      UsersStayTwice(s0, s1, cluster, stay);
    }

    // ---------- Verification ----------

    /** That there is no user of that name means the recorded one is gone. */
    method LookUpUser() returns (err: Option<Error>)
      requires Underway() && Inv(cluster) && TrueCopy(cluster, key) && key.userId != ""
      requires CalledFor(LookUp(key.spec.username))
      modifies this`cluster, this`plan, this`issued
      ensures Underway() && Inv(cluster) && Undisturbed(old(cluster), cluster) && plan == Tail(old(plan))
      ensures NobodyLeaves(old(plan)) ==> UsersStay(old(cluster), cluster)
      ensures err.Some? && err.value.code == NoSuchUser ==> IsGone(key.userId, cluster) && !IsTaken(cluster, cluster.username)
      ensures IsCalm(Head(old(plan))) ==>
        && cluster == old(cluster)
        && if IsTaken(cluster, key.spec.username) then err == None else err.Some? && err.value.code == NoSuchUser
      ensures err == None ==> BornOut(true, UserReady)
      ensures err.Some? && err.value.code == NoSuchUser ==> CalledFor(UpdateStatus(key.(userId := "", createdAt := "")))
      ensures err.Some? && err.value.code != NoSuchUser ==> BornOut(false, UserVerificationFailed)
    {
      hide Inv, Undisturbed, UsersStay, IsGone, IsTaken, Exchange, Traced, ReplyTo;
      ghost var s0 := cluster;
      SoFar();
      InvIsThere(s0);
      CopyIsSound(s0, key);
      LookUpReply(s0, Head(plan), key);
      var reply := Call(LookUp(key.spec.username));
      WhatStays(s0, cluster);
      err := if reply == Done then None else Some(Trouble(reply));
    }

    /** `verifyUser`: looks the user up by name. */
    method VerifyUser() returns (err: Option<Error>)
      requires Underway() && Inv(cluster) && TrueCopy(cluster, key) && key.userId != "" && CalledFor(Connect)
      modifies this`cluster, this`plan, this`issued
      ensures Underway() && Inv(cluster) && Undisturbed(old(cluster), cluster) && Spent(old(plan), plan, 2)
      ensures NobodyLeaves(old(plan)) ==> UsersStay(old(cluster), cluster)
      ensures err.Some? && err.value.code == NoSuchUser ==> IsGone(key.userId, cluster) && !IsTaken(cluster, cluster.username)
      ensures old(Calm(plan) && |plan| >= 2) ==>
        && cluster == old(cluster)
        && if IsTaken(cluster, key.spec.username) then err == None else err.Some? && err.value.code == NoSuchUser
      ensures err == None ==> BornOut(true, UserReady)
      ensures err.Some? && err.value.code == NoSuchUser ==> CalledFor(UpdateStatus(key.(userId := "", createdAt := "")))
      ensures err.Some? && err.value.code != NoSuchUser ==> BornOut(false, UserVerificationFailed)
    {
      hide Inv, Undisturbed, UsersStay, IsGone, IsTaken, Traced, ReplyTo, GivesUserId;
      ghost var s0, stay := cluster, NobodyLeaves(plan);
      err := OpenClient();
      ghost var s1 := cluster;
      WhatStays(s0, s1);
      if err != None {
        err := Some(Error(Other, err.value.text));
        return;
      }
      CopyUndisturbed(s0, s1, key);
      err := LookUpUser();
      UndisturbedTwice(s0, s1, cluster);
      UsersStayTwice(s0, s1, cluster, stay);
    }

    /** A UserID whose user is gone is cleared, and its creation time with it. */
    method ClearUserId() returns (outcome: Outcome)
      requires Underway() && Inv(cluster) && TrueCopy(cluster, key) && key.userId != "" && !key.deleting
      requires IsGone(key.userId, cluster)
      requires CalledFor(UpdateStatus(key.(userId := "", createdAt := "")))
      modifies this
      ensures Underway() && Inv(cluster) && OnlyRecord(old(cluster), cluster, "")
      ensures NobodyLeaves(old(plan)) ==> UsersStay(old(cluster), cluster)
      ensures old(Calm(plan) && plan != [] && Present()) ==>
        && outcome == Finished && Present() && key == old(key).(version := key.version, userId := "", createdAt := "")
        && cluster.table == old(cluster).table
      ensures Ends(outcome) && (outcome == Finished ==> Recorded(cluster.history) == "")
    {
      hide Traced, Underway, Ends, CalledFor, BornOut;
      if Present() {
        PresentIsLastVersion(cluster, key);
      }
      key := key.(userId := "", createdAt := "");
      var err := UpdateTheStatus();
      outcome := if err == None then Finished else Errored;
    }

    // ---------- Deletion ----------

    /** `deleteUser`; whether it worked does not matter to the deletion. */
    method DeleteTheUser()
      requires Underway() && Inv(cluster) && TrueCopy(cluster, key) && key.deleting && key.userId != "" && CalledFor(Connect)
      modifies this`cluster, this`plan, this`issued
      ensures Underway() && Inv(cluster) && old(cluster).history <= cluster.history && cluster.username == old(cluster).username
      ensures Recorded(cluster.history) == Recorded(old(cluster).history)
      ensures NobodyLeaves(old(plan)) ==> OthersStay(old(cluster), cluster)
      ensures Spent(old(plan), plan, 2)
      ensures old(Calm(plan) && |plan| >= 2) ==>
        && cluster == old(cluster).(table := cluster.table, removed := cluster.removed)
        && IsGone(key.userId, cluster)
        && (forall id | id in old(cluster).table && id !in cluster.table :: PrintNat(id) == key.userId)
      ensures old(issued) < issued && IsThere(start) && TriesRemoval(start, script, issued, |old(issued)| - 1, key.userId)
      ensures ReplyTo(start, script, issued, |old(issued)| - 1) == ReplyTo(start, script, old(issued), |old(issued)| - 1)
    {
      hide Inv, Undisturbed, Traced, ReplyTo, TriesRemoval, Exchange, IsCalm;
      ghost var s0, before := cluster, issued;
      CopyIsSound(s0, key);
      var id := ParseUint(key.userId, UINT64_LIMIT);
      UserIdParses(s0, key);
      if id == None {
        return;
      }
      var err := OpenClient();
      ghost var s1 := cluster;
      WhatStays(s0, s1);
      if err != None {
        TriedByConnecting(start, script, before, key.userId);
        return;
      }
      CopyUndisturbed(s0, s1, key);
      CopyIsSound(s1, key);
      InvIsThere(s1);
      ghost var c := Head(plan);
      RemoveExchanged(s1, c, id.value);
      if NobodyLeaves(old(plan)) {
        OthersStayRemoved(s1, c, id.value);
      }
      TriedByAsking(start, script, before, id.value);
      var _ := Call(RemoveUser(id.value));
      if NobodyLeaves(old(plan)) {
        OthersStayTwice(s0, s1, cluster);
      }
      if IsCalm(c) {
        RemovedIsGone(cluster, id.value);
      }
    }

    lemma AnswerCallsForLeaving(r: Resource)
      requires IsThere(start) && HadAnAnswer(start, script, issued, r.userId)
      ensures CalledFor(Update(r.(finalizer := false)))
    {
    }

    method RemoveFinalizer() returns (outcome: Outcome)
      requires Underway() && Inv(cluster) && TrueCopy(cluster, key) && key.deleting
      requires CalledFor(Update(key.(finalizer := false)))
      modifies this
      ensures Underway() && Inv(cluster) && Undisturbed(old(cluster), cluster)
      ensures NobodyLeaves(old(plan)) ==> UsersStay(old(cluster), cluster)
      ensures Ends(outcome) && (outcome == Finished ==> Last(cluster.history) == None)
      ensures old(Calm(plan) && plan != [] && key.version == |cluster.history| - 1) ==>
        outcome == Finished && cluster == old(cluster).(history := cluster.history)
    {
      hide Traced, Underway, Ends, CalledFor;
      key := key.(finalizer := false);
      var err := UpdateResource();
      outcome := if err == None then Finished else Errored;
    }

    /** `handleDeletion`: the user goes first if it can, then the resource in any case. */
    method HandleDeletion() returns (outcome: Outcome)
      requires Underway() && Inv(cluster) && TrueCopy(cluster, key) && key.deleting
      modifies this
      ensures Underway() && Inv(cluster) && old(cluster).history <= cluster.history && cluster.username == old(cluster).username
      ensures Recorded(cluster.history) == Recorded(old(cluster).history)
      ensures NobodyLeaves(old(plan)) ==> OthersStay(old(cluster), cluster)
      ensures old(Calm(plan) && |plan| >= 4 && Present()) ==> SettledDeletion(old(cluster), cluster, old(key), outcome)
      ensures Ends(outcome) && (outcome == Finished ==> Last(cluster.history) == None)
    {
      hide CalledFor, BornOut, OthersStay, UsersStay, Inv, Undisturbed, Traced, Underway, Ends, ReplyTo, HadAnAnswer,
        TriesRemoval, IsCalm, Recorded, IsThere, VersionInv;
      ghost var s0 := cluster;
      CopyIsSound(s0, key);
      if Present() {
        PresentIsLastVersion(s0, key);
      }
      outcome := Finished;
      if key.finalizer {
        var found := FindHeadscale();
        ghost var s1 := cluster;
        WhatStays(s0, s1);
        CopyUndisturbed(s0, s1, key);
        if NobodyLeaves(old(plan)) {
          UsersAreOthers(s0, s1);
        }
        if found == None {
          return Errored;
        }
        ghost var asked, told := |issued| - 1, ReplyTo(start, script, issued, |issued| - 1);
        assert issued[asked].GetHeadscale?;
        if found.value && key.userId != "" {
          DeleteTheUser();
          assert issued[asked].GetHeadscale? && ReplyTo(start, script, issued, asked) == told;
        }
        assert found.value || found == Some(false);
        AnswerIsHad(start, script, issued, asked, key.userId);
        AnswerCallsForLeaving(key);
        ghost var s2 := cluster;
        CopyUndisturbed(s0, s2, key);
        outcome := RemoveFinalizer();
        WhatStays(s2, cluster);
        if NobodyLeaves(old(plan)) {
          if s1 != s2 {
            OthersStayTwice(s0, s1, s2);
          }
          OthersStayTwice(s0, s2, cluster);
        }
      }
    }

    // ---------- Reconcile ----------

    method ReadResource() returns (found: bool, missing: bool)
      requires Traced() && issued == [] && Inv(cluster)
      modifies this
      ensures Underway() && Inv(cluster) && Undisturbed(old(cluster), cluster) && plan == Tail(old(plan))
      ensures NobodyLeaves(old(plan)) ==> UsersStay(old(cluster), cluster)
      ensures found ==> TrueCopy(cluster, key)
      ensures var reply := FirstRead(start, script);
        && (found ==> reply == Resourced(key))
        && (!found ==> reply.Failed? && issued == [GetResource] && Ends(if missing then Finished else Errored))
      ensures Head(old(plan)).before == Quiet && Head(old(plan)).answer == Success ==>
        && cluster == old(cluster) && missing == !found
        && Seen(old(cluster).history, Head(old(plan)).lag) == if found then Some(key) else None
    {
      hide Traced;
      SoFar();
      NothingIssued();
      ReadIsTrue(cluster, Head(plan));
      var reply := Call(GetResource);
      found, missing := reply.Resourced?, reply.Failed? && reply.error.code == NotFound;
      if reply.Resourced? {
        key := reply.r;
      }
    }

    /** A run on a resource with a UserID: verified by name, and cleared if there is no such user. */
    method ReconcileKnown() returns (outcome: Outcome)
      requires Underway() && Inv(cluster) && TrueCopy(cluster, key) && !key.deleting && key.userId != ""
      requires CalledFor(Connect)
      modifies this
      ensures Underway() && Inv(cluster) && old(cluster).history <= cluster.history && cluster.username == old(cluster).username
      ensures Ends(outcome)
      ensures Recorded(cluster.history) == Recorded(old(cluster).history) || Recorded(cluster.history) == ""
      ensures NobodyLeaves(old(plan)) ==> UsersStay(old(cluster), cluster)
      ensures NobodyLeaves(old(plan)) && IsTaken(old(cluster), old(cluster).username) ==>
        Recorded(cluster.history) == Recorded(old(cluster).history)
      ensures old(Calm(plan) && |plan| >= 3 && Present()) ==>
        if IsTaken(old(cluster), old(key).spec.username) then
          outcome == Finished && Reported(old(cluster), cluster, true, UserReady, old(key).userId)
        else
          && outcome == Finished && cluster.table == old(cluster).table
          && Cleared(cluster, old(key))
    {
      hide Inv, Undisturbed, IsGone, Traced, Underway, Ends, CalledFor, BornOut;
      ghost var s0 := cluster;
      var err := VerifyUser();
      ghost var s1 := cluster;
      WhatStays(s0, s1);
      CopyUndisturbed(s0, s1, key);
      if err == None {
        outcome := Accept(UserReady);
        WhatStays(s1, cluster);
      } else if err.value.code == NoSuchUser {
        if NobodyLeaves(old(plan)) && IsTaken(s0, s0.username) {
          TakenStays(s0, s1, s0.username);
        }
        outcome := ClearUserId();
        if Present() {
          PresentIsLastVersion(cluster, key);
        }
      } else {
        outcome := Decline(UserVerificationFailed, err.value.text, RetryAfter(60));
        WhatStays(s1, cluster);
      }
    }

    method CreateAndReport() returns (outcome: Outcome)
      requires Underway() && Inv(cluster) && TrueCopy(cluster, key) && !key.deleting && key.finalizer && key.userId == ""
      requires CalledFor(Connect)
      modifies this
      ensures Ends(outcome)
      ensures Underway() && Inv(cluster) && old(cluster).history <= cluster.history && cluster.username == old(cluster).username
      ensures NobodyLeaves(old(plan)) ==> UsersStay(old(cluster), cluster)
      ensures NobodyLeaves(old(plan)) && IsTaken(old(cluster), old(cluster).username) ==>
        Recorded(cluster.history) == Recorded(old(cluster).history)
      ensures old(Calm(plan) && |plan| >= 4 && Present() && CanHaveUser(cluster)) ==>
        if IsTaken(old(cluster), old(cluster).username) then
          outcome == RetryAfter(30) && Reported(old(cluster), cluster, false, UserCreationFailed, "")
        else SettledCreation(old(cluster), cluster, old(key), outcome)
      ensures old(Calm(plan) && (|plan| == 2 || (|plan| >= 3 && key.version < |cluster.history| - 1))
                  && HasSpace(cluster) && !IsTaken(cluster, cluster.username)) ==>
        Abandons(old(cluster), cluster)
    {
      hide Inv, Undisturbed, Abandons, Traced, Underway, Ends, CalledFor, BornOut;
      ghost var s0, profile := cluster, key.spec;
      CopyIsSound(s0, key);
      var err := CreateTheUser();
      ghost var s1 := cluster;
      if err != None {
        outcome := Decline(UserCreationFailed, err.value.text, RetryAfter(30));
      } else {
        outcome := Accept(UserCreated);
      }
      WhatStays(s1, cluster);
      if s1 == WithUser(s0, profile) && UsersStay(s1, cluster) {
        AbandonedStays(s0, profile, s1, cluster);
      }
    }

    /** A run on a resource that is not being deleted. */
    method ReconcileLive() returns (outcome: Outcome)
      requires Underway() && Inv(cluster) && TrueCopy(cluster, key) && !key.deleting
      modifies this
      ensures Ends(outcome)
      ensures Underway() && Inv(cluster) && old(cluster).history <= cluster.history && cluster.username == old(cluster).username
      ensures NobodyLeaves(old(plan)) ==> UsersStay(old(cluster), cluster)
      ensures NobodyLeaves(old(plan)) && IsTaken(old(cluster), old(cluster).username) ==>
        Recorded(cluster.history) == Recorded(old(cluster).history)
      ensures old(Calm(plan) && |plan| >= 7 && Present() && CanHaveUser(cluster)) ==> Settled(old(cluster), cluster, outcome)
      ensures old(Calm(plan) && (|plan| == 3 || (|plan| >= 4 && key.version < |cluster.history| - 1))
                  && HasSpace(cluster) && !IsTaken(cluster, cluster.username)
                  && Last(cluster.headscales) && key.finalizer && key.userId == "") ==>
        Abandons(old(cluster), cluster)
    {
      hide Inv, Undisturbed, Abandons, UsersStay, Traced, Underway, Ends;
      ghost var s0, stay := cluster, NobodyLeaves(plan);
      CopyIsSound(s0, key);
      if Present() {
        PresentIsLastVersion(s0, key);
      }
      var err := EnsureFinalizer();
      ghost var s1 := cluster;
      WhatStays(s0, s1);
      if err != None {
        return Errored;
      }
      if stay && IsTaken(s0, s0.username) {
        TakenStays(s0, s1, s0.username);
      }
      outcome := ReconcileGuarded();
      UsersStayTwice(s0, s1, cluster, stay);
    }

    /** A run on a resource that has its finalizer. */
    method ReconcileGuarded() returns (outcome: Outcome)
      requires Underway() && Inv(cluster) && TrueCopy(cluster, key) && !key.deleting && key.finalizer
      modifies this
      ensures Ends(outcome)
      ensures Underway() && Inv(cluster) && old(cluster).history <= cluster.history && cluster.username == old(cluster).username
      ensures NobodyLeaves(old(plan)) ==> UsersStay(old(cluster), cluster)
      ensures NobodyLeaves(old(plan)) && IsTaken(old(cluster), old(cluster).username) ==>
        Recorded(cluster.history) == Recorded(old(cluster).history)
      ensures old(Calm(plan) && |plan| >= 6 && Present() && CanHaveUser(cluster)) ==> Settled(old(cluster), cluster, outcome)
      ensures old(Calm(plan) && (|plan| == 3 || (|plan| >= 4 && key.version < |cluster.history| - 1))
                  && HasSpace(cluster) && !IsTaken(cluster, cluster.username)
                  && Last(cluster.headscales) && key.userId == "") ==>
        Abandons(old(cluster), cluster)
    {
      hide Cleared, Inv, Undisturbed, Abandons, UsersStay, Traced, Underway, Ends, CalledFor, BornOut, Exchange;
      ghost var s0, stay := cluster, NobodyLeaves(plan);
      CopyIsSound(s0, key);
      if Present() {
        PresentIsLastVersion(s0, key);
      }
      var found := FindHeadscale();
      ghost var s1 := cluster;
      WhatStays(s0, s1);
      if found == None {
        return Errored;
      }
      if found == Some(false) {
        outcome := Decline(HeadscaleNotFound, "", RetryAfter(30));
        WhatStays(s1, cluster);
        UsersStayTwice(s0, s1, cluster, stay);
        return;
      }
      assert found.value;
      CopyUndisturbed(s0, s1, key);
      if stay && IsTaken(s0, s0.username) {
        TakenStays(s0, s1, s0.username);
      }
      if key.userId != "" {
        outcome := ReconcileKnown();
      } else {
        outcome := CreateAndReport();
      }
      UsersStayTwice(s0, s1, cluster, stay);
    }

    /** A run that has read the resource. */
    method Proceed() returns (outcome: Outcome)
      requires Underway() && Inv(cluster) && TrueCopy(cluster, key)
      modifies this
      ensures Underway() && Inv(cluster) && old(cluster).history <= cluster.history
      ensures cluster.username == old(cluster).username
      ensures Ends(outcome) && (outcome == Finished && old(key.deleting) ==> Last(cluster.history) == None)
      ensures NobodyLeaves(old(plan)) ==> OthersStay(old(cluster), cluster)
      ensures NobodyLeaves(old(plan)) && IsTaken(old(cluster), old(cluster).username) ==>
        Recorded(cluster.history) == Recorded(old(cluster).history)
      ensures old(Calm(plan) && |plan| >= 7 && Present() && CanHaveUser(cluster)) ==> Settled(old(cluster), cluster, outcome)
      ensures old(Calm(plan) && (|plan| == 3 || (|plan| >= 4 && key.version < |cluster.history| - 1))
                  && HasSpace(cluster) && !IsTaken(cluster, cluster.username)
                  && Last(cluster.headscales) && key.finalizer && key.userId == "" && !key.deleting) ==>
        Abandons(old(cluster), cluster)
    {
      hide Inv, Undisturbed, Abandons, OthersStay, UsersStay, IsTaken, Traced, Underway, Ends, SettledDeletion;
      ghost var s0 := cluster;
      if key.deleting {
        CopyIsSound(s0, key);
        outcome := HandleDeletion();
      } else {
        outcome := ReconcileLive();
        if NobodyLeaves(old(plan)) {
          UsersAreOthers(s0, cluster);
        }
      }
    }

    /**
     `Reconcile`. If nothing interferes, a run brings about what the present state calls for. While a user of the
     resource's name stays in Headscale, no run changes which user is on record, and no run deletes another. A run
     that is cut short leaves a user that is not on record.
     */
    method Reconcile() returns (outcome: Outcome)
      requires Traced() && issued == [] && Inv(cluster)
      modifies this
      ensures Underway() && Inv(cluster) && old(cluster).history <= cluster.history
      ensures cluster.username == old(cluster).username
      ensures NobodyLeaves(old(plan)) ==> OthersStay(old(cluster), cluster)
      ensures NobodyLeaves(old(plan)) && IsTaken(old(cluster), old(cluster).username) ==>
        Recorded(cluster.history) == Recorded(old(cluster).history)
      ensures IsUndisturbedRun(old(plan), old(cluster)) && Last(old(cluster).history).Some? ==>
        Settled(old(cluster), cluster, outcome)
      ensures IsCutShort(old(plan), old(cluster)) ==> Abandons(old(cluster), cluster)
      ensures NobodyLeaves(old(plan)) && !Stranded(old(cluster)) ==> (Stranded(cluster) <==> ForgetsUser(old(cluster), cluster))
      ensures IsAnswered(start, script, issued, cluster, outcome)
    {
      hide Inv, Undisturbed, Abandons, OthersStay, UsersStay, IsTaken, Settled, Stranded, ForgetsUser, Traced, Ends,
        IsAnswered;
      ghost var s0 := cluster;
      NothingIssued();
      InvIsThere(s0);
      assert plan != [] ==> Head(plan) in plan;
      var found, missing := ReadResource();
      ghost var s1 := cluster;
      WhatStays(s0, s1);
      if NobodyLeaves(old(plan)) {
        UsersAreOthers(s0, s1);
        if IsTaken(s0, s0.username) {
          TakenStays(s0, s1, s0.username);
        }
      }
      if found {
        if IsCutShort(old(plan), s0) {
          SeenVersion(s0, old(plan)[0].lag, key);
        }
        outcome := Proceed();
        if NobodyLeaves(old(plan)) {
          OthersStayTwice(s0, s1, cluster);
        }
      } else {
        outcome := if missing then Finished else Errored;
      }
      RunIsAnswered(outcome);
      if NobodyLeaves(old(plan)) && !Stranded(s0) {
        OnlyByForgetting(s0, old(plan));
      }
    }

    lemma RunIsAnswered(outcome: Outcome)
      requires Traced() && Inv(cluster) && Ends(outcome)
      requires var first := FirstRead(start, script);
        && (first.Failed? ==> issued == [GetResource])
        && (first.Resourced? && first.r.deleting && outcome == Finished ==> Last(cluster.history) == None)
      ensures IsAnswered(start, script, issued, cluster, outcome)
    {
    }

    lemma NothingIssued()
      requires Traced() && issued == []
      ensures cluster == start && plan == script
    {
    }

    lemma OnlyByForgetting(s: State, p: seq<Choice>)
      requires Traced() && Inv(s) && Inv(cluster) && s == start && p == script && !Stranded(s)
      requires IsTaken(s, s.username) ==> Recorded(cluster.history) == Recorded(s.history)
      ensures Stranded(cluster) <==> ForgetsUser(s, cluster)
    {
      hide Inv, Stranded, ForgetsUser, IsTaken;
      CallsKeepNames(s, p, issued);
      StrandedByForgetting(s, cluster);
    }
  }
}
