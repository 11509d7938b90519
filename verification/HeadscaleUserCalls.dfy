/** One call of the HeadscaleUser reconciler: what may happen before it, how it may end, what it leaves alone. */
module HeadscaleUserCalls {
  import opened Wrappers
  import opened Decimal
  import opened Calls
  import opened HeadscaleUserWorld

  /** `createdAt` is the creation time Headscale would report of a new user, if any. */
  datatype Choice = Choice(before: Disturbance, answer: Answer, lag: nat, createdAt: Option<string>)

  /** Past the end of the plan the controller is dead: nothing it calls takes effect. */
  function Head(plan: seq<Choice>): Choice {
    Next(plan, Choice(Quiet, Refused("stopped"), 0, None))
  }

  function Exchange(s: State, c: Choice, q: Request): (r: (State, Reply))
    requires IsThere(s)
    ensures IsThere(r.0)
  {
    var mid := Disturb(s, c.before);
    match c.answer
    case Success => Serve(mid, q, c.lag)
    case Refused(text) => (mid, Failed(Error(Other, text)))
    case Unanswered(text) => (Serve(mid, q, c.lag).0, Failed(Error(Other, text)))
  }

  lemma DeadCall(s: State, q: Request)
    requires IsThere(s)
    ensures Exchange(s, Head([]), q).0 == s && Exchange(s, Head([]), q).1.Failed?
  {
  }

  // ---------- The calls of a run ----------

  /** The state after these calls, each served by its choice of the plan. */
  function After(s: State, plan: seq<Choice>, calls: seq<Request>): (t: State)
    requires IsThere(s)
    ensures IsThere(t)
  {
    if calls == [] then s
    else
      var n := |calls| - 1;
      Exchange(After(s, plan, calls[..n]), Head(Rest(plan, n)), calls[n]).0
  }

  /** Each of these calls was legitimate when it was made. */
  ghost predicate AllLegit(s: State, plan: seq<Choice>, calls: seq<Request>)
    requires IsThere(s)
  {
    forall n | 0 <= n < |calls| :: Legit(After(s, plan, calls[..n]), calls[n])
  }

  lemma AfterLast(s: State, plan: seq<Choice>, calls: seq<Request>, n: nat)
    requires IsThere(s) && |calls| == n + 1
    ensures After(s, plan, calls) == Exchange(After(s, plan, calls[..n]), Head(Rest(plan, n)), calls[n]).0
  {
    hide Exchange;
  }

  lemma OneMoreCall(s: State, plan: seq<Choice>, calls: seq<Request>, q: Request)
    requires IsThere(s)
    ensures After(s, plan, calls + [q]) == Exchange(After(s, plan, calls), Head(Rest(plan, |calls|)), q).0
    ensures Rest(plan, |calls + [q]|) == Tail(Rest(plan, |calls|))
    ensures AllLegit(s, plan, calls) && Legit(After(s, plan, calls), q) ==> AllLegit(s, plan, calls + [q])
  {
    hide Legit, Exchange, After;
    var more := calls + [q];
    assert more[..|calls|] == calls;
    AfterLast(s, plan, more, |calls|);
    if AllLegit(s, plan, calls) && Legit(After(s, plan, calls), q) {
      forall n | 0 <= n < |more| ensures Legit(After(s, plan, more[..n]), more[n]) {
        assert n < |calls| ==> more[..n] == calls[..n];
      }
    }
  }

  lemma LastCall(s: State, plan: seq<Choice>, calls: seq<Request>, n: nat)
    requires IsThere(s) && AllLegit(s, plan, calls) && |calls| == n + 1
    ensures AllLegit(s, plan, calls[..n]) && Legit(After(s, plan, calls[..n]), calls[n])
    ensures After(s, plan, calls) == Exchange(After(s, plan, calls[..n]), Head(Rest(plan, n)), calls[n]).0
  {
    hide Legit, Exchange, After, Rest;
    AfterLast(s, plan, calls, n);
    forall i | 0 <= i < n ensures Legit(After(s, plan, calls[..n][..i]), calls[..n][i]) {
      assert calls[..n][..i] == calls[..i];
    }
  }

  /** The invariant holds after every one of them. */
  lemma {:induction false} CallsKeepInv(s: State, plan: seq<Choice>, calls: seq<Request>)
    requires Inv(s) && IsThere(s) && AllLegit(s, plan, calls)
    ensures Inv(After(s, plan, calls))
    decreases |calls|
  {
    hide Inv, Legit, Exchange, AllLegit;
    if calls != [] {
      var n := |calls| - 1;
      LastCall(s, plan, calls, n);
      CallsKeepInv(s, plan, calls[..n]);
      ExchangeKeepsInv(After(s, plan, calls[..n]), Head(Rest(plan, n)), calls[n]);
    }
  }

  // ---------- What calls were told ----------

  predicate IsMissing(reply: Reply) {
    reply.Failed? && reply.error.code == NotFound
  }

  /** What the `n`-th of these calls was answered. */
  function ReplyTo(s: State, plan: seq<Choice>, calls: seq<Request>, n: nat): Reply
    requires IsThere(s) && n < |calls|
  {
    Exchange(After(s, plan, calls[..n]), Head(Rest(plan, n)), calls[n]).1
  }

  /** The update with which the controller lets go of a resource being deleted. */
  predicate LetsGo(q: Request) {
    q.Update? && q.r.deleting && !q.r.finalizer
  }

  /** After the `m`-th of these calls the removal of this user was attempted: asked for, or the client did not open. */
  ghost predicate TriesRemoval(s: State, plan: seq<Choice>, calls: seq<Request>, m: nat, userId: string)
    requires IsThere(s)
  {
    exists k | m < k < |calls| ::
      (calls[k].RemoveUser? && PrintNat(calls[k].id) == userId) || (calls[k].Connect? && ReplyTo(s, plan, calls, k) != Done)
  }

  /**
   These calls got an answer about the Headscale: it is not there, or it is, and then the removal of the user with
   this id, if any, was attempted.
   */
  ghost predicate HadAnAnswer(s: State, plan: seq<Choice>, calls: seq<Request>, userId: string)
    requires IsThere(s)
  {
    exists m | 0 <= m < |calls| && calls[m].GetHeadscale? ::
      var reply := ReplyTo(s, plan, calls, m);
      || IsMissing(reply)
      || (reply == Done && (userId == "" || TriesRemoval(s, plan, calls, m, userId)))
  }

  /** One of these calls was told whether the Headscale is there. */
  ghost predicate WasTold(s: State, plan: seq<Choice>, calls: seq<Request>)
    requires IsThere(s)
  {
    exists m | 0 <= m < |calls| && calls[m].GetHeadscale? ::
      ReplyTo(s, plan, calls, m) == Done || IsMissing(ReplyTo(s, plan, calls, m))
  }

  ghost predicate SawHeadscale(s: State, plan: seq<Choice>, calls: seq<Request>)
    requires IsThere(s)
  {
    exists m | 0 <= m < |calls| :: calls[m].GetHeadscale? && ReplyTo(s, plan, calls, m) == Done
  }

  ghost predicate ClientIsOpen(s: State, plan: seq<Choice>, calls: seq<Request>)
    requires IsThere(s)
  {
    calls != [] && Last(calls) == Connect && ReplyTo(s, plan, calls, |calls| - 1) == Done
  }

  /** What the last of these calls was answered bears out such a condition. */
  ghost predicate BearsOut(s: State, plan: seq<Choice>, calls: seq<Request>, ready: bool, reason: Reason)
    requires IsThere(s)
  {
    calls != [] &&
    var q, reply := Last(calls), ReplyTo(s, plan, calls, |calls| - 1);
    match reason
    case UserReady => ready && q.LookUp? && reply == Done
    case UserCreated => ready && q.UpdateStatus? && reply.Resourced?
    case HeadscaleNotFound => !ready && q.GetHeadscale? && reply.Failed? && reply.error.code == NotFound
    case UserVerificationFailed => !ready && (q.Connect? || q.LookUp?) && reply.Failed?
    case UserCreationFailed => !ready && (q.Connect? || q.CreateUser? || q.UpdateStatus?) && reply.Failed?
  }

  /** The last of these calls gives this UserID and creation time to record, or the reason to clear them. */
  ghost predicate GivesUserId(s: State, plan: seq<Choice>, calls: seq<Request>, r: Resource)
    requires IsThere(s)
  {
    calls != [] &&
    var q, reply, c := Last(calls), ReplyTo(s, plan, calls, |calls| - 1), Head(Rest(plan, |calls| - 1));
    if r.userId != "" then
      && q == CreateUser(r.spec) && reply.Created? && r.userId == PrintNat(reply.id)
      && r.createdAt == if c.createdAt.Some? then c.createdAt.value else ""
    else q == LookUp(r.spec.username) && reply.Failed? && reply.error.code == NoSuchUser
  }

  /** What these calls were answered calls for this one. */
  ghost predicate IsCalledFor(s: State, plan: seq<Choice>, calls: seq<Request>, q: Request)
    requires IsThere(s)
  {
    match q
    case Update(r) => LetsGo(q) ==> HadAnAnswer(s, plan, calls, r.userId)
    case Connect => SawHeadscale(s, plan, calls)
    case CreateUser(_) => ClientIsOpen(s, plan, calls)
    case LookUp(_) => ClientIsOpen(s, plan, calls)
    case RemoveUser(_) => ClientIsOpen(s, plan, calls)
    case UpdateStatus(r) => GivesUserId(s, plan, calls, r)
    case PatchStatus(patch) =>
      patch.condition.Some? && patch.condition.value.Some? && var c := patch.condition.value.value;
      BearsOut(s, plan, calls, c.ready, c.reason)
    case _ => true
  }

  ghost predicate AllCalledFor(s: State, plan: seq<Choice>, calls: seq<Request>)
    requires IsThere(s)
  {
    forall n {:trigger IsCalledFor(s, plan, calls[..n], calls[n])} | 0 <= n < |calls| ::
      IsCalledFor(s, plan, calls[..n], calls[n])
  }

  // ---------- How a run ends ----------

  /** What the read that a run begins with is answered. */
  function FirstRead(s: State, plan: seq<Choice>): Reply
    requires IsThere(s)
  {
    Exchange(s, Head(plan), GetResource).1
  }

  /** Seconds until the next try. */
  function WaitAfter(reason: Reason): nat {
    if reason == UserVerificationFailed then 60 else 30
  }

  /** This request reports a condition, and it was accepted. */
  predicate Reports(q: Request, reply: Reply, ready: bool, reason: Reason) {
    && q.PatchStatus? && reply.Resourced?
    && q.patch.condition.Some? && q.patch.condition.value.Some?
    && q.patch.condition.value.value.ready == ready && q.patch.condition.value.value.reason == reason
  }

  /** The run ends as its last call was answered. */
  ghost predicate Warrants(s: State, plan: seq<Choice>, calls: seq<Request>, outcome: Outcome)
    requires IsThere(s)
  {
    calls != [] &&
    var q, reply := Last(calls), ReplyTo(s, plan, calls, |calls| - 1);
    match outcome
    case Finished =>
      || (q.GetResource? && IsMissing(reply))
      || (LetsGo(q) && reply.Resourced?)
      || (q.LookUp? && reply == Done)
      || (q.UpdateStatus? && reply.Resourced?)
      || (exists reason :: Reports(q, reply, true, reason))
    case RetryAfter(seconds) =>
      exists reason :: seconds == WaitAfter(reason)
        && (Reports(q, reply, false, reason) || BearsOut(s, plan, calls, false, reason))
    case Errored =>
      && reply.Failed?
      && (q.Update? || q.PatchStatus? || (q.UpdateStatus? && q.r.userId == "")
          || ((q.GetResource? || q.GetHeadscale?) && reply.error.code != NotFound))
  }

  // ---------- What an answer calls for ----------

  lemma AfterCreating(s: State, plan: seq<Choice>, calls: seq<Request>)
    requires IsThere(s) && calls != [] && Last(calls).CreateUser?
    ensures ReplyTo(s, plan, calls, |calls| - 1).Failed? ==> BearsOut(s, plan, calls, false, UserCreationFailed)
  {
    hide ReplyTo;
  }

  lemma AfterRecording(s: State, plan: seq<Choice>, calls: seq<Request>)
    requires IsThere(s) && calls != [] && Last(calls).UpdateStatus?
    ensures var q, reply := Last(calls), ReplyTo(s, plan, calls, |calls| - 1);
      && (reply.Resourced? ==> Warrants(s, plan, calls, Finished) && BearsOut(s, plan, calls, true, UserCreated))
      && (reply.Failed? ==>
            BearsOut(s, plan, calls, false, UserCreationFailed) && (q.r.userId == "" ==> Warrants(s, plan, calls, Errored)))
  {
    hide ReplyTo;
  }

  lemma AfterReporting(s: State, plan: seq<Choice>, calls: seq<Request>, ready: bool, reason: Reason)
    requires IsThere(s) && calls != [] && Last(calls).PatchStatus?
    ensures var q, reply := Last(calls), ReplyTo(s, plan, calls, |calls| - 1);
      && (Reports(q, reply, ready, reason) ==>
            Warrants(s, plan, calls, if ready then Finished else RetryAfter(WaitAfter(reason))))
      && (reply.Failed? ==> Warrants(s, plan, calls, Errored))
  {
    hide ReplyTo;
  }

  lemma ConditionWarrants(s: State, plan: seq<Choice>, calls: seq<Request>, ready: bool, reason: Reason)
    requires IsThere(s)
    requires BearsOut(s, plan, calls, ready, reason)
          || (calls != [] && Reports(Last(calls), ReplyTo(s, plan, calls, |calls| - 1), ready, reason))
    ensures Warrants(s, plan, calls, if ready then Finished else RetryAfter(WaitAfter(reason)))
  {
    hide ReplyTo;
  }

  lemma OneMoreReply(s: State, plan: seq<Choice>, calls: seq<Request>, q: Request)
    requires IsThere(s)
    ensures ReplyTo(s, plan, calls + [q], |calls|) == Exchange(After(s, plan, calls), Head(Rest(plan, |calls|)), q).1
    ensures forall n | 0 <= n < |calls| :: ReplyTo(s, plan, calls + [q], n) == ReplyTo(s, plan, calls, n)
  {
    hide Exchange, After;
    var more := calls + [q];
    assert more[..|calls|] == calls;
    forall n | 0 <= n < |calls| ensures more[..n] == calls[..n] {
    }
  }

  lemma OneMoreCalledFor(s: State, plan: seq<Choice>, calls: seq<Request>, q: Request)
    requires IsThere(s) && AllCalledFor(s, plan, calls) && IsCalledFor(s, plan, calls, q)
    ensures AllCalledFor(s, plan, calls + [q])
  {
    hide IsCalledFor;
    var more := calls + [q];
    assert more[..|calls|] == calls;
    forall n | 0 <= n < |more| ensures IsCalledFor(s, plan, more[..n], more[n]) {
      if n < |calls| {
        assert more[..n] == calls[..n] && IsCalledFor(s, plan, calls[..n], calls[n]);
      }
    }
  }

  /** An attempt to remove a user, by a client that does not open or by the removal asked for. */
  lemma TriedByConnecting(s: State, plan: seq<Choice>, calls: seq<Request>, userId: string)
    requires IsThere(s) && calls != [] && ReplyTo(s, plan, calls + [Connect], |calls|) != Done
    ensures TriesRemoval(s, plan, calls + [Connect], |calls| - 1, userId)
    ensures ReplyTo(s, plan, calls + [Connect], |calls| - 1) == ReplyTo(s, plan, calls, |calls| - 1)
  {
    hide ReplyTo;
    OneMoreReply(s, plan, calls, Connect);
    assert (calls + [Connect])[|calls|].Connect?;
  }

  lemma TriedByAsking(s: State, plan: seq<Choice>, calls: seq<Request>, id: nat)
    requires IsThere(s) && calls != []
    ensures var more := calls + [Connect] + [RemoveUser(id)];
      && TriesRemoval(s, plan, more, |calls| - 1, PrintNat(id))
      && ReplyTo(s, plan, more, |calls| - 1) == ReplyTo(s, plan, calls, |calls| - 1)
  {
    hide ReplyTo;
    OneMoreReply(s, plan, calls, Connect);
    OneMoreReply(s, plan, calls + [Connect], RemoveUser(id));
    assert (calls + [Connect] + [RemoveUser(id)])[|calls| + 1].RemoveUser?;
  }

  /** The resource is there, with its finalizer. */
  ghost predicate IsHeld(s: State) {
    s.history != [] && Last(s.history).Some? && Last(s.history).value.finalizer
  }

  /** What a call makes of a resource that is there: one with its finalizer goes by that update only. */
  ghost predicate StaysOrIsLetGo(s: State, q: Request, t: State)
    requires IsThere(s) && IsThere(t)
  {
    || (Last(t.history).Some? && (IsHeld(s) ==> IsHeld(t)))
    || (Last(t.history).None? && LetsGo(q) && q.r.userId == Recorded(t.history))
    || (Last(t.history).None? && !IsHeld(s) && Recorded(t.history) == "")
  }

  lemma GoesByUpdate(s: State, c: Choice, q: Request)
    requires Inv(s) && IsThere(s) && Legit(s, q) && Last(s.history).Some?
    ensures StaysOrIsLetGo(s, q, Exchange(s, c, q).0)
  {
    hide Disturb, Serve;
    LegitWhenServed(s, c, q);
    HeldWhenDisturbed(s, c.before);
    var mid := Disturb(s, c.before);
    if Last(mid.history).Some? {
      GoesByUpdateServed(mid, q, c.lag);
    } else {
      GoneStaysGoneServed(mid, q, c.lag);
    }
  }

  lemma HeldWhenDisturbed(s: State, d: Disturbance)
    requires Inv(s) && IsThere(s) && Last(s.history).Some?
    ensures var t := Disturb(s, d);
      (IsHeld(s) ==> IsHeld(t)) && (Last(t.history).None? ==> Recorded(t.history) == "")
  {
    assert VersionInv(Last(s.history).value, s);
    RecordedOfMore(s.history, None);
  }

  lemma GoesByUpdateServed(s: State, q: Request, lag: nat)
    requires Inv(s) && IsThere(s) && Legit(s, q) && Last(s.history).Some?
    ensures StaysOrIsLetGo(s, q, Serve(s, q, lag).0)
  {
    assert VersionInv(Last(s.history).value, s);
    RecordedOfMore(s.history, None);
  }

  lemma GoneStaysGoneServed(s: State, q: Request, lag: nat)
    requires IsThere(s) && Last(s.history).None?
    ensures Serve(s, q, lag).0.history == s.history
  {
  }

  lemma {:induction false} CallsHold(s: State, plan: seq<Choice>, calls: seq<Request>)
    requires Inv(s) && IsThere(s) && AllLegit(s, plan, calls) && IsHeld(s)
    ensures IsHeld(After(s, plan, calls)) || Last(After(s, plan, calls).history).None?
    decreases |calls|
  {
    hide Inv, Exchange, Legit, AllLegit;
    if calls != [] {
      var k := |calls| - 1;
      LastCall(s, plan, calls, k);
      CallsKeepInv(s, plan, calls[..k]);
      CallsHold(s, plan, calls[..k]);
      var t := After(s, plan, calls[..k]);
      if Last(t.history).Some? {
        GoesByUpdate(t, Head(Rest(plan, k)), calls[k]);
      } else {
        GoneStaysGoneInCall(t, Head(Rest(plan, k)), calls[k]);
      }
    }
  }

  /** The update among these calls by which a resource went that had its finalizer, or got a UserID since. */
  lemma {:induction false} CallsLetGo(s: State, plan: seq<Choice>, calls: seq<Request>) returns (n: nat)
    requires Inv(s) && IsThere(s) && AllLegit(s, plan, calls) && Last(s.history).Some?
    requires var t := After(s, plan, calls); Last(t.history).None? && (IsHeld(s) || Recorded(t.history) != "")
    ensures n < |calls| && LetsGo(calls[n]) && calls[n].r.userId == Recorded(After(s, plan, calls).history)
    decreases |calls|
  {
    hide Inv, Exchange, Legit, AllLegit, IsHeld;
    var k := |calls| - 1;
    LastCall(s, plan, calls, k);
    CallsKeepInv(s, plan, calls[..k]);
    var t := After(s, plan, calls[..k]);
    if Last(t.history).Some? {
      if IsHeld(s) {
        CallsHold(s, plan, calls[..k]);
      }
      GoesByUpdate(t, Head(Rest(plan, k)), calls[k]);
      n := k;
    } else {
      GoneStaysGoneInCall(t, Head(Rest(plan, k)), calls[k]);
      n := CallsLetGo(s, plan, calls[..k]);
    }
  }

  lemma {:induction false} CallsLeaveGone(s: State, plan: seq<Choice>, calls: seq<Request>)
    requires IsThere(s) && Last(s.history).None?
    ensures After(s, plan, calls).history == s.history
    decreases |calls|
  {
    hide Exchange;
    if calls != [] {
      var n := |calls| - 1;
      CallsLeaveGone(s, plan, calls[..n]);
      GoneStaysGoneInCall(After(s, plan, calls[..n]), Head(Rest(plan, n)), calls[n]);
    }
  }

  lemma GoneStaysGoneInCall(s: State, c: Choice, q: Request)
    requires IsThere(s) && Last(s.history).None?
    ensures Exchange(s, c, q).0.history == s.history
  {
  }

  // ---------- Calm plans ----------

  ghost predicate IsCalm(c: Choice) {
    c.before == Quiet && c.answer == Success && c.lag == 0
  }

  ghost predicate Calm(plan: seq<Choice>) {
    forall c | c in plan :: IsCalm(c)
  }

  /** Nobody else acts while the plan lasts. */
  ghost predicate Alone(plan: seq<Choice>) {
    forall c | c in plan :: c.before == Quiet
  }

  lemma OnlyOthersDelete(s: State, q: Request, lag: nat)
    requires IsThere(s)
    ensures Closing(Serve(s, q, lag).0) <==> Closing(s)
    ensures Serve(s, q, lag).0.headscales == s.headscales
  {
  }

  /** By itself the controller changes neither that a deletion was asked for nor whether the Headscale is there. */
  lemma {:induction false} CallsByItself(s: State, plan: seq<Choice>, calls: seq<Request>)
    requires IsThere(s) && Alone(plan)
    ensures var t := After(s, plan, calls); (Closing(t) <==> Closing(s)) && t.headscales == s.headscales
    decreases |calls|
  {
    hide Closing, Serve;
    if calls != [] {
      var n := |calls| - 1;
      CallsByItself(s, plan, calls[..n]);
      OnlyOthersDelete(After(s, plan, calls[..n]), calls[n], Head(Rest(plan, n)).lag);
    }
  }

  /** Nobody deletes users behind the controller's back while the plan lasts. */
  ghost predicate NobodyLeaves(plan: seq<Choice>) {
    forall c | c in plan :: !c.before.OthersRemove?
  }

  ghost predicate UsersStay(s: State, t: State) {
    forall id | id in s.table :: id in t.table && t.table[id] == s.table[id]
  }

  /** Users keep their names, and who is gone does not come back. */
  ghost predicate NamesStay(s: State, t: State) {
    && t.username == s.username
    && forall id | id in s.known :: id in t.known && t.known[id] == s.known[id] && (id in t.table ==> id in s.table)
  }

  lemma NamesStayTwice(s: State, t: State, u: State)
    requires NamesStay(s, t) && NamesStay(t, u)
    ensures NamesStay(s, u)
  {
  }

  lemma NamesStayServed(s: State, q: Request, lag: nat)
    requires Inv(s)
    ensures NamesStay(s, Serve(s, q, lag).0)
  {
    assert s.next !in s.known;
  }

  lemma NamesStayExchanged(s: State, c: Choice, q: Request)
    requires Inv(s)
    ensures NamesStay(s, Exchange(s, c, q).0)
  {
    hide Inv, NamesStay, Disturb, Serve;
    InvIsThere(s);
    DisturbKeepsInv(s, c.before);
    var mid := Disturb(s, c.before);
    NamesStayUndisturbed(s, mid);
    NamesStayServed(mid, q, c.lag);
    NamesStayTwice(s, mid, Serve(mid, q, c.lag).0);
  }

  lemma NamesStayUndisturbed(s: State, t: State)
    requires Undisturbed(s, t)
    ensures NamesStay(s, t)
  {
  }

  lemma {:induction false} CallsKeepNames(s: State, plan: seq<Choice>, calls: seq<Request>)
    requires Inv(s) && IsThere(s) && AllLegit(s, plan, calls)
    ensures NamesStay(s, After(s, plan, calls))
    decreases |calls|
  {
    hide Inv, Exchange, Legit, AllLegit, NamesStay;
    if calls == [] {
      NothingRenamed(s);
    } else {
      var n := |calls| - 1;
      LastCall(s, plan, calls, n);
      CallsKeepNames(s, plan, calls[..n]);
      CallsKeepInv(s, plan, calls[..n]);
      NamesStayExchanged(After(s, plan, calls[..n]), Head(Rest(plan, n)), calls[n]);
      NamesStayTwice(s, After(s, plan, calls[..n]), After(s, plan, calls));
    }
  }

  lemma NothingRenamed(s: State)
    ensures NamesStay(s, s)
  {
  }

  /** All users stay but perhaps the one recorded. */
  ghost predicate OthersStay(s: State, t: State) {
    forall id | id in s.table && PrintNat(id) != Recorded(s.history) :: id in t.table && t.table[id] == s.table[id]
  }

  lemma OthersStayTwice(s: State, t: State, u: State)
    requires UsersStay(s, t) || OthersStay(s, t)
    requires UsersStay(t, u) || OthersStay(t, u)
    requires Recorded(t.history) == Recorded(s.history)
    ensures OthersStay(s, u)
  {
  }

  lemma UsersStayTwice(s: State, t: State, u: State, stay: bool)
    requires stay ==> UsersStay(s, t) && UsersStay(t, u)
    ensures stay ==> UsersStay(s, u)
  {
  }

  lemma UsersAreOthers(s: State, t: State)
    requires UsersStay(s, t)
    ensures OthersStay(s, t)
  {
  }

  lemma InvIsThere(s: State)
    requires Inv(s)
    ensures IsThere(s)
  {
  }

  /** Whatever happens before a call, it is as legitimate when it is served. */
  lemma LegitWhenServed(s: State, c: Choice, q: Request)
    requires Inv(s) && Legit(s, q)
    ensures Inv(Disturb(s, c.before)) && Legit(Disturb(s, c.before), q) && Undisturbed(s, Disturb(s, c.before))
  {
    DisturbKeepsInv(s, c.before);
    LegitStays(s, Disturb(s, c.before), q);
  }

  /** A call keeps the invariant whatever happens before it and however it ends. */
  lemma ExchangeKeepsInv(s: State, c: Choice, q: Request)
    requires Inv(s) && Legit(s, q)
    ensures Inv(Exchange(s, c, q).0)
  {
    LegitWhenServed(s, c, q);
    ServeKeepsInv(Disturb(s, c.before), q, c.lag);
  }

  lemma NothingHappens(s: State)
    ensures Undisturbed(s, s) && UsersStay(s, s)
  {
  }

  lemma UndisturbedTwice(s: State, t: State, u: State)
    requires Undisturbed(s, t) && Undisturbed(t, u)
    ensures Undisturbed(s, u)
  {
    forall id | id in u.known && id !in s.known ensures IsNewId(s, id) {
      if id in t.known {
        assert IsNewId(s, id);
      } else {
        assert IsNewId(t, id);
      }
    }
  }

  predicate IsMild(q: Request) {
    !q.UpdateStatus? && !q.RemoveUser?
  }

  lemma MildServe(s: State, q: Request, lag: nat)
    requires Inv(s) && Legit(s, q) && IsMild(q)
    ensures Undisturbed(s, Serve(s, q, lag).0)
  {
    match q {
      case Update(r) => UpdateKeepsInv(s, r);
      case PatchStatus(patch) => PatchKeepsInv(s, patch);
      case CreateUser(profile) => CreationKeepsInv(s, profile);
      case _ =>
    }
  }

  /** Calls other than status updates and deletions of users change nothing that is recorded. */
  lemma MildExchange(s: State, c: Choice, q: Request)
    requires Inv(s) && Legit(s, q) && IsMild(q)
    ensures Undisturbed(s, Exchange(s, c, q).0)
  {
    var mid := Disturb(s, c.before);
    LegitWhenServed(s, c, q);
    MildServe(mid, q, c.lag);
    UndisturbedTwice(s, mid, Serve(mid, q, c.lag).0);
  }

  lemma UsersStayUndisturbed(s: State, d: Disturbance)
    requires Inv(s) && !d.OthersRemove?
    ensures UsersStay(s, Disturb(s, d))
  {
    assert s.next !in s.table;
  }

  lemma UsersStayServed(s: State, q: Request, lag: nat)
    requires Inv(s) && !q.RemoveUser?
    ensures UsersStay(s, Serve(s, q, lag).0)
  {
    assert s.next !in s.table;
  }

  lemma UsersStayExchanged(s: State, c: Choice, q: Request)
    requires Inv(s) && !c.before.OthersRemove? && !q.RemoveUser?
    ensures UsersStay(s, Exchange(s, c, q).0)
  {
    hide Undisturbed, Serve, Disturb;
    UsersStayUndisturbed(s, c.before);
    DisturbKeepsInv(s, c.before);
    UsersStayServed(Disturb(s, c.before), q, c.lag);
  }

  lemma TakenStays(s: State, t: State, name: string)
    requires UsersStay(s, t) && IsTaken(s, name)
    ensures IsTaken(t, name)
  {
    var id :| id in s.table && s.table[id].username == name;
    assert id in t.table;
  }

  // ---------- Versions of the resource ----------

  lemma CopyUndisturbed(s: State, t: State, r: Resource)
    requires TrueCopy(s, r) && s.history <= t.history
    ensures TrueCopy(t, r)
  {
    assert t.history[r.version] == s.history[r.version];
  }

  lemma PresentIsLastVersion(s: State, r: Resource)
    requires Inv(s) && Last(s.history) == Some(r)
    ensures r.version == |s.history| - 1 && TrueCopy(s, r) && Recorded(s.history) == r.userId
  {
  }

  lemma CopyIsSound(s: State, r: Resource)
    requires Inv(s) && TrueCopy(s, r)
    ensures VersionInv(r, s)
    ensures r.deleting ==> Closing(s) && Recorded(s.history) == r.userId
  {
    assert VersionInv(s.history[r.version].value, s);
    if r.deleting {
      DeletionStays(s, r.version, |s.history| - 1);
      ClosingSeesRecorded(s, s.history, r.version);
    }
  }

  /** An update is served only if nobody wrote since; the reply is the version written. */
  lemma UpdateServed(s: State, r: Resource, lag: nat)
    requires Inv(s) && Legit(s, Update(r)) && Serve(s, Update(r), lag).1.Resourced?
    ensures var t := Serve(s, Update(r), lag).0; var w := Serve(s, Update(r), lag).1.r;
      w == r.(version := w.version) && if r.deleting && !r.finalizer then Last(t.history).None? else TrueCopy(t, w)
  {
    assert Last(s.history).value.(spec := r.spec, finalizer := r.finalizer) == r;
  }

  lemma UpdateReply(s: State, c: Choice, r: Resource)
    requires Inv(s) && Legit(s, Update(r)) && Exchange(s, c, Update(r)).1.Resourced?
    ensures var t := Exchange(s, c, Update(r)).0; var w := Exchange(s, c, Update(r)).1.r;
      w == r.(version := w.version) && if r.deleting && !r.finalizer then Last(t.history).None? else TrueCopy(t, w)
  {
    hide Inv, Legit, TrueCopy;
    InvIsThere(s);
    LegitWhenServed(s, c, Update(r));
    UpdateServed(Disturb(s, c.before), r, c.lag);
  }

  lemma CalmUpdate(s: State, c: Choice, r: Resource)
    requires Inv(s) && Legit(s, Update(r)) && IsCalm(c) && r.version == |s.history| - 1
    ensures var t := Exchange(s, c, Update(r)).0; var reply := Exchange(s, c, Update(r)).1;
      reply.Resourced? && t == s.(history := t.history) && (!r.deleting || r.finalizer ==> Last(t.history) == Some(reply.r))
  {
  }

  function ConditionPatch(r: Resource, condition: Condition): Request {
    PatchStatus(DiffStatus(r, r.(condition := Some(condition))))
  }

  lemma CalmPatch(s: State, c: Choice, r: Resource, condition: Condition)
    requires Inv(s) && IsCalm(c) && Last(s.history) == Some(r) && !r.deleting
    ensures var t := Exchange(s, c, ConditionPatch(r, condition)).0; var reply := Exchange(s, c, ConditionPatch(r, condition)).1;
      && t == s.(history := t.history) && reply.Resourced? && Last(t.history) == Some(reply.r)
      && reply.r == r.(condition := Some(condition), version := reply.r.version)
  {
  }

  // ---------- Status updates ----------

  /** From `s` to `t` nothing changed but what a disturbance may, and perhaps the UserID, to this. */
  ghost predicate OnlyRecord(s: State, t: State, userId: string) {
    && s.history <= t.history && s.headscales <= t.headscales && t.username == s.username
    && (Recorded(t.history) == Recorded(s.history) || Recorded(t.history) == userId)
  }

  lemma StatusServed(s: State, r: Resource, lag: nat)
    requires Inv(s) && Legit(s, UpdateStatus(r))
    ensures OnlyRecord(s, Serve(s, UpdateStatus(r), lag).0, r.userId)
    ensures Serve(s, UpdateStatus(r), lag).1.Resourced? ==>
      var t := Serve(s, UpdateStatus(r), lag).0; var w := Serve(s, UpdateStatus(r), lag).1.r;
      w == r.(version := w.version) && Last(t.history) == Some(w) && Recorded(t.history) == r.userId
  {
    if Checked(s, r).None? {
      assert Last(s.history).value.(userId := r.userId, createdAt := r.createdAt, condition := r.condition) == r;
      RecordedOfMore(s.history, Some(r.(version := |s.history|)));
    }
  }

  lemma StatusExchanged(s: State, c: Choice, r: Resource)
    requires Inv(s) && Legit(s, UpdateStatus(r))
    ensures OnlyRecord(s, Exchange(s, c, UpdateStatus(r)).0, r.userId)
    ensures Exchange(s, c, UpdateStatus(r)).1.Resourced? ==>
      var t := Exchange(s, c, UpdateStatus(r)).0; var w := Exchange(s, c, UpdateStatus(r)).1.r;
      w == r.(version := w.version) && Last(t.history) == Some(w) && Recorded(t.history) == r.userId
  {
    hide Inv, Legit, Disturb, Serve;
    InvIsThere(s);
    LegitWhenServed(s, c, UpdateStatus(r));
    StatusServed(Disturb(s, c.before), r, c.lag);
  }

  /** A calm status update from a version that is not the present is refused. */
  lemma LateStatus(s: State, c: Choice, r: Resource)
    requires Inv(s) && IsCalm(c) && r.version < |s.history| - 1
    ensures Exchange(s, c, UpdateStatus(r)).0 == s && Exchange(s, c, UpdateStatus(r)).1.Failed?
  {
  }

  lemma CalmStatus(s: State, c: Choice, r: Resource)
    requires Inv(s) && Legit(s, UpdateStatus(r)) && IsCalm(c) && r.version == |s.history| - 1
    ensures Exchange(s, c, UpdateStatus(r)).1.Resourced?
    ensures var t := Exchange(s, c, UpdateStatus(r)).0; t == s.(history := t.history)
  {
  }

  /** The condition patch never carries a UserID, also not one that was set and could not be persisted. */
  lemma ConditionPatchCarriesNoUserId(local: Resource, condition: Option<Condition>, server: Resource)
    ensures var patch := DiffStatus(local, local.(condition := condition));
      patch.userId == None && patch.createdAt == None
      && ApplyPatch(server, patch) == server.(condition := if local.condition == condition then server.condition else condition)
  {
  }

  // ---------- Users ----------

  lemma CreateReply(s: State, c: Choice, profile: Profile)
    requires Inv(s)
    ensures var t := Exchange(s, c, CreateUser(profile)).0; var reply := Exchange(s, c, CreateUser(profile)).1;
      && (reply.Created? || reply.Failed?)
      && (reply.Created? ==> reply.id in t.known && t.known[reply.id] == profile.username)
      && (reply.Created? ==> !IsTaken(Disturb(s, c.before), profile.username))
      && (IsCalm(c) && (IsTaken(s, profile.username) || !HasSpace(s)) ==> reply.Failed? && t == s)
      && (IsCalm(c) && !IsTaken(s, profile.username) && HasSpace(s) ==> reply == Created(s.next) && t == WithUser(s, profile))
  {
    InvIsThere(s);
  }

  lemma HasOurName(s: State, r: Resource)
    requires Inv(s) && TrueCopy(s, r)
    ensures r.spec.username == s.username
  {
    CopyIsSound(s, r);
  }

  lemma NobodyHasTheName(s: State, r: Resource)
    requires Inv(s) && TrueCopy(s, r) && r.userId != "" && !IsTaken(s, r.spec.username)
    ensures IsGone(r.userId, s)
  {
    CopyIsSound(s, r);
    forall id | id in s.known && PrintNat(id) == r.userId ensures id !in s.table {
      RecordedIsOurUser(s, r.version, id);
    }
  }

  /** A lookup that finds no user of the resource's name means that the user recorded in any version is gone. */
  lemma LookUpReply(s: State, c: Choice, r: Resource)
    requires Inv(s) && TrueCopy(s, r) && r.userId != ""
    ensures var t := Exchange(s, c, LookUp(r.spec.username)).0; var reply := Exchange(s, c, LookUp(r.spec.username)).1;
      && (reply == Done || reply.Failed?)
      && (reply.Failed? && reply.error.code == NoSuchUser ==> IsGone(r.userId, t) && !IsTaken(t, s.username))
      && (IsCalm(c) ==> t == s && if IsTaken(s, r.spec.username) then reply == Done else reply == Failed(Error(NoSuchUser, "")))
  {
    hide Inv, Undisturbed, IsGone, IsTaken, VersionInv;
    InvIsThere(s);
    var mid := Disturb(s, c.before);
    DisturbKeepsInv(s, c.before);
    WhatStays(s, mid);
    HasOurName(s, r);
    CopyUndisturbed(s, mid, r);
    if !IsTaken(mid, r.spec.username) {
      NobodyHasTheName(mid, r);
    }
  }

  lemma RemoveExchanged(s: State, c: Choice, id: nat)
    requires Inv(s) && Legit(s, RemoveUser(id))
    ensures var t := Exchange(s, c, RemoveUser(id)).0;
      && s.history <= t.history && s.headscales <= t.headscales && t.username == s.username
      && Recorded(t.history) == Recorded(s.history)
      && (IsCalm(c) ==> t == s.(table := s.table - {id}, removed := t.removed))
  {
    LegitWhenServed(s, c, RemoveUser(id));
  }

  lemma OthersStayServed(s: State, id: nat, lag: nat)
    requires IsThere(s) && PrintNat(id) == Recorded(s.history)
    ensures OthersStay(s, Serve(s, RemoveUser(id), lag).0) && OthersStay(s, s)
  {
  }

  lemma OthersStayRemoved(s: State, c: Choice, id: nat)
    requires Inv(s) && !c.before.OthersRemove? && PrintNat(id) == Recorded(s.history)
    ensures OthersStay(s, Exchange(s, c, RemoveUser(id)).0)
  {
    hide Inv, Disturb, Serve, OthersStay, UsersStay;
    InvIsThere(s);
    DisturbKeepsInv(s, c.before);
    UsersStayUndisturbed(s, c.before);
    var mid := Disturb(s, c.before);
    OthersStayServed(mid, id, c.lag);
    OthersStayTwice(s, mid, mid);
    OthersStayTwice(s, mid, Serve(mid, RemoveUser(id), c.lag).0);
  }

  lemma WhatStays(s: State, t: State)
    requires Undisturbed(s, t)
    ensures t.username == s.username && s.history <= t.history && s.headscales <= t.headscales
    ensures Recorded(t.history) == Recorded(s.history)
  {
  }

  /** What makes recording a UserID legitimate: the copy in hand had none, and the user has the resource's name. */
  lemma RecordingIsLegit(s: State, t: State, r: Resource, id: nat, createdAt: Option<string>)
    requires Inv(s) && TrueCopy(s, r) && r.finalizer && !r.deleting && r.userId == ""
    requires s.history <= t.history && IsThere(t)
    requires t.username == s.username && id in t.known && t.known[id] == s.username
    ensures Legit(t, UpdateStatus(r.(userId := PrintNat(id),
                                     createdAt := if createdAt.Some? then createdAt.value else r.createdAt)))
    ensures PrintNat(id) != ""
  {
    PrintNotEmpty(id);
    assert t.history[r.version] == s.history[r.version];
  }

  /** A UserID parses to the id it was printed from, within 64 bits. */
  lemma UserIdParses(s: State, r: Resource)
    requires Inv(s) && TrueCopy(s, r) && r.userId != ""
    ensures var parsed := ParseUint(r.userId, UINT64_LIMIT); parsed.Some? && PrintNat(parsed.value) == r.userId
  {
    CopyIsSound(s, r);
    var id :| id in s.known && s.known[id] == s.username && r.userId == PrintNat(id);
    ParseUndoesPrint(id, UINT64_LIMIT);
  }

  lemma RemovedIsGone(s: State, id: nat)
    requires id !in s.table
    ensures IsGone(PrintNat(id), s)
  {
    forall other | other in s.known && PrintNat(other) == PrintNat(id) ensures other !in s.table {
      PrintInjective(other, id);
    }
  }

  lemma ReadIsTrue(s: State, c: Choice)
    requires Inv(s)
    ensures var t := Exchange(s, c, GetResource).0; var reply := Exchange(s, c, GetResource).1;
      && (reply.Resourced? || reply.Failed?)
      && (reply.Resourced? ==> TrueCopy(t, reply.r))
      && (c.before == Quiet && c.answer == Success ==>
        reply == match Seen(s.history, c.lag) case Some(r) => Resourced(r) case None => Failed(Error(NotFound, "")))
  {
    DisturbKeepsInv(s, c.before);
  }

  lemma SeenVersion(s: State, lag: nat, r: Resource)
    requires Inv(s) && Seen(s.history, lag) == Some(r)
    ensures r.version == |s.history| - 1 - lag
  {
  }
}
