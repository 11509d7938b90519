/**
 One call of the HeadscalePreAuthKey reconciler: what may happen before it, how it may end, and what it leaves
 alone.
 */
module PreAuthKeyCalls {
  import opened Wrappers
  import opened Decimal
  import opened Calls
  import opened PreAuthKeyWorld
  import opened PreAuthKeySafety

  /** What happens before a call, how the call ends, how late a read is, and the string a new key would get. */
  datatype Choice = Choice(before: Disturbance, answer: Answer, lag: nat, text: string)

  /** Past the end of the plan the controller is dead: nothing it calls takes effect. */
  function Head(plan: seq<Choice>): Choice {
    Next(plan, Choice(Quiet, Refused("stopped"), 0, ""))
  }

  function Exchange(s: State, c: Choice, q: Request): (r: (State, Reply))
    requires IsThere(s)
    ensures IsThere(r.0)
  {
    var mid := Disturb(s, c.before);
    match c.answer
    case Success => Serve(mid, q, c.lag, c.text)
    case Refused(text) => (mid, Failed(Error(Other, text)))
    case Unanswered(text) => (Serve(mid, q, c.lag, c.text).0, Failed(Error(Other, text)))
  }

  // ---------- The calls of a run ----------

  /** The state after these calls, each served by its choice of the plan. */
  function After(s: State, plan: seq<Choice>, calls: seq<Request>): (t: State)
    requires IsThere(s)
    ensures IsThere(t)
  {
    if calls == [] then s
    else
      var n := |calls| - 1;
      Exchange(After(s, plan, calls[..n]), Head(Rest(plan, n)), calls[n]).0
  }

  /** Each of these calls was legitimate when it was made. */
  ghost predicate AllLegit(s: State, plan: seq<Choice>, calls: seq<Request>)
    requires IsThere(s)
  {
    forall n | 0 <= n < |calls| :: Legit(After(s, plan, calls[..n]), calls[n])
  }

  lemma AfterLast(s: State, plan: seq<Choice>, calls: seq<Request>, n: nat)
    requires IsThere(s) && |calls| == n + 1
    ensures After(s, plan, calls) == Exchange(After(s, plan, calls[..n]), Head(Rest(plan, n)), calls[n]).0
  {
    hide Exchange;
  }

  lemma OneMoreCall(s: State, plan: seq<Choice>, calls: seq<Request>, q: Request)
    requires IsThere(s)
    ensures After(s, plan, calls + [q]) == Exchange(After(s, plan, calls), Head(Rest(plan, |calls|)), q).0
    ensures Rest(plan, |calls + [q]|) == Tail(Rest(plan, |calls|))
    ensures AllLegit(s, plan, calls) && Legit(After(s, plan, calls), q) ==> AllLegit(s, plan, calls + [q])
  {
    hide Legit, Exchange, After;
    var more := calls + [q];
    assert more[..|calls|] == calls;
    AfterLast(s, plan, more, |calls|);
    if AllLegit(s, plan, calls) && Legit(After(s, plan, calls), q) {
      forall n | 0 <= n < |more| ensures Legit(After(s, plan, more[..n]), more[n]) {
        assert n < |calls| ==> more[..n] == calls[..n];
      }
    }
  }

  lemma LastCall(s: State, plan: seq<Choice>, calls: seq<Request>, n: nat)
    requires IsThere(s) && AllLegit(s, plan, calls) && |calls| == n + 1
    ensures AllLegit(s, plan, calls[..n]) && Legit(After(s, plan, calls[..n]), calls[n])
    ensures After(s, plan, calls) == Exchange(After(s, plan, calls[..n]), Head(Rest(plan, n)), calls[n]).0
  {
    hide Legit, Exchange, After, Rest;
    AfterLast(s, plan, calls, n);
    forall i | 0 <= i < n ensures Legit(After(s, plan, calls[..n][..i]), calls[..n][i]) {
      assert calls[..n][..i] == calls[..i];
    }
  }

  /** The invariant holds after every one of them. */
  lemma {:induction false} CallsKeepInv(s: State, plan: seq<Choice>, calls: seq<Request>)
    requires Inv(s) && IsThere(s) && AllLegit(s, plan, calls)
    ensures Inv(After(s, plan, calls))
    decreases |calls|
  {
    hide Inv, Legit, Exchange, AllLegit;
    if calls != [] {
      var n := |calls| - 1;
      LastCall(s, plan, calls, n);
      CallsKeepInv(s, plan, calls[..n]);
      ExchangeKeepsInv(After(s, plan, calls[..n]), Head(Rest(plan, n)), calls[n]);
    }
  }


  // ---------- Sight of the Headscale ----------

  /** A moment without Headscale in the deletion is noted, and what a deletion missed was such a moment. */
  ghost predicate SightInv(s: State)
    requires IsThere(s)
  {
    (Closing(s) && !Last(s.headscales) ==> s.bereft) && (s.missed ==> s.bereft)
  }

  lemma DisturbKeepsSight(s: State, d: Disturbance)
    requires IsThere(s) && SightInv(s)
    ensures SightInv(Disturb(s, d)) && (s.bereft ==> Disturb(s, d).bereft)
  {
    hide HasSpace;
  }

  lemma ServeKeepsSight(s: State, q: Request, lag: nat, text: string)
    requires IsThere(s) && SightInv(s) && (q.GetHeadscale? ==> lag == 0)
    ensures SightInv(Serve(s, q, lag, text).0)
  {
    OnlyOthersDelete(s, q, lag, text);
    OnlyOthersChangeReferences(s, q, lag, text);
  }

  /** Whenever the Headscale is read, the present is. */
  ghost predicate LooksAtPresent(plan: seq<Choice>, calls: seq<Request>) {
    forall n | 0 <= n < |calls| && calls[n].GetHeadscale? :: Head(Rest(plan, n)).lag == 0
  }

  lemma {:induction false} CallsKeepSight(s: State, plan: seq<Choice>, calls: seq<Request>)
    requires IsThere(s) && SightInv(s) && LooksAtPresent(plan, calls)
    ensures SightInv(After(s, plan, calls))
    decreases |calls|
  {
    hide SightInv, Serve, Disturb;
    if calls != [] {
      var n := |calls| - 1;
      CallsKeepSight(s, plan, calls[..n]);
      var was, c := After(s, plan, calls[..n]), Head(Rest(plan, n));
      DisturbKeepsSight(was, c.before);
      ServeKeepsSight(Disturb(was, c.before), calls[n], c.lag, c.text);
    }
  }

  // ---------- What a run may count on ----------

  ghost predicate Calm(plan: seq<Choice>) {
    forall c | c in plan :: IsCalm(c)
  }

  /** Nobody else acts while the plan lasts. */
  ghost predicate Alone(plan: seq<Choice>) {
    forall c | c in plan :: c.before == Quiet
  }

  /** What the controller by itself never changes: that a deletion is asked for, what exists, ids but these many. */
  ghost predicate ByItself(s: State, t: State, ids: nat)
    requires IsThere(s) && IsThere(t)
  {
    && (Closing(t) <==> Closing(s)) && t.users == s.users && t.headscales == s.headscales
    && t.next <= s.next + ids
  }

  lemma NothingByItself(s: State)
    requires IsThere(s)
    ensures ByItself(s, s, 0)
  {
  }

  lemma ByItselfTwice(s: State, t: State, u: State, alone: bool, m: nat, n: nat)
    requires IsThere(s) && IsThere(t) && IsThere(u)
    requires alone ==> ByItself(s, t, m) && ByItself(t, u, n)
    ensures alone ==> ByItself(s, u, m + n)
  {
  }

  lemma ByItselfLoosely(s: State, t: State, alone: bool)
    requires IsThere(s) && IsThere(t) && (alone ==> ByItself(s, t, 0))
    ensures alone ==> ByItself(s, t, 1)
  {
  }

  lemma BothUndisturbed(s: State, t: State, u: State, alone: bool)
    requires Inv(s) && Inv(t) && Inv(u)
    requires Undisturbed(s, t) && Undisturbed(t, u) && (alone ==> ByItself(s, t, 0) && ByItself(t, u, 0))
    ensures Undisturbed(s, u) && (alone ==> ByItself(s, u, 0))
  {
    UndisturbedTwice(s, t, u);
    ByItselfTwice(s, t, u, alone, 0, 0);
  }

  lemma WriteLeavesDeletion(s: State, r: Resource)
    requires IsThere(s) && Last(s.history).Some? && r.deleting == Last(s.history).value.deleting
    ensures Closing(Commit(s, r)) <==> Closing(s)
  {
  }

  lemma OnlyOthersDelete(s: State, q: Request, lag: nat, text: string)
    requires IsThere(s)
    ensures Closing(Serve(s, q, lag, text).0) <==> Closing(s)
  {
    if Last(s.history).Some? {
      var now := Last(s.history).value;
      match q {
        case Update(r) => WriteLeavesDeletion(s, now.(spec := r.spec, owners := r.owners, finalizer := r.finalizer));
        case UpdateStatus(r) => WriteLeavesDeletion(s, now.(keyId := r.keyId, condition := r.condition));
        case PatchStatus(patch) => WriteLeavesDeletion(s, ApplyPatch(now, patch));
        case _ =>
      }
    }
  }

  lemma WriteLeavesReferences(s: State, r: Resource)
    requires IsThere(s)
    ensures var t := Write(s, r).0;
      t.users == s.users && t.headscales == s.headscales && t.next == s.next && t.missed == s.missed && t.bereft == s.bereft
  {
  }

  lemma OnlyOthersChangeReferences(s: State, q: Request, lag: nat, text: string)
    requires IsThere(s)
    ensures var t := Serve(s, q, lag, text).0;
      && t.users == s.users && t.headscales == s.headscales && t.next <= s.next + (if q.MakeKey? then 1 else 0)
      && t.bereft == s.bereft && (!q.GetHeadscale? ==> t.missed == s.missed)
  {
    hide Write, ApplyPatch, Closing, Clamped, Recorded;
    match q {
      case Update(r) =>
        if Checked(s, r).None? {
          WriteLeavesReferences(s, Last(s.history).value.(spec := r.spec, owners := r.owners, finalizer := r.finalizer));
        }
      case UpdateStatus(r) =>
        if Checked(s, r).None? {
          WriteLeavesReferences(s, Last(s.history).value.(keyId := r.keyId, condition := r.condition));
        }
      case PatchStatus(patch) =>
        if Last(s.history).Some? {
          WriteLeavesReferences(s, ApplyPatch(Last(s.history).value, patch));
        }
      case CreateSecret(_) =>
      case UpdateSecret(_) =>
      case DeleteSecret =>
      case MakeKey(_) =>
      case RemoveKey(_) =>
      case _ =>
    }
  }

  lemma NobodyElse(s: State, c: Choice, q: Request)
    requires IsThere(s) && c.before == Quiet
    ensures ByItself(s, Exchange(s, c, q).0, if q.MakeKey? then 1 else 0)
  {
    if !c.answer.Refused? {
      OnlyOthersDelete(s, q, c.lag, c.text);
      OnlyOthersChangeReferences(s, q, c.lag, c.text);
      assert Exchange(s, c, q).0 == Serve(s, q, c.lag, c.text).0;
    }
  }

  /** A call keeps the invariant whatever happens before it and however it ends. */
  lemma ExchangeKeepsInv(s: State, c: Choice, q: Request)
    requires Inv(s) && Legit(s, q)
    ensures Inv(Disturb(s, c.before)) && Undisturbed(s, Disturb(s, c.before)) && Legit(Disturb(s, c.before), q)
    ensures Inv(Exchange(s, c, q).0)
  {
    DisturbKeepsInv(s, c.before);
    LegitStays(s, Disturb(s, c.before), q);
    ServeKeepsInv(Disturb(s, c.before), q, c.lag, c.text);
  }

  lemma Before(s: State, c: Choice)
    requires Inv(s)
    ensures Undisturbed(s, Disturb(s, c.before))
  {
    DisturbKeepsInv(s, c.before);
  }

  /** Whatever happens before a call, it is as legitimate when it is served. */
  lemma LegitWhenServed(s: State, c: Choice, q: Request)
    requires Inv(s) && Legit(s, q)
    ensures Inv(Disturb(s, c.before)) && Legit(Disturb(s, c.before), q) && Undisturbed(s, Disturb(s, c.before))
  {
    DisturbKeepsInv(s, c.before);
    LegitStays(s, Disturb(s, c.before), q);
  }

  ghost predicate IsCalm(c: Choice) {
    c.before == Quiet && c.answer == Success && c.lag == 0
  }

  lemma UpdateExchanged(s: State, c: Choice, r: Resource)
    requires Inv(s) && Legit(s, Update(r))
    ensures Undisturbed(s, Exchange(s, c, Update(r)).0)
    ensures Exchange(s, c, Update(r)).1.Resourced? ==>
      var t := Exchange(s, c, Update(r)).0; var w := Exchange(s, c, Update(r)).1.r;
      w == r.(version := w.version) && if r.deleting && !r.finalizer then Last(t.history).None? else TrueCopy(t, w)
  {
    LegitWhenServed(s, c, Update(r));
    var mid := Disturb(s, c.before);
    WritesLeaveKeys(mid, Update(r), c.lag, c.text);
    UndisturbedTwice(s, mid, Exchange(s, c, Update(r)).0);
    if Exchange(s, c, Update(r)).1.Resourced? {
      UpdateReply(mid, r, c.lag, c.text);
    }
  }

  /** An update that is served was made from the present version, so its KeyID is the recorded one. */
  lemma UpdatedIsRecorded(s: State, c: Choice, r: Resource)
    requires Inv(s) && Legit(s, Update(r)) && Exchange(s, c, Update(r)).1.Resourced?
    ensures Recorded(Exchange(s, c, Update(r)).0.history) == r.keyId
  {
    hide Inv, Undisturbed;
    InvIsThere(s);
    LegitWhenServed(s, c, Update(r));
    var mid := Disturb(s, c.before);
    InvIsThere(mid);
    var w := Last(mid.history).value.(spec := r.spec, owners := r.owners, finalizer := r.finalizer);
    UpdateReply(mid, r, c.lag, c.text);
    CommitLeavesRecord(mid, w);
  }

  lemma CalmUpdate(s: State, c: Choice, r: Resource)
    requires Inv(s) && Legit(s, Update(r)) && IsCalm(c) && r.version == |s.history| - 1
    ensures var t := Exchange(s, c, Update(r)).0; var reply := Exchange(s, c, Update(r)).1;
      reply.Resourced? && t == s.(history := t.history) && (!r.deleting || r.finalizer ==> Last(t.history) == Some(reply.r))
  {
    UpdateOfPresent(s, r, c.lag, c.text);
  }

  function ConditionPatch(r: Resource, condition: Condition): Request {
    PatchStatus(DiffStatus(r, r.(condition := Some(condition))))
  }

  lemma PatchExchanged(s: State, c: Choice, r: Resource, condition: Condition)
    requires Inv(s) && (condition.ready ==> Recorded(s.history) != "")
    ensures Undisturbed(s, Exchange(s, c, ConditionPatch(r, condition)).0)
  {
    var q := ConditionPatch(r, condition);
    LegitWhenServed(s, c, q);
    WritesLeaveKeys(Disturb(s, c.before), q, c.lag, c.text);
    UndisturbedTwice(s, Disturb(s, c.before), Exchange(s, c, q).0);
  }

  lemma CalmPatch(s: State, c: Choice, r: Resource, condition: Condition)
    requires Inv(s) && IsCalm(c) && Last(s.history) == Some(r) && !r.deleting
    ensures var t := Exchange(s, c, ConditionPatch(r, condition)).0; var reply := Exchange(s, c, ConditionPatch(r, condition)).1;
      && t == s.(history := t.history) && reply.Resourced? && Last(t.history) == Some(reply.r)
      && reply.r == r.(condition := Some(condition), version := reply.r.version)
  {
    PatchOfPresent(s, r, condition, c.lag, c.text);
  }

  // ---------- Making, storing and recording a key ----------

  /** From `s` to `t`: no key made is lost, and this one is new, if any. */
  ghost predicate MadeOne(s: State, t: State, made: Option<nat>, wish: Wish) {
    && s.history <= t.history && s.users <= t.users && (s.overwritten ==> t.overwritten)
    && (forall id | id in s.made :: id in t.keys <==> id in s.keys)
    && match made
       case None => t.made == s.made
       case Some(id) =>
         && id !in s.made && id in t.made && id in t.keys
         && t.made == s.made[id := t.made[id]] && t.made[id].wish == wish
  }

  lemma MadeOneAfter(s: State, mid: State, t: State, made: Option<nat>, wish: Wish)
    requires Undisturbed(s, mid) && MadeOne(mid, t, made, wish)
    ensures MadeOne(s, t, made, wish)
  {
  }

  lemma MakeServed(s: State, wish: Wish, text: string)
    requires Inv(s) && AskedFor(s, wish) && HasSpace(s) && text !in TextsOf(s.made)
    ensures MadeOne(s, WithKey(s, Key(text, wish)), Some(s.next), wish)
  {
    assert s.next !in s.made;
  }

  /** The id of the key a call makes, if it makes one. */
  ghost function MadeIn(s: State, c: Choice): Option<nat>
    requires IsThere(s)
  {
    var mid := Disturb(s, c.before);
    if !c.answer.Refused? && HasSpace(mid) && c.text !in TextsOf(mid.made) then Some(mid.next) else None
  }

  /** Only the call that asks for it makes a key, and it may do so without its reply arriving. */
  lemma MakeExchanged(s: State, c: Choice, wish: Wish)
    requires Inv(s) && AskedFor(s, wish)
    ensures MadeOne(s, Exchange(s, c, MakeKey(wish)).0, MadeIn(s, c), wish)
  {
    hide HistoryInv, ConservationInv, DepartureInv, AgreementInv, DemandInv;
    InvIsThere(s);
    var mid := Disturb(s, c.before);
    LegitWhenServed(s, c, MakeKey(wish));
    if MadeIn(s, c).Some? {
      MakeServed(mid, wish, c.text);
    }
    MadeOneAfter(s, mid, Exchange(s, c, MakeKey(wish)).0, MadeIn(s, c), wish);
  }

  lemma MadeIsNotRecorded(s: State, c: Choice)
    requires Inv(s) && MadeIn(s, c).Some?
    ensures PrintNat(MadeIn(s, c).value) != Recorded(s.history)
  {
    DisturbKeepsInv(s, c.before);
    FreshIsNotRecorded(Disturb(s, c.before), Disturb(s, c.before).history);
  }

  lemma MakeReply(s: State, c: Choice, wish: Wish)
    requires IsThere(s)
    ensures var reply := Exchange(s, c, MakeKey(wish)).1;
      (reply.Made? && MadeIn(s, c) == Some(reply.id) && Exchange(s, c, MakeKey(wish)).0.made[reply.id].text == reply.text)
      || reply.Failed?
  {
  }

  /** Everything but the resource, the objects it refers to and other resources' keys is as it was. */
  ghost predicate Aside(s: State, t: State) {
    t.secrets == s.secrets && t.overwritten == s.overwritten && Recorded(t.history) == Recorded(s.history)
  }

  lemma MakeServesAside(s: State, wish: Wish, lag: nat, text: string)
    requires IsThere(s)
    ensures Aside(s, Serve(s, MakeKey(wish), lag, text).0)
  {
  }

  lemma MakeLeavesSecret(s: State, c: Choice, wish: Wish)
    requires Inv(s)
    ensures Aside(s, Exchange(s, c, MakeKey(wish)).0)
  {
    Before(s, c);
    MakeServesAside(Disturb(s, c.before), wish, c.lag, c.text);
  }

  /** From `s` to `t` nothing changed but the Secret and whether it counts as overwritten. */
  ghost predicate OnlySecret(s: State, t: State) {
    && Undisturbed(s, t.(secrets := s.secrets, overwritten := s.overwritten))
    && (Recorded(s.history) == "" ==> t.overwritten == s.overwritten) && (s.overwritten ==> t.overwritten)
  }

  lemma PutIsOnlySecret(s: State, data: map<string, string>)
    requires IsThere(s)
    ensures OnlySecret(s, PutSecret(s, data))
  {
  }

  lemma SecretServed(s: State, q: Request, lag: nat, text: string)
    requires IsThere(s) && (q.CreateSecret? || q.UpdateSecret? || q.GetSecret? || q.DeleteSecret?)
    ensures OnlySecret(s, Serve(s, q, lag, text).0)
  {
    hide Closing, IsThere, Recorded;
    if q.CreateSecret? {
      PutIsOnlySecret(s, map[KEY := q.text]);
    } else if q.UpdateSecret? {
      PutIsOnlySecret(s, q.secret.data);
    }
  }

  lemma OnlySecretTwice(s: State, t: State, u: State)
    requires (Undisturbed(s, t) || OnlySecret(s, t)) && (Undisturbed(t, u) || OnlySecret(t, u))
    ensures OnlySecret(s, u) && Recorded(t.history) == Recorded(s.history)
  {
  }

  lemma SecretExchanged(s: State, c: Choice, q: Request)
    requires Inv(s) && (q.CreateSecret? || q.UpdateSecret? || q.GetSecret? || q.DeleteSecret?)
    ensures OnlySecret(s, Exchange(s, c, q).0)
  {
    var mid := Disturb(s, c.before);
    Before(s, c);
    SecretServed(mid, q, c.lag, c.text);
    OnlySecretTwice(s, mid, mid);
    OnlySecretTwice(s, mid, Exchange(s, c, q).0);
  }

  /** From `s` to `t` nothing changed but versions, the last of which may have this KeyID if there was none. */
  ghost predicate OnlyRecord(s: State, t: State, keyId: string) {
    && Undisturbed(s, t.(history := s.history)) && s.history <= t.history
    && (Recorded(t.history) == Recorded(s.history) || (Recorded(s.history) == "" && Recorded(t.history) == keyId))
  }

  lemma OnlyRecordAfter(s: State, mid: State, t: State, keyId: string)
    requires Undisturbed(s, mid) && OnlyRecord(mid, t, keyId)
    ensures OnlyRecord(s, t, keyId)
  {
  }

  lemma RecordServed(s: State, r: Resource, lag: nat, text: string)
    requires Inv(s) && Legit(s, UpdateStatus(r))
    ensures OnlyRecord(s, Serve(s, UpdateStatus(r), lag, text).0, r.keyId)
  {
    StatusUpdateRecords(s, r, lag, text);
  }

  lemma RecordExchanged(s: State, c: Choice, r: Resource)
    requires Inv(s) && Legit(s, UpdateStatus(r))
    ensures OnlyRecord(s, Exchange(s, c, UpdateStatus(r)).0, r.keyId)
  {
    LegitWhenServed(s, c, UpdateStatus(r));
    RecordAfter(s, Disturb(s, c.before), c, r);
  }

  lemma RecordAfter(s: State, mid: State, c: Choice, r: Resource)
    requires Undisturbed(s, mid) && Inv(mid) && Legit(mid, UpdateStatus(r)) && IsThere(s) && mid == Disturb(s, c.before)
    ensures OnlyRecord(s, Exchange(s, c, UpdateStatus(r)).0, r.keyId)
  {
    if c.answer.Refused? {
      OnlyRecordAfter(s, mid, mid, r.keyId);
    } else {
      RecordServed(mid, r, c.lag, c.text);
      OnlyRecordAfter(s, mid, Serve(mid, UpdateStatus(r), c.lag, c.text).0, r.keyId);
    }
  }

  lemma RecordReply(s: State, c: Choice, r: Resource)
    requires Inv(s) && Legit(s, UpdateStatus(r))
    ensures var t := Exchange(s, c, UpdateStatus(r)).0; var reply := Exchange(s, c, UpdateStatus(r)).1;
      reply.Resourced? ==>
        Recorded(t.history) == r.keyId && Last(t.history) == Some(reply.r) && reply.r == r.(version := reply.r.version)
  {
    hide Inv, Undisturbed, Legit, Serve, Disturb;
    InvIsThere(s);
    LegitWhenServed(s, c, UpdateStatus(r));
    InvIsThere(Disturb(s, c.before));
    StatusUpdateRecords(Disturb(s, c.before), r, c.lag, c.text);
  }

  lemma CalmRecord(s: State, c: Choice, r: Resource)
    requires Inv(s) && Legit(s, UpdateStatus(r)) && IsCalm(c) && r.version == |s.history| - 1
    ensures Exchange(s, c, UpdateStatus(r)).1.Resourced?
    ensures var t := Exchange(s, c, UpdateStatus(r)).0; t == s.(history := t.history)
  {
    StatusUpdateRecords(s, r, c.lag, c.text);
  }

  lemma ReadExchanged(s: State, c: Choice, q: Request)
    requires Inv(s) && IsRead(q)
    ensures Undisturbed(s, Exchange(s, c, q).0)
    ensures IsCalm(c) && !q.GetHeadscale? ==> Exchange(s, c, q) == (s, Serve(s, q, 0, c.text).1)
  {
    hide Inv, Undisturbed;
    InvIsThere(s);
    LegitWhenServed(s, c, GetResource);
    ReadKeepsInv(Disturb(s, c.before), q, c.lag, c.text);
    UndisturbedTwice(s, Disturb(s, c.before), Serve(Disturb(s, c.before), q, c.lag, c.text).0);
  }

  lemma NewTextStays(s: State, t: State, text: string)
    requires NewText(s, text) && (Undisturbed(s, t) || OnlySecret(s, t))
    ensures NewText(t, text)
  {
    var id :| id in s.made && s.made[id].text == text && PrintNat(id) != Recorded(s.history);
    assert id in t.made;
  }

  lemma SecretReply(s: State, c: Choice, q: Request, text: string)
    requires IsThere(s) && Exchange(s, c, q).1 == Done
    requires q == CreateSecret(text) || (q.UpdateSecret? && KEY in q.secret.data && q.secret.data[KEY] == text)
    ensures SecretHolds(Exchange(s, c, q).0, text)
    ensures Recorded(Disturb(s, c.before).history) != "" ==> Exchange(s, c, q).0.overwritten
  {
  }

  lemma CalmSecret(s: State, c: Choice, text: string)
    requires Inv(s) && IsCalm(c)
    ensures Last(s.secrets).None? ==> Exchange(s, c, CreateSecret(text)).1 == Done
    ensures Last(s.secrets).Some? ==>
      Exchange(s, c, CreateSecret(text)) == (s, Failed(Error(AlreadyExists, "")))
      && Exchange(s, c, GetSecret) == (s, Secreted(Last(s.secrets).value))
      && var w := Last(s.secrets).value.(data := Last(s.secrets).value.data[KEY := text]);
         Exchange(s, c, UpdateSecret(w)) == (PutSecret(s, w.data), Done)
  {
  }

  /** No key made has the string of a key to come. */
  ghost predicate FreshTexts(plan: seq<Choice>, made: map<nat, Key>) {
    forall c | c in plan :: c.text !in TextsOf(made)
  }

  /** What makes recording a KeyID legitimate: the copy in hand had none, and the Secret holds the key. */
  lemma RecordingIsLegit(s: State, t: State, r: Resource, id: nat)
    requires TrueCopy(s, r) && r.finalizer && r.keyId == "" && s.history <= t.history && IsThere(t)
    requires id in t.made && SecretHolds(t, t.made[id].text)
    ensures Legit(t, UpdateStatus(r.(keyId := PrintNat(id))))
  {
    assert t.history[r.version] == s.history[r.version];
  }

  /** From `s` to `t` a key was stored and perhaps recorded, and nothing else concerns the resource's keys. */
  ghost predicate Stored(s: State, t: State, keyId: string) {
    && s.history <= t.history && s.users <= t.users && t.made == s.made && (s.overwritten ==> t.overwritten)
    && (forall id | id in s.made :: id in t.keys <==> id in s.keys)
    && (Recorded(t.history) == Recorded(s.history) || (Recorded(s.history) == "" && Recorded(t.history) == keyId))
    && (Recorded(s.history) == "" ==> t.overwritten == s.overwritten)
  }

  lemma StoredThenRecorded(s: State, t: State, u: State, keyId: string)
    requires OnlySecret(s, t) && OnlyRecord(t, u, keyId)
    ensures Stored(s, t, keyId) && Stored(s, u, keyId) && u.secrets == t.secrets
  {
  }

  lemma MadeThenStored(s: State, n: State, t: State, made: Option<nat>, wish: Wish, keyId: string)
    requires MadeOne(s, n, made, wish) && Aside(s, n) && Stored(n, t, keyId)
    ensures MadeOne(s, t, made, wish)
    ensures Recorded(t.history) == Recorded(s.history) || (Recorded(s.history) == "" && Recorded(t.history) == keyId)
    ensures Recorded(s.history) == "" ==> t.overwritten == s.overwritten
  {
  }

  lemma UndisturbedThenMade(s: State, m: State, t: State, made: Option<nat>, wish: Wish)
    requires Undisturbed(s, m) && MadeOne(m, t, made, wish)
    ensures MadeOne(s, t, made, wish) && Recorded(m.history) == Recorded(s.history) && m.overwritten == s.overwritten
  {
  }

  lemma MadeUnstored(s: State, n: State, made: Option<nat>, wish: Wish)
    requires MadeOne(s, n, made, wish) && Aside(s, n)
    ensures Recorded(n.history) == Recorded(s.history) && n.overwritten == s.overwritten && s.history <= n.history
  {
  }

  lemma NothingMade(s: State, t: State, wish: Wish)
    requires Undisturbed(s, t)
    ensures MadeOne(s, t, None, wish) && Recorded(t.history) == Recorded(s.history) && t.overwritten == s.overwritten
    ensures s.history <= t.history && s.users <= t.users
  {
  }

  lemma PresentIsLastVersion(s: State, r: Resource)
    requires Inv(s) && Last(s.history) == Some(r)
    ensures r.version == |s.history| - 1 && TrueCopy(s, r)
  {
  }

  // ---------- Deletion ----------

  /** From `s` to `t` no key made is gone but perhaps this one. */
  ghost predicate OnlyRemoved(s: State, t: State, id: nat) {
    && s.history <= t.history && s.headscales <= t.headscales && t.made == s.made && Aside(s, t)
    && forall other | other in s.made && other != id :: other in t.keys <==> other in s.keys
  }

  lemma ClosingUndisturbed(s: State, t: State)
    requires Inv(s) && Inv(t) && Undisturbed(s, t) && IsThere(s) && IsThere(t) && Closing(s)
    ensures Closing(t) && Recorded(t.history) == Recorded(s.history)
  {
    ClosingStays(s, t);
  }

  lemma UndisturbedRemovesNothing(s: State, t: State, id: nat)
    requires Undisturbed(s, t)
    ensures OnlyRemoved(s, t, id)
  {
  }

  lemma RemovedAfter(s: State, t: State, u: State, id: nat)
    requires OnlyRemoved(s, t, id) && OnlyRemoved(t, u, id)
    ensures OnlyRemoved(s, u, id)
  {
  }

  lemma RemoveExchanged(s: State, c: Choice, id: nat)
    requires Inv(s)
    ensures OnlyRemoved(s, Exchange(s, c, RemoveKey(id)).0, id)
  {
    hide Inv;
    InvIsThere(s);
    Before(s, c);
  }

  lemma RemoveReply(s: State, c: Choice, id: nat)
    requires IsThere(s)
    ensures var t := Exchange(s, c, RemoveKey(id)).0; var reply := Exchange(s, c, RemoveKey(id)).1;
      && (reply == Done || (reply.Failed? && (reply.error.code == GrpcNotFound || reply.error.code == Other)))
      && (reply == Done || reply.error.code == GrpcNotFound ==> id !in t.keys)
      && (IsCalm(c) ==> t == s.(keys := s.keys - {id}) && (reply == Done || reply.error.code == GrpcNotFound))
  {
  }

  lemma CalmDeletion(s: State, c: Choice)
    requires IsThere(s) && IsCalm(c)
    ensures var t := Exchange(s, c, DeleteSecret).0; var reply := Exchange(s, c, DeleteSecret).1;
      && (reply == Done || reply == Failed(Error(NotFound, "")))
      && t == s.(secrets := t.secrets) && Last(t.secrets) == None
  {
  }

  lemma DeletionDoesNotOverwrite(s: State, c: Choice)
    requires Inv(s)
    ensures Exchange(s, c, DeleteSecret).0.overwritten == s.overwritten
  {
    hide Inv, Disturb;
    InvIsThere(s);
    Before(s, c);
  }

  /** A version being deleted, however old, means a deletion; and the KeyID it has is the one recorded. */
  lemma OldVersionsTellTheTruth(s: State, r: Resource)
    requires Inv(s) && TrueCopy(s, r)
    ensures r.deleting ==> Closing(s) && r.finalizer
    ensures r.keyId != "" ==> Recorded(s.history) == r.keyId
  {
    if r.deleting {
      DeletionStays(s, r.version, |s.history| - 1);
    }
    if r.keyId != "" {
      SeenIsRecorded(s, s.history, r.version);
    }
  }

  /** A KeyID parses to the id it was printed from, within 64 bits. */
  lemma KeyIdParses(s: State, r: Resource) returns (id: nat)
    requires Inv(s) && TrueCopy(s, r) && r.keyId != ""
    ensures id in s.made && r.keyId == PrintNat(id) && ParseUint(r.keyId, UINT64_LIMIT) == Some(id)
  {
    id :| id in s.made && r.keyId == PrintNat(id);
    ParseUndoesPrint(id, UINT64_LIMIT);
  }

  lemma GoneMeansRemoved(s: State, id: nat)
    requires PrintNat(id) == Recorded(s.history) && id !in s.keys
    ensures RecordedRemoved(s)
  {
    forall other | other in s.made && PrintNat(other) == Recorded(s.history) ensures other !in s.keys {
      PrintInjective(other, id);
    }
  }

  lemma RemovedStays(s: State, t: State)
    requires Undisturbed(s, t) || OnlySecret(s, t)
    ensures RecordedRemoved(t) <==> RecordedRemoved(s)
  {
  }

  /** The read of the Headscale that this choice serves finds one. */
  predicate SeesHeadscale(s: State, c: Choice)
    requires IsThere(s)
  {
    Clamped(Disturb(s, c.before).headscales, c.lag)
  }

  lemma CalmSees(s: State, c: Choice)
    requires IsThere(s) && IsCalm(c)
    ensures SeesHeadscale(s, c) == Last(s.headscales)
  {
  }

  /** That there is no Headscale is the answer only if none is seen, and in a deletion it is noted. */
  lemma HeadscaleAnswer(s: State, c: Choice)
    requires IsThere(s)
    ensures var reply := Exchange(s, c, GetHeadscale).1; var t := Exchange(s, c, GetHeadscale).0;
      && (reply == Done || (reply.Failed? && (reply.error.code == NotFound || reply.error.code == Other)))
      && (reply == Done ==> SeesHeadscale(s, c))
      && (reply.Failed? && reply.error.code == NotFound ==> !SeesHeadscale(s, c) && (Closing(t) ==> t.missed))
      && (IsCalm(c) ==>
        && reply == (if Last(s.headscales) then Done else Failed(Error(NotFound, "")))
        && t == s.(missed := s.missed || (Closing(s) && !Last(s.headscales))))
  {
  }

  /** From `s` to `t` the recorded key may have gone, and the Secret with it; nothing was made or overwritten. */
  ghost predicate OnlyDeparted(s: State, t: State) {
    && s.history <= t.history && s.headscales <= t.headscales && t.made == s.made
    && Recorded(t.history) == Recorded(s.history) && t.overwritten == s.overwritten
  }

  lemma DepartedTwice(s: State, t: State, u: State)
    requires OnlyDeparted(s, t) && (Undisturbed(t, u) || OnlyDeparted(t, u))
    ensures OnlyDeparted(s, u)
  {
  }

  lemma DepartsLater(s: State, t: State, u: State, alone: bool)
    requires IsThere(s) && IsThere(t) && IsThere(u)
    requires Undisturbed(s, t) && (Undisturbed(t, u) || OnlyDeparted(t, u))
    requires alone ==> ByItself(s, t, 0) && ByItself(t, u, 0)
    ensures OnlyDeparted(s, u) && (alone ==> ByItself(s, u, 0))
  {
  }

  lemma UndisturbedGrows(s: State, t: State)
    requires Undisturbed(s, t)
    ensures s.history <= t.history && OnlyDeparted(s, t)
  {
  }

  lemma RemovalDeparts(s: State, t: State, id: nat)
    requires OnlyRemoved(s, t, id)
    ensures OnlyDeparted(s, t)
  {
  }

  lemma SecretDeparts(s: State, t: State)
    requires OnlySecret(s, t) && t.overwritten == s.overwritten
    ensures OnlyDeparted(s, t)
  {
  }

  /** With the recorded key out of Headscale, or no Headscale found, the finalizer may be removed. */
  lemma LeavingIsLegit(s: State, t: State, r: Resource)
    requires Inv(s) && TrueCopy(s, r) && r.deleting && s.history <= t.history && Inv(t)
    requires t.missed || r.keyId == "" || RecordedRemoved(t)
    ensures Legit(t, Update(r.(finalizer := false)))
  {
    assert t.history[r.version] == s.history[r.version];
  }

  lemma ClosedStays(s: State, t: State, r: Resource)
    requires Inv(s) && Inv(t) && TrueCopy(s, r) && r.deleting && s.history <= t.history
    ensures Closing(t) && TrueCopy(t, r)
  {
    assert t.history[r.version] == s.history[r.version];
    OldVersionsTellTheTruth(t, r);
  }

  lemma UserAnswer(s: State, c: Choice, name: string)
    requires Inv(s)
    ensures var reply := Exchange(s, c, GetUser(name)).1; var t := Exchange(s, c, GetUser(name)).0;
      && (reply.Usered? || (reply.Failed? && (reply.error.code == NotFound || reply.error.code == Other)))
      && (reply.Usered? ==> exists i :: 0 <= i < |t.users| && name in t.users[i] && t.users[i][name] == reply.user)
      && (IsCalm(c) ==> reply == if name in Last(s.users) then Usered(Last(s.users)[name]) else Failed(Error(NotFound, "")))
  {
    hide Inv;
    InvIsThere(s);
    var users := Disturb(s, c.before).users;
    var i := if c.lag < |users| then |users| - 1 - c.lag else 0;
    assert Clamped(users, c.lag) == users[i];
  }

  lemma OwningIsLegit(s: State, r: Resource, owner: Owner)
    requires Inv(s) && TrueCopy(s, r)
    ensures Legit(s, Update(r.(owners := r.owners + [owner])))
  {
  }

  /** Owned by the HeadscaleUser that was read, the resource has its user resolved. */
  lemma OwnedIsResolved(s: State, t: State, r: Resource, user: User, userID: nat)
    requires exists i :: 0 <= i < |s.users| && r.spec.userRef in s.users[i] && s.users[i][r.spec.userRef] == user
    requires Undisturbed(s, t) && OwnedBy(r, user.uid) && r.spec.userRef != "" && r.spec.userID == 0
    requires ParseUint(user.userId, UINT64_LIMIT) == Some(userID)
    ensures Resolves(r, t.users, userID)
  {
    var i :| 0 <= i < |s.users| && r.spec.userRef in s.users[i] && s.users[i][r.spec.userRef] == user;
    assert t.users[i] == s.users[i];
    assert Names(r, t.users[i], userID);
  }

  lemma SeenIsTrueCopy(s: State, lag: nat)
    requires HistoryInv(s) && Seen(s.history, lag).Some?
    ensures TrueCopy(s, Seen(s.history, lag).value)
  {
  }

  lemma HistoryAfter(s: State, c: Choice)
    requires Inv(s)
    ensures HistoryInv(Disturb(s, c.before))
  {
    DisturbKeepsInv(s, c.before);
  }

  lemma ResourceAnswer(s: State, c: Choice)
    requires Inv(s)
    ensures var reply := Exchange(s, c, GetResource).1; var t := Exchange(s, c, GetResource).0;
      && (reply.Resourced? ==> TrueCopy(t, reply.r) && (c.lag == 0 ==> Last(t.history) == Some(reply.r)))
  {
    hide Inv, HistoryInv, TrueCopy;
    InvIsThere(s);
    HistoryAfter(s, c);
    var mid := Disturb(s, c.before);
    if Seen(mid.history, c.lag).Some? {
      SeenIsTrueCopy(mid, c.lag);
    }
  }

  /** Undisturbed and served, a read gives the version it is late by. */
  lemma ResourceAnswerKinds(s: State, c: Choice)
    requires IsThere(s)
    ensures var reply := Exchange(s, c, GetResource).1;
      && (reply.Resourced? || reply.Failed?)
      && (c.before == Quiet && c.answer == Success ==>
        reply == match Seen(s.history, c.lag) case Some(r) => Resourced(r) case None => Failed(Error(NotFound, "")))
  {
  }

  // ---------- Whole runs ----------

  /** What a run may do to the resource's keys: make this one, and record it if none was. */
  ghost predicate Effects(s: State, t: State, made: Option<nat>) {
    && s.history <= t.history && (s.overwritten ==> t.overwritten)
    && (Recorded(t.history) == Recorded(s.history)
        || (Recorded(s.history) == "" && made.Some? && Recorded(t.history) == PrintNat(made.value)))
    && match made
       case None => t.made == s.made
       case Some(id) => id !in s.made && id in t.made && t.made == s.made[id := t.made[id]]
  }

  lemma UndisturbedIsNoEffect(s: State, t: State)
    requires Undisturbed(s, t)
    ensures Effects(s, t, None)
  {
  }

  lemma DepartureIsNoEffect(s: State, t: State)
    requires OnlyDeparted(s, t)
    ensures Effects(s, t, None)
  {
  }

  lemma EffectsTwice(s: State, t: State, u: State, first: Option<nat>, second: Option<nat>)
    requires Effects(s, t, first) && Effects(t, u, second) && (first == None || second == None)
    ensures Effects(s, u, if first.Some? then first else second)
  {
  }

  lemma MadeOneIsEffect(s: State, t: State, made: Option<nat>, wish: Wish)
    requires MadeOne(s, t, made, wish)
    requires Recorded(t.history) == Recorded(s.history)
      || (made.Some? && Recorded(s.history) == "" && Recorded(t.history) == PrintNat(made.value))
    ensures Effects(s, t, made)
  {
  }

  lemma PresentIsRecorded(s: State, r: Resource)
    requires s.history != [] && Last(s.history) == Some(r)
    ensures Recorded(s.history) == r.keyId
  {
  }

  lemma CopyStays(s: State, t: State, r: Resource)
    requires TrueCopy(s, r) && s.history <= t.history
    ensures TrueCopy(t, r)
  {
    assert t.history[r.version] == s.history[r.version];
  }

  lemma NothingChanged(s: State)
    ensures Undisturbed(s, s)
  {
  }

  lemma AskingIsLegit(s: State, t: State, r: Resource, wish: Wish)
    requires TrueCopy(s, r) && Grants(r, s.users, wish) && s.history <= t.history && s.users <= t.users
    ensures AskedFor(t, wish)
  {
    AskedForStays(s, t, wish);
  }

  /** A version without a KeyID that asks for a key, read when a KeyID is already recorded. */
  ghost predicate OldNews(s: State, r: Resource)
    requires IsThere(s)
  {
    && Recorded(s.history) != "" && !r.deleting && r.finalizer && r.keyId == "" && !r.spec.expiration.Garbled?
    && Last(s.headscales) && exists userID :: Resolves(r, [Last(s.users)], userID)
  }

  lemma OldNewsHasFinalizer(s: State, r: Resource)
    requires IsThere(s) && OldNews(s, r)
    ensures r.finalizer
  {
  }

  lemma OldNewsResolves(s: State, r: Resource)
    requires IsThere(s) && OldNews(s, r)
    ensures r.spec.userRef == "" ==> r.spec.userID != 0 || r.spec.tags != []
    ensures r.spec.userRef != "" ==>
      && r.spec.userID == 0 && r.spec.userRef in Last(s.users) && OwnedBy(r, Last(s.users)[r.spec.userRef].uid)
      && ParseUint(Last(s.users)[r.spec.userRef].userId, UINT64_LIMIT).Some?
  {
    var userID :| Resolves(r, [Last(s.users)], userID);
  }

  lemma CopyUndisturbed(s: State, t: State, r: Resource)
    requires TrueCopy(s, r) && Undisturbed(s, t)
    ensures TrueCopy(t, r)
  {
    assert t.history[r.version] == s.history[r.version];
  }
}
