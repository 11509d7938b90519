/** What the calls of a HeadscalePreAuthKey run were answered, and what those answers call for and end a run with. */
module PreAuthKeyAnswers {
  import opened Wrappers
  import opened Decimal
  import opened Calls
  import opened PreAuthKeyWorld
  import opened PreAuthKeyCalls

  /** What the `n`-th of these calls was answered. */
  function ReplyTo(s: State, plan: seq<Choice>, calls: seq<Request>, n: nat): Reply
    requires IsThere(s) && n < |calls|
  {
    Exchange(After(s, plan, calls[..n]), Head(Rest(plan, n)), calls[n]).1
  }

  /** What the read that a run begins with is answered. */
  function FirstRead(s: State, plan: seq<Choice>): Reply
    requires IsThere(s)
  {
    Exchange(s, Head(plan), GetResource).1
  }

  predicate IsMissing(reply: Reply) {
    reply.Failed? && reply.error.code == NotFound
  }

  /** Headscale says that it has the key no more. */
  predicate SaysGone(reply: Reply) {
    reply == Done || (reply.Failed? && reply.error.code == GrpcNotFound)
  }

  /** The update with which the controller lets go of a resource being deleted. */
  predicate LetsGo(q: Request) {
    q.Update? && q.r.deleting && !q.r.finalizer
  }

  lemma ReplyInMore(s: State, plan: seq<Choice>, calls: seq<Request>, more: seq<Request>, n: nat)
    requires IsThere(s) && calls <= more && n < |calls|
    ensures ReplyTo(s, plan, more, n) == ReplyTo(s, plan, calls, n)
  {
    assert more[..n] == calls[..n];
  }

  lemma LastReply(s: State, plan: seq<Choice>, calls: seq<Request>, q: Request)
    requires IsThere(s)
    ensures ReplyTo(s, plan, calls + [q], |calls|) == Exchange(After(s, plan, calls), Head(Rest(plan, |calls|)), q).1
  {
    assert (calls + [q])[..|calls|] == calls;
  }

  /** A call is answered in its own kind or fails. */
  lemma AnswerKinds(s: State, c: Choice, q: Request)
    requires IsThere(s)
    ensures var reply := Exchange(s, c, q).1;
      || reply.Failed?
      || match q {
           case GetUser(_) => reply.Usered?
           case GetSecret => reply.Secreted?
           case MakeKey(_) => reply.Made?
           case GetResource => reply.Resourced?
           case Update(_) => reply.Resourced?
           case UpdateStatus(_) => reply.Resourced?
           case PatchStatus(_) => reply.Resourced?
           case _ => reply == Done
         }
  {
    hide Commit, Disturb, PutSecret, Checked;
  }

  // ---------- What calls for a call ----------

  ghost predicate SawHeadscale(s: State, plan: seq<Choice>, calls: seq<Request>)
    requires IsThere(s)
  {
    exists m | 0 <= m < |calls| :: calls[m].GetHeadscale? && ReplyTo(s, plan, calls, m) == Done
  }

  /** After the `m`-th of these calls Headscale said that it has the key with this id no more. */
  ghost predicate TookKey(s: State, plan: seq<Choice>, calls: seq<Request>, m: nat, keyId: string)
    requires IsThere(s)
  {
    exists k | m < k < |calls| ::
      calls[k].RemoveKey? && PrintNat(calls[k].id) == keyId && SaysGone(ReplyTo(s, plan, calls, k))
  }

  /** These calls got an answer about the Headscale: it is not there, or it is and no longer has this key, if any. */
  ghost predicate HadAnAnswer(s: State, plan: seq<Choice>, calls: seq<Request>, keyId: string)
    requires IsThere(s)
  {
    exists m | 0 <= m < |calls| && calls[m].GetHeadscale? ::
      || IsMissing(ReplyTo(s, plan, calls, m))
      || (ReplyTo(s, plan, calls, m) == Done && (keyId == "" || TookKey(s, plan, calls, m, keyId)))
  }

  /** One of these calls made the key with this id and string. */
  ghost predicate WasMade(s: State, plan: seq<Choice>, calls: seq<Request>, id: nat, text: string)
    requires IsThere(s)
  {
    exists m | 0 <= m < |calls| :: calls[m].MakeKey? && ReplyTo(s, plan, calls, m) == Made(id, text)
  }

  /** The last of these calls put this string into the Secret. */
  ghost predicate WasStored(s: State, plan: seq<Choice>, calls: seq<Request>, text: string)
    requires IsThere(s)
  {
    && calls != [] && ReplyTo(s, plan, calls, |calls| - 1) == Done
    && var q := Last(calls);
       q == CreateSecret(text) || (q.UpdateSecret? && KEY in q.secret.data && q.secret.data[KEY] == text)
  }

  /** It was the last that it takes to know the user: the Headscale, the HeadscaleUser, or that this is the owner. */
  predicate IsResolving(q: Request, reply: Reply) {
    (q.GetHeadscale? && reply == Done) || (q.GetUser? && reply.Usered?) || (q.Update? && reply.Resourced?)
  }

  /** What the last of these calls was answered bears out such a condition. */
  ghost predicate BearsOut(s: State, plan: seq<Choice>, calls: seq<Request>, ready: bool, reason: Reason)
    requires IsThere(s)
  {
    calls != [] &&
    var q, reply := Last(calls), ReplyTo(s, plan, calls, |calls| - 1);
    match reason
    case PreAuthKeyReady => ready && IsResolving(q, reply)
    case PreAuthKeyCreated => ready && q.UpdateStatus? && reply.Resourced?
    case HeadscaleNotFound => !ready && q.GetHeadscale? && IsMissing(reply)
    case InvalidSpec => !ready && q.GetHeadscale? && reply == Done
    case UserNotFound => !ready && q.GetUser? && IsMissing(reply)
    case UserNotReady => !ready && q.GetUser? && reply.Usered? && reply.user.userId == ""
    case InvalidUserID =>
      && !ready && q.GetUser? && reply.Usered?
      && reply.user.userId != "" && ParseUint(reply.user.userId, UINT64_LIMIT) == None
    case PreAuthKeyCreationFailed =>
      !ready && (IsResolving(q, reply) || (reply.Failed? && IsOfCreation(q)))
  }

  predicate IsOfCreation(q: Request) {
    q.Connect? || q.MakeKey? || q.CreateSecret? || q.GetSecret? || q.UpdateSecret? || q.UpdateStatus?
  }

  /** What these calls were answered calls for this one. */
  ghost predicate IsCalledFor(s: State, plan: seq<Choice>, calls: seq<Request>, q: Request)
    requires IsThere(s)
  {
    if calls == [] then q == GetResource
    else
      var n := |calls| - 1;
      var last, reply := calls[n], ReplyTo(s, plan, calls, n);
      match q
      case GetResource => false
      case Update(r) => LetsGo(q) ==> HadAnAnswer(s, plan, calls, r.keyId)
      case Connect => SawHeadscale(s, plan, calls)
      case MakeKey(_) => last.Connect? && reply == Done
      case RemoveKey(_) => last.Connect? && reply == Done
      case CreateSecret(text) => last.MakeKey? && reply.Made? && reply.text == text
      case GetSecret => last.CreateSecret? && reply.Failed? && reply.error.code == AlreadyExists
      case UpdateSecret(secret) =>
        && last.GetSecret? && reply.Secreted? && n > 0 && calls[n - 1].CreateSecret?
        && secret == reply.secret.(data := reply.secret.data[KEY := calls[n - 1].text])
      case UpdateStatus(r) =>
        exists id, text :: WasMade(s, plan, calls, id, text) && WasStored(s, plan, calls, text) && r.keyId == PrintNat(id)
      case DeleteSecret =>
        (last.GetHeadscale? && reply == Done) || (last.RemoveKey? && SaysGone(reply))
      case PatchStatus(patch) =>
        patch.condition.Some? && patch.condition.value.Some? && var c := patch.condition.value.value;
        BearsOut(s, plan, calls, c.ready, c.reason)
      case _ => true
  }

  ghost predicate AllCalledFor(s: State, plan: seq<Choice>, calls: seq<Request>)
    requires IsThere(s)
  {
    forall n {:trigger IsCalledFor(s, plan, calls[..n], calls[n])} | 0 <= n < |calls| ::
      IsCalledFor(s, plan, calls[..n], calls[n])
  }

  lemma OneMoreCalledFor(s: State, plan: seq<Choice>, calls: seq<Request>, q: Request)
    requires IsThere(s) && AllCalledFor(s, plan, calls) && IsCalledFor(s, plan, calls, q)
    ensures AllCalledFor(s, plan, calls + [q])
  {
    hide IsCalledFor;
    var more := calls + [q];
    assert more[..|calls|] == calls;
    forall n | 0 <= n < |more| ensures IsCalledFor(s, plan, more[..n], more[n]) {
      if n < |calls| {
        assert more[..n] == calls[..n] && IsCalledFor(s, plan, calls[..n], calls[n]);
      }
    }
  }

  // ---------- What an answer calls for ----------

  lemma ReadsAreFree(s: State, plan: seq<Choice>, calls: seq<Request>, q: Request)
    requires IsThere(s) && calls != [] && (q.GetHeadscale? || q.GetUser?)
    ensures IsCalledFor(s, plan, calls, q)
  {
    hide ReplyTo;
  }

  lemma AfterHeadscale(s: State, plan: seq<Choice>, calls: seq<Request>)
    requires IsThere(s) && calls != [] && Last(calls).GetHeadscale?
    ensures var reply := ReplyTo(s, plan, calls, |calls| - 1);
      && (reply == Done <==> BearsOut(s, plan, calls, false, InvalidSpec))
      && (reply == Done ==> IsCalledFor(s, plan, calls, Connect) && IsCalledFor(s, plan, calls, DeleteSecret))
      && (IsMissing(reply) ==>
            BearsOut(s, plan, calls, false, HeadscaleNotFound) && forall keyId :: HadAnAnswer(s, plan, calls, keyId))
      && (reply.Failed? && !IsMissing(reply) ==> Warrants(s, plan, calls, Errored))
  {
    hide ReplyTo;
    assert Last(calls) == calls[|calls| - 1];
  }

  lemma AfterUser(s: State, plan: seq<Choice>, calls: seq<Request>)
    requires IsThere(s) && calls != [] && Last(calls).GetUser?
    ensures var reply := ReplyTo(s, plan, calls, |calls| - 1);
      && (reply.Usered? ==> BearsOut(s, plan, calls, true, PreAuthKeyReady))
      && (reply.Usered? && reply.user.userId == "" ==> BearsOut(s, plan, calls, false, UserNotReady))
      && (reply.Usered? && reply.user.userId != "" && ParseUint(reply.user.userId, UINT64_LIMIT) == None ==>
            BearsOut(s, plan, calls, false, InvalidUserID))
      && (IsMissing(reply) ==> BearsOut(s, plan, calls, false, UserNotFound))
      && (reply.Failed? && !IsMissing(reply) ==> Warrants(s, plan, calls, Errored))
  {
    hide ReplyTo;
  }

  lemma AfterConnect(s: State, plan: seq<Choice>, calls: seq<Request>)
    requires IsThere(s) && calls != [] && Last(calls).Connect?
    ensures var reply := ReplyTo(s, plan, calls, |calls| - 1);
      && (reply == Done ==>
            forall q: Request | q.MakeKey? || q.RemoveKey? :: IsCalledFor(s, plan, calls, q))
      && (reply.Failed? ==>
            BearsOut(s, plan, calls, false, PreAuthKeyCreationFailed) && (IsDeletion(s, plan) ==> Warrants(s, plan, calls, Errored)))
  {
    hide ReplyTo;
  }

  lemma AfterMaking(s: State, plan: seq<Choice>, calls: seq<Request>)
    requires IsThere(s) && calls != [] && Last(calls).MakeKey?
    ensures var reply := ReplyTo(s, plan, calls, |calls| - 1);
      && (reply.Made? ==>
            WasMade(s, plan, calls, reply.id, reply.text) && IsCalledFor(s, plan, calls, CreateSecret(reply.text)))
      && (reply.Failed? ==> BearsOut(s, plan, calls, false, PreAuthKeyCreationFailed))
  {
    hide ReplyTo;
    assert Last(calls) == calls[|calls| - 1];
  }

  lemma AfterSecretCall(s: State, plan: seq<Choice>, calls: seq<Request>)
    requires IsThere(s) && calls != [] && (Last(calls).CreateSecret? || Last(calls).UpdateSecret?)
    ensures var q, reply := Last(calls), ReplyTo(s, plan, calls, |calls| - 1);
      && (reply == Done && q.CreateSecret? ==> WasStored(s, plan, calls, q.text))
      && (reply == Done && q.UpdateSecret? && KEY in q.secret.data ==> WasStored(s, plan, calls, q.secret.data[KEY]))
      && (reply.Failed? ==> BearsOut(s, plan, calls, false, PreAuthKeyCreationFailed))
      && (reply.Failed? && reply.error.code == AlreadyExists && q.CreateSecret? ==> IsCalledFor(s, plan, calls, GetSecret))
  {
    hide ReplyTo;
  }

  lemma AfterReadingSecret(s: State, plan: seq<Choice>, calls: seq<Request>, text: string)
    requires IsThere(s) && |calls| >= 2 && Last(calls).GetSecret? && calls[|calls| - 2] == CreateSecret(text)
    ensures var reply := ReplyTo(s, plan, calls, |calls| - 1);
      && (reply.Secreted? ==>
            IsCalledFor(s, plan, calls, UpdateSecret(reply.secret.(data := reply.secret.data[KEY := text]))))
      && (reply.Failed? ==> BearsOut(s, plan, calls, false, PreAuthKeyCreationFailed))
  {
    hide ReplyTo;
  }

  lemma AfterRecording(s: State, plan: seq<Choice>, calls: seq<Request>)
    requires IsThere(s) && calls != [] && Last(calls).UpdateStatus?
    ensures var reply := ReplyTo(s, plan, calls, |calls| - 1);
      && (reply.Resourced? ==> BearsOut(s, plan, calls, true, PreAuthKeyCreated))
      && (reply.Failed? ==> BearsOut(s, plan, calls, false, PreAuthKeyCreationFailed))
  {
    hide ReplyTo;
  }

  lemma AfterRemoving(s: State, plan: seq<Choice>, calls: seq<Request>)
    requires IsThere(s) && calls != [] && Last(calls).RemoveKey? && IsDeletion(s, plan)
    ensures var reply := ReplyTo(s, plan, calls, |calls| - 1);
      && (SaysGone(reply) ==> IsCalledFor(s, plan, calls, DeleteSecret))
      && (reply.Failed? ==> Warrants(s, plan, calls, Errored))
  {
    hide ReplyTo;
  }

  lemma AfterUpdate(s: State, plan: seq<Choice>, calls: seq<Request>)
    requires IsThere(s) && calls != [] && Last(calls).Update?
    ensures var reply := ReplyTo(s, plan, calls, |calls| - 1);
      && (reply.Failed? ==> Warrants(s, plan, calls, Errored))
      && (reply.Resourced? ==> BearsOut(s, plan, calls, true, PreAuthKeyReady))
      && (reply.Resourced? && LetsGo(Last(calls)) ==> Warrants(s, plan, calls, Finished))
  {
    hide ReplyTo;
  }

  lemma AfterReporting(s: State, plan: seq<Choice>, calls: seq<Request>, ready: bool, reason: Reason)
    requires IsThere(s) && calls != [] && Last(calls).PatchStatus?
    ensures var q, reply := Last(calls), ReplyTo(s, plan, calls, |calls| - 1);
      && (Reports(q, reply, ready, reason) ==> Warrants(s, plan, calls, EndOf(reason)))
      && (reply.Failed? ==> Warrants(s, plan, calls, Errored))
  {
    hide ReplyTo;
  }

  // ---------- What stays when more calls are made ----------

  lemma SawInMore(s: State, plan: seq<Choice>, calls: seq<Request>, more: seq<Request>)
    requires IsThere(s) && calls <= more && SawHeadscale(s, plan, calls)
    ensures SawHeadscale(s, plan, more)
  {
    hide ReplyTo;
    var m :| 0 <= m < |calls| && calls[m].GetHeadscale? && ReplyTo(s, plan, calls, m) == Done;
    ReplyInMore(s, plan, calls, more, m);
    assert more[m] == calls[m];
  }

  lemma MadeInMore(s: State, plan: seq<Choice>, calls: seq<Request>, more: seq<Request>, id: nat, text: string)
    requires IsThere(s) && calls <= more && WasMade(s, plan, calls, id, text)
    ensures WasMade(s, plan, more, id, text)
  {
    hide ReplyTo;
    var m :| 0 <= m < |calls| && calls[m].MakeKey? && ReplyTo(s, plan, calls, m) == Made(id, text);
    ReplyInMore(s, plan, calls, more, m);
    assert more[m] == calls[m];
  }

  lemma TookInMore(s: State, plan: seq<Choice>, calls: seq<Request>, more: seq<Request>, m: nat, keyId: string)
    requires IsThere(s) && calls <= more && TookKey(s, plan, calls, m, keyId)
    ensures TookKey(s, plan, more, m, keyId)
  {
    hide ReplyTo;
    var k :| m < k < |calls| && calls[k].RemoveKey? && PrintNat(calls[k].id) == keyId && SaysGone(ReplyTo(s, plan, calls, k));
    ReplyInMore(s, plan, calls, more, k);
    assert more[k] == calls[k];
  }

  lemma AnswerInMore(s: State, plan: seq<Choice>, calls: seq<Request>, more: seq<Request>, keyId: string)
    requires IsThere(s) && calls <= more && HadAnAnswer(s, plan, calls, keyId)
    ensures HadAnAnswer(s, plan, more, keyId)
  {
    hide ReplyTo, TookKey;
    var m :| 0 <= m < |calls| && calls[m].GetHeadscale?
      && (IsMissing(ReplyTo(s, plan, calls, m))
          || (ReplyTo(s, plan, calls, m) == Done && (keyId == "" || TookKey(s, plan, calls, m, keyId))));
    ReplyInMore(s, plan, calls, more, m);
    if TookKey(s, plan, calls, m, keyId) {
      TookInMore(s, plan, calls, more, m, keyId);
    }
    assert more[m] == calls[m];
  }

  /** The Headscale was seen, the client opened, and Headscale then has the key no more. */
  lemma TakenIsAnAnswer(s: State, plan: seq<Choice>, calls: seq<Request>, id: nat)
    requires IsThere(s) && calls != [] && Last(calls).GetHeadscale? && ReplyTo(s, plan, calls, |calls| - 1) == Done
    requires var more := calls + [Connect] + [RemoveKey(id)]; SaysGone(ReplyTo(s, plan, more, |calls| + 1))
    ensures HadAnAnswer(s, plan, calls + [Connect] + [RemoveKey(id)], PrintNat(id))
  {
    hide ReplyTo;
    var more, m := calls + [Connect] + [RemoveKey(id)], |calls| - 1;
    ReplyInMore(s, plan, calls, more, m);
    assert more[m] == calls[m] && more[m + 2] == RemoveKey(id);
    assert TookKey(s, plan, more, m, PrintNat(id));
  }

  // ---------- How a run ends ----------

  /** What a run that reports this ends with. */
  function EndOf(reason: Reason): Outcome {
    match reason
    case InvalidUserID => Errored
    case UserNotReady => RetryAfter(10)
    case HeadscaleNotFound => RetryAfter(30)
    case UserNotFound => RetryAfter(30)
    case PreAuthKeyCreationFailed => RetryAfter(30)
    case _ => Finished
  }

  /** This request reports a condition, and it was accepted. */
  predicate Reports(q: Request, reply: Reply, ready: bool, reason: Reason) {
    && q.PatchStatus? && reply.Resourced?
    && q.patch.condition.Some? && q.patch.condition.value.Some?
    && q.patch.condition.value.value.ready == ready && q.patch.condition.value.value.reason == reason
  }

  /** The run ends as its last call was answered. */
  ghost predicate Warrants(s: State, plan: seq<Choice>, calls: seq<Request>, outcome: Outcome)
    requires IsThere(s)
  {
    calls != [] &&
    var q, reply := Last(calls), ReplyTo(s, plan, calls, |calls| - 1);
    || (outcome == Finished && ((q.GetResource? && IsMissing(reply)) || (LetsGo(q) && reply.Resourced?)))
    || (outcome == Errored && reply.Failed?
        && (q.Update? || q.PatchStatus? || ((q.GetResource? || q.GetHeadscale? || q.GetUser?) && !IsMissing(reply))
            || ((q.Connect? || q.RemoveKey?) && IsDeletion(s, plan))))
    || exists ready, reason :: outcome == EndOf(reason)
         && (Reports(q, reply, ready, reason) || BearsOut(s, plan, calls, ready, reason))
  }

  /** The version that a run over this plan reads first is being deleted. */
  ghost predicate IsDeletion(s: State, plan: seq<Choice>)
    requires IsThere(s)
  {
    FirstRead(s, plan).Resourced? && FirstRead(s, plan).r.deleting
  }

  lemma ConditionWarrants(s: State, plan: seq<Choice>, calls: seq<Request>, ready: bool, reason: Reason)
    requires IsThere(s)
    requires BearsOut(s, plan, calls, ready, reason)
          || (calls != [] && Reports(Last(calls), ReplyTo(s, plan, calls, |calls| - 1), ready, reason))
    ensures Warrants(s, plan, calls, EndOf(reason))
  {
    hide ReplyTo;
  }

  /**
   However its calls end, a run makes each for what it was told before, ends as the last of them was answered, and
   makes no call but the first when that fails.
   */
  ghost predicate IsAnswered(s: State, plan: seq<Choice>, calls: seq<Request>, outcome: Outcome)
    requires IsThere(s)
  {
    && AllCalledFor(s, plan, calls) && Warrants(s, plan, calls, outcome)
    && (FirstRead(s, plan).Failed? ==> calls == [GetResource])
  }
}
