/** The HeadscalePreAuthKey reconciler. */
module PreAuthKey {
  import opened Wrappers
  import opened Decimal
  import opened Calls
  import opened PreAuthKeyWorld
  import opened PreAuthKeySafety
  import opened PreAuthKeyCalls
  import opened PreAuthKeyAnswers

  datatype Resolution = Resolved(userID: nat) | Stop(outcome: Outcome)

  /** What the present specs and HeadscaleUsers call for: a key for this user, or to stop for a reason. */
  datatype Verdict = Go(userID: nat) | Halt(reason: Reason, outcome: Outcome)

  function Judge(spec: Spec, users: map<string, User>): Verdict {
    if spec.userRef != "" && spec.userID != 0 then Halt(InvalidSpec, Finished)
    else if spec.userRef == "" then
      if spec.userID == 0 && spec.tags == [] then Halt(InvalidSpec, Finished) else Go(spec.userID)
    else if spec.userRef !in users then Halt(UserNotFound, RetryAfter(30))
    else if users[spec.userRef].userId == "" then Halt(UserNotReady, RetryAfter(10))
    else
      match ParseUint(users[spec.userRef].userId, UINT64_LIMIT)
      case None => Halt(InvalidUserID, Errored)
      case Some(userID) => Go(userID)
  }

  /** A key is called for exactly when there is a user to make it for, or tags without one. */
  lemma GoMeansResolved(r: Resource, users: map<string, User>, userID: nat)
    ensures Resolves(r, [users], userID)
      <==> Judge(r.spec, users) == Go(userID) && (r.spec.userRef != "" ==> OwnedBy(r, users[r.spec.userRef].uid))
  {
    assert [users][0] == users;
    if Judge(r.spec, users) == Go(userID) && r.spec.userRef != "" && OwnedBy(r, users[r.spec.userRef].uid) {
      assert Names(r, [users][0], userID);
    }
  }

  /** Otherwise the run stops: for good, or until somebody acts, or with an error, each for one reason. */
  lemma HaltsExactly(spec: Spec, users: map<string, User>, reason: Reason, outcome: Outcome)
    ensures Judge(spec, users) == Halt(reason, outcome) <==>
      var known := spec.userRef in users;
      var userId := if known then users[spec.userRef].userId else "";
      || (reason == InvalidSpec && outcome == Finished
          && if spec.userRef != "" then spec.userID != 0 else spec.userID == 0 && spec.tags == [])
      || (spec.userRef != "" && spec.userID == 0
          && (|| (reason == UserNotFound && outcome == RetryAfter(30) && !known)
              || (reason == UserNotReady && outcome == RetryAfter(10) && known && userId == "")
              || (reason == InvalidUserID && outcome == Errored && known && userId != ""
                  && forall n: nat | IsPadded(userId, n) :: n >= UINT64_LIMIT)))
  {
    if spec.userRef in users {
      var userId := users[spec.userRef].userId;
      forall n: nat ensures ParseUint(userId, UINT64_LIMIT) == Some(n) <==> n < UINT64_LIMIT && IsPadded(userId, n) {
        ParsesExactly(userId, UINT64_LIMIT, n);
      }
    }
  }

  /** The resource's condition says this of its present generation. */
  ghost predicate IsReported(r: Resource, ready: bool, reason: Reason) {
    && r.condition.Some? && r.condition.value.ready == ready && r.condition.value.reason == reason
    && r.condition.value.generation == r.generation
  }

  /** No call fails, nothing happens in between, reads are current, and Headscale has an id and a string left. */
  ghost predicate IsUndisturbedRun(plan: seq<Choice>, s: State) {
    Calm(plan) && |plan| >= 12 && HasSpace(s) && FreshTexts(plan, s.made)
  }

  /** Likewise, but the first read may be late. */
  ghost predicate IsLateRun(plan: seq<Choice>, s: State) {
    && |plan| >= 12 && plan[0].before == Quiet && plan[0].answer == Success && Calm(plan[1..])
    && HasSpace(s) && FreshTexts(plan, s.made)
  }

  /** A run on a resource being deleted has removed the recorded key, no other, and the Secret. */
  ghost predicate SettledDeletion(s: State, t: State, r: Resource, outcome: Outcome)
    requires IsThere(s) && IsThere(t)
  {
    && outcome == Finished && Last(t.history) == None && t.made == s.made
    && (forall id | id in s.keys && id !in t.keys :: PrintNat(id) == r.keyId)
    && (Last(s.headscales) ==> Last(t.secrets) == None)
    && (RecordedRemoved(t) <==> Last(s.headscales) || RecordedRemoved(s))
  }

  /** A run that was called on to make a key for this user has made, stored, recorded and reported it. */
  ghost predicate SettledCreation(s: State, t: State, r: Resource, userID: nat, outcome: Outcome, made: Option<nat>)
    requires IsThere(s) && IsThere(t)
  {
    && made.Some? && made.value !in s.made && made.value in t.made && outcome == Finished
    && t.made[made.value].wish.user == userID && IsWanted(r.spec, t.made[made.value].wish)
    && SecretHolds(t, t.made[made.value].text)
    && Last(t.history).Some? && Last(t.history).value.keyId == PrintNat(made.value)
    && IsReported(Last(t.history).value, true, PreAuthKeyCreated)
  }

  /** A run that was not called on to make a key has reported why. */
  ghost predicate SettledWithout(s: State, t: State, ready: bool, reason: Reason, outcome: Outcome, expected: Outcome)
    requires IsThere(s) && IsThere(t)
  {
    && t.made == s.made && t.secrets == s.secrets && outcome == expected
    && Last(t.history).Some? && Last(t.history).value.finalizer && IsReported(Last(t.history).value, ready, reason)
  }

  /** What a run that nothing interferes with brings about, by the state it starts in. */
  ghost predicate Settled(s: State, t: State, outcome: Outcome, made: Option<nat>)
    requires IsThere(s) && IsThere(t) && Last(s.history).Some?
  {
    var r := Last(s.history).value;
    if r.deleting then SettledDeletion(s, t, r, outcome)
    else if !Last(s.headscales) then SettledWithout(s, t, false, HeadscaleNotFound, outcome, RetryAfter(30))
    else
      match Judge(r.spec, Last(s.users))
      case Halt(reason, end) => SettledWithout(s, t, false, reason, outcome, end)
      case Go(userID) =>
        if r.keyId != "" then SettledWithout(s, t, true, PreAuthKeyReady, outcome, Finished)
        else if r.spec.expiration.Garbled? then
          SettledWithout(s, t, false, PreAuthKeyCreationFailed, outcome, RetryAfter(30))
        else SettledCreation(s, t, r, userID, outcome, made)
  }

  lemma SettledAbsent(s: State, t: State, outcome: Outcome, made: Option<nat>)
    requires IsThere(s) && IsThere(t) && Last(s.history).Some? && !Last(s.history).value.deleting
    requires !Last(s.headscales) && SettledWithout(s, t, false, HeadscaleNotFound, outcome, RetryAfter(30))
    ensures Settled(s, t, outcome, made)
  {
  }

  /** A finalizer set on the way changes nothing in what a run brings about. */
  lemma SettledBefore(s: State, m: State, t: State, outcome: Outcome, made: Option<nat>)
    requires IsThere(s) && IsThere(m) && IsThere(t) && m == s.(history := m.history)
    requires Last(s.history).Some? && Last(m.history).Some? && !Last(s.history).value.deleting
    requires Last(m.history).value == Last(s.history).value.(version := Last(m.history).value.version, finalizer := true)
    requires Settled(m, t, outcome, made)
    ensures Settled(s, t, outcome, made)
  {
  }

  /** The user has been resolved, or the reason why not reported, as the present calls for. */
  ghost predicate Answers(s: State, t: State, was: Resource, now: Resource, r: Resolution)
    requires IsThere(s) && IsThere(t)
  {
    && Last(t.history) == Some(now) && t == s.(history := t.history)
    && match Judge(was.spec, Last(s.users))
       case Go(userID) => r == Resolved(userID)
       case Halt(reason, outcome) => r == Stop(outcome) && now.finalizer == was.finalizer && IsReported(now, false, reason)
  }

  /** A run over this plan reads a version that is being deleted. */
  predicate ReadsDeletion(s: State, plan: seq<Choice>)
    requires IsThere(s)
  {
    var first := Exchange(s, Head(plan), GetResource);
    first.1.Resourced? && first.1.r.deleting
  }

  /** And then it sees the Headscale. */
  predicate SeesToDeletion(s: State, plan: seq<Choice>)
    requires IsThere(s)
  {
    var first := Exchange(s, Head(plan), GetResource);
    first.1.Resourced? && first.1.r.deleting && SeesHeadscale(first.0, Head(Tail(plan)))
  }

  /** This state of the HeadscaleUsers has this one under the name that `r` refers to. */
  ghost predicate IsUser(r: Resource, users: map<string, User>, user: User) {
    r.spec.userRef in users && users[r.spec.userRef] == user
  }

  function Trouble(reply: Reply): Error {
    if reply.Failed? then reply.error else Error(Other, "")
  }

  /** `time.ParseDuration` and `expiration > 0`: a lifetime of zero is none. */
  function Lifetime(e: Expiration): Option<int> {
    if e.Lasting? && e.nanoseconds > 0 then Some(e.nanoseconds) else None
  }

  lemma NothingYet(s: State, plan: seq<Choice>, wish: Wish)
    requires IsThere(s)
    ensures MadeOne(s, s, None, wish) && ByItself(s, s, 1) && Spent(plan, plan, 6)
  {
  }

  class Reconciler {
    var cluster: State
    var plan: seq<Choice>
    var key: Resource
    ghost const start: State
    ghost const script: seq<Choice>
    ghost var issued: seq<Request>

    constructor (s: State, p: seq<Choice>)
      requires IsThere(s)
      ensures Traced() && cluster == s && plan == p && issued == [] && start == s && script == p
    {
      cluster, plan, start, script, issued := s, p, s, p, [];
      key := Resource(0, 0, Spec("", 0, [], false, false, Never), [], false, false, "", None);
    }

    /** The state is what the calls made so far have turned the first state into. */
    ghost predicate Traced()
      reads this`cluster, this`plan, this`issued
    {
      && IsThere(start) && AllLegit(start, script, issued)
      && cluster == After(start, script, issued) && plan == Rest(script, |issued|)
      && (issued != [] ==> issued[0] == GetResource)
      && AllCalledFor(start, script, issued)
    }

    lemma SoFar()
      requires Traced()
      ensures IsThere(start) && plan == Rest(script, |issued|)
    {
    }

    /** What the last call was answered warrants such an end of the run. */
    ghost predicate Ends(outcome: Outcome)
      reads this`issued
    {
      IsThere(start) && Warrants(start, script, issued, outcome)
    }

    /** What the calls so far were answered calls for this one. */
    ghost predicate CalledFor(q: Request)
      reads this`issued
    {
      IsThere(start) && IsCalledFor(start, script, issued, q)
    }

    /** What the last call was answered bears out such a condition. */
    ghost predicate BornOut(ready: bool, reason: Reason)
      reads this`issued
    {
      IsThere(start) && BearsOut(start, script, issued, ready, reason)
    }

    /** The last call was the read of the Headscale, and found it. */
    ghost predicate Sees()
      reads this`issued
    {
      BornOut(false, InvalidSpec)
    }

    /** The last call opened the client. */
    ghost predicate IsOpen()
      reads this`issued
    {
      && IsThere(start) && issued != [] && Last(issued).Connect?
      && ReplyTo(start, script, issued, |issued| - 1) == Done
    }

    lemma OpenCallsFor(q: Request)
      requires IsOpen() && (q.MakeKey? || q.RemoveKey?)
      ensures CalledFor(q)
    {
    }

    ghost predicate IsStored(text: string)
      reads this`issued
    {
      IsThere(start) && WasStored(start, script, issued, text)
    }

    ghost predicate IsMade(id: nat, text: string)
      reads this`issued
    {
      IsThere(start) && WasMade(start, script, issued, id, text)
    }

    /** The version that the run read first is being deleted. */
    ghost predicate ForDeletion() {
      IsThere(start) && IsDeletion(start, script)
    }

    /** Likewise, and the resource has been read. */
    ghost predicate Underway()
      reads this`cluster, this`plan, this`issued
    {
      Traced() && issued != []
    }

    /** One call to the API server or to Headscale. */
    method Call(q: Request) returns (reply: Reply)
      requires Traced() && (issued == [] ==> q == GetResource)
      requires Inv(cluster) && Legit(cluster, q)
      requires CalledFor(q)
      modifies this`cluster, this`plan, this`issued
      ensures Underway() && issued == old(issued) + [q]
      ensures IsThere(start) && ReplyTo(start, script, issued, |issued| - 1) == reply
      ensures (cluster, reply) == Exchange(old(cluster), Head(old(plan)), q)
      ensures plan == Tail(old(plan))
      ensures Inv(cluster)
      ensures Alone(old(plan)) ==> ByItself(old(cluster), cluster, if q.MakeKey? then 1 else 0)
    {
      hide ReplyTo, Inv, Legit, Exchange, After, AllLegit, ByItself, IsCalledFor, AllCalledFor;
      InvIsThere(cluster);
      ExchangeKeepsInv(cluster, Head(plan), q);
      if Head(plan).before == Quiet {
        NobodyElse(cluster, Head(plan), q);
      }
      OneMoreCall(start, script, issued, q);
      LastReply(start, script, issued, q);
      OneMoreCalledFor(start, script, issued, q);
      var exchanged := Exchange(cluster, Head(plan), q);
      cluster, reply, plan, issued := exchanged.0, exchanged.1, Tail(plan), issued + [q];
    }

    /** The object in hand is the present version. */
    ghost predicate Present()
      reads this
    {
      cluster.history != [] && Last(cluster.history) == Some(key)
    }

    lemma ReportIsCalledFor(before: Resource, condition: Condition)
      requires BornOut(condition.ready, condition.reason) && before.condition != Some(condition)
      ensures CalledFor(PatchStatus(DiffStatus(before, before.(condition := Some(condition)))))
    {
    }

    /** `updateStatusCondition`: a patch of what changed, made without a version check. */
    method UpdateStatusCondition(ready: bool, reason: Reason, about: string) returns (err: Option<Error>)
      requires Underway() && Inv(cluster) && BornOut(ready, reason) && (ready ==> Recorded(cluster.history) != "")
      modifies this
      ensures Underway() && Inv(cluster) && Undisturbed(old(cluster), cluster) && Spent(old(plan), plan, 1)
      ensures Alone(old(plan)) ==> ByItself(old(cluster), cluster, 0)
      ensures old(Calm(plan) && plan != [] && Present() && !key.deleting) ==>
        && err == None && Present() && cluster == old(cluster).(history := cluster.history)
        && key == old(key).(version := key.version, condition := Some(Condition(ready, reason, about, old(key.generation))))
      ensures Ends(if err != None then Errored else EndOf(reason))
    {
      hide Traced, Exchange, Inv, Undisturbed, ByItself, ReplyTo, BearsOut, IsCalledFor, Warrants, Resolves, Closing;
      SoFar();
      InvIsThere(cluster);
      NothingChanged(cluster);
      NothingByItself(cluster);
      err := None;
      var before := key;
      var condition := Condition(ready, reason, about, key.generation);
      if key.condition == Some(condition) {
        ConditionWarrants(start, script, issued, ready, reason);
        return;
      }
      key := key.(condition := Some(condition));
      PatchExchanged(cluster, Head(plan), before, condition);
      if Calm(plan) && plan != [] && Last(cluster.history) == Some(before) && !before.deleting {
        CalmPatch(cluster, Head(plan), before, condition);
      }
      ReportIsCalledFor(before, condition);
      AnswerKinds(cluster, Head(plan), PatchStatus(DiffStatus(before, key)));
      var reply := Call(PatchStatus(DiffStatus(before, key)));
      AfterReporting(start, script, issued, ready, reason);
      if reply.Resourced? {
        key := reply.r;
      } else {
        err := Some(Trouble(reply));
      }
    }

    /** `ensureFinalizer`: from here on the resource cannot go before its deletion has been handled. */
    method EnsureFinalizer() returns (err: Option<Error>)
      requires Underway() && Inv(cluster) && TrueCopy(cluster, key) && !key.deleting
      modifies this
      ensures Underway() && Inv(cluster) && Undisturbed(old(cluster), cluster)
      ensures Alone(old(plan)) ==> ByItself(old(cluster), cluster, 0)
      ensures err == None ==> TrueCopy(cluster, key) && key == old(key).(version := key.version, finalizer := true)
      ensures old(Calm(plan) && plan != [] && Present()) ==>
        err == None && Present() && cluster == old(cluster).(history := cluster.history)
      ensures old(key.finalizer) ==> err == None && key == old(key) && cluster == old(cluster) && plan == old(plan)
      ensures Spent(old(plan), plan, 1)
      ensures err != None ==> Ends(Errored)
    {
      hide Traced, Ends;
      err := None;
      if !key.finalizer {
        key := key.(finalizer := true);
        SoFar();
        err := UpdateResource();
      }
    }

    /** `r.Update` of the object in hand, which the reply replaces. */
    method UpdateResource() returns (err: Option<Error>)
      requires Underway() && Inv(cluster) && Legit(cluster, Update(key))
      requires CalledFor(Update(key))
      modifies this
      ensures Underway() && Inv(cluster) && Undisturbed(old(cluster), cluster)
      ensures Alone(old(plan)) ==> ByItself(old(cluster), cluster, 0)
      ensures err == None ==>
        && key == old(key).(version := key.version)
        && (if key.deleting && !key.finalizer then Last(cluster.history).None? else TrueCopy(cluster, key))
      ensures err == None ==> Recorded(cluster.history) == old(key.keyId)
      ensures err != None ==> key == old(key)
      ensures old(Calm(plan) && plan != [] && key.version == |cluster.history| - 1) ==>
        && err == None && cluster == old(cluster).(history := cluster.history)
        && (!key.deleting || key.finalizer ==> Present())
      ensures plan == Tail(old(plan))
      ensures issued == old(issued) + [Update(old(key))]
      ensures err != None ==> Ends(Errored)
      ensures err == None ==> BornOut(true, PreAuthKeyReady) && (key.deleting && !key.finalizer ==> Ends(Finished))
    {
      hide IsCalledFor, BearsOut, Warrants, Traced, Inv, Exchange, Legit, ByItself, Alone, ReplyTo, CalledFor;
      InvIsThere(cluster);
      err := None;
      UpdateExchanged(cluster, Head(plan), key);
      if Calm(plan) && plan != [] && key.version == |cluster.history| - 1 {
        CalmUpdate(cluster, Head(plan), key);
      }
      ghost var s0, c := cluster, Head(plan);
      var q := Update(key);
      AnswerKinds(s0, c, q);
      var reply := Call(q);
      AfterUpdate(start, script, issued);
      if reply.Resourced? {
        UpdatedIsRecorded(s0, c, key);
        key := reply.r;
      } else {
        err := Some(Trouble(reply));
      }
    }

    // ---------- The Secret ----------

    method CreateTheSecret(text: string) returns (err: Option<Error>)
      requires Underway() && Inv(cluster) && NewText(cluster, text)
      requires CalledFor(CreateSecret(text))
      modifies this`cluster, this`plan, this`issued
      ensures Underway() && Inv(cluster) && OnlySecret(old(cluster), cluster) && plan == Tail(old(plan))
      ensures Alone(old(plan)) ==> ByItself(old(cluster), cluster, 0)
      ensures err == None ==>
        SecretHolds(cluster, text) && (Recorded(old(cluster).history) != "" ==> cluster.overwritten)
      ensures IsCalm(Head(old(plan))) ==> cluster.history == old(cluster.history)
      ensures IsCalm(Head(old(plan))) && Last(old(cluster).secrets).Some? ==>
        err == Some(Error(AlreadyExists, "")) && cluster == old(cluster)
      ensures IsCalm(Head(old(plan))) && Last(old(cluster).secrets).None? ==>
        err == None && Last(cluster.secrets).value.data == map[KEY := text]
      ensures issued == old(issued) + [CreateSecret(text)]
      ensures err == None ==> IsStored(text)
      ensures err != None ==> BornOut(false, PreAuthKeyCreationFailed)
      ensures err.Some? && err.value.code == AlreadyExists ==> CalledFor(GetSecret)
    {
      hide WasStored, IsCalledFor, BearsOut, Warrants, Traced, Inv, Undisturbed, ReplyTo;
      SoFar();
      InvIsThere(cluster);
      Before(cluster, Head(plan));
      SecretExchanged(cluster, Head(plan), CreateSecret(text));
      if IsCalm(Head(plan)) {
        CalmSecret(cluster, Head(plan), text);
      }
      AnswerKinds(cluster, Head(plan), CreateSecret(text));
      var reply := Call(CreateSecret(text));
      AfterSecretCall(start, script, issued);
      err := if reply == Done then None else Some(Trouble(reply));
      if reply == Done {
        SecretReply(old(cluster), Head(old(plan)), CreateSecret(text), text);
      }
    }

    method ReadTheSecret() returns (got: Option<Secret>, err: Option<Error>)
      requires Underway() && Inv(cluster) && CalledFor(GetSecret) && Last(issued).CreateSecret?
      modifies this`cluster, this`plan, this`issued
      ensures Underway() && Inv(cluster) && Undisturbed(old(cluster), cluster) && plan == Tail(old(plan))
      ensures Alone(old(plan)) ==> ByItself(old(cluster), cluster, 0)
      ensures got == None <==> err != None
      ensures IsCalm(Head(old(plan))) ==> cluster == old(cluster) && got == Last(old(cluster).secrets)
      ensures issued == old(issued) + [GetSecret]
      ensures err != None ==> BornOut(false, PreAuthKeyCreationFailed)
      ensures got.Some? ==>
        CalledFor(UpdateSecret(got.value.(data := got.value.data[KEY := Last(old(issued)).text])))
    {
      hide IsCalledFor, BearsOut, Warrants, Traced, ReplyTo;
      SoFar();
      ghost var text := Last(issued).text;
      AnswerKinds(cluster, Head(plan), GetSecret);
      ReadExchanged(cluster, Head(plan), GetSecret);
      var reply := Call(GetSecret);
      AfterReadingSecret(start, script, issued, text);
      got := if reply.Secreted? then Some(reply.secret) else None;
      err := if reply.Secreted? then None else Some(Trouble(reply));
    }

    method UpdateTheSecret(secret: Secret) returns (err: Option<Error>)
      requires Underway() && Inv(cluster) && KEY in secret.data && NewText(cluster, secret.data[KEY])
      requires CalledFor(UpdateSecret(secret))
      modifies this`cluster, this`plan, this`issued
      ensures Underway() && Inv(cluster) && OnlySecret(old(cluster), cluster) && plan == Tail(old(plan))
      ensures Alone(old(plan)) ==> ByItself(old(cluster), cluster, 0)
      ensures err == None ==>
        SecretHolds(cluster, secret.data[KEY]) && (Recorded(old(cluster).history) != "" ==> cluster.overwritten)
      ensures (IsCalm(Head(old(plan))) && Last(old(cluster).secrets).Some?
               && Last(old(cluster).secrets).value.version == secret.version) ==>
        err == None && cluster.history == old(cluster.history) && Last(cluster.secrets).value.data == secret.data
      ensures issued == old(issued) + [UpdateSecret(secret)]
      ensures err == None ==> IsStored(secret.data[KEY])
      ensures err != None ==> BornOut(false, PreAuthKeyCreationFailed)
    {
      hide WasStored, IsCalledFor, BearsOut, Warrants, Inv, Traced, ReplyTo, CalledFor;
      SoFar();
      InvIsThere(cluster);
      Before(cluster, Head(plan));
      var q := UpdateSecret(secret);
      SecretExchanged(cluster, Head(plan), q);
      AnswerKinds(cluster, Head(plan), q);
      var reply := Call(q);
      AfterSecretCall(start, script, issued);
      err := if reply == Done then None else Some(Trouble(reply));
      if reply == Done {
        SecretReply(old(cluster), Head(old(plan)), q, secret.data[KEY]);
      }
    }

    /** The Secret is created, or the existing one gets the new key beside what else it holds. */
    method StoreKey(text: string) returns (err: Option<Error>)
      requires Underway() && Inv(cluster) && NewText(cluster, text)
      requires CalledFor(CreateSecret(text))
      modifies this`cluster, this`plan, this`issued
      ensures Underway() && Inv(cluster) && OnlySecret(old(cluster), cluster)
      ensures Alone(old(plan)) ==> ByItself(old(cluster), cluster, 0)
      ensures err == None ==>
        SecretHolds(cluster, text) && (Recorded(old(cluster).history) != "" ==> cluster.overwritten)
      ensures Spent(old(plan), plan, 3)
      ensures old(Calm(plan) && |plan| >= 3) ==>
        && err == None && cluster.history == old(cluster.history)
        && Last(cluster.secrets).value.data ==
             (if Last(old(cluster).secrets).Some? then Last(old(cluster).secrets).value.data else map[])[KEY := text]
      ensures old(issued) <= issued
      ensures err == None ==> IsStored(text)
      ensures err != None ==> BornOut(false, PreAuthKeyCreationFailed)
    {
      hide Inv, OnlySecret, Undisturbed, NewText, Traced, Underway, CalledFor, BornOut, IsStored, IsCalm, SecretHolds;
      ghost var s0 := cluster;
      err := CreateTheSecret(text);
      if err == None || err.value.code != AlreadyExists {
        return;
      }
      NewTextStays(s0, cluster, text);
      ghost var s1 := cluster;
      var got, trouble := ReadTheSecret();
      OnlySecretTwice(s0, s1, cluster);
      if got == None {
        return trouble;
      }
      NewTextStays(s1, cluster, text);
      ghost var s2 := cluster;
      err := UpdateTheSecret(got.value.(data := got.value.data[KEY := text]));
      OnlySecretTwice(s0, s2, cluster);
    }

    // ---------- Creation ----------

    /** Reading the API key and opening the client; nothing depends on what they are. */
    method OpenClient() returns (err: Option<Error>)
      requires Underway() && Inv(cluster) && CalledFor(Connect)
      modifies this`cluster, this`plan, this`issued
      ensures Underway() && Inv(cluster) && Undisturbed(old(cluster), cluster) && plan == Tail(old(plan))
      ensures Alone(old(plan)) ==> ByItself(old(cluster), cluster, 0)
      ensures IsCalm(Head(old(plan))) ==> err == None && cluster == old(cluster)
      ensures issued == old(issued) + [Connect]
      ensures err == None ==> IsOpen()
      ensures err != None ==> BornOut(false, PreAuthKeyCreationFailed) && (ForDeletion() ==> Ends(Errored))
    {
      hide IsCalledFor, BearsOut, Warrants, Traced, ReplyTo;
      SoFar();
      AnswerKinds(cluster, Head(plan), Connect);
      ReadExchanged(cluster, Head(plan), Connect);
      var reply := Call(Connect);
      AfterConnect(start, script, issued);
      err := if reply == Done then None else Some(Trouble(reply));
    }

    /** The call after which there may be a key that nobody has recorded, also when it fails. */
    method MakeAKey(wish: Wish) returns (id: nat, text: string, err: Option<Error>, ghost made: Option<nat>)
      requires Underway() && Inv(cluster) && AskedFor(cluster, wish) && CalledFor(MakeKey(wish))
      modifies this`cluster, this`plan, this`issued
      ensures Underway() && Inv(cluster) && MadeOne(old(cluster), cluster, made, wish) && Aside(old(cluster), cluster)
      ensures Alone(old(plan)) ==> ByItself(old(cluster), cluster, 1)
      ensures err == None ==>
        && made == Some(id) && id in cluster.made && cluster.made[id].text == text
        && PrintNat(id) != Recorded(cluster.history)
      ensures plan == Tail(old(plan))
      ensures IsCalm(Head(old(plan))) && HasSpace(old(cluster)) && Head(old(plan)).text !in TextsOf(old(cluster).made) ==>
        err == None && cluster.history == old(cluster.history)
      ensures issued == old(issued) + [MakeKey(wish)]
      ensures err == None ==> IsMade(id, text) && CalledFor(CreateSecret(text))
      ensures err != None ==> BornOut(false, PreAuthKeyCreationFailed)
    {
      hide WasMade, IsCalledFor, BearsOut, Warrants, Inv, Traced, ReplyTo, Alone;
      SoFar();
      InvIsThere(cluster);
      made := MadeIn(cluster, Head(plan));
      MakeExchanged(cluster, Head(plan), wish);
      MakeReply(cluster, Head(plan), wish);
      if made.Some? {
        MadeIsNotRecorded(cluster, Head(plan));
      }
      MakeLeavesSecret(cluster, Head(plan), wish);
      AnswerKinds(cluster, Head(plan), MakeKey(wish));
      var reply := Call(MakeKey(wish));
      AfterMaking(start, script, issued);
      if reply.Made? {
        id, text, err := reply.id, reply.text, None;
      } else {
        id, text, err := 0, "", Some(Trouble(reply));
      }
    }

    /** The status update that records the KeyID; when it fails the object in hand keeps what was not persisted. */
    method RecordKeyId(id: nat) returns (err: Option<Error>)
      requires Underway() && Inv(cluster) && Legit(cluster, UpdateStatus(key.(keyId := PrintNat(id))))
      requires CalledFor(UpdateStatus(key.(keyId := PrintNat(id))))
      modifies this
      ensures Underway() && Inv(cluster) && OnlyRecord(old(cluster), cluster, PrintNat(id)) && plan == Tail(old(plan))
      ensures Alone(old(plan)) ==> ByItself(old(cluster), cluster, 0)
      ensures err == None ==> Recorded(cluster.history) == PrintNat(id) && Present()
      ensures key == old(key).(keyId := PrintNat(id), version := key.version)
      ensures IsCalm(Head(old(plan))) && old(key.version == |cluster.history| - 1) ==>
        err == None && cluster == old(cluster).(history := cluster.history)
      ensures err == None ==> BornOut(true, PreAuthKeyCreated)
      ensures err != None ==> BornOut(false, PreAuthKeyCreationFailed)
    {
      hide IsCalledFor, BearsOut, Warrants, Traced, ReplyTo, CalledFor, Inv, Legit, Serve, Disturb;
      SoFar();
      InvIsThere(cluster);
      key := key.(keyId := PrintNat(id));
      RecordExchanged(cluster, Head(plan), key);
      RecordReply(cluster, Head(plan), key);
      if IsCalm(Head(plan)) && key.version == |cluster.history| - 1 {
        CalmRecord(cluster, Head(plan), key);
      }
      AnswerKinds(cluster, Head(plan), UpdateStatus(key));
      var reply := Call(UpdateStatus(key));
      AfterRecording(start, script, issued);
      if reply.Resourced? {
        key := reply.r;
        err := None;
      } else {
        err := Some(Trouble(reply));
      }
    }

    /** What `key` asks for on behalf of a user. */
    function WishOf(userID: nat): Wish
      reads this
    {
      Wish(userID, key.spec.reusable, key.spec.ephemeral, Lifetime(key.spec.expiration), key.spec.tags)
    }

    /** The Secret first, the KeyID second: what is recorded has been stored. */
    method StoreAndRecord(id: nat, text: string) returns (err: Option<Error>)
      requires Underway() && Inv(cluster) && key.version < |cluster.history| && TrueCopy(cluster, key)
      requires key.finalizer && key.keyId == "" && PrintNat(id) != Recorded(cluster.history)
      requires id in cluster.made && cluster.made[id].text == text
      requires CalledFor(CreateSecret(text)) && IsMade(id, text)
      modifies this
      ensures Underway() && Inv(cluster) && Stored(old(cluster), cluster, PrintNat(id)) && cluster.made == old(cluster).made
      ensures Alone(old(plan)) ==> ByItself(old(cluster), cluster, 0)
      ensures err == None ==>
        Recorded(cluster.history) == PrintNat(id) && SecretHolds(cluster, text) && Present()
      ensures key == old(key).(keyId := key.keyId, version := key.version)
      ensures old(Calm(plan) && |plan| >= 4 && Present()) ==> err == None
      ensures old(Calm(plan) && |plan| >= 3 && Recorded(cluster.history) != "") ==> cluster.overwritten
      ensures Spent(old(plan), plan, 4)
      ensures err == None ==> BornOut(true, PreAuthKeyCreated)
      ensures err != None ==> BornOut(false, PreAuthKeyCreationFailed)
    {
      hide Inv, Traced, Closing, BornOut, WasStored, WasMade, ReplyTo;
      ghost var s0, before := cluster, issued;
      if Present() {
        PresentIsLastVersion(s0, key);
      }
      err := StoreKey(text);
      ghost var s1 := cluster;
      StoredThenRecorded(s0, s1, s1, PrintNat(id));
      if err != None {
        return;
      }
      InvIsThere(s1);
      RecordingIsLegit(s0, s1, key, id);
      MadeInMore(start, script, before, issued, id, text);
      err := RecordKeyId(id);
      StoredThenRecorded(s0, s1, cluster, PrintNat(id));
    }

    /** Make, store, record; whatever fails, what was made is known. */
    method MakeStoreRecord(wish: Wish) returns (err: Option<Error>, ghost made: Option<nat>)
      requires Underway() && Inv(cluster) && TrueCopy(cluster, key) && key.finalizer && key.keyId == "" && AskedFor(cluster, wish)
      requires CalledFor(MakeKey(wish))
      modifies this
      ensures Underway() && Inv(cluster) && MadeOne(old(cluster), cluster, made, wish)
      ensures Alone(old(plan)) ==> ByItself(old(cluster), cluster, 1)
      ensures Recorded(cluster.history) == Recorded(old(cluster).history)
        || (made.Some? && Recorded(old(cluster).history) == "" && Recorded(cluster.history) == PrintNat(made.value))
      ensures err == None ==> made.Some? && Recorded(cluster.history) == PrintNat(made.value) && Present()
      ensures err == None ==> SecretHolds(cluster, cluster.made[made.value].text)
      ensures Recorded(old(cluster).history) == "" ==> cluster.overwritten == old(cluster).overwritten
      ensures key == old(key).(keyId := key.keyId, version := key.version)
      ensures old(Calm(plan) && |plan| >= 5 && Present() && HasSpace(cluster) && FreshTexts(plan, cluster.made)) ==>
        err == None
      ensures old(Calm(plan) && |plan| >= 4 && HasSpace(cluster) && FreshTexts(plan, cluster.made)
                  && Recorded(cluster.history) != "") ==>
        cluster.overwritten
      ensures Spent(old(plan), plan, 5)
      ensures err == None ==> BornOut(true, PreAuthKeyCreated)
      ensures err != None ==> BornOut(false, PreAuthKeyCreationFailed)
    {
      hide CalledFor, IsMade, BornOut, Inv, ByItself, Undisturbed, MadeOne, Aside, Stored, AskedFor, Traced, Underway;
      ghost var s0, alone := cluster, Alone(plan);
      InvIsThere(s0);
      var id, text;
      id, text, err, made := MakeAKey(wish);
      ghost var s1 := cluster;
      MadeUnstored(s0, s1, made, wish);
      if err != None {
        return;
      }
      CopyStays(s0, s1, key);
      err := StoreAndRecord(id, text);
      InvIsThere(s1);
      InvIsThere(cluster);
      ByItselfTwice(s0, s1, cluster, alone, 1, 0);
      MadeThenStored(s0, s1, cluster, made, wish, PrintNat(id));
    }

    /** With the client open: make, store, record. */
    method OpenAndMake(wish: Wish) returns (err: Option<Error>, ghost made: Option<nat>)
      requires Underway() && Inv(cluster) && TrueCopy(cluster, key) && key.finalizer && key.keyId == ""
      requires Grants(key, cluster.users, wish)
      requires CalledFor(Connect)
      modifies this
      ensures Underway() && Inv(cluster) && MadeOne(old(cluster), cluster, made, wish)
      ensures Alone(old(plan)) ==> ByItself(old(cluster), cluster, 1)
      ensures Recorded(cluster.history) == Recorded(old(cluster).history)
        || (made.Some? && Recorded(old(cluster).history) == "" && Recorded(cluster.history) == PrintNat(made.value))
      ensures err == None ==> made.Some? && Recorded(cluster.history) == PrintNat(made.value) && Present()
      ensures err == None ==> SecretHolds(cluster, cluster.made[made.value].text)
      ensures Recorded(old(cluster).history) == "" ==> cluster.overwritten == old(cluster).overwritten
      ensures key == old(key).(keyId := key.keyId, version := key.version)
      ensures old(Calm(plan) && |plan| >= 6 && Present() && HasSpace(cluster) && FreshTexts(plan, cluster.made)) ==>
        err == None
      ensures old(Calm(plan) && |plan| >= 5 && HasSpace(cluster) && FreshTexts(plan, cluster.made)
                  && Recorded(cluster.history) != "") ==>
        cluster.overwritten
      ensures Spent(old(plan), plan, 6)
      ensures err == None ==> BornOut(true, PreAuthKeyCreated)
      ensures err != None ==> BornOut(false, PreAuthKeyCreationFailed)
    {
      hide CalledFor, BornOut, IsOpen, Inv, ByItself, Undisturbed, MadeOne, AskedFor, Grants, Traced, Underway,
        TrueCopy, Ends, Exchange, IsCalm, Recorded;
      made := None;
      ghost var s0, alone := cluster, Alone(plan);
      InvIsThere(s0);
      err := OpenClient();
      ghost var s1 := cluster;
      InvIsThere(s1);
      NothingMade(s0, s1, wish);
      ByItselfLoosely(s0, s1, alone);
      if err != None {
        return;
      }
      AskingIsLegit(s0, s1, key, wish);
      CopyUndisturbed(s0, s1, key);
      OpenCallsFor(MakeKey(wish));
      err, made := MakeStoreRecord(wish);
      InvIsThere(cluster);
      UndisturbedThenMade(s0, s1, cluster, made, wish);
      ByItselfTwice(s0, s1, cluster, alone, 0, 1);
    }

    lemma ResolvedMayFail()
      requires BornOut(true, PreAuthKeyReady)
      ensures BornOut(false, PreAuthKeyCreationFailed)
    {
    }

    /**
     `createPreAuthKey`: make the key, store it, record it, in this order. A run makes at most one key; if it ends
     well that key is in the Secret and recorded, and if not the key is recorded or an orphan.
     */
    method CreatePreAuthKey(userID: nat) returns (err: Option<Error>, ghost made: Option<nat>)
      requires Underway() && Inv(cluster) && TrueCopy(cluster, key) && !key.deleting && key.finalizer && key.keyId == ""
      requires Resolves(key, cluster.users, userID)
      requires CalledFor(Connect) && BornOut(true, PreAuthKeyReady)
      modifies this
      ensures Underway() && Inv(cluster) && MadeOne(old(cluster), cluster, made, old(WishOf(userID)))
      ensures made.Some? ==> old(WishOf(userID)).user == userID && IsWanted(old(key).spec, old(WishOf(userID)))
      ensures Alone(old(plan)) ==> ByItself(old(cluster), cluster, 1)
      ensures Recorded(cluster.history) == Recorded(old(cluster).history)
        || (made.Some? && Recorded(old(cluster).history) == "" && Recorded(cluster.history) == PrintNat(made.value))
      ensures err == None ==> made.Some? && Recorded(cluster.history) == PrintNat(made.value) && Present()
      ensures err == None ==> SecretHolds(cluster, cluster.made[made.value].text)
      ensures Recorded(old(cluster).history) == "" ==> cluster.overwritten == old(cluster).overwritten
      ensures key == old(key).(keyId := key.keyId, version := key.version)
      ensures old(key).spec.expiration.Garbled? ==> err != None && cluster == old(cluster) && key == old(key)
      ensures old(Calm(plan) && |plan| >= 6 && Present() && HasSpace(cluster) && FreshTexts(plan, cluster.made))
        ==> (err == None <==> !old(key).spec.expiration.Garbled?)
      ensures old(Calm(plan) && |plan| >= 5 && HasSpace(cluster) && FreshTexts(plan, cluster.made)
                  && Recorded(cluster.history) != "" && !key.spec.expiration.Garbled?) ==>
        cluster.overwritten
      ensures Spent(old(plan), plan, 6)
      ensures err == None ==> BornOut(true, PreAuthKeyCreated)
      ensures err != None ==> BornOut(false, PreAuthKeyCreationFailed)
    {
      hide CalledFor, BornOut, Inv, ByItself, Undisturbed, MadeOne, AskedFor, Resolves, Traced, Underway, TrueCopy;
      made := None;
      if key.spec.expiration.Garbled? {
        ResolvedMayFail();
        InvIsThere(cluster);
        NothingYet(cluster, plan, WishOf(userID));
        return Some(Error(Other, "failed to parse expiration")), made;
      }
      err, made := OpenAndMake(WishOf(userID));
    }

    // ---------- Deletion ----------

    /** Whether the Headscale is there; `None` means the read failed. */
    method FindHeadscale() returns (found: Option<bool>)
      requires Underway() && Inv(cluster)
      modifies this`cluster, this`plan, this`issued
      ensures Underway() && Inv(cluster) && Undisturbed(old(cluster), cluster) && plan == Tail(old(plan))
      ensures Alone(old(plan)) ==> ByItself(old(cluster), cluster, 0)
      ensures found.Some? && found.value ==> SeesHeadscale(old(cluster), Head(old(plan)))
      ensures found == Some(false) ==> !SeesHeadscale(old(cluster), Head(old(plan))) && (Closing(cluster) ==> cluster.missed)
      ensures IsCalm(Head(old(plan))) ==>
        && found == Some(Last(old(cluster).headscales))
        && (found == Some(true) || !Closing(old(cluster)) ==> cluster == old(cluster))
        && cluster == old(cluster).(missed := cluster.missed)
      ensures issued == old(issued) + [GetHeadscale]
      ensures (found == Some(true) <==> Sees()) && (found == Some(true) ==> CalledFor(Connect) && CalledFor(DeleteSecret))
      ensures found == Some(false) ==>
        BornOut(false, HeadscaleNotFound) && IsThere(start) && forall keyId :: HadAnAnswer(start, script, issued, keyId)
      ensures found == None ==> Ends(Errored)
    {
      hide Inv, Exchange, SeesHeadscale, Undisturbed, ByItself, HadAnAnswer, IsCalledFor, BearsOut, Warrants, Traced,
        ReplyTo;
      SoFar();
      InvIsThere(cluster);
      ReadsAreFree(start, script, issued, GetHeadscale);
      AnswerKinds(cluster, Head(plan), GetHeadscale);
      ReadExchanged(cluster, Head(plan), GetHeadscale);
      HeadscaleAnswer(cluster, Head(plan));
      var reply := Call(GetHeadscale);
      AfterHeadscale(start, script, issued);
      found := if reply == Done then Some(true) else if Trouble(reply).code == NotFound then Some(false) else None;
    }

    method TakeKey(id: nat) returns (err: Option<Error>)
      requires Underway() && Inv(cluster) && Closing(cluster) && PrintNat(id) == Recorded(cluster.history)
      requires IsOpen() && ForDeletion()
      modifies this`cluster, this`plan, this`issued
      ensures Underway() && Inv(cluster) && OnlyRemoved(old(cluster), cluster, id) && plan == Tail(old(plan))
      ensures Alone(old(plan)) ==> ByItself(old(cluster), cluster, 0)
      ensures err == None || err.value.code == GrpcNotFound ==> id !in cluster.keys
      ensures IsCalm(Head(old(plan))) ==>
        && (err == None || err.value.code == GrpcNotFound)
        && cluster == old(cluster).(keys := old(cluster).keys - {id})
      ensures issued == old(issued) + [RemoveKey(id)] && IsThere(start)
      ensures err == None || err.value.code == GrpcNotFound ==>
        SaysGone(ReplyTo(start, script, issued, |issued| - 1)) && CalledFor(DeleteSecret)
      ensures err.Some? && err.value.code != GrpcNotFound ==> Ends(Errored)
    {
      hide IsCalledFor, BearsOut, Warrants, ReplyTo, Traced, Inv, ByItself, OnlyRemoved, Exchange, IsOpen;
      SoFar();
      InvIsThere(cluster);
      RemoveExchanged(cluster, Head(plan), id);
      RemoveReply(cluster, Head(plan), id);
      OpenCallsFor(RemoveKey(id));
      var reply := Call(RemoveKey(id));
      AfterRemoving(start, script, issued);
      err := if reply == Done then None else Some(Trouble(reply));
    }

    /** `deletePreAuthKey`: without an error, or if Headscale knows no such key, the key is gone. */
    method DeletePreAuthKey(id: nat) returns (err: Option<Error>)
      requires Underway() && Inv(cluster) && Closing(cluster) && PrintNat(id) == Recorded(cluster.history)
      requires Sees() && CalledFor(Connect) && ForDeletion()
      modifies this`cluster, this`plan, this`issued
      ensures Underway() && Inv(cluster) && OnlyRemoved(old(cluster), cluster, id)
      ensures Alone(old(plan)) ==> ByItself(old(cluster), cluster, 0)
      ensures err == None || err.value.code == GrpcNotFound ==> id !in cluster.keys
      ensures Spent(old(plan), plan, 2)
      ensures old(Calm(plan) && |plan| >= 2) ==>
        && (err == None || err.value.code == GrpcNotFound)
        && cluster == old(cluster).(keys := old(cluster).keys - {id})
      ensures err == None || err.value.code == GrpcNotFound ==>
        IsThere(start) && HadAnAnswer(start, script, issued, PrintNat(id)) && CalledFor(DeleteSecret)
      ensures err.Some? && err.value.code != GrpcNotFound ==> Ends(Errored)
    {
      hide ReplyTo, HadAnAnswer, Traced, Inv, ByItself, OnlyRemoved, Undisturbed, RecordedRemoved, Exchange,
        SecretHolds;
      InvIsThere(cluster);
      ghost var s0, alone, before := cluster, Alone(plan), issued;
      err := OpenClient();
      ghost var s1 := cluster;
      InvIsThere(s1);
      UndisturbedRemovesNothing(s0, s1, id);
      if err != None {
        err := Some(Error(Other, err.value.text));
        return;
      }
      ClosingUndisturbed(s0, s1);
      err := TakeKey(id);
      if err == None || err.value.code == GrpcNotFound {
        TakenIsAnAnswer(start, script, before, id);
      }
      InvIsThere(cluster);
      RemovedAfter(s0, s1, cluster, id);
      ByItselfTwice(s0, s1, cluster, alone, 0, 0);
    }

    /** `deleteSecret`: that there is none is no error. */
    method DeleteTheSecret() returns (err: Option<Error>)
      requires Underway() && Inv(cluster) && Closing(cluster) && CalledFor(DeleteSecret)
      modifies this`cluster, this`plan, this`issued
      ensures Underway() && Inv(cluster) && OnlySecret(old(cluster), cluster) && plan == Tail(old(plan))
      ensures Alone(old(plan)) ==> ByItself(old(cluster), cluster, 0)
      ensures cluster.overwritten == old(cluster).overwritten
      ensures IsCalm(Head(old(plan))) ==>
        err == None && Last(cluster.secrets) == None && cluster == old(cluster).(secrets := cluster.secrets)
      ensures issued == old(issued) + [DeleteSecret]
    {
      hide Inv, Traced;
      InvIsThere(cluster);
      SecretExchanged(cluster, Head(plan), DeleteSecret);
      DeletionDoesNotOverwrite(cluster, Head(plan));
      if IsCalm(Head(plan)) {
        CalmDeletion(cluster, Head(plan));
      }
      var reply := Call(DeleteSecret);
      err := if reply == Done || Trouble(reply).code == NotFound then None else Some(Trouble(reply));
    }

    lemma SeenIsAnswer()
      requires Sees()
      ensures HadAnAnswer(start, script, issued, "")
    {
    }

    /** The recorded key is deleted in Headscale, or was already; `false` asks for a retry. */
    method RemoveRecordedKey() returns (done: bool)
      requires Underway() && Inv(cluster) && TrueCopy(cluster, key) && key.deleting
      requires Sees() && CalledFor(Connect) && CalledFor(DeleteSecret) && ForDeletion()
      modifies this`cluster, this`plan, this`issued
      ensures Underway() && Inv(cluster) && OnlyDeparted(old(cluster), cluster)
      ensures Alone(old(plan)) ==> ByItself(old(cluster), cluster, 0)
      ensures done ==> key.keyId == "" || RecordedRemoved(cluster)
      ensures Spent(old(plan), plan, 2)
      ensures old(Calm(plan) && |plan| >= 2) ==>
        && done && cluster == old(cluster).(keys := cluster.keys)
        && (forall id | id in old(cluster).keys && id !in cluster.keys :: PrintNat(id) == key.keyId)
      ensures done ==> HadAnAnswer(start, script, issued, key.keyId) && CalledFor(DeleteSecret)
      ensures !done ==> Ends(Errored)
    {
      hide Inv, Traced, Underway, HadAnAnswer, CalledFor, Ends, Sees;
      done := true;
      if key.keyId == "" {
        SeenIsAnswer();
        return;
      }
      ghost var s0 := cluster;
      OldVersionsTellTheTruth(s0, key);
      ghost var recorded := KeyIdParses(s0, key);
      var parsed := ParseUint(key.keyId, UINT64_LIMIT);
      if parsed.Some? {
        var err := DeletePreAuthKey(parsed.value);
        RemovalDeparts(s0, cluster, parsed.value);
        if err != None && err.value.code != GrpcNotFound {
          return false;
        }
        GoneMeansRemoved(cluster, parsed.value);
      }
    }

    /** The finalizer is removed; if that is accepted the resource is gone, and its KeyID was that of this copy. */
    method RemoveFinalizer() returns (outcome: Outcome)
      requires Underway() && Inv(cluster) && key.deleting && Legit(cluster, Update(key.(finalizer := false)))
      requires CalledFor(Update(key.(finalizer := false)))
      modifies this
      ensures Underway() && Inv(cluster) && Undisturbed(old(cluster), cluster)
      ensures Alone(old(plan)) ==> ByItself(old(cluster), cluster, 0)
      ensures outcome == Finished ==> Last(cluster.history) == None && Recorded(cluster.history) == old(key.keyId)
      ensures outcome == Finished || outcome == Errored
      ensures old(Calm(plan) && plan != [] && key.version == |cluster.history| - 1) ==>
        outcome == Finished && cluster == old(cluster).(history := cluster.history)
      ensures Ends(outcome)
    {
      hide Traced, Underway, Ends, CalledFor;
      key := key.(finalizer := false);
      var err := UpdateResource();
      outcome := if err == None then Finished else Errored;
    }

    /** No Headscale was found, which is noted: the resource goes, and its key stays wherever it is. */
    method LeaveKeyBehind() returns (outcome: Outcome)
      requires Underway() && Inv(cluster) && TrueCopy(cluster, key) && key.deleting && cluster.missed
      requires IsThere(start) && HadAnAnswer(start, script, issued, key.keyId)
      modifies this
      ensures Underway() && Inv(cluster) && Undisturbed(old(cluster), cluster)
      ensures Alone(old(plan)) ==> ByItself(old(cluster), cluster, 0)
      ensures outcome == Finished ==> Last(cluster.history) == None
      ensures RecordedRemoved(cluster) <==> RecordedRemoved(old(cluster))
      ensures old(Calm(plan) && plan != [] && Present()) ==>
        outcome == Finished && cluster == old(cluster).(history := cluster.history)
      ensures Ends(outcome) && (outcome == Finished || outcome == Errored)
    {
      hide Ends, HadAnAnswer, Inv, Traced, RecordedRemoved, Legit, ByItself, Undisturbed;
      ghost var s0 := cluster;
      if Present() {
        PresentIsLastVersion(s0, key);
      }
      LeavingIsLegit(s0, s0, key);
      outcome := RemoveFinalizer();
      RemovedStays(s0, cluster);
    }

    /**
     `handleDeletion`: a run that sees the Headscale removes the finalizer only after the recorded key, and one
     that removes it without is noted.
     */
    method HandleDeletion() returns (outcome: Outcome)
      requires Underway() && Inv(cluster) && TrueCopy(cluster, key) && key.deleting
      requires ForDeletion()
      modifies this
      ensures Underway() && Inv(cluster) && OnlyDeparted(old(cluster), cluster)
      ensures Alone(old(plan)) ==> ByItself(old(cluster), cluster, 0)
      ensures outcome == Finished ==>
        && Last(cluster.history) == None
        && (RecordedRemoved(cluster) <==> SeesHeadscale(old(cluster), Head(old(plan))) || RecordedRemoved(old(cluster)))
      ensures outcome == Finished || outcome == Errored
      ensures old(Calm(plan) && |plan| >= 5 && Present()) && Last(old(cluster).headscales) ==>
        && outcome == Finished && Last(cluster.secrets) == None && (old(key).keyId == "" || RecordedRemoved(cluster))
        && (forall id | id in old(cluster).keys && id !in cluster.keys :: PrintNat(id) == old(key).keyId)
      ensures old(Calm(plan) && |plan| >= 5 && Present()) && !Last(old(cluster).headscales) ==>
        outcome == Finished && cluster == old(cluster).(history := cluster.history, missed := cluster.missed)
      ensures Ends(outcome)
    {
      hide Undisturbed, OnlyDeparted, ByItself, BornOut, Sees, CalledFor, Ends, HadAnAnswer, Inv, Traced, Underway,
        RecordedRemoved, SeesHeadscale, AskedFor, Legit, Closing, Exchange, TrueCopy, IsCalm;
      ghost var s0, alone := cluster, Alone(plan);
      InvIsThere(s0);
      OldVersionsTellTheTruth(s0, key);
      if Present() {
        PresentIsLastVersion(s0, key);
      }
      outcome := Finished;
      if key.finalizer {
        var found := FindHeadscale();
        ghost var s1 := cluster;
        InvIsThere(s1);
        UndisturbedGrows(s0, s1);
        ClosedStays(s0, s1, key);
        RemovedStays(s0, s1);
        if found == Some(false) {
          outcome := LeaveKeyBehind();
          InvIsThere(cluster);
          DepartsLater(s0, s1, cluster, alone);
        } else if found == None {
          outcome := Errored;
        } else {
          assert found.value;
          outcome := DeleteKeySecretAndFinalizer();
          InvIsThere(cluster);
          DepartsLater(s0, s1, cluster, alone);
        }
      }
    }

    method DeleteKeySecretAndFinalizer() returns (outcome: Outcome)
      requires Underway() && Inv(cluster) && TrueCopy(cluster, key) && key.deleting
      requires Sees() && CalledFor(Connect) && CalledFor(DeleteSecret) && ForDeletion()
      modifies this
      ensures Underway() && Inv(cluster) && OnlyDeparted(old(cluster), cluster)
      ensures Alone(old(plan)) ==> ByItself(old(cluster), cluster, 0)
      ensures outcome == Finished ==> Last(cluster.history) == None && RecordedRemoved(cluster)
      ensures outcome == Finished || outcome == Errored
      ensures old(Calm(plan) && |plan| >= 4 && Present()) ==>
        && outcome == Finished && Last(cluster.secrets) == None
        && (forall id | id in old(cluster).keys && id !in cluster.keys :: PrintNat(id) == old(key).keyId)
      ensures Ends(outcome)
    {
      hide HadAnAnswer, Ends, Sees, Inv, Traced, Underway, Legit, Resolves, Exchange, IsCalm, Closing, Recorded;
      ghost var s0 := cluster;
      if Present() {
        PresentIsLastVersion(s0, key);
      }
      var done := RemoveRecordedKey();
      if !done {
        return Errored;
      }
      ghost var s1, asked := cluster, issued;
      ClosedStays(s0, s1, key);
      var _ := DeleteTheSecret();
      ghost var s2 := cluster;
      SecretDeparts(s1, s2);
      DepartedTwice(s0, s1, s2);
      if key.keyId != "" {
        RemovedStays(s1, s2);
      }
      AnswerInMore(start, script, asked, issued, key.keyId);
      LeavingIsLegit(s0, s2, key);
      ghost var keyId := key.keyId;
      outcome := RemoveFinalizer();
      DepartedTwice(s0, s2, cluster);
      if keyId != "" {
        RemovedStays(s2, cluster);
      } else {
        NothingPrintsEmpty(cluster);
      }
    }

    // ---------- The user ----------

    /** `ensureHeadscaleUserOwnerReference`: one owner reference per HeadscaleUser, found by UID. */
    method EnsureOwner(name: string, uid: nat) returns (err: Option<Error>)
      requires Underway() && Inv(cluster) && TrueCopy(cluster, key) && !key.deleting && key.finalizer
      modifies this
      ensures Underway() && Inv(cluster) && Undisturbed(old(cluster), cluster) && Spent(old(plan), plan, 1)
      ensures Alone(old(plan)) ==> ByItself(old(cluster), cluster, 0)
      ensures err == None ==>
        && TrueCopy(cluster, key) && OwnedBy(key, uid)
        && key == old(key).(version := key.version, owners := key.owners)
        && key.owners == (if OwnedBy(old(key), uid) then old(key).owners else old(key).owners + [Owner(name, uid, true)])
      ensures old(Calm(plan) && plan != [] && Present()) ==>
        err == None && Present() && cluster == old(cluster).(history := cluster.history)
      ensures old(OwnedBy(key, uid)) ==> err == None && key == old(key) && cluster == old(cluster) && plan == old(plan)
      ensures old(issued) <= issued
      ensures err != None ==> Ends(Errored)
      ensures err == None && issued != old(issued) ==> BornOut(true, PreAuthKeyReady)
    {
      hide Inv, Traced, BornOut, Ends;
      err := None;
      SoFar();
      ghost var s0 := cluster;
      if Present() {
        PresentIsLastVersion(s0, key);
      }
      for i := 0 to |key.owners|
        invariant forall j | 0 <= j < i :: key.owners[j].uid != uid
      {
        if key.owners[i].uid == uid {
          return;
        }
      }
      OwningIsLegit(s0, key, Owner(name, uid, true));
      key := key.(owners := key.owners + [Owner(name, uid, true)]);
      assert key.owners[|key.owners| - 1].uid == uid;
      err := UpdateResource();
    }

    /** `updateStatusCondition` with a reason not to be ready, then an end with `outcome`. */
    method Decline(reason: Reason, about: string, end: Outcome) returns (outcome: Outcome)
      requires Underway() && Inv(cluster) && BornOut(false, reason) && end == EndOf(reason)
      modifies this
      ensures Underway() && Inv(cluster) && Undisturbed(old(cluster), cluster) && Spent(old(plan), plan, 1)
      ensures Alone(old(plan)) ==> ByItself(old(cluster), cluster, 0)
      ensures old(Calm(plan) && plan != [] && Present() && !key.deleting) ==>
        && outcome == end && Present() && cluster == old(cluster).(history := cluster.history)
        && key.finalizer == old(key.finalizer) && IsReported(key, false, reason)
      ensures Ends(outcome)
    {
      hide Traced, Underway, BornOut, Ends;
      var err := UpdateStatusCondition(false, reason, about);
      outcome := if err == None then end else Errored;
    }

    method ReadUser(name: string) returns (user: Option<User>, missing: bool)
      requires Underway() && Inv(cluster)
      modifies this`cluster, this`plan, this`issued
      ensures Underway() && Inv(cluster) && Undisturbed(old(cluster), cluster) && plan == Tail(old(plan))
      ensures Alone(old(plan)) ==> ByItself(old(cluster), cluster, 0)
      ensures user.Some? ==>
        exists i :: 0 <= i < |cluster.users| && name in cluster.users[i] && cluster.users[i][name] == user.value
      ensures IsCalm(Head(old(plan))) ==>
        && cluster == old(cluster) && missing == (name !in Last(old(cluster).users))
        && user == if missing then None else Some(Last(old(cluster).users)[name])
      ensures issued == old(issued) + [GetUser(name)]
      ensures user.Some? ==> BornOut(true, PreAuthKeyReady)
      ensures user.Some? && user.value.userId == "" ==> BornOut(false, UserNotReady)
      ensures user.Some? && user.value.userId != "" && ParseUint(user.value.userId, UINT64_LIMIT) == None ==>
        BornOut(false, InvalidUserID)
      ensures user == None ==> if missing then BornOut(false, UserNotFound) else Ends(Errored)
    {
      hide IsCalledFor, BearsOut, Warrants, Traced, ReplyTo, Exchange, Undisturbed, ByItself, Alone, IsCalm, TrueCopy;
      SoFar();
      ReadsAreFree(start, script, issued, GetUser(name));
      AnswerKinds(cluster, Head(plan), GetUser(name));
      ReadExchanged(cluster, Head(plan), GetUser(name));
      UserAnswer(cluster, Head(plan), name);
      var reply := Call(GetUser(name));
      AfterUser(start, script, issued);
      user := if reply.Usered? then Some(reply.user) else None;
      missing := reply.Failed? && reply.error.code == NotFound;
    }

    lemma SeenResolves()
      requires Sees()
      ensures BornOut(true, PreAuthKeyReady)
    {
    }

    /**
     `resolveUserID`: a user is resolved only for a resource that owns up to it, and a resource that names a
     HeadscaleUser has been made its dependent by then.
     */
    method ResolveUserID() returns (r: Resolution)
      requires Underway() && Inv(cluster) && TrueCopy(cluster, key) && !key.deleting && key.finalizer
      requires Sees()
      modifies this
      ensures Underway() && Inv(cluster) && Undisturbed(old(cluster), cluster) && Spent(old(plan), plan, 2)
      ensures Alone(old(plan)) ==> ByItself(old(cluster), cluster, 0)
      ensures r.Resolved? ==>
        && TrueCopy(cluster, key) && key == old(key).(version := key.version, owners := key.owners)
        && Resolves(key, cluster.users, r.userID)
      ensures old(Calm(plan) && |plan| >= 2 && Present()) ==>
        Answers(old(cluster), cluster, old(key), key, r)
      ensures old(Calm(plan) && plan != [] && OldNews(cluster, key)) ==>
        r.Resolved? && key == old(key) && cluster == old(cluster)
      ensures r.Resolved? ==> old(issued) <= issued && BornOut(true, PreAuthKeyReady)
      ensures r.Stop? ==> Ends(r.outcome)
    {
      hide BornOut, Ends, Inv, OldNews, Undisturbed, Names, OwnedBy, ParseUint, Alone, Closing, ByItself, Traced,
        Underway, Exchange;
      SeenResolves();
      InvIsThere(cluster);
      NothingChanged(cluster);
      NothingByItself(cluster);
      if OldNews(cluster, key) {
        OldNewsResolves(cluster, key);
      }
      if key.spec.userRef != "" && key.spec.userID != 0 {
        var outcome := Decline(InvalidSpec, "not both", Finished);
        return Stop(outcome);
      }
      if key.spec.userRef == "" && key.spec.userID == 0 && |key.spec.tags| == 0 {
        var outcome := Decline(InvalidSpec, "tags", Finished);
        return Stop(outcome);
      }
      if key.spec.userRef == "" {
        return Resolved(key.spec.userID);
      }
      r := ResolveReference();
    }

    /** With the HeadscaleUser read: its UserID, once the resource is its dependent. */
    method ResolveFrom(user: User) returns (r: Resolution)
      requires Underway() && Inv(cluster) && TrueCopy(cluster, key) && !key.deleting && key.finalizer
      requires key.spec.userRef != "" && key.spec.userID == 0
      requires exists i :: 0 <= i < |cluster.users| && IsUser(key, cluster.users[i], user)
      requires BornOut(true, PreAuthKeyReady)
      requires user.userId == "" ==> BornOut(false, UserNotReady)
      requires user.userId != "" && ParseUint(user.userId, UINT64_LIMIT) == None ==> BornOut(false, InvalidUserID)
      modifies this
      ensures Underway() && Inv(cluster) && Undisturbed(old(cluster), cluster) && Spent(old(plan), plan, 1)
      ensures Alone(old(plan)) ==> ByItself(old(cluster), cluster, 0)
      ensures r.Resolved? ==>
        && TrueCopy(cluster, key) && key == old(key).(version := key.version, owners := key.owners)
        && Resolves(key, cluster.users, r.userID)
      ensures old(Calm(plan) && plan != [] && Present() && IsUser(key, Last(cluster.users), user)) ==>
        Answers(old(cluster), cluster, old(key), key, r)
      ensures old(OldNews(cluster, key) && IsUser(key, Last(cluster.users), user)) ==>
        r.Resolved? && key == old(key) && cluster == old(cluster)
      ensures r.Resolved? ==> old(issued) <= issued && BornOut(true, PreAuthKeyReady)
      ensures r.Stop? ==> Ends(r.outcome)
    {
      hide BornOut, Ends, ByItself, Inv, OldNews, Undisturbed, Names, OwnedBy, Resolves, TrueCopy, Traced, Underway;
      ghost var s0 := cluster;
      InvIsThere(s0);
      if OldNews(s0, key) {
        OldNewsResolves(s0, key);
      }
      if user.userId == "" {
        var outcome := Decline(UserNotReady, key.spec.userRef, RetryAfter(10));
        return Stop(outcome);
      }
      var parsed := ParseUint(user.userId, UINT64_LIMIT);
      if parsed == None {
        var outcome := Decline(InvalidUserID, user.userId, Errored);
        return Stop(outcome);
      }
      var err := EnsureOwner(key.spec.userRef, user.uid);
      if err != None {
        return Stop(Errored);
      }
      OwnedIsResolved(s0, cluster, key, user, parsed.value);
      r := Resolved(parsed.value);
    }

    method ResolveReference() returns (r: Resolution)
      requires Underway() && Inv(cluster) && TrueCopy(cluster, key) && !key.deleting && key.finalizer
      requires key.spec.userRef != "" && key.spec.userID == 0
      modifies this
      ensures Underway() && Inv(cluster) && Undisturbed(old(cluster), cluster) && Spent(old(plan), plan, 2)
      ensures Alone(old(plan)) ==> ByItself(old(cluster), cluster, 0)
      ensures r.Resolved? ==>
        && TrueCopy(cluster, key) && key == old(key).(version := key.version, owners := key.owners)
        && Resolves(key, cluster.users, r.userID)
      ensures old(Calm(plan) && |plan| >= 2 && Present()) ==>
        Answers(old(cluster), cluster, old(key), key, r)
      ensures old(Calm(plan) && plan != [] && OldNews(cluster, key)) ==>
        r.Resolved? && key == old(key) && cluster == old(cluster)
      ensures r.Resolved? ==> old(issued) <= issued && BornOut(true, PreAuthKeyReady)
      ensures r.Stop? ==> Ends(r.outcome)
    {
      hide BornOut, Ends, ByItself, Inv, OldNews, Undisturbed, Names, OwnedBy, Resolves, TrueCopy, Traced, Underway;
      ghost var s0, alone := cluster, Alone(plan);
      InvIsThere(s0);
      if OldNews(s0, key) {
        OldNewsResolves(s0, key);
      }
      var user, missing := ReadUser(key.spec.userRef);
      ghost var s1 := cluster;
      InvIsThere(s1);
      CopyUndisturbed(s0, s1, key);
      if user == None {
        if !missing {
          return Stop(Errored);
        }
        var outcome := Decline(UserNotFound, key.spec.userRef, RetryAfter(30));
        r := Stop(outcome);
      } else {
        r := ResolveFrom(user.value);
      }
      BothUndisturbed(s0, s1, cluster, alone);
    }

    // ---------- Reconcile ----------

    lemma NothingIssued()
      requires Traced() && issued == []
      ensures cluster == start && plan == script && IsThere(start)
    {
    }

    method ReadResource() returns (found: bool, missing: bool)
      requires Traced() && issued == [] && Inv(cluster)
      modifies this
      ensures Underway() && Inv(cluster) && Undisturbed(old(cluster), cluster) && plan == Tail(old(plan))
      ensures Alone(old(plan)) ==> ByItself(old(cluster), cluster, 0)
      ensures var first := Exchange(old(cluster), Head(old(plan)), GetResource);
        cluster == first.0 && found == first.1.Resourced? && (found ==> key == first.1.r)
      ensures found ==> TrueCopy(cluster, key)
      ensures found && Head(old(plan)).lag == 0 ==> Present()
      ensures Head(old(plan)).before == Quiet && Head(old(plan)).answer == Success ==>
        && cluster == old(cluster) && found == Seen(old(cluster).history, Head(old(plan)).lag).Some? && missing == !found
        && (found ==> Seen(old(cluster).history, Head(old(plan)).lag) == Some(key))
      ensures found ==> FirstRead(start, script) == Resourced(key)
      ensures !found ==> FirstRead(start, script).Failed? && issued == [GetResource]
      ensures !found ==> Ends(if missing then Finished else Errored)
    {
      hide Inv, Traced;
      NothingIssued();
      InvIsThere(cluster);
      ResourceAnswerKinds(cluster, Head(plan));
      ReadExchanged(cluster, Head(plan), GetResource);
      ResourceAnswer(cluster, Head(plan));
      var reply := Call(GetResource);
      found, missing := reply.Resourced?, reply.Failed? && reply.error.code == NotFound;
      if reply.Resourced? {
        key := reply.r;
      }
    }

    /** A run on a resource that is not being deleted. */
    method ReconcileLive() returns (outcome: Outcome, ghost made: Option<nat>)
      requires Underway() && Inv(cluster) && TrueCopy(cluster, key) && !key.deleting
      modifies this
      ensures Underway() && Inv(cluster) && Effects(old(cluster), cluster, made)
      ensures Alone(old(plan)) ==> ByItself(old(cluster), cluster, 1)
      ensures Recorded(old(cluster).history) == old(key).keyId ==> cluster.overwritten == old(cluster).overwritten
      ensures old(Calm(plan) && |plan| >= 11 && Present() && HasSpace(cluster) && FreshTexts(plan, cluster.made)) ==>
        Settled(old(cluster), cluster, outcome, made)
      ensures old(Calm(plan) && |plan| >= 9 && HasSpace(cluster) && FreshTexts(plan, cluster.made)
                  && OldNews(cluster, key)) ==>
        cluster.overwritten
      ensures Ends(outcome)
    {
      hide Ends, Inv, ByItself, OldNews, Settled, Traced, Underway, TrueCopy, Effects, RecordedRemoved;
      made := None;
      ghost var s0, alone, calm := cluster, Alone(plan), Calm(plan) && |plan| >= 11 && Present();
      InvIsThere(s0);
      if OldNews(s0, key) {
        OldNewsHasFinalizer(s0, key);
      }
      var err := EnsureFinalizer();
      ghost var s1 := cluster;
      InvIsThere(s1);
      UndisturbedIsNoEffect(s0, s1);
      ByItselfLoosely(s0, s1, alone);
      if err != None {
        return Errored, made;
      }
      outcome, made := ReconcileGuarded();
      InvIsThere(cluster);
      EffectsTwice(s0, s1, cluster, None, made);
      ByItselfTwice(s0, s1, cluster, alone, 0, 1);
      if calm && HasSpace(s0) && FreshTexts(old(plan), s0.made) {
        SettledBefore(s0, s1, cluster, outcome, made);
      }
    }

    /** A run on a resource that has its finalizer. */
    method ReconcileGuarded() returns (outcome: Outcome, ghost made: Option<nat>)
      requires Underway() && Inv(cluster) && TrueCopy(cluster, key) && !key.deleting && key.finalizer
      modifies this
      ensures Underway() && Inv(cluster) && Effects(old(cluster), cluster, made)
      ensures Alone(old(plan)) ==> ByItself(old(cluster), cluster, 1)
      ensures Recorded(old(cluster).history) == old(key).keyId ==> cluster.overwritten == old(cluster).overwritten
      ensures old(Calm(plan) && |plan| >= 10 && Present() && HasSpace(cluster) && FreshTexts(plan, cluster.made)) ==>
        Settled(old(cluster), cluster, outcome, made)
      ensures old(Calm(plan) && |plan| >= 9 && HasSpace(cluster) && FreshTexts(plan, cluster.made)
                  && OldNews(cluster, key)) ==>
        cluster.overwritten
      ensures Ends(outcome)
    {
      hide Ends, BornOut, CalledFor, Sees, HadAnAnswer, Inv, ByItself, Settled, Traced, Underway, SeesHeadscale,
        Effects;
      made := None;
      ghost var s0, alone, calm := cluster, Alone(plan), Calm(plan) && |plan| >= 10 && Present();
      InvIsThere(s0);
      var found := FindHeadscale();
      ghost var s1 := cluster;
      InvIsThere(s1);
      UndisturbedIsNoEffect(s0, s1);
      ByItselfLoosely(s0, s1, alone);
      if found == None {
        return Errored, made;
      }
      if found == Some(false) {
        outcome := Decline(HeadscaleNotFound, "", RetryAfter(30));
        BothUndisturbed(s0, s1, cluster, alone);
        UndisturbedIsNoEffect(s0, cluster);
        InvIsThere(cluster);
        ByItselfLoosely(s0, cluster, alone);
        if calm {
          SettledAbsent(s0, cluster, outcome, made);
        }
        return;
      }
      CopyStays(s0, s1, key);
      assert found.value;
      outcome, made := ReconcileKey();
      EffectsTwice(s0, s1, cluster, None, made);
      InvIsThere(cluster);
      ByItselfTwice(s0, s1, cluster, alone, 0, 1);
    }

    /** A run that has found the Headscale. */
    method ReconcileKey() returns (outcome: Outcome, ghost made: Option<nat>)
      requires Underway() && Inv(cluster) && TrueCopy(cluster, key) && !key.deleting && key.finalizer
      requires Sees() && CalledFor(Connect)
      modifies this
      ensures Underway() && Inv(cluster) && Effects(old(cluster), cluster, made)
      ensures Alone(old(plan)) ==> ByItself(old(cluster), cluster, 1)
      ensures Recorded(old(cluster).history) == old(key).keyId ==> cluster.overwritten == old(cluster).overwritten
      ensures old(Calm(plan) && |plan| >= 9 && Present() && HasSpace(cluster) && FreshTexts(plan, cluster.made)
                  && Last(cluster.headscales)) ==>
        Settled(old(cluster), cluster, outcome, made)
      ensures old(Calm(plan) && |plan| >= 8 && HasSpace(cluster) && FreshTexts(plan, cluster.made)
                  && OldNews(cluster, key)) ==>
        cluster.overwritten
      ensures Ends(outcome)
    {
      hide Inv, Traced, Ends, BornOut, Sees, SawHeadscale, ReplyTo;
      made := None;
      ghost var s0, before := cluster, issued;
      var resolution := ResolveUserID();
      ghost var s1 := cluster;
      UndisturbedIsNoEffect(s0, s1);
      if resolution.Stop? {
        return resolution.outcome, made;
      }
      if key.keyId != "" {
        OldVersionsTellTheTruth(s1, key);
        outcome := Accept(PreAuthKeyReady);
        UndisturbedTwice(s0, s1, cluster);
        UndisturbedIsNoEffect(s0, cluster);
        return;
      }
      SawInMore(start, script, before, issued);
      outcome, made := CreateAndReport(resolution.userID);
      EffectsTwice(s0, s1, cluster, None, made);
    }

    method CreateAndReport(userID: nat) returns (outcome: Outcome, ghost made: Option<nat>)
      requires Underway() && Inv(cluster) && TrueCopy(cluster, key) && !key.deleting && key.finalizer && key.keyId == ""
      requires Resolves(key, cluster.users, userID)
      requires CalledFor(Connect) && BornOut(true, PreAuthKeyReady)
      modifies this
      ensures Underway() && Inv(cluster) && Effects(old(cluster), cluster, made)
      ensures Alone(old(plan)) ==> ByItself(old(cluster), cluster, 1)
      ensures Recorded(old(cluster).history) == "" ==> cluster.overwritten == old(cluster).overwritten
      ensures old(Calm(plan) && |plan| >= 7 && Present() && HasSpace(cluster) && FreshTexts(plan, cluster.made)) ==>
        if old(key).spec.expiration.Garbled? then
          SettledWithout(old(cluster), cluster, false, PreAuthKeyCreationFailed, outcome, RetryAfter(30))
        else SettledCreation(old(cluster), cluster, old(key), userID, outcome, made)
      ensures old(Calm(plan) && |plan| >= 6 && HasSpace(cluster) && FreshTexts(plan, cluster.made)
                  && Recorded(cluster.history) != "" && !key.spec.expiration.Garbled?) ==>
        cluster.overwritten
      ensures Ends(outcome)
    {
      hide Inv, Traced, Underway, Ends, BornOut, CalledFor;
      ghost var s0 := cluster;
      var err;
      err, made := CreatePreAuthKey(userID);
      ghost var s1 := cluster;
      NothingPrintsEmpty(s1);
      MadeOneIsEffect(s0, s1, made, old(WishOf(userID)));
      if err != None {
        outcome := Decline(PreAuthKeyCreationFailed, err.value.text, RetryAfter(30));
      } else {
        outcome := Accept(PreAuthKeyCreated);
      }
      UndisturbedIsNoEffect(s1, cluster);
      EffectsTwice(s0, s1, cluster, made, None);
    }

    method Accept(reason: Reason) returns (outcome: Outcome)
      requires Underway() && Inv(cluster) && BornOut(true, reason) && Recorded(cluster.history) != "" && EndOf(reason) == Finished
      modifies this
      ensures Underway() && Inv(cluster) && Undisturbed(old(cluster), cluster) && Spent(old(plan), plan, 1)
      ensures Alone(old(plan)) ==> ByItself(old(cluster), cluster, 0)
      ensures old(Calm(plan) && plan != [] && Present() && !key.deleting) ==>
        && outcome == Finished && Present() && cluster == old(cluster).(history := cluster.history)
        && key == old(key).(version := key.version, condition := key.condition) && IsReported(key, true, reason)
      ensures Ends(outcome)
    {
      hide Traced, Underway, BornOut, Ends;
      var err := UpdateStatusCondition(true, reason, "");
      outcome := if err == None then Finished else Errored;
    }

    /** A run that has read the resource. */
    method Proceed() returns (outcome: Outcome, ghost made: Option<nat>)
      requires Underway() && Inv(cluster) && TrueCopy(cluster, key)
      requires IsThere(start) && FirstRead(start, script) == Resourced(key)
      modifies this
      ensures Underway() && Inv(cluster) && Effects(old(cluster), cluster, made)
      ensures Alone(old(plan)) ==> ByItself(old(cluster), cluster, 1)
      ensures Recorded(old(cluster).history) == old(key).keyId || old(key).deleting ==>
        cluster.overwritten == old(cluster).overwritten
      ensures old(key).deleting && outcome == Finished ==>
        && Last(cluster.history) == None
        && (RecordedRemoved(cluster) <==> SeesHeadscale(old(cluster), Head(old(plan))) || RecordedRemoved(old(cluster)))
      ensures old(Calm(plan) && |plan| >= 11 && Present() && HasSpace(cluster) && FreshTexts(plan, cluster.made)) ==>
        Settled(old(cluster), cluster, outcome, made)
      ensures old(Calm(plan) && |plan| >= 9 && HasSpace(cluster) && FreshTexts(plan, cluster.made)
                  && OldNews(cluster, key)) ==>
        cluster.overwritten
      ensures Ends(outcome)
    {
      hide Ends, Inv, Effects, SettledCreation, SettledWithout, RecordedRemoved, SeesHeadscale, Traced, Underway;
      ghost var s0, alone := cluster, Alone(plan);
      InvIsThere(s0);
      made := None;
      if IsCalm(Head(plan)) {
        CalmSees(s0, Head(plan));
      }
      if key.deleting {
        outcome := HandleDeletion();
        DepartureIsNoEffect(s0, cluster);
        InvIsThere(cluster);
        ByItselfLoosely(s0, cluster, alone);
      } else {
        outcome, made := ReconcileLive();
      }
    }

    lemma RunIsAnswered(outcome: Outcome)
      requires Traced() && Ends(outcome) && (FirstRead(start, script).Failed? ==> issued == [GetResource])
      ensures IsAnswered(start, script, issued, outcome)
    {
    }

    /**
     `Reconcile`. A run makes at most one key and records at most that one, and none once one is recorded. If it
     reads the present, it leaves a recorded key in the Secret. If it ends a deletion, the recorded key is gone if
     and only if the run saw the Headscale or the key was gone before. If nothing interferes, it brings about what
     the present state calls for.
     */
    method Reconcile() returns (outcome: Outcome, ghost made: Option<nat>)
      requires Traced() && issued == [] && Inv(cluster)
      modifies this
      ensures Underway() && Inv(cluster) && Effects(old(cluster), cluster, made)
      ensures Alone(old(plan)) ==> ByItself(old(cluster), cluster, 1)
      ensures Head(old(plan)).lag == 0 ==> cluster.overwritten == old(cluster).overwritten
      ensures ReadsDeletion(old(cluster), old(plan)) && outcome == Finished ==>
        && Last(cluster.history) == None
        && (RecordedRemoved(cluster) <==> SeesToDeletion(old(cluster), old(plan)) || RecordedRemoved(old(cluster)))
      ensures IsUndisturbedRun(old(plan), old(cluster)) && Last(old(cluster).history).Some? ==>
        Settled(old(cluster), cluster, outcome, made)
      ensures var seen := Seen(old(cluster).history, Head(old(plan)).lag);
        IsLateRun(old(plan), old(cluster)) && seen.Some? && OldNews(old(cluster), seen.value) ==> cluster.overwritten
      ensures IsUndisturbedRun(old(plan), old(cluster)) && Last(old(cluster).history) == None ==>
        outcome == Finished && cluster == old(cluster)
      ensures IsAnswered(start, script, issued, outcome)
    {
      hide Disturb, Serve, TrueCopy, Ends, IsAnswered, Inv, Effects, Settled, RecordedRemoved, SeesHeadscale, Traced;
      ghost var s0 := cluster;
      InvIsThere(s0);
      assert plan != [] ==> Head(plan) in plan;
      var found, missing := ReadResource();
      ghost var s1 := cluster;
      made := None;
      UndisturbedIsNoEffect(s0, s1);
      RemovedStays(s0, s1);
      InvIsThere(s1);
      if !found {
        outcome := if missing then Finished else Errored;
        RunIsAnswered(outcome);
        return;
      }
      if Present() {
        PresentIsRecorded(s1, key);
      }
      SoFar();
      outcome, made := Proceed();
      RunIsAnswered(outcome);
      EffectsTwice(s0, s1, cluster, None, made);
    }
  }
}
