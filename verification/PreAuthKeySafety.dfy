/** Every call a controller makes legitimately, and everything that happens beside it, keeps the invariant. */
module PreAuthKeySafety {
  import opened Wrappers
  import opened Decimal
  import opened Calls
  import opened PreAuthKeyWorld

  // ---------- Writes of the resource ----------

  lemma InvIsThere(s: State)
    requires Inv(s)
    ensures IsThere(s)
  {
  }

  /** What a write of the resource must respect. */
  ghost predicate Writable(s: State, r: Resource)
    requires s.history != [] && s.secrets != []
  {
    Last(s.history).Some? && var now := Last(s.history).value;
    && r.version == now.version
    && (now.deleting ==> r.deleting)
    && (IsReady(r) ==> r.keyId != "")
    && (now.keyId != "" ==> r.keyId == now.keyId)
    && (now.keyId == "" && r.keyId != "" ==> Records(s, r.keyId))
    && (r.keyId != "" && !r.finalizer ==> r.deleting && (s.missed || RecordedRemoved(s)))
  }

  /** The Secret holds the key of this id. */
  ghost predicate Records(s: State, keyId: string)
    requires s.secrets != []
  {
    exists id :: id in s.made && keyId == PrintNat(id) && SecretHolds(s, s.made[id].text)
  }

  lemma WritableKeyIdIsId(s: State, r: Resource)
    requires HistoryInv(s) && Writable(s, r)
    ensures r.keyId != "" ==> IsIdOf(r.keyId, s.made)
  {
  }

  lemma CommitKeepsVersions(s: State, r: Resource)
    requires HistoryInv(s) && Writable(s, r)
    ensures var t := Commit(s, r); forall i | 0 <= i < |t.history| - 1 :: Follows(t.history[i], t.history[i + 1])
  {
    var t := Commit(s, r);
    if t != s {
      var n := |s.history|;
      assert Follows(t.history[n - 1], t.history[n]);
      forall i | 0 <= i < |t.history| - 1 ensures Follows(t.history[i], t.history[i + 1]) {
        if i < n - 1 {
          assert t.history[i] == s.history[i] && t.history[i + 1] == s.history[i + 1];
          assert Follows(s.history[i], s.history[i + 1]);
        }
      }
    }
  }

  lemma CommitKeepsHistory(s: State, r: Resource)
    requires Inv(s) && Writable(s, r)
    ensures HistoryInv(Commit(s, r))
  {
    hide TableInv, ConservationInv, DepartureInv, AgreementInv, DemandInv, Follows, IsIdOf, Records, RecordedRemoved;
    WritableKeyIdIsId(s, r);
    CommitKeepsVersions(s, r);
  }

  lemma CommitKeepsRecord(s: State, r: Resource)
    requires Inv(s) && Writable(s, r)
    ensures Recorded(Commit(s, r).history) ==
      if Commit(s, r) == s || Last(Commit(s, r).history).Some? then r.keyId else Recorded(s.history)
    ensures Last(s.history).value.keyId != "" ==> Recorded(Commit(s, r).history) == Recorded(s.history)
  {
    RecordedOfMore(s.history, None);
    RecordedOfMore(s.history, Some(r.(version := |s.history|)));
  }

  lemma NothingRecordedNothingLost(s: State)
    requires Inv(s) && Recorded(s.history) == ""
    ensures forall id | id in s.made :: id in s.keys
    ensures RecordedRemoved(s)
  {
    NothingPrintsEmpty(s);
  }

  /** The parts of the state a write of the resource leaves alone. */
  lemma CommitFrame(s: State, r: Resource)
    requires s.history != []
    ensures var t := Commit(s, r);
      s.history <= t.history && t.secrets == s.secrets && t.headscales == s.headscales && t.users == s.users
      && t.keys == s.keys && t.next == s.next && t.made == s.made && t.overwritten == s.overwritten
      && t.missed == s.missed && t.bereft == s.bereft
  {
  }

  lemma CommitKeepsConservation(s: State, r: Resource)
    requires Inv(s) && Writable(s, r)
    ensures ConservationInv(Commit(s, r)) && DepartureInv(Commit(s, r))
  {
    InvIsThere(s);
    hide HistoryInv, TableInv, AgreementInv, DemandInv, Records, IsIdOf, SecretHolds;
    CommitFrame(s, r);
    CommitKeepsRecord(s, r);
    if Recorded(s.history) == "" {
      NothingRecordedNothingLost(s);
    }
  }

  lemma CommitKeepsAgreement(s: State, r: Resource)
    requires Inv(s) && IsThere(s) && Writable(s, r)
    ensures AgreementInv(Commit(s, r))
  {
    hide HistoryInv, TableInv, ConservationInv, DepartureInv, DemandInv;
    var t := Commit(s, r);
    CommitFrame(s, r);
    CommitKeepsRecord(s, r);
    if Recorded(s.history) == "" && t != s && Last(t.history).Some? && r.keyId != "" {
      var id :| id in s.made && r.keyId == PrintNat(id) && SecretHolds(s, s.made[id].text);
      forall other | other in s.made && PrintNat(other) == r.keyId ensures other == id {
        PrintInjective(other, id);
      }
    } else if Recorded(t.history) == "" {
      NothingPrintsEmpty(s);
    }
  }

  lemma NothingPrintsEmpty(s: State)
    ensures forall id | id in s.made :: PrintNat(id) != ""
  {
    forall id | id in s.made ensures PrintNat(id) != "" {
      PrintNotEmpty(id);
    }
  }

  lemma CommitKeepsInv(s: State, r: Resource)
    requires Inv(s) && Writable(s, r)
    ensures Inv(Commit(s, r))
  {
    CommitFrame(s, r);
    CommitKeepsHistory(s, r);
    CommitKeepsConservation(s, r);
    CommitKeepsAgreement(s, r);
    AskedForAll(s, Commit(s, r));
  }

  /** Demands are met by versions, and versions stay. */
  lemma AskedForAll(s: State, t: State)
    requires DemandInv(s) && s.history <= t.history && s.users <= t.users && t.made == s.made
    ensures DemandInv(t)
  {
    forall id | id in t.made ensures AskedFor(t, t.made[id].wish) {
      AskedForStays(s, t, s.made[id].wish);
    }
  }

  lemma ResolvesStays(r: Resource, users: seq<map<string, User>>, more: seq<map<string, User>>, user: nat)
    requires Resolves(r, users, user) && users <= more
    ensures Resolves(r, more, user)
  {
    if r.spec.userRef != "" {
      var i :| 0 <= i < |users| && Names(r, users[i], user);
      assert more[i] == users[i];
    }
  }

  lemma AskedForStays(s: State, t: State, wish: Wish)
    requires AskedFor(s, wish) && s.history <= t.history && s.users <= t.users
    ensures AskedFor(t, wish)
  {
    var i :| 0 <= i < |s.history| && s.history[i].Some? && Grants(s.history[i].value, s.users, wish);
    assert t.history[i] == s.history[i];
    ResolvesStays(s.history[i].value, s.users, t.users, wish.user);
    assert Grants(t.history[i].value, t.users, wish);
  }

  // ---------- Disturbances ----------

  /** What a disturbance cannot touch. */
  ghost predicate Undisturbed(s: State, t: State) {
    && s.history <= t.history && s.users <= t.users && s.headscales <= t.headscales
    && t.secrets == s.secrets && t.made == s.made && t.overwritten == s.overwritten && s.next <= t.next
    && (s.missed ==> t.missed)
    && Recorded(t.history) == Recorded(s.history)
    && forall id | id in s.made :: id in t.keys <==> id in s.keys
  }

  lemma UndisturbedTwice(s: State, t: State, u: State)
    requires Undisturbed(s, t) && Undisturbed(t, u)
    ensures Undisturbed(s, u)
  {
  }

  /** Users change what they may, and no more. */
  lemma OutsideWrite(s: State, r: Resource)
    requires Inv(s) && Last(s.history).Some? && var now := Last(s.history).value;
      r == now.(spec := r.spec, owners := r.owners, generation := r.generation, deleting := r.deleting)
      && (now.deleting ==> r.deleting)
    ensures Inv(Commit(s, r)) && Undisturbed(s, Commit(s, r))
  {
    CommitKeepsInv(s, r);
    CommitFrame(s, r);
    CommitKeepsRecord(s, r);
  }

  lemma ReferenceChanges(s: State, t: State)
    requires Inv(s) && s.users <= t.users && s.headscales <= t.headscales && t.headscales != []
    requires t == s.(users := t.users, headscales := t.headscales, missed := t.missed, bereft := t.bereft)
    requires s.missed ==> t.missed
    ensures Inv(t) && Undisturbed(s, t)
  {
    AskedForAll(s, t);
  }

  lemma OthersChangeKeys(s: State, t: State)
    requires Inv(s) && s.next <= t.next <= UINT64_LIMIT && t == s.(keys := t.keys, next := t.next)
    requires forall id | id in t.keys :: id < t.next
    requires forall id | id in s.made :: (id in t.keys <==> id in s.keys) && (id in t.keys ==> t.keys[id] == s.keys[id])
    ensures Inv(t) && Undisturbed(s, t)
  {
    AskedForAll(s, t);
  }

  lemma OutsideEdit(s: State, d: Disturbance)
    requires Inv(s) && (d.Edit? || d.AskDeletion?)
    ensures Inv(Disturb(s, d)) && Undisturbed(s, Disturb(s, d))
  {
    if Last(s.history).Some? {
      var t := Commit(s, Touched(Last(s.history).value, d));
      OutsideWrite(s, Touched(Last(s.history).value, d));
      ReferenceChanges(t, Disturb(s, d));
      UndisturbedTwice(s, t, Disturb(s, d));
    }
  }

  lemma OutsideKeys(s: State, d: Disturbance)
    requires Inv(s) && (d.OthersMake? || d.OthersRemove?)
    ensures Inv(Disturb(s, d)) && Undisturbed(s, Disturb(s, d))
  {
    hide HistoryInv, ConservationInv, DepartureInv, AgreementInv, DemandInv, Undisturbed;
    InvIsThere(s);
    OthersChangeKeys(s, Disturb(s, d));
  }

  lemma OutsideReferences(s: State, d: Disturbance)
    requires Inv(s) && (d.SetHeadscale? || d.SetUsers?)
    ensures Inv(Disturb(s, d)) && Undisturbed(s, Disturb(s, d))
  {
    ReferenceChanges(s, Disturb(s, d));
  }

  lemma DisturbKeepsInv(s: State, d: Disturbance)
    requires Inv(s)
    ensures Inv(Disturb(s, d)) && Undisturbed(s, Disturb(s, d))
  {
    match d {
      case Quiet =>
      case Edit(_, _) => OutsideEdit(s, d);
      case AskDeletion => OutsideEdit(s, d);
      case SetHeadscale(_) => OutsideReferences(s, d);
      case SetUsers(_) => OutsideReferences(s, d);
      case OthersMake(_) => OutsideKeys(s, d);
      case OthersRemove(_) => OutsideKeys(s, d);
    }
  }

  lemma ClosingStays(s: State, t: State)
    requires HistoryInv(s) && HistoryInv(t) && s.history <= t.history && Closing(s)
    ensures Closing(t)
  {
    DeletionStays(t, |s.history| - 1, |t.history| - 1);
  }

  lemma WritesStayLegit(s: State, t: State, r: Resource)
    requires s.history != [] && t.history != [] && s.secrets != [] && Undisturbed(s, t)
    ensures Legit(s, Update(r)) ==> Legit(t, Update(r))
    ensures Legit(s, UpdateStatus(r)) ==> Legit(t, UpdateStatus(r))
  {
    if Version(s, r.version) {
      assert t.history[r.version] == s.history[r.version];
    }
  }

  /** What made a call legitimate still does when something happens before it is served. */
  lemma LegitStays(s: State, t: State, q: Request)
    requires Inv(s) && Inv(t) && Undisturbed(s, t) && Legit(s, q)
    ensures Legit(t, q)
  {
    match q {
      case Update(r) => WritesStayLegit(s, t, r);
      case UpdateStatus(r) => WritesStayLegit(s, t, r);
      case DeleteSecret => ClosingStays(s, t);
      case MakeKey(wish) => AskedForStays(s, t, wish);
      case RemoveKey(id) => ClosingStays(s, t);
      case _ =>
    }
  }

  // ---------- Calls ----------

  lemma UpdateKeepsInv(s: State, r: Resource, lag: nat, text: string)
    requires Inv(s) && Legit(s, Update(r))
    ensures Inv(Serve(s, Update(r), lag, text).0)
  {
    if Checked(s, r).None? {
      var w := Last(s.history).value.(spec := r.spec, owners := r.owners, finalizer := r.finalizer);
      assert Writable(s, w);
      CommitKeepsInv(s, w);
    }
  }

  lemma StatusUpdateKeepsInv(s: State, r: Resource, lag: nat, text: string)
    requires Inv(s) && Legit(s, UpdateStatus(r))
    ensures Inv(Serve(s, UpdateStatus(r), lag, text).0)
  {
    NothingPrintsEmpty(s);
    if Checked(s, r).None? {
      var w := Last(s.history).value.(keyId := r.keyId, condition := r.condition);
      assert Writable(s, w);
      CommitKeepsInv(s, w);
    }
  }

  lemma PatchKeepsInv(s: State, patch: StatusPatch, lag: nat, text: string)
    requires Inv(s) && Legit(s, PatchStatus(patch))
    ensures Inv(Serve(s, PatchStatus(patch), lag, text).0)
  {
    if Last(s.history).Some? {
      CommitKeepsInv(s, ApplyPatch(Last(s.history).value, patch));
    }
  }

  lemma SecretWriteAgrees(s: State, data: map<string, string>)
    requires Inv(s) && KEY in data && NewText(s, data[KEY])
    ensures AgreementInv(PutSecret(s, data))
  {
    var t := PutSecret(s, data);
    var id :| id in s.made && s.made[id].text == data[KEY] && PrintNat(id) != Recorded(s.history);
    NothingPrintsEmpty(s);
    forall other | other in t.made && PrintNat(other) == Recorded(t.history) ensures !SecretHolds(t, t.made[other].text) {
      assert other != id;
    }
  }

  lemma SecretWriteKeepsInv(s: State, data: map<string, string>)
    requires Inv(s) && KEY in data && NewText(s, data[KEY])
    ensures Inv(PutSecret(s, data))
  {
    SecretWriteAgrees(s, data);
    AskedForAll(s, PutSecret(s, data));
  }

  lemma {:induction false} FreshIsNotRecorded(s: State, history: seq<Option<Resource>>)
    requires HistoryInv(s) && TableInv(s) && history <= s.history
    ensures PrintNat(s.next) != Recorded(history)
    decreases |history|
  {
    PrintNotEmpty(s.next);
    if history != [] {
      var n := |history| - 1;
      assert history[n] == s.history[n];
      if history[n].Some? && history[n].value.keyId != "" {
        var id :| id in s.made && history[n].value.keyId == PrintNat(id);
        if PrintNat(id) == PrintNat(s.next) {
          PrintInjective(id, s.next);
        }
      } else if history[n].None? {
        FreshIsNotRecorded(s, history[..n]);
      }
    }
  }

  lemma MoreIds(keyId: string, made: map<nat, Key>, more: map<nat, Key>)
    requires IsIdOf(keyId, made) && made.Keys <= more.Keys
    ensures IsIdOf(keyId, more)
  {
    var id :| id in made && keyId == PrintNat(id);
    assert id in more;
  }

  function WithKey(s: State, key: Key): State {
    s.(keys := s.keys[s.next := key], made := s.made[s.next := key], next := s.next + 1)
  }

  lemma MadeKeyInHistory(s: State, key: Key)
    requires HistoryInv(s)
    ensures HistoryInv(WithKey(s, key))
  {
    forall i | 0 <= i < |s.history| && s.history[i].Some? && s.history[i].value.keyId != ""
      ensures IsIdOf(s.history[i].value.keyId, WithKey(s, key).made) {
      MoreIds(s.history[i].value.keyId, s.made, WithKey(s, key).made);
    }
  }

  lemma MadeKeyInTable(s: State, key: Key)
    requires TableInv(s) && HasSpace(s) && key.text !in TextsOf(s.made)
    ensures TableInv(WithKey(s, key))
  {
    forall id | id in s.made ensures s.made[id].text in TextsOf(s.made) {
    }
  }

  lemma MadeKeyInDemand(s: State, key: Key)
    requires DemandInv(s) && AskedFor(s, key.wish)
    ensures DemandInv(WithKey(s, key))
  {
    var t := WithKey(s, key);
    forall id | id in t.made ensures AskedFor(t, t.made[id].wish) {
      AskedForStays(s, t, if id == s.next then key.wish else s.made[id].wish);
    }
  }

  lemma MadeKeyKeepsInv(s: State, key: Key)
    requires Inv(s) && AskedFor(s, key.wish) && HasSpace(s) && key.text !in TextsOf(s.made)
    ensures Inv(WithKey(s, key)) && PrintNat(s.next) != Recorded(s.history)
  {
    FreshIsNotRecorded(s, s.history);
    MadeKeyInHistory(s, key);
    MadeKeyInTable(s, key);
    MadeKeyInDemand(s, key);
  }

  lemma RemovalKeepsInv(s: State, id: nat)
    requires Inv(s) && Legit(s, RemoveKey(id)) && id in s.keys
    ensures Inv(s.(keys := s.keys - {id}))
  {
    hide DemandInv;
    AskedForAll(s, s.(keys := s.keys - {id}));
  }

  lemma KeyCallKeepsInv(s: State, q: Request, lag: nat, text: string)
    requires Inv(s) && Legit(s, q) && (q.MakeKey? || q.RemoveKey?)
    ensures Inv(Serve(s, q, lag, text).0)
  {
    if q.MakeKey? && HasSpace(s) && text !in TextsOf(s.made) {
      MadeKeyKeepsInv(s, Key(text, q.wish));
    } else if q.RemoveKey? && q.id in s.keys {
      RemovalKeepsInv(s, q.id);
    }
  }

  lemma SecretDeletionKeepsInv(s: State)
    requires Inv(s) && Closing(s)
    ensures Inv(s.(secrets := s.secrets + [None]))
  {
    AskedForAll(s, s.(secrets := s.secrets + [None]));
  }

  lemma SecretCallKeepsInv(s: State, q: Request, lag: nat, text: string)
    requires Inv(s) && Legit(s, q) && (q.CreateSecret? || q.UpdateSecret? || q.DeleteSecret?)
    ensures Inv(Serve(s, q, lag, text).0)
  {
    hide Inv;
    match q {
      case CreateSecret(t) => SecretWriteKeepsInv(s, map[KEY := t]);
      case UpdateSecret(secret) => SecretWriteKeepsInv(s, secret.data);
      case DeleteSecret => SecretDeletionKeepsInv(s);
    }
  }

  predicate IsRead(q: Request) {
    q.GetResource? || q.GetHeadscale? || q.GetUser? || q.Connect? || q.GetSecret?
  }

  /** A read changes nothing, but that no Headscale was found in a deletion is noted. */
  lemma ReadKeepsInv(s: State, q: Request, lag: nat, text: string)
    requires Inv(s) && IsRead(q)
    ensures Inv(Serve(s, q, lag, text).0) && Undisturbed(s, Serve(s, q, lag, text).0)
  {
    hide Inv, Undisturbed;
    InvIsThere(s);
    ReferenceChanges(s, s);
    ReferenceChanges(s, s.(missed := s.missed || Closing(s)));
  }

  /** The invariant holds across every call that is legitimate, however it is served. */
  lemma ServeKeepsInv(s: State, q: Request, lag: nat, text: string)
    requires Inv(s) && Legit(s, q)
    ensures Inv(Serve(s, q, lag, text).0)
  {
    hide Inv, Legit, Serve;
    match q {
      case Update(r) => UpdateKeepsInv(s, r, lag, text);
      case UpdateStatus(r) => StatusUpdateKeepsInv(s, r, lag, text);
      case PatchStatus(patch) => PatchKeepsInv(s, patch, lag, text);
      case CreateSecret(_) => SecretCallKeepsInv(s, q, lag, text);
      case UpdateSecret(_) => SecretCallKeepsInv(s, q, lag, text);
      case DeleteSecret => SecretCallKeepsInv(s, q, lag, text);
      case MakeKey(_) => KeyCallKeepsInv(s, q, lag, text);
      case RemoveKey(_) => KeyCallKeepsInv(s, q, lag, text);
      case _ => ReadKeepsInv(s, q, lag, text);
    }
  }

  // ---------- What single calls do ----------

  /** Updates of the resource and of its conditions leave the KeyID, the keys and the Secret alone. */
  lemma WritesLeaveKeys(s: State, q: Request, lag: nat, text: string)
    requires Inv(s) && Legit(s, q) && (q.Update? || q.PatchStatus?)
    ensures Undisturbed(s, Serve(s, q, lag, text).0)
  {
    if q.Update? && Checked(s, q.r).None? {
      var w := Last(s.history).value.(spec := q.r.spec, owners := q.r.owners, finalizer := q.r.finalizer);
      CommitFrame(s, w);
      CommitLeavesRecord(s, w);
    } else if q.PatchStatus? && Last(s.history).Some? {
      CommitFrame(s, ApplyPatch(Last(s.history).value, q.patch));
      CommitLeavesRecord(s, ApplyPatch(Last(s.history).value, q.patch));
    }
  }

  lemma CommitLeavesRecord(s: State, r: Resource)
    requires s.history != [] && Last(s.history).Some? && r.keyId == Last(s.history).value.keyId
    ensures Recorded(Commit(s, r).history) == Recorded(s.history)
  {
    RecordedOfMore(s.history, None);
    RecordedOfMore(s.history, Some(r.(version := |s.history|)));
  }

  /** An update is served only if nobody wrote since; the reply is the version written. */
  lemma UpdateReply(s: State, r: Resource, lag: nat, text: string)
    requires Inv(s) && Legit(s, Update(r)) && Serve(s, Update(r), lag, text).1.Resourced?
    ensures var t := Serve(s, Update(r), lag, text).0; var reply := Serve(s, Update(r), lag, text).1.r;
      && reply == r.(version := reply.version)
      && (if r.deleting && !r.finalizer then Last(t.history).None? else TrueCopy(t, reply))
    ensures s.history[r.version] == Last(s.history)
  {
  }

  /** An update of the present version is served. */
  lemma UpdateOfPresent(s: State, r: Resource, lag: nat, text: string)
    requires Inv(s) && Legit(s, Update(r)) && r.version == |s.history| - 1
    ensures var t := Serve(s, Update(r), lag, text);
      t.1.Resourced? && t.0 == s.(history := t.0.history) && (!r.deleting || r.finalizer ==> Last(t.0.history) == Some(t.1.r))
  {
  }

  /** A condition patch against the present version yields that version with the condition. */
  lemma PatchOfPresent(s: State, r: Resource, condition: Condition, lag: nat, text: string)
    requires Inv(s) && Last(s.history) == Some(r) && !r.deleting
    ensures var q := PatchStatus(DiffStatus(r, r.(condition := Some(condition)))); var t := Serve(s, q, lag, text);
      && t.0 == s.(history := t.0.history) && t.1.Resourced? && Last(t.0.history) == Some(t.1.r)
      && t.1.r == r.(condition := Some(condition), version := t.1.r.version)
  {
  }

  /** A status update that records a KeyID touches neither keys nor Secret, and records that KeyID or nothing. */
  lemma StatusUpdateRecords(s: State, r: Resource, lag: nat, text: string)
    requires Inv(s) && Legit(s, UpdateStatus(r))
    ensures var t := Serve(s, UpdateStatus(r), lag, text).0; var reply := Serve(s, UpdateStatus(r), lag, text).1;
      && t == s.(history := t.history) && s.history <= t.history
      && (if t == s then !reply.Resourced?
          else Recorded(s.history) == "" && Recorded(t.history) == r.keyId
               && reply == Resourced(r.(version := |s.history|)) && Last(t.history) == Some(reply.r))
    ensures r.version == |s.history| - 1 ==> Serve(s, UpdateStatus(r), lag, text).1.Resourced?
  {
    hide TableInv, ConservationInv, DepartureInv, AgreementInv, DemandInv, SecretHolds;
    if Checked(s, r).None? {
      assert Last(s.history).value.(keyId := r.keyId, condition := r.condition) == r;
      PrintedIdsOfMade(s, r.keyId);
      RecordedOfMore(s.history, Some(r.(version := |s.history|)));
    }
  }

  lemma PrintedIdsOfMade(s: State, keyId: string)
    ensures IsIdOf(keyId, s.made) ==> keyId != ""
  {
    NothingPrintsEmpty(s);
  }

  /** The condition patch never carries a KeyID, also not one that was set and could not be persisted. */
  lemma ConditionPatchCarriesNoKeyId(local: Resource, condition: Option<Condition>, server: Resource)
    ensures var patch := DiffStatus(local, local.(condition := condition));
      patch.keyId == None
      && ApplyPatch(server, patch) == server.(condition := if local.condition == condition then server.condition else condition)
  {
  }
}
