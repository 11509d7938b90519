/**
 What a HeadscaleUser reconcile talks to: the API server with the versions of the resource, and the user table of
 one Headscale, in which names are unique. Other resources have other usernames; outside actors may delete users.
 */
module HeadscaleUserWorld {
  import opened Wrappers
  import opened Decimal
  import opened Calls

  datatype Profile = Profile(username: string, displayName: string, email: string, pictureURL: string)

  datatype Reason = HeadscaleNotFound | UserVerificationFailed | UserReady | UserCreationFailed | UserCreated

  /** `about` is the part of the message that the reason does not fix. */
  datatype Condition = Condition(ready: bool, reason: Reason, about: string, generation: nat)

  datatype Resource = Resource(version: nat, generation: nat, spec: Profile, finalizer: bool, deleting: bool,
                               userId: string, createdAt: string, condition: Option<Condition>)

  /**
   The last version in `history` and the last of `headscales` are the present. `known` has the name of every user
   there ever was, `next` the smallest id never used, `removed` the users the controller has deleted.
   */
  datatype State = State(
    username: string,
    history: seq<Option<Resource>>,
    headscales: seq<bool>,
    table: map<nat, Profile>,
    known: map<nat, string>,
    next: nat,
    removed: set<nat>)

  /** There is a present. */
  predicate IsThere(s: State) {
    s.history != [] && s.headscales != []
  }

  // ---------- What happens beside the controller ----------

  datatype Disturbance =
    | Quiet
    | Edit(spec: Profile)
    | AskDeletion
    | SetHeadscale(exists_: bool)
    | OthersMake(profile: Profile)
    | OthersRemove(id: nat)

  function Commit(s: State, r: Resource): (t: State)
    requires IsThere(s)
    ensures IsThere(t)
  {
    if Last(s.history) == Some(r) then s
    else if r.deleting && !r.finalizer then s.(history := s.history + [None])
    else s.(history := s.history + [Some(r.(version := |s.history|))])
  }

  predicate HasSpace(s: State) {
    s.next < UINT64_LIMIT
  }

  predicate IsTaken(s: State, name: string) {
    exists id | id in s.table :: s.table[id].username == name
  }

  function WithUser(s: State, profile: Profile): State {
    s.(table := s.table[s.next := profile], known := s.known[s.next := profile.username], next := s.next + 1)
  }

  /** Edits keep the username, which is immutable. */
  function Touched(r: Resource, d: Disturbance): Resource {
    match d
    case Edit(spec) => r.(spec := spec.(username := r.spec.username), generation := r.generation + 1)
    case AskDeletion => r.(deleting := true, generation := r.generation + 1)
    case _ => r
  }

  function Disturb(s: State, d: Disturbance): (t: State)
    requires IsThere(s)
    ensures IsThere(t)
  {
    var now := Last(s.history);
    match d
    case Quiet => s
    case Edit(_) => if now.None? then s else Commit(s, Touched(now.value, d))
    case AskDeletion => if now.None? then s else Commit(s, Touched(now.value, d))
    case SetHeadscale(e) => s.(headscales := s.headscales + [e])
    case OthersMake(profile) =>
      if profile.username == s.username || IsTaken(s, profile.username) || !HasSpace(s) then s else WithUser(s, profile)
    case OthersRemove(id) => s.(table := s.table - {id})
  }

  // ---------- The calls ----------

  datatype Code = NotFound | Conflict | NoSuchUser | Other

  datatype Error = Error(code: Code, text: string)

  datatype StatusPatch = StatusPatch(userId: Option<string>, createdAt: Option<string>, condition: Option<Option<Condition>>)

  datatype Request =
    | GetResource
    | GetHeadscale
    | Connect
    | Update(r: Resource)
    | UpdateStatus(r: Resource)
    | PatchStatus(patch: StatusPatch)
    | CreateUser(profile: Profile)
    | LookUp(name: string)
    | RemoveUser(id: nat)

  datatype Reply = Resourced(r: Resource) | Created(id: nat) | Done | Failed(error: Error)

  function DiffStatus(before: Resource, after: Resource): StatusPatch {
    StatusPatch(Changed(before.userId, after.userId), Changed(before.createdAt, after.createdAt),
      Changed(before.condition, after.condition))
  }

  function ApplyPatch(r: Resource, patch: StatusPatch): Resource {
    r.(userId := Patched(r.userId, patch.userId), createdAt := Patched(r.createdAt, patch.createdAt),
       condition := Patched(r.condition, patch.condition))
  }

  function Refuse(s: State, code: Code): (State, Reply) {
    (s, Failed(Error(code, "")))
  }

  function Write(s: State, r: Resource): (w: (State, Reply))
    requires IsThere(s)
    ensures IsThere(w.0)
  {
    var t := Commit(s, r);
    (t, Resourced(if Last(t.history).Some? then Last(t.history).value else r))
  }

  function Checked(s: State, r: Resource): Option<Code>
    requires IsThere(s)
  {
    var now := Last(s.history);
    if now.None? then Some(NotFound) else if now.value.version != r.version then Some(Conflict) else None
  }

  function Serve(s: State, q: Request, lag: nat): (w: (State, Reply))
    requires IsThere(s)
    ensures IsThere(w.0)
  {
    match q
    case GetResource =>
      var seen := Seen(s.history, lag);
      if seen.None? then Refuse(s, NotFound) else (s, Resourced(seen.value))
    case GetHeadscale => if Clamped(s.headscales, lag) then (s, Done) else Refuse(s, NotFound)
    case Connect => (s, Done)
    case Update(r) =>
      var code := Checked(s, r);
      if code.Some? then Refuse(s, code.value)
      else Write(s, Last(s.history).value.(spec := r.spec, finalizer := r.finalizer))
    case UpdateStatus(r) =>
      var code := Checked(s, r);
      if code.Some? then Refuse(s, code.value)
      else Write(s, Last(s.history).value.(userId := r.userId, createdAt := r.createdAt, condition := r.condition))
    case PatchStatus(patch) =>
      if Last(s.history).None? then Refuse(s, NotFound) else Write(s, ApplyPatch(Last(s.history).value, patch))
    case CreateUser(profile) =>
      if IsTaken(s, profile.username) || !HasSpace(s) then Refuse(s, Other)
      else (WithUser(s, profile), Created(s.next))
    case LookUp(name) => if IsTaken(s, name) then (s, Done) else Refuse(s, NoSuchUser)
    case RemoveUser(id) =>
      if id !in s.table then Refuse(s, Other)
      else (s.(table := s.table - {id}, removed := s.removed + {id}), Done)
  }

  // ---------- What every step keeps ----------

  /** The UserID of the last version of the resource there was. */
  function Recorded(history: seq<Option<Resource>>): string {
    if history == [] then ""
    else if Last(history).Some? then Last(history).value.userId
    else Recorded(history[..|history| - 1])
  }

  /** The id of a user that has, or had, this name. */
  ghost predicate IsIdOf(userId: string, known: map<nat, string>, name: string) {
    exists id :: id in known && known[id] == name && userId == PrintNat(id)
  }

  /** No user with this id exists any more. */
  ghost predicate IsGone(userId: string, s: State) {
    forall id | id in s.known && PrintNat(id) == userId :: id !in s.table
  }

  /** A UserID is dropped or replaced only if its user is gone; a deletion freezes it, and nothing comes back. */
  ghost predicate Follows(a: Option<Resource>, b: Option<Resource>, s: State) {
    b.Some? ==>
      && a.Some?
      && (a.value.userId != "" && b.value.userId != a.value.userId ==> IsGone(a.value.userId, s))
      && (a.value.deleting ==> b.value.deleting && b.value.userId == a.value.userId)
  }

  ghost predicate VersionInv(r: Resource, s: State) {
    && r.spec.username == s.username
    && (r.deleting ==> r.finalizer)
    && (r.userId != "" ==> r.finalizer && IsIdOf(r.userId, s.known, s.username))
    && (r.userId == "" ==> r.createdAt == "")
  }

  ghost predicate HistoryInv(s: State) {
    && IsThere(s)
    && (forall i | 0 <= i < |s.history| && s.history[i].Some? ::
      s.history[i].value.version == i && VersionInv(s.history[i].value, s))
    && (forall i | 0 <= i < |s.history| - 1 :: Follows(s.history[i], s.history[i + 1], s))
  }

  ghost predicate TableInv(s: State) {
    && s.next <= UINT64_LIMIT
    && (forall id | id in s.known :: id < s.next)
    && (forall id | id in s.table :: id in s.known && s.known[id] == s.table[id].username)
    && (forall a, b | a in s.table && b in s.table && s.table[a].username == s.table[b].username :: a == b)
  }

  ghost predicate Closing(s: State)
    requires IsThere(s)
  {
    Last(s.history).Some? ==> Last(s.history).value.deleting
  }

  /** The controller deletes no user but the recorded one, and that one only with the resource. */
  ghost predicate RemovalInv(s: State)
    requires IsThere(s)
  {
    forall id | id in s.removed :: id !in s.table && Closing(s) && PrintNat(id) == Recorded(s.history)
  }

  ghost predicate Inv(s: State) {
    HistoryInv(s) && TableInv(s) && RemovalInv(s)
  }

  // ---------- What the controller must see to before a call ----------

  ghost predicate Version(s: State, v: nat) {
    v < |s.history| && s.history[v].Some?
  }

  ghost predicate TrueCopy(s: State, r: Resource) {
    r.version < |s.history| && s.history[r.version] == Some(r)
  }

  /** Some version of the resource has this spec. */
  ghost predicate IsSpecified(s: State, profile: Profile) {
    exists i: nat :: Version(s, i) && s.history[i].value.spec == profile
  }

  ghost predicate Records(s: State, was: Resource, r: Resource) {
    was.userId == "" && was.finalizer && r.userId != "" && IsIdOf(r.userId, s.known, s.username)
  }

  ghost predicate Clears(s: State, was: Resource, r: Resource) {
    was.userId != "" && r.userId == "" && r.createdAt == "" && IsGone(was.userId, s)
  }

  ghost predicate Legit(s: State, q: Request)
    requires IsThere(s)
  {
    match q
    case Update(r) =>
      Version(s, r.version) && var was := s.history[r.version].value;
      r == was.(finalizer := r.finalizer) && (was.finalizer && !r.finalizer ==> was.deleting)
    case UpdateStatus(r) =>
      Version(s, r.version) && var was := s.history[r.version].value;
      r == was.(userId := r.userId, createdAt := r.createdAt) && !was.deleting && (Records(s, was, r) || Clears(s, was, r))
    case PatchStatus(patch) => patch.userId.None? && patch.createdAt.None?
    case CreateUser(profile) => profile.username == s.username && IsSpecified(s, profile)
    case LookUp(name) => name == s.username
    case RemoveUser(id) => Closing(s) && PrintNat(id) == Recorded(s.history)
    case _ => true
  }

  // ---------- Identity ----------

  /** A recorded UserID, however old, is that of the user with the resource's username, or of a user that is gone. */
  lemma RecordedIsOurUser(s: State, i: nat, id: nat)
    requires Inv(s) && Version(s, i) && s.history[i].value.userId == PrintNat(id)
    ensures id in s.known && s.known[id] == s.username
    ensures id in s.table ==>
      && s.table[id].username == s.username
      && forall other | other in s.table && s.table[other].username == s.username :: other == id
  {
    PrintNotEmpty(id);
    var known :| known in s.known && s.known[known] == s.username && s.history[i].value.userId == PrintNat(known);
    PrintInjective(known, id);
  }

  /** While a user exists, no version drops or replaces a UserID that names it. */
  lemma {:induction false} UserIdStaysWhileUserExists(s: State, i: nat, j: nat, id: nat)
    requires Inv(s) && i <= j && Version(s, i) && Version(s, j)
    requires s.history[i].value.userId == PrintNat(id) && id in s.table
    ensures s.history[j].value.userId == PrintNat(id)
    decreases j
  {
    if i < j {
      assert Follows(s.history[j - 1], s.history[j - 1 + 1], s);
      UserIdStaysWhileUserExists(s, i, j - 1, id);
      PrintNotEmpty(id);
    }
  }

  lemma {:induction false} DeletionStays(s: State, i: nat, j: nat)
    requires HistoryInv(s) && i <= j < |s.history| && (s.history[i].Some? ==> s.history[i].value.deleting)
    ensures s.history[j].Some? ==>
      s.history[j].value.deleting && s.history[i].Some? && s.history[j].value.userId == s.history[i].value.userId
    decreases j
  {
    if i < j {
      DeletionStays(s, i, j - 1);
      assert Follows(s.history[j - 1], s.history[j - 1 + 1], s);
    }
  }

  lemma RecordedOfMore(history: seq<Option<Resource>>, o: Option<Resource>)
    ensures Recorded(history + [o]) == if o.Some? then o.value.userId else Recorded(history)
  {
    assert (history + [o])[..|history|] == history;
  }

  /** The UserID seen in a version that is being deleted is the recorded one. */
  lemma {:induction false} ClosingSeesRecorded(s: State, history: seq<Option<Resource>>, i: nat)
    requires HistoryInv(s) && history <= s.history && i < |history|
    requires s.history[i].Some? && s.history[i].value.deleting
    ensures Recorded(history) == s.history[i].value.userId
    decreases |history|
  {
    var n := |history| - 1;
    if history[n].Some? {
      DeletionStays(s, i, n);
    } else {
      ClosingSeesRecorded(s, history[..n], i);
    }
  }

  // ---------- Steps ----------

  ghost predicate Writable(s: State, r: Resource)
    requires IsThere(s)
  {
    Last(s.history).Some? && var now := Last(s.history).value;
    && r.version == now.version && r.spec.username == s.username
    && (now.deleting ==> r.deleting && r.userId == now.userId)
    && (r.userId != "" ==> (r.finalizer || r.deleting) && IsIdOf(r.userId, s.known, s.username))
    && (r.userId == "" ==> r.createdAt == "")
    && (now.userId != "" && r.userId != now.userId ==> IsGone(now.userId, s))
    && (now.userId != r.userId ==> !now.deleting && !r.deleting)
  }

  lemma CommitFrame(s: State, r: Resource)
    requires IsThere(s)
    ensures var t := Commit(s, r); t == s.(history := t.history) && s.history <= t.history
  {
  }

  lemma CommitKeepsVersions(s: State, r: Resource)
    requires Inv(s) && Writable(s, r)
    ensures HistoryInv(Commit(s, r))
  {
    var t := Commit(s, r);
    if t != s {
      var n := |s.history|;
      assert Follows(t.history[n - 1], t.history[n], t);
      forall i | 0 <= i < |t.history| - 1 ensures Follows(t.history[i], t.history[i + 1], t) {
        if i < n - 1 {
          assert Follows(s.history[i], s.history[i + 1], s);
          assert t.history[i] == s.history[i] && t.history[i + 1] == s.history[i + 1];
        }
      }
    }
  }

  lemma CommitKeepsInv(s: State, r: Resource)
    requires Inv(s) && Writable(s, r)
    ensures Inv(Commit(s, r))
    ensures r.userId == Last(s.history).value.userId ==> Recorded(Commit(s, r).history) == Recorded(s.history)
  {
    CommitKeepsVersions(s, r);
    RecordedOfMore(s.history, None);
    RecordedOfMore(s.history, Some(r.(version := |s.history|)));
  }

  lemma NobodyReturns(s: State, t: State)
    requires HistoryInv(s) && t == s.(table := t.table, known := t.known, next := t.next, removed := t.removed)
    requires forall id | id in s.known :: id in t.known && t.known[id] == s.known[id] && (id in t.table ==> id in s.table)
    requires forall id | id in t.known && id !in s.known :: IsNewId(s, id)
    ensures HistoryInv(t)
  {
    forall i | 0 <= i < |t.history| && t.history[i].Some? ensures VersionInv(t.history[i].value, t) {
      var r := s.history[i].value;
      if r.userId != "" {
        var id :| id in s.known && s.known[id] == s.username && r.userId == PrintNat(id);
        assert id in t.known && t.known[id] == t.username;
      }
    }
    forall i | 0 <= i < |t.history| - 1 ensures Follows(t.history[i], t.history[i + 1], t) {
      assert Follows(s.history[i], s.history[i + 1], s);
      if s.history[i].Some? && s.history[i].value.userId != "" && IsGone(s.history[i].value.userId, s) {
        StaysGone(s, t, i);
      }
    }
  }

  ghost predicate IsNewId(s: State, id: nat) {
    forall old_ | old_ in s.known :: PrintNat(old_) != PrintNat(id)
  }

  lemma SameIdIsKnown(s: State, known: nat, id: nat)
    requires known in s.known && PrintNat(id) == PrintNat(known) && (id !in s.known ==> IsNewId(s, id))
    ensures id in s.known
  {
  }

  lemma StaysGone(s: State, t: State, i: nat)
    requires HistoryInv(s) && Version(s, i) && s.history[i].value.userId != "" && IsGone(s.history[i].value.userId, s)
    requires forall id | id in s.known :: id in t.table ==> id in s.table
    requires forall id | id in t.known && id !in s.known :: IsNewId(s, id)
    ensures IsGone(s.history[i].value.userId, t)
  {
    var userId := s.history[i].value.userId;
    assert VersionInv(s.history[i].value, s);
    var known :| known in s.known && s.known[known] == s.username && userId == PrintNat(known);
    forall id | id in t.known && PrintNat(id) == userId ensures id !in t.table {
      SameIdIsKnown(s, known, id);
    }
  }

  lemma NewUserKeepsInv(s: State, profile: Profile)
    requires Inv(s) && HasSpace(s) && !IsTaken(s, profile.username)
    ensures Inv(WithUser(s, profile))
  {
    var t := WithUser(s, profile);
    forall old_ | old_ in s.known ensures PrintNat(old_) != PrintNat(s.next) {
      if PrintNat(old_) == PrintNat(s.next) {
        PrintInjective(old_, s.next);
      }
    }
    assert IsNewId(s, s.next);
    FreshIsNotRecorded(s);
    NobodyReturns(s, t);
  }

  lemma FreshIsNotRecorded(s: State)
    requires Inv(s)
    ensures PrintNat(s.next) != Recorded(s.history)
  {
    PrintNotEmpty(s.next);
    if PrintNat(s.next) == Recorded(s.history) {
      RecordedIsKnown(s, s.history);
      var id :| id in s.known && s.known[id] == s.username && Recorded(s.history) == PrintNat(id);
      PrintInjective(id, s.next);
    }
  }

  lemma {:induction false} RecordedIsKnown(s: State, history: seq<Option<Resource>>)
    requires HistoryInv(s) && history <= s.history && Recorded(history) != ""
    ensures IsIdOf(Recorded(history), s.known, s.username)
    decreases |history|
  {
    var n := |history| - 1;
    assert history[n] == s.history[n];
    if history[n].Some? {
      assert VersionInv(s.history[n].value, s);
    } else {
      RecordedIsKnown(s, history[..n]);
    }
  }

  lemma LessUsersKeepInv(s: State, t: State)
    requires Inv(s) && t == s.(table := t.table, removed := t.removed)
    requires forall id | id in t.table :: id in s.table && t.table[id] == s.table[id]
    requires forall id | id in t.removed ::
      id !in t.table && (id in s.removed || (Closing(s) && PrintNat(id) == Recorded(s.history)))
    ensures Inv(t)
  {
    NobodyReturns(s, t);
  }

  /** What a disturbance cannot touch: what is recorded, and that names of users do not change. */
  ghost predicate Undisturbed(s: State, t: State) {
    && t.username == s.username && s.history <= t.history && s.headscales <= t.headscales
    && s.next <= t.next && t.removed == s.removed
    && Recorded(t.history) == Recorded(s.history)
    && (forall id | id in s.known :: id in t.known && t.known[id] == s.known[id])
    && (forall id | id in s.known && id in t.table :: id in s.table)
    && (forall id | id in t.known && id !in s.known :: IsNewId(s, id))
  }

  lemma OutsideWrite(s: State, d: Disturbance)
    requires Inv(s) && Last(s.history).Some? && (d.Edit? || d.AskDeletion?)
    ensures var t := Commit(s, Touched(Last(s.history).value, d)); Inv(t) && Undisturbed(s, t)
  {
    var r := Touched(Last(s.history).value, d);
    assert VersionInv(Last(s.history).value, s);
    CommitKeepsInv(s, r);
    CommitFrame(s, r);
  }

  lemma OutsideRemoval(s: State, id: nat)
    requires Inv(s)
    ensures var t := s.(table := s.table - {id}); Inv(t) && Undisturbed(s, t)
  {
    LessUsersKeepInv(s, s.(table := s.table - {id}));
  }

  lemma NewUserIsOutside(s: State, profile: Profile)
    requires Inv(s) && HasSpace(s) && !IsTaken(s, profile.username)
    ensures Undisturbed(s, WithUser(s, profile))
  {
    forall old_ | old_ in s.known ensures PrintNat(old_) != PrintNat(s.next) {
      if PrintNat(old_) == PrintNat(s.next) {
        PrintInjective(old_, s.next);
      }
    }
    assert IsNewId(s, s.next);
  }

  lemma HeadscaleChanges(s: State, e: bool)
    requires Inv(s)
    ensures var t := s.(headscales := s.headscales + [e]); Inv(t) && Undisturbed(s, t)
  {
    var t := s.(headscales := s.headscales + [e]);
    forall i | 0 <= i < |t.history| && t.history[i].Some? ensures VersionInv(t.history[i].value, t) {
      assert VersionInv(s.history[i].value, s);
    }
    forall i | 0 <= i < |t.history| - 1 ensures Follows(t.history[i], t.history[i + 1], t) {
      assert Follows(s.history[i], s.history[i + 1], s);
    }
  }

  lemma DisturbKeepsInv(s: State, d: Disturbance)
    requires Inv(s)
    ensures Inv(Disturb(s, d)) && Undisturbed(s, Disturb(s, d))
  {
    match d {
      case Quiet =>
      case Edit(_) =>
        if Last(s.history).Some? {
          OutsideWrite(s, d);
        }
      case AskDeletion =>
        if Last(s.history).Some? {
          OutsideWrite(s, d);
        }
      case SetHeadscale(e) => HeadscaleChanges(s, e);
      case OthersMake(profile) =>
        if !(profile.username == s.username || IsTaken(s, profile.username) || !HasSpace(s)) {
          NewUserKeepsInv(s, profile);
          NewUserIsOutside(s, profile);
        }
      case OthersRemove(id) => OutsideRemoval(s, id);
    }
  }

  lemma ClosingStays(s: State, t: State)
    requires HistoryInv(s) && HistoryInv(t) && s.history <= t.history && Closing(s)
    ensures Closing(t)
  {
    DeletionStays(t, |s.history| - 1, |t.history| - 1);
  }

  lemma GoneStaysGone(userId: string, s: State, t: State)
    requires IsGone(userId, s) && Undisturbed(s, t) && exists id :: id in s.known && PrintNat(id) == userId
    ensures IsGone(userId, t)
  {
    var known :| known in s.known && PrintNat(known) == userId;
    forall id | id in t.known && PrintNat(id) == userId ensures id !in t.table {
      SameIdIsKnown(s, known, id);
    }
  }

  lemma IdStays(userId: string, s: State, t: State)
    requires IsIdOf(userId, s.known, s.username) && Undisturbed(s, t)
    ensures IsIdOf(userId, t.known, t.username) && exists id :: id in s.known && PrintNat(id) == userId
  {
    var id :| id in s.known && s.known[id] == s.username && userId == PrintNat(id);
    assert id in t.known && t.known[id] == t.username;
  }

  lemma StatusStaysLegit(s: State, t: State, r: Resource)
    requires Inv(s) && Undisturbed(s, t) && IsThere(t) && Legit(s, UpdateStatus(r))
    ensures Legit(t, UpdateStatus(r))
  {
    var was := s.history[r.version].value;
    assert t.history[r.version] == s.history[r.version];
    if Records(s, was, r) {
      IdStays(r.userId, s, t);
    } else {
      assert VersionInv(was, s);
      IdStays(was.userId, s, t);
      GoneStaysGone(was.userId, s, t);
    }
  }

  /** What made a call legitimate still does when something happens before it is served. */
  lemma LegitStays(s: State, t: State, q: Request)
    requires Inv(s) && Inv(t) && Undisturbed(s, t) && Legit(s, q)
    ensures Legit(t, q)
  {
    match q {
      case Update(r) => assert t.history[r.version] == s.history[r.version];
      case UpdateStatus(r) => StatusStaysLegit(s, t, r);
      case CreateUser(profile) =>
        var i: nat :| Version(s, i) && s.history[i].value.spec == profile;
        assert t.history[i] == s.history[i] && Version(t, i);
      case RemoveUser(_) => ClosingStays(s, t);
      case _ =>
    }
  }

  lemma UpdateKeepsInv(s: State, r: Resource)
    requires Inv(s) && Legit(s, Update(r))
    ensures Inv(Serve(s, Update(r), 0).0) && Undisturbed(s, Serve(s, Update(r), 0).0)
  {
    if Checked(s, r).None? {
      var w := Last(s.history).value.(spec := r.spec, finalizer := r.finalizer);
      assert VersionInv(Last(s.history).value, s);
      CommitKeepsInv(s, w);
      CommitFrame(s, w);
    }
  }

  lemma StatusUpdateKeepsInv(s: State, r: Resource)
    requires Inv(s) && Legit(s, UpdateStatus(r))
    ensures Inv(Serve(s, UpdateStatus(r), 0).0)
  {
    if Checked(s, r).None? {
      var w := Last(s.history).value.(userId := r.userId, createdAt := r.createdAt, condition := r.condition);
      assert VersionInv(Last(s.history).value, s);
      CommitKeepsInv(s, w);
    }
  }

  lemma PatchKeepsInv(s: State, patch: StatusPatch)
    requires Inv(s) && patch.userId.None? && patch.createdAt.None?
    ensures Inv(Serve(s, PatchStatus(patch), 0).0) && Undisturbed(s, Serve(s, PatchStatus(patch), 0).0)
  {
    if Last(s.history).Some? {
      assert VersionInv(Last(s.history).value, s);
      CommitKeepsInv(s, ApplyPatch(Last(s.history).value, patch));
      CommitFrame(s, ApplyPatch(Last(s.history).value, patch));
    }
  }

  lemma RemovalKeepsInv(s: State, id: nat)
    requires Inv(s) && Legit(s, RemoveUser(id))
    ensures Inv(Serve(s, RemoveUser(id), 0).0)
  {
    if id in s.table {
      LessUsersKeepInv(s, s.(table := s.table - {id}, removed := s.removed + {id}));
    }
  }

  lemma CreationKeepsInv(s: State, profile: Profile)
    requires Inv(s)
    ensures Inv(Serve(s, CreateUser(profile), 0).0) && Undisturbed(s, Serve(s, CreateUser(profile), 0).0)
  {
    if !IsTaken(s, profile.username) && HasSpace(s) {
      NewUserKeepsInv(s, profile);
      NewUserIsOutside(s, profile);
    }
  }

  /** The invariant holds across every call that is legitimate, however it is served. */
  lemma ServeKeepsInv(s: State, q: Request, lag: nat)
    requires Inv(s) && Legit(s, q)
    ensures Inv(Serve(s, q, lag).0)
  {
    match q {
      case Update(r) => UpdateKeepsInv(s, r);
      case UpdateStatus(r) => StatusUpdateKeepsInv(s, r);
      case PatchStatus(patch) => PatchKeepsInv(s, patch);
      case CreateUser(profile) => CreationKeepsInv(s, profile);
      case RemoveUser(id) => RemovalKeepsInv(s, id);
      case _ =>
    }
  }
}
