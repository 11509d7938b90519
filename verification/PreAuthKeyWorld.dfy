/**
 What a HeadscalePreAuthKey reconcile talks to: the API server with the versions of the resource, of its Secret
 and of what it refers to, and the key table of one Headscale. Every call is atomic; between calls users,
 other controllers and other resources act.
 */
module PreAuthKeyWorld {
  import opened Wrappers
  import opened Decimal
  import opened Calls

  /** `spec.expiration`: empty, a Go duration, or text that is none. */
  datatype Expiration = Never | Lasting(nanoseconds: int) | Garbled

  datatype Spec = Spec(userRef: string, userID: nat, tags: seq<string>, reusable: bool, ephemeral: bool,
                       expiration: Expiration)

  datatype Owner = Owner(name: string, uid: nat, blocks: bool)

  /** The reasons of the Ready condition. */
  datatype Reason = HeadscaleNotFound | InvalidSpec | UserNotFound | UserNotReady | InvalidUserID
    | PreAuthKeyReady | PreAuthKeyCreated | PreAuthKeyCreationFailed

  /** The part of a condition's message that its reason does not fix: a name, or what a failed call said. */
  datatype Condition = Condition(ready: bool, reason: Reason, about: string, generation: nat)

  datatype Resource = Resource(version: nat, generation: nat, spec: Spec, owners: seq<Owner>, finalizer: bool,
                               deleting: bool, keyId: string, condition: Option<Condition>)

  datatype Secret = Secret(version: nat, data: map<string, string>)

  datatype User = User(uid: nat, userId: string)

  /** What a key is asked for with, and a key as Headscale keeps it. */
  datatype Wish = Wish(user: nat, reusable: bool, ephemeral: bool, lifetime: Option<int>, tags: seq<string>)

  datatype Key = Key(text: string, wish: Wish)

  /**
   The last element of `history`, `secrets`, `headscales` and `users` is the present; reads may be served from
   earlier ones. `made` has the keys made for the resource, `next` the smallest id never used, `overwritten` whether
   the Secret's key was written while a KeyID was recorded, `missed` whether during the deletion a read found no
   Headscale, and `bereft` whether during the deletion there was none at some moment.
   */
  datatype State = State(
    history: seq<Option<Resource>>,
    secrets: seq<Option<Secret>>,
    headscales: seq<bool>,
    users: seq<map<string, User>>,
    keys: map<nat, Key>,
    next: nat,
    made: map<nat, Key>,
    overwritten: bool,
    missed: bool,
    bereft: bool)

  const KEY := "key"

  /** There is a present. */
  predicate IsThere(s: State) {
    s.history != [] && s.secrets != [] && s.headscales != [] && s.users != []
  }

  // ---------- What happens beside the controller ----------

  datatype Disturbance =
    | Quiet
    | Edit(spec: Spec, owners: seq<Owner>)
    | AskDeletion
    | SetHeadscale(exists_: bool)
    | SetUsers(users: map<string, User>)
    | OthersMake(key: Key)
    | OthersRemove(id: nat)

  /** A write of the resource; the last finalizer's removal ends a deletion, and a write of nothing new is none. */
  function Commit(s: State, r: Resource): (t: State)
    requires s.history != []
    ensures IsThere(s) ==> IsThere(t)
  {
    if Last(s.history) == Some(r) then s
    else if r.deleting && !r.finalizer then s.(history := s.history + [None])
    else s.(history := s.history + [Some(r.(version := |s.history|))])
  }

  predicate HasSpace(s: State) {
    s.next < UINT64_LIMIT
  }

  /** The resource is being deleted or gone. */
  predicate Closing(s: State)
    requires s.history != []
  {
    Last(s.history).Some? ==> Last(s.history).value.deleting
  }

  function Noted(s: State): (t: State)
    requires IsThere(s)
    ensures IsThere(t)
  {
    s.(bereft := s.bereft || (Closing(s) && !Last(s.headscales)))
  }

  /** What users and other controllers may change of the resource: its spec and owners, and that it shall go. */
  function Touched(r: Resource, d: Disturbance): Resource {
    match d
    case Edit(spec, owners) => r.(spec := spec, owners := owners, generation := r.generation + 1)
    case AskDeletion => r.(deleting := true, generation := r.generation + 1)
    case _ => r
  }

  function Disturb(s: State, d: Disturbance): (t: State)
    requires IsThere(s)
    ensures IsThere(t)
  {
    var now := Last(s.history);
    match d
    case Quiet => s
    case Edit(_, _) => if now.None? then s else Commit(s, Touched(now.value, d))
    case AskDeletion => if now.None? then s else Noted(Commit(s, Touched(now.value, d)))
    case SetHeadscale(e) => Noted(s.(headscales := s.headscales + [e]))
    case SetUsers(users) => s.(users := s.users + [users])
    case OthersMake(key) => if HasSpace(s) then s.(keys := s.keys[s.next := key], next := s.next + 1) else s
    case OthersRemove(id) => if id in s.made then s else s.(keys := s.keys - {id})
  }

  // ---------- The calls ----------

  datatype Code = NotFound | AlreadyExists | Conflict | GrpcNotFound | Other

  datatype Error = Error(code: Code, text: string)

  datatype StatusPatch = StatusPatch(keyId: Option<string>, condition: Option<Option<Condition>>)

  datatype Request =
    | GetResource
    | GetHeadscale
    | GetUser(name: string)
    | Connect
    | GetSecret
    | Update(r: Resource)
    | UpdateStatus(r: Resource)
    | PatchStatus(patch: StatusPatch)
    | CreateSecret(text: string)
    | UpdateSecret(secret: Secret)
    | DeleteSecret
    | MakeKey(wish: Wish)
    | RemoveKey(id: nat)

  datatype Reply =
    | Resourced(r: Resource)
    | Usered(user: User)
    | Secreted(secret: Secret)
    | Made(id: nat, text: string)
    | Done
    | Failed(error: Error)

  function DiffStatus(before: Resource, after: Resource): StatusPatch {
    StatusPatch(Changed(before.keyId, after.keyId), Changed(before.condition, after.condition))
  }

  function ApplyPatch(r: Resource, patch: StatusPatch): Resource {
    r.(keyId := Patched(r.keyId, patch.keyId), condition := Patched(r.condition, patch.condition))
  }

  function Refuse(s: State, code: Code): (State, Reply) {
    (s, Failed(Error(code, "")))
  }

  /** A write of the resource and its new state as the reply. */
  function Write(s: State, r: Resource): (State, Reply)
    requires s.history != []
  {
    var t := Commit(s, r);
    (t, Resourced(if Last(t.history).Some? then Last(t.history).value else r))
  }

  /** Updates of the resource are refused unless made to the present version. */
  function Checked(s: State, r: Resource): Option<Code>
    requires s.history != []
  {
    var now := Last(s.history);
    if now.None? then Some(NotFound) else if now.value.version != r.version then Some(Conflict) else None
  }

  function PutSecret(s: State, data: map<string, string>): State
    requires s.history != []
  {
    s.(secrets := s.secrets + [Some(Secret(|s.secrets|, data))],
       overwritten := s.overwritten || Recorded(s.history) != "")
  }

  /** The KeyID of the last version of the resource there was. */
  function Recorded(history: seq<Option<Resource>>): string {
    if history == [] then ""
    else if Last(history).Some? then Last(history).value.keyId
    else Recorded(history[..|history| - 1])
  }

  function TextsOf(made: map<nat, Key>): set<string> {
    set id | id in made :: made[id].text
  }

  /** How a call is served; `lag` is how late a read is and `text` the string of a new key. */
  function Serve(s: State, q: Request, lag: nat, text: string): (r: (State, Reply))
    requires IsThere(s)
    ensures IsThere(r.0)
  {
    match q
    case GetResource =>
      var seen := Seen(s.history, lag);
      if seen.None? then Refuse(s, NotFound) else (s, Resourced(seen.value))
    case GetHeadscale =>
      if Clamped(s.headscales, lag) then (s, Done) else Refuse(s.(missed := s.missed || Closing(s)), NotFound)
    case GetUser(name) =>
      var users := Clamped(s.users, lag);
      if name in users then (s, Usered(users[name])) else Refuse(s, NotFound)
    case Connect => (s, Done)
    case GetSecret =>
      var seen := Seen(s.secrets, lag);
      if seen.None? then Refuse(s, NotFound) else (s, Secreted(seen.value))
    case Update(r) =>
      var code := Checked(s, r);
      if code.Some? then Refuse(s, code.value)
      else Write(s, Last(s.history).value.(spec := r.spec, owners := r.owners, finalizer := r.finalizer))
    case UpdateStatus(r) =>
      var code := Checked(s, r);
      if code.Some? then Refuse(s, code.value)
      else Write(s, Last(s.history).value.(keyId := r.keyId, condition := r.condition))
    case PatchStatus(patch) =>
      if Last(s.history).None? then Refuse(s, NotFound)
      else Write(s, ApplyPatch(Last(s.history).value, patch))
    case CreateSecret(t) =>
      if Last(s.secrets).Some? then Refuse(s, AlreadyExists) else (PutSecret(s, map[KEY := t]), Done)
    case UpdateSecret(secret) =>
      if Last(s.secrets).None? then Refuse(s, NotFound)
      else if Last(s.secrets).value.version != secret.version then Refuse(s, Conflict)
      else (PutSecret(s, secret.data), Done)
    case DeleteSecret =>
      if Last(s.secrets).None? then Refuse(s, NotFound) else (s.(secrets := s.secrets + [None]), Done)
    case MakeKey(wish) =>
      if !HasSpace(s) || text in TextsOf(s.made) then Refuse(s, Other)
      else
        var key := Key(text, wish);
        (s.(keys := s.keys[s.next := key], made := s.made[s.next := key], next := s.next + 1), Made(s.next, text))
    case RemoveKey(id) =>
      if id !in s.keys then Refuse(s, GrpcNotFound) else (s.(keys := s.keys - {id}), Done)
  }

  // ---------- What every step keeps ----------

  /** What one version of the resource may become: once a KeyID is there it stays, and nothing comes back. */
  ghost predicate Follows(a: Option<Resource>, b: Option<Resource>) {
    b.Some? ==>
      && a.Some?
      && (a.value.keyId != "" ==> b.value.keyId == a.value.keyId)
      && (a.value.deleting ==> b.value.deleting)
  }

  ghost predicate IsIdOf(keyId: string, made: map<nat, Key>) {
    exists id :: id in made && keyId == PrintNat(id)
  }

  ghost predicate HistoryInv(s: State) {
    && IsThere(s)
    && (forall i | 0 <= i < |s.history| && s.history[i].Some? ::
      var r := s.history[i].value;
      r.version == i && (r.deleting ==> r.finalizer) && (r.keyId != "" ==> r.finalizer && IsIdOf(r.keyId, s.made)))
    && (forall i | 0 <= i < |s.history| - 1 :: Follows(s.history[i], s.history[i + 1]))
    && (forall i | 0 <= i < |s.secrets| && s.secrets[i].Some? :: s.secrets[i].value.version == i)
  }

  ghost predicate TableInv(s: State) {
    && s.next <= UINT64_LIMIT
    && (forall id | id in s.keys || id in s.made :: id < s.next)
    && (forall id | id in s.made && id in s.keys :: s.keys[id] == s.made[id])
    && (forall a, b | a in s.made && b in s.made && s.made[a].text == s.made[b].text :: a == b)
  }

  /** Keys made and no longer in Headscale: none but the recorded one, and that one only in a deletion. */
  ghost predicate ConservationInv(s: State)
    requires s.history != []
  {
    forall id | id in s.made && id !in s.keys :: Closing(s) && PrintNat(id) == Recorded(s.history)
  }

  ghost predicate RecordedRemoved(s: State) {
    forall id | id in s.made && PrintNat(id) == Recorded(s.history) :: id !in s.keys
  }

  /** A resource that is gone took its recorded key along, unless its deletion was told that there is no Headscale. */
  ghost predicate DepartureInv(s: State)
    requires s.history != []
  {
    Last(s.history).None? && !s.missed ==> RecordedRemoved(s)
  }

  ghost predicate SecretHolds(s: State, text: string)
    requires s.secrets != []
  {
    var now := Last(s.secrets);
    now.Some? && KEY in now.value.data && now.value.data[KEY] == text
  }

  /** While the resource is not being deleted, its Secret holds the recorded key unless it was overwritten. */
  ghost predicate AgreementInv(s: State)
    requires s.history != [] && s.secrets != []
  {
    && (s.overwritten ==> Recorded(s.history) != "")
    && (!Closing(s) ==>
      forall id | id in s.made && PrintNat(id) == Recorded(s.history) :: SecretHolds(s, s.made[id].text) <==> !s.overwritten)
  }

  ghost predicate OwnedBy(r: Resource, uid: nat) {
    exists o :: o in r.owners && o.uid == uid
  }

  /** This state of the HeadscaleUsers gives the user of `r`, and that HeadscaleUser owns `r`. */
  ghost predicate Names(r: Resource, users: map<string, User>, user: nat) {
    && r.spec.userRef in users
    && ParseUint(users[r.spec.userRef].userId, UINT64_LIMIT) == Some(user)
    && OwnedBy(r, users[r.spec.userRef].uid)
  }

  /** The user a resource asks for: its own, none for tags alone, or that of a HeadscaleUser that owns it. */
  ghost predicate Resolves(r: Resource, users: seq<map<string, User>>, user: nat) {
    if r.spec.userRef == "" then user == r.spec.userID && (user == 0 ==> r.spec.tags != [])
    else r.spec.userID == 0 && exists i :: 0 <= i < |users| && Names(r, users[i], user)
  }

  /** The wish is what the spec says: an expiration above zero is a lifetime, zero or less and none are none. */
  ghost predicate IsWanted(spec: Spec, wish: Wish) {
    && wish.reusable == spec.reusable && wish.ephemeral == spec.ephemeral && wish.tags == spec.tags
    && !spec.expiration.Garbled?
    && (wish.lifetime.Some? <==> spec.expiration.Lasting? && spec.expiration.nanoseconds > 0)
    && (wish.lifetime.Some? ==> wish.lifetime.value == spec.expiration.nanoseconds)
  }

  ghost predicate Grants(r: Resource, users: seq<map<string, User>>, wish: Wish) {
    && !r.deleting && r.finalizer && r.keyId == ""
    && Resolves(r, users, wish.user)
    && IsWanted(r.spec, wish)
  }

  ghost predicate AskedFor(s: State, wish: Wish) {
    exists i :: 0 <= i < |s.history| && s.history[i].Some? && Grants(s.history[i].value, s.users, wish)
  }

  /** Every key made was asked for by a version of the resource that had none recorded. */
  ghost predicate DemandInv(s: State) {
    forall id | id in s.made :: AskedFor(s, s.made[id].wish)
  }

  predicate IsReady(r: Resource) {
    r.condition.Some? && r.condition.value.ready
  }

  /** What is reported ready has a KeyID. */
  ghost predicate ReadyInv(s: State) {
    forall i | 0 <= i < |s.history| && s.history[i].Some? && IsReady(s.history[i].value) :: s.history[i].value.keyId != ""
  }

  ghost predicate Inv(s: State) {
    && ReadyInv(s)
    && HistoryInv(s) && TableInv(s) && ConservationInv(s) && DepartureInv(s) && AgreementInv(s) && DemandInv(s)
  }

  // ---------- What the controller must see to before a call ----------

  ghost predicate Version(s: State, v: nat) {
    v < |s.history| && s.history[v].Some?
  }

  /** `r` is a version of the resource as it was read or written. */
  ghost predicate TrueCopy(s: State, r: Resource) {
    r.version < |s.history| && s.history[r.version] == Some(r)
  }

  ghost predicate NewText(s: State, text: string) {
    exists id :: id in s.made && s.made[id].text == text && PrintNat(id) != Recorded(s.history)
  }

  /** A finalizer may be removed in a deletion, after the recorded key is gone or no Headscale was found. */
  ghost predicate MayLeave(s: State, was: Resource) {
    was.deleting && (s.missed || was.keyId == "" || RecordedRemoved(s))
  }

  ghost predicate Legit(s: State, q: Request)
    requires s.history != [] && s.secrets != []
  {
    match q
    case Update(r) =>
      Version(s, r.version) && var was := s.history[r.version].value;
      r == was.(finalizer := r.finalizer, owners := r.owners) && (was.finalizer && !r.finalizer ==> MayLeave(s, was))
    case UpdateStatus(r) =>
      Version(s, r.version) && var was := s.history[r.version].value;
      r == was.(keyId := r.keyId) && was.keyId == "" && was.finalizer
      && exists id :: id in s.made && r.keyId == PrintNat(id) && SecretHolds(s, s.made[id].text)
    case PatchStatus(patch) =>
      && patch.keyId.None?
      && (patch.condition.Some? && patch.condition.value.Some? && patch.condition.value.value.ready ==>
            Recorded(s.history) != "")
    case CreateSecret(text) => NewText(s, text)
    case UpdateSecret(secret) => KEY in secret.data && NewText(s, secret.data[KEY])
    case DeleteSecret => Closing(s)
    case MakeKey(wish) => AskedFor(s, wish)
    case RemoveKey(id) => Closing(s) && PrintNat(id) == Recorded(s.history)
    case _ => true
  }

  // ---------- Write-once ----------

  lemma RecordedOfMore(history: seq<Option<Resource>>, o: Option<Resource>)
    ensures Recorded(history + [o]) == if o.Some? then o.value.keyId else Recorded(history)
  {
    assert (history + [o])[..|history|] == history;
  }

  /** Once some version of the resource has a KeyID, every later one has that KeyID. */
  lemma {:induction false} KeyIdStays(s: State, i: nat, j: nat)
    requires HistoryInv(s) && i <= j < |s.history| && s.history[i].Some? && s.history[i].value.keyId != ""
    ensures s.history[j].Some? ==> s.history[j].value.keyId == s.history[i].value.keyId
    decreases j
  {
    if i < j {
      KeyIdStays(s, i, j - 1);
      assert Follows(s.history[j - 1], s.history[j - 1 + 1]);
    }
  }

  lemma {:induction false} DeletionStays(s: State, i: nat, j: nat)
    requires HistoryInv(s) && i <= j < |s.history| && (s.history[i].Some? ==> s.history[i].value.deleting)
    ensures s.history[j].Some? ==> s.history[j].value.deleting
    decreases j
  {
    if i < j {
      DeletionStays(s, i, j - 1);
      assert Follows(s.history[j - 1], s.history[j - 1 + 1]);
    }
  }

  /** A KeyID seen in any version is the recorded one, so acting on an old version is safe. */
  lemma {:induction false} SeenIsRecorded(s: State, history: seq<Option<Resource>>, i: nat)
    requires HistoryInv(s) && history <= s.history && i < |history|
    requires s.history[i].Some? && s.history[i].value.keyId != ""
    ensures Recorded(history) == s.history[i].value.keyId
    decreases |history|
  {
    var n := |history| - 1;
    if history[n].Some? {
      KeyIdStays(s, i, n);
    } else {
      SeenIsRecorded(s, history[..n], i);
    }
  }
}
