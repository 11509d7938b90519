/**
 API key rotation by any number of sidecars that share one Secret: every call to Headscale or to the
 Kubernetes API is one step, steps of different managers interleave, and a manager may crash anywhere.
 Times are in nanoseconds.
 */
module ApiKeyProtocol {
  import opened Wrappers

  const SECOND := 1_000_000_000

  const PREFIX_LENGTH := 8

  /** The Secret: its `api-key`, the expiration and created-at annotations in whole seconds, its resource version. */
  datatype Secret = Secret(key: Option<string>, expiration: Option<int>, createdAt: Option<int>, version: nat)

  /** A row of Headscale's key table. */
  datatype ApiKey = ApiKey(expiry: int, expired: bool)

  datatype Settings = Settings(expiration: int, rotationBuffer: int)

  /** Where a manager is, with what it holds: the old key, the new key and its expiry, the Secret it read. */
  datatype Manager =
    | Resting
    | Checking
    | ReadingOld
    | Stamping(prev: Option<string>)
    | Issuing(prev: Option<string>, expiry: int)
    | Storing(prev: Option<string>, key: string, expiry: int)
    | Looking(prev: Option<string>, key: string, expiry: int, createdAt: int)
    | Writing(prev: Option<string>, key: string, expiry: int, createdAt: int, found: Option<Secret>)
    | Expiring(prefix: string)

  datatype World = World(
    now: int,
    secret: Option<Secret>,
    keys: map<string, ApiKey>,
    managers: map<nat, Manager>,
    writes: nat,
    written: set<string>,
    targets: set<string>)

  datatype Action =
    | Start(m: nat)
    | Call(m: nat, ok: bool, newKey: string)
    | Crash(m: nat)
    | Tick(elapsed: nat)

  /** The layout of RFC 3339 without a fraction keeps whole seconds only. */
  function WholeSeconds(t: int): int {
    t / SECOND
  }

  function PrefixOf(key: string): string {
    if |key| >= PREFIX_LENGTH then key[..PREFIX_LENGTH] else key
  }

  predicate ShouldRotate(now: int, expiration: int, c: Settings) {
    now > expiration * SECOND - c.rotationBuffer
  }

  function At(w: World, m: nat): Manager {
    if m in w.managers then w.managers[m] else Resting
  }

  function Moved(w: World, m: nat, pc: Manager): World {
    w.(managers := w.managers[m := pc])
  }

  predicate Enabled(w: World, a: Action) {
    match a
    case Start(m) => At(w, m).Resting?
    case Call(m, ok, newKey) =>
      && !At(w, m).Resting?
      && (At(w, m).Issuing? && ok ==> |newKey| >= PREFIX_LENGTH && PrefixOf(newKey) !in w.keys)
    case Crash(_) => true
    case Tick(_) => true
  }

  /** `EnsureAPIKey` up to the decision. */
  function Check(w: World, ok: bool, c: Settings): Manager {
    if !ok then Resting
    else match w.secret
      case None => Stamping(None)
      case Some(s) =>
        if s.expiration.None? then Stamping(None)
        else if ShouldRotate(w.now, s.expiration.value, c) then ReadingOld
        else Resting
  }

  /** The manager's next call. */
  function Step(w: World, m: nat, ok: bool, newKey: string, c: Settings): World {
    match At(w, m)
    case Resting => w
    case Checking => Moved(w, m, Check(w, ok, c))
    case ReadingOld => Moved(w, m, Stamping(if ok && w.secret.Some? then w.secret.value.key else None))
    case Stamping(prev) => Moved(w, m, Issuing(prev, w.now + c.expiration))
    case Issuing(prev, expiry) =>
      if !ok then Moved(w, m, Resting)
      else Moved(w, m, Storing(prev, newKey, expiry)).(keys := w.keys[PrefixOf(newKey) := ApiKey(expiry, false)])
    case Storing(prev, key, expiry) => Moved(w, m, Looking(prev, key, expiry, WholeSeconds(w.now)))
    case Looking(prev, key, expiry, createdAt) =>
      Moved(w, m, if ok then Writing(prev, key, expiry, createdAt, w.secret) else Resting)
    case Writing(prev, key, expiry, createdAt, found) =>
      if ok && Accepted(w, found) then
        Moved(w, m, if prev.Some? && |prev.value| >= PREFIX_LENGTH then Expiring(PrefixOf(prev.value)) else Resting)
        .(secret := Some(Updated(found, key, expiry, createdAt, w.writes + 1)),
          writes := w.writes + 1,
          written := w.written + {PrefixOf(key)})
      else Moved(w, m, Resting)
    case Expiring(prefix) =>
      Moved(w, m, Resting)
      .(targets := w.targets + {prefix},
        keys := if ok && prefix in w.keys then w.keys[prefix := w.keys[prefix].(expired := true)] else w.keys)
  }

  /** Create succeeds on an absent Secret, update on the version that was read. */
  predicate Accepted(w: World, found: Option<Secret>) {
    if found.None? then w.secret.None?
    else w.secret.Some? && w.secret.value.version == found.value.version
  }

  /** What `CreateOrUpdateSecret` sends: everything new but an existing created-at. */
  function Updated(found: Option<Secret>, key: string, expiry: int, createdAt: int, version: nat): Secret {
    Secret(Some(key), Some(WholeSeconds(expiry)),
      if found.Some? && found.value.createdAt.Some? then found.value.createdAt else Some(createdAt),
      version)
  }

  function Apply(w: World, a: Action, c: Settings): World {
    match a
    case Start(m) => Moved(w, m, Checking)
    case Call(m, ok, newKey) => Step(w, m, ok, newKey, c)
    case Crash(m) => Moved(w, m, Resting)
    case Tick(elapsed) => w.(now := w.now + elapsed)
  }

  ghost function After(w: World, run: seq<Action>, c: Settings): Option<World>
    decreases |run|
  {
    if run == [] then Some(w)
    else if !Enabled(w, run[0]) then None
    else After(Apply(w, run[0], c), run[1..], c)
  }

  /** A start: no manager has run, and whatever the Secret holds was never the target of an expiry. */
  predicate Initial(w: World) {
    && w.managers == map[] && w.targets == {} && w.writes == 0
    && (w.secret.Some? ==> w.secret.value.version == 0)
    && w.written == CurrentPrefixes(w) && w.written <= w.keys.Keys
  }

  function CurrentPrefixes(w: World): set<string> {
    if w.secret.Some? && w.secret.value.key.Some? then {PrefixOf(w.secret.value.key.value)} else {}
  }

  // ---------- The stored key is never a target ----------

  predicate HoldsNew(pc: Manager) {
    pc.Storing? || pc.Looking? || pc.Writing?
  }

  predicate HoldsOld(pc: Manager) {
    pc.Stamping? || pc.Issuing? || HoldsNew(pc)
  }

  /** New keys are unknown to everyone else until written; old keys and targets are written keys. */
  predicate KeyInv(w: World) {
    && CurrentPrefixes(w) <= w.written <= w.keys.Keys
    && w.targets <= w.written - CurrentPrefixes(w)
    && (forall m | m in w.managers :: ManagerInv(w, w.managers[m]))
    && (forall m, n | m in w.managers && n in w.managers && m != n
          && HoldsNew(w.managers[m]) && HoldsNew(w.managers[n]) ::
          PrefixOf(w.managers[m].key) != PrefixOf(w.managers[n].key))
  }

  predicate ManagerInv(w: World, pc: Manager) {
    && (HoldsNew(pc) ==> PrefixOf(pc.key) in w.keys && PrefixOf(pc.key) !in w.written)
    && (HoldsOld(pc) && pc.prev.Some? ==> PrefixOf(pc.prev.value) in w.written)
    && (pc.Expiring? ==> pc.prefix in w.written && pc.prefix !in CurrentPrefixes(w))
  }

  predicate NewToOthers(w: World, m: nat, key: string) {
    forall n | n in w.managers && n != m && HoldsNew(w.managers[n]) :: PrefixOf(w.managers[n].key) != PrefixOf(key)
  }

  lemma MoveKeepsKeyInv(w: World, m: nat, pc: Manager)
    requires KeyInv(w) && ManagerInv(w, pc) && (HoldsNew(pc) ==> NewToOthers(w, m, pc.key))
    ensures KeyInv(Moved(w, m, pc))
  {
    var t := Moved(w, m, pc);
    forall n | n in t.managers ensures ManagerInv(t, t.managers[n]) {
      assert n != m ==> ManagerInv(w, w.managers[n]);
    }
  }

  lemma IssueKeepsKeyInv(w: World, m: nat, newKey: string, c: Settings)
    requires KeyInv(w) && Enabled(w, Call(m, true, newKey)) && At(w, m).Issuing?
    ensures KeyInv(Step(w, m, true, newKey, c))
  {
    var t := Step(w, m, true, newKey, c);
    assert ManagerInv(w, w.managers[m]);
    forall n | n in t.managers ensures ManagerInv(t, t.managers[n]) {
      assert n != m ==> ManagerInv(w, w.managers[n]);
    }
    forall n | n in w.managers && HoldsNew(w.managers[n]) ensures PrefixOf(w.managers[n].key) != PrefixOf(newKey) {
      assert ManagerInv(w, w.managers[n]);
    }
  }

  lemma WriteKeepsKeyInv(w: World, m: nat, c: Settings)
    requires KeyInv(w) && At(w, m).Writing? && Accepted(w, At(w, m).found)
    ensures KeyInv(Step(w, m, true, "", c))
  {
    var t := Step(w, m, true, "", c);
    var p := PrefixOf(w.managers[m].key);
    assert ManagerInv(w, w.managers[m]);
    assert CurrentPrefixes(t) == {p} && t.written == w.written + {p};
    forall n | n in t.managers ensures ManagerInv(t, t.managers[n]) {
      if n != m {
        assert ManagerInv(w, w.managers[n]);
      }
    }
  }

  lemma ExpireKeepsKeyInv(w: World, m: nat, ok: bool, c: Settings)
    requires KeyInv(w) && At(w, m).Expiring?
    ensures KeyInv(Step(w, m, ok, "", c))
  {
    var t := Step(w, m, ok, "", c);
    assert ManagerInv(w, w.managers[m]);
    assert t.keys.Keys == w.keys.Keys;
    forall n | n in t.managers ensures ManagerInv(t, t.managers[n]) {
      assert n != m ==> ManagerInv(w, w.managers[n]);
    }
  }

  lemma StepKeepsKeyInv(w: World, a: Action, c: Settings)
    requires KeyInv(w) && Enabled(w, a)
    ensures KeyInv(Apply(w, a, c))
  {
    match a {
      case Start(m) => MoveKeepsKeyInv(w, m, Checking);
      case Crash(m) => MoveKeepsKeyInv(w, m, Resting);
      case Tick(_) =>
        forall n | n in w.managers ensures ManagerInv(Apply(w, a, c), w.managers[n]) {
        }
      case Call(m, ok, newKey) => CallKeepsKeyInv(w, m, ok, newKey, c);
    }
  }

  lemma CallKeepsKeyInv(w: World, m: nat, ok: bool, newKey: string, c: Settings)
    requires KeyInv(w) && Enabled(w, Call(m, ok, newKey))
    ensures KeyInv(Step(w, m, ok, newKey, c))
  {
    var pc, t := At(w, m), Step(w, m, ok, newKey, c);
    assert ManagerInv(w, pc);
    if pc.Issuing? && ok {
      IssueKeepsKeyInv(w, m, newKey, c);
    } else if pc.Writing? && ok && Accepted(w, pc.found) {
      WriteKeepsKeyInv(w, m, c);
    } else if pc.Expiring? {
      ExpireKeepsKeyInv(w, m, ok, c);
    } else {
      assert t == Moved(w, m, At(t, m));
      MoveKeepsKeyInv(w, m, At(t, m));
    }
  }

  lemma {:induction false} RunKeepsKeyInv(w: World, run: seq<Action>, c: Settings)
    requires KeyInv(w) && After(w, run, c).Some?
    ensures KeyInv(After(w, run, c).value)
    decreases |run|
  {
    if run != [] {
      StepKeepsKeyInv(w, run[0], c);
      RunKeepsKeyInv(Apply(w, run[0], c), run[1..], c);
    }
  }

  /** In every run of any number of managers, the key in the Secret was never the subject of an expire call. */
  lemma StoredKeyIsNeverATarget(start: World, run: seq<Action>, c: Settings)
    requires Initial(start) && After(start, run, c).Some?
    ensures var w := After(start, run, c).value;
      forall k | w.secret.Some? && w.secret.value.key == Some(k) :: PrefixOf(k) !in w.targets
  {
    RunKeepsKeyInv(start, run, c);
  }

  // ---------- The Secret describes its key ----------

  /** The annotation is the expiry of the stored key in whole seconds, and that key is still good until then. */
  predicate Describes(w: World, s: Secret) {
    && s.key.Some? && s.expiration.Some? && s.createdAt.Some?
    && PrefixOf(s.key.value) in w.keys
    && var k := w.keys[PrefixOf(s.key.value)];
      !k.expired && s.expiration.value * 1_000_000_000 <= k.expiry < (s.expiration.value + 1) * 1_000_000_000
  }

  predicate SecretInv(w: World) {
    && KeyInv(w)
    && (w.secret.Some? ==> Describes(w, w.secret.value) && w.secret.value.version == w.writes)
    && (w.secret.None? <==> w.writes == 0)
    && (forall m | m in w.managers :: HoldsTruth(w, w.managers[m]))
  }

  predicate FoundEarlier(w: World, found: Secret) {
    && found.createdAt.Some? && found.version <= w.writes
    && w.secret.Some? && w.secret.value.createdAt == found.createdAt
    && (found.version == w.writes ==> found == w.secret.value)
  }

  predicate HoldsTruth(w: World, pc: Manager) {
    && (HoldsNew(pc) && PrefixOf(pc.key) in w.keys ==> w.keys[PrefixOf(pc.key)] == ApiKey(pc.expiry, false))
    && (pc.Writing? && pc.found.Some? ==> FoundEarlier(w, pc.found.value))
  }

  predicate SameSecret(w: World, t: World) {
    w.secret == t.secret && w.writes == t.writes
  }

  lemma CallKeepsSecretInv(w: World, m: nat, ok: bool, newKey: string, c: Settings)
    requires SecretInv(w) && Enabled(w, Call(m, ok, newKey))
    ensures SecretInv(Step(w, m, ok, newKey, c))
    ensures w.secret.Some? ==> var t := Step(w, m, ok, newKey, c);
      t.secret.Some? && t.secret.value.createdAt == w.secret.value.createdAt
  {
    CallKeepsKeyInv(w, m, ok, newKey, c);
    var pc, t := At(w, m), Step(w, m, ok, newKey, c);
    assert ManagerInv(w, pc) && HoldsTruth(w, pc);
    if pc.Writing? && ok && Accepted(w, pc.found) {
      WriteKeepsTruth(w, m, c);
    } else {
      OtherCallKeepsTruth(w, m, ok, newKey, c);
    }
  }

  lemma OtherCallKeepsTruth(w: World, m: nat, ok: bool, newKey: string, c: Settings)
    requires SecretInv(w) && Enabled(w, Call(m, ok, newKey))
    requires At(w, m).Writing? ==> !ok || !Accepted(w, At(w, m).found)
    ensures var t := Step(w, m, ok, newKey, c);
      SameSecret(w, t) && (t.secret.Some? ==> Describes(t, t.secret.value))
      && forall n | n in t.managers :: HoldsTruth(t, t.managers[n])
  {
    var t := Step(w, m, ok, newKey, c);
    assert ManagerInv(w, At(w, m)) && HoldsTruth(w, At(w, m));
    assert HoldsTruth(t, At(t, m));
    forall n | n in w.managers && n != m ensures HoldsTruth(t, w.managers[n]) {
      assert ManagerInv(w, w.managers[n]) && HoldsTruth(w, w.managers[n]);
    }
  }

  lemma WriteKeepsTruth(w: World, m: nat, c: Settings)
    requires SecretInv(w) && At(w, m).Writing? && Accepted(w, At(w, m).found)
    ensures var t := Step(w, m, true, "", c);
      && t.secret.Some? && Describes(t, t.secret.value) && t.secret.value.version == t.writes
      && (w.secret.Some? ==> t.secret.value.createdAt == w.secret.value.createdAt)
      && forall n | n in t.managers :: HoldsTruth(t, t.managers[n])
  {
    var pc, t := w.managers[m], Step(w, m, true, "", c);
    assert ManagerInv(w, pc) && HoldsTruth(w, pc);
    forall n | n in t.managers && n != m ensures HoldsTruth(t, t.managers[n]) {
      assert HoldsTruth(w, w.managers[n]);
    }
  }

  lemma StepKeepsSecretInv(w: World, a: Action, c: Settings)
    requires SecretInv(w) && Enabled(w, a)
    ensures SecretInv(Apply(w, a, c))
    ensures w.secret.Some? ==>
      Apply(w, a, c).secret.Some? && Apply(w, a, c).secret.value.createdAt == w.secret.value.createdAt
  {
    match a {
      case Call(m, ok, newKey) => CallKeepsSecretInv(w, m, ok, newKey, c);
      case _ =>
        StepKeepsKeyInv(w, a, c);
        var t := Apply(w, a, c);
        forall n | n in t.managers ensures HoldsTruth(t, t.managers[n]) {
          assert n in w.managers ==> HoldsTruth(w, w.managers[n]);
        }
    }
  }

  lemma {:induction false} RunKeepsSecretInv(w: World, run: seq<Action>, c: Settings)
    requires SecretInv(w) && After(w, run, c).Some?
    ensures SecretInv(After(w, run, c).value)
    ensures w.secret.Some? ==>
      var t := After(w, run, c).value; t.secret.Some? && t.secret.value.createdAt == w.secret.value.createdAt
    decreases |run|
  {
    if run != [] {
      StepKeepsSecretInv(w, run[0], c);
      RunKeepsSecretInv(Apply(w, run[0], c), run[1..], c);
    }
  }

  /**
   From an absent Secret, the annotation always tells the whole seconds of the stored key's true expiry,
   the stored key is unexpired, and created-at never changes once written.
   */
  lemma SecretIsSelfConsistent(start: World, first: seq<Action>, rest: seq<Action>, c: Settings)
    requires Initial(start) && start.secret.None?
    requires After(start, first, c).Some? && After(After(start, first, c).value, rest, c).Some?
    ensures var w := After(start, first, c).value;
      w.secret.Some? ==>
        && Describes(w, w.secret.value)
        && var t := After(w, rest, c).value;
          t.secret.Some? && t.secret.value.createdAt == w.secret.value.createdAt
  {
    RunKeepsSecretInv(start, first, c);
    RunKeepsSecretInv(After(start, first, c).value, rest, c);
  }

  // ---------- The time of creation ----------

  /** What a manager stamped lies between `since` and now, the key's creation before the Secret's. */
  predicate Stamped(w: World, pc: Manager, since: int, c: Settings) {
    && (pc.Issuing? || HoldsNew(pc) ==> since <= pc.expiry - c.expiration <= w.now)
    && (pc.Looking? || pc.Writing? ==> WholeSeconds(pc.expiry - c.expiration) <= pc.createdAt <= WholeSeconds(w.now))
  }

  predicate ClockInv(w: World, since: int, c: Settings) {
    && SecretInv(w) && since <= w.now
    && (w.secret.Some? ==> WholeSeconds(since) <= w.secret.value.createdAt.value <= WholeSeconds(w.now))
    && forall m | m in w.managers :: Stamped(w, w.managers[m], since, c)
  }

  lemma StepKeepsClockInv(w: World, a: Action, since: int, c: Settings)
    requires ClockInv(w, since, c) && Enabled(w, a)
    ensures ClockInv(Apply(w, a, c), since, c)
    ensures var t := Apply(w, a, c);
      w.secret.None? && t.secret.Some? ==>
        WholeSeconds(Expiry(t) - c.expiration) <= t.secret.value.createdAt.value <= WholeSeconds(w.now)
  {
    hide KeyInv, Stamped;
    StepKeepsSecretInv(w, a, c);
    StepStamps(w, a, since, c);
    if a.Call? {
      hide Apply;
      WrittenIsStamped(w, a, since, c);
    }
  }

  lemma StepStamps(w: World, a: Action, since: int, c: Settings)
    requires since <= w.now && Enabled(w, a) && forall m | m in w.managers :: Stamped(w, w.managers[m], since, c)
    ensures var t := Apply(w, a, c);
      w.now <= t.now && forall m | m in t.managers :: Stamped(t, t.managers[m], since, c)
  {
    var t := Apply(w, a, c);
    forall m | m in t.managers ensures Stamped(t, t.managers[m], since, c) {
      assert m in w.managers ==> Stamped(w, w.managers[m], since, c);
    }
  }

  /** The true expiry of the stored key. */
  function Expiry(w: World): int
    requires w.secret.Some? && Describes(w, w.secret.value)
  {
    w.keys[PrefixOf(w.secret.value.key.value)].expiry
  }

  lemma WrittenIsStamped(w: World, a: Action, since: int, c: Settings)
    requires ClockInv(w, since, c) && Enabled(w, a) && a.Call? && SecretInv(Apply(w, a, c))
    ensures var t := Apply(w, a, c); t.secret.Some? ==>
      && WholeSeconds(since) <= t.secret.value.createdAt.value <= WholeSeconds(t.now)
      && (w.secret.None? ==> WholeSeconds(Expiry(t) - c.expiration) <= t.secret.value.createdAt.value)
  {
    var pc := At(w, a.m);
    assert ManagerInv(w, pc) && HoldsTruth(w, pc) && Stamped(w, pc, since, c);
  }

  lemma {:induction false} RunKeepsClockInv(w: World, run: seq<Action>, since: int, c: Settings)
    requires ClockInv(w, since, c) && After(w, run, c).Some?
    ensures ClockInv(After(w, run, c).value, since, c)
    decreases |run|
  {
    hide ClockInv;
    if run != [] {
      StepKeepsClockInv(w, run[0], since, c);
      RunKeepsClockInv(Apply(w, run[0], c), run[1..], since, c);
    }
  }

  /**
   From an absent Secret: the write that creates it says, in whole seconds, a moment between the creation of the key
   it stores and now, and so, created-at being kept, does the Secret ever after.
   */
  lemma CreatedAtIsOfTheFirstWrite(start: World, first: seq<Action>, a: Action, rest: seq<Action>, c: Settings)
    requires Initial(start) && start.secret.None? && After(start, first, c).Some?
    requires var w := After(start, first, c).value; w.secret.None? && Enabled(w, a)
    requires var t := Apply(After(start, first, c).value, a, c); t.secret.Some? && After(t, rest, c).Some?
    ensures var w := After(start, first, c).value; var t := Apply(w, a, c); var u := After(t, rest, c).value;
      && Describes(t, t.secret.value) && u.secret.Some? && u.secret.value.createdAt.Some?
      && start.now <= Expiry(t) - c.expiration
      && WholeSeconds(Expiry(t) - c.expiration) <= u.secret.value.createdAt.value <= WholeSeconds(w.now)
  {
    hide ClockInv, SecretInv;
    ClockStarts(start, c);
    RunKeepsClockInv(start, first, start.now, c);
    var w := After(start, first, c).value;
    StepKeepsClockInv(w, a, start.now, c);
    ClockSays(w, Apply(w, a, c), a, start.now, c);
    RunKeepsSecretInv(Apply(w, a, c), rest, c);
  }

  lemma ClockStarts(start: World, c: Settings)
    requires Initial(start) && start.secret.None?
    ensures ClockInv(start, start.now, c)
  {
  }

  lemma ClockSays(w: World, t: World, a: Action, since: int, c: Settings)
    requires ClockInv(w, since, c) && ClockInv(t, since, c) && Enabled(w, a) && t == Apply(w, a, c)
    requires w.secret.None? && t.secret.Some?
    ensures SecretInv(t) && Describes(t, t.secret.value) && since <= Expiry(t) - c.expiration
  {
    assert a.Call?;
    var pc := At(w, a.m);
    assert ManagerInv(w, pc) && HoldsTruth(w, pc) && Stamped(w, pc, since, c);
  }

  // ---------- No write is lost ----------

  /** A write of the Secret replaces the very version that its manager looked at: nobody wrote in between. */
  lemma WritesReplaceWhatWasRead(w: World, m: nat, ok: bool, newKey: string, c: Settings)
    requires SecretInv(w) && At(w, m).Writing?
    ensures var t := Step(w, m, ok, newKey, c);
      t.secret != w.secret ==> w.secret == At(w, m).found && t.secret.value.key == Some(At(w, m).key)
  {
    assert HoldsTruth(w, w.managers[m]);
  }

  // ---------- Keys expire as targets only ----------

  /** From `w` to `t` no key is lost or gets another expiry, and none was expired but as a target. */
  predicate OnlyTargetsExpire(w: World, t: World) {
    && w.targets <= t.targets
    && (forall p | p in w.keys ::
          p in t.keys && t.keys[p].expiry == w.keys[p].expiry && (w.keys[p].expired ==> t.keys[p].expired))
    && forall p | p in t.keys && t.keys[p].expired :: (p in w.keys && w.keys[p].expired) || p in t.targets
  }

  lemma StepExpiresTargets(w: World, a: Action, c: Settings)
    requires Enabled(w, a)
    ensures OnlyTargetsExpire(w, Apply(w, a, c))
  {
  }

  /** And an expiry that is served does expire its target, and no other key. */
  lemma ServedExpiryExpires(w: World, m: nat, newKey: string, c: Settings)
    requires At(w, m).Expiring? && At(w, m).prefix in w.keys
    ensures var t, p := Step(w, m, true, newKey, c), At(w, m).prefix;
      && p in t.targets && t.keys.Keys == w.keys.Keys
      && forall q | q in w.keys :: t.keys[q].expired <==> w.keys[q].expired || q == p
  {
  }

  /** In every run of any number of managers. */
  lemma {:induction false} RunExpiresTargetsOnly(w: World, run: seq<Action>, c: Settings)
    requires After(w, run, c).Some?
    ensures OnlyTargetsExpire(w, After(w, run, c).value)
    decreases |run|
  {
    hide Apply;
    if run != [] {
      StepExpiresTargets(w, run[0], c);
      RunExpiresTargetsOnly(Apply(w, run[0], c), run[1..], c);
    }
  }

  /** Two keys have the same prefix if they agree in their first eight characters. */
  lemma PrefixIsFirstEight(a: string, b: string)
    requires |a| >= 8 && |b| >= 8
    ensures |PrefixOf(a)| == 8
    ensures PrefixOf(a) == PrefixOf(b) <==> forall i | 0 <= i < 8 :: a[i] == b[i]
  {
    if forall i | 0 <= i < 8 :: a[i] == b[i] {
      assert a[..8] == b[..8];
    } else {
      var i :| 0 <= i < 8 && a[i] != b[i];
      assert a[..8][i] != b[..8][i];
    }
  }
}
