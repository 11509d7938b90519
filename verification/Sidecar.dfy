/**
 One sidecar: the API key manager and the loop that drives it, call by call, on a clock that every call
 advances. Each call is a step of the rotation protocol, so whatever holds of all protocol runs holds here.
 */
module Sidecar {
  import opened Wrappers
  import opened ApiKeyProtocol

  const HOUR := 3600 * SECOND

  /** How long a call takes, whether it takes effect, whether its reply is lost, and the key Headscale would hand out. */
  datatype Reply = Reply(cost: nat, ok: bool, lost: bool, newKey: string)

  /** The answer to the next call; past the end of the plan nothing answers. */
  function Head(plan: seq<Reply>): Reply {
    if plan == [] then Reply(0, false, false, "") else plan[0]
  }

  function Rest(plan: seq<Reply>): seq<Reply> {
    if plan == [] then [] else plan[1..]
  }

  predicate Answered(r: Reply) {
    r.ok && !r.lost
  }

  function Budget(plan: seq<Reply>): nat {
    if plan == [] then 0 else plan[0].cost + Budget(plan[1..])
  }

  const ME := 0

  predicate Alone(w: World) {
    forall m | m in w.managers && m != ME :: w.managers[m].Resting?
  }

  /** The instant after which the stored key is due for rotation. */
  function DueAt(w: World, c: Settings): int
    requires w.secret.Some? && Describes(w, w.secret.value)
  {
    w.secret.value.expiration.value * SECOND - c.rotationBuffer
  }

  predicate Stored(w: World) {
    w.secret.Some? && Describes(w, w.secret.value)
  }

  lemma {:induction false} AfterOneMore(w: World, run: seq<Action>, a: Action, c: Settings)
    requires After(w, run, c).Some? && Enabled(After(w, run, c).value, a)
    ensures After(w, run + [a], c) == Some(Apply(After(w, run, c).value, a, c))
    decreases |run|
  {
    if run == [] {
      assert (run + [a])[1..] == [];
    } else {
      AfterOneMore(Apply(w, run[0], c), run[1..], a, c);
      assert (run + [a])[1..] == run[1..] + [a];
    }
  }

  // ---------- What a run of the protocol shows ----------

  /** The stored key is past its expiry. */
  ghost predicate IsLate(w: World) {
    Stored(w) && w.now > Expiry(w)
  }

  /** At some moment of this run from `w` the stored key was past its expiry. */
  ghost predicate LapsedAlong(w: World, run: seq<Action>, c: Settings) {
    exists n :: 0 <= n <= |run| && LateAfter(w, run[..n], c)
  }

  ghost predicate LateAfter(w: World, run: seq<Action>, c: Settings) {
    After(w, run, c).Some? && IsLate(After(w, run, c).value)
  }

  /** The creation times of the keys stored along this run: of the first, and of every one that replaced another. */
  ghost function StampsAlong(w: World, run: seq<Action>, c: Settings): seq<int> {
    if run == [] then if Stored(w) then [Expiry(w) - c.expiration] else []
    else
      var n := |run| - 1;
      StampsAlong(w, run[..n], c) + NewStamp(After(w, run[..n], c), After(w, run, c), c)
  }

  ghost function NewStamp(was: Option<World>, now: Option<World>, c: Settings): seq<int> {
    if was.Some? && now.Some? && now.value.secret != was.value.secret && Stored(now.value)
    then [Expiry(now.value) - c.expiration] else []
  }

  lemma LapsedOneMore(w: World, run: seq<Action>, a: Action, c: Settings)
    requires After(w, run, c).Some? && Enabled(After(w, run, c).value, a)
    ensures LapsedAlong(w, run + [a], c) <==> LapsedAlong(w, run, c) || IsLate(Apply(After(w, run, c).value, a, c))
  {
    hide After, IsLate, Apply;
    AfterOneMore(w, run, a, c);
    var more := run + [a];
    assert more[..|more|] == more;
    forall n | 0 <= n <= |run| ensures more[..n] == run[..n] {
    }
    if IsLate(Apply(After(w, run, c).value, a, c)) {
      assert LateAfter(w, more[..|more|], c);
    }
    if LapsedAlong(w, run, c) {
      var n :| 0 <= n <= |run| && LateAfter(w, run[..n], c);
      assert LateAfter(w, more[..n], c);
    }
  }

  lemma StampsOneMore(w: World, run: seq<Action>, a: Action, c: Settings)
    requires After(w, run, c).Some? && Enabled(After(w, run, c).value, a)
    ensures var was := After(w, run, c).value;
      StampsAlong(w, run + [a], c) == StampsAlong(w, run, c) + NewStamp(Some(was), Some(Apply(was, a, c)), c)
  {
    hide Apply, NewStamp;
    AfterOneMore(w, run, a, c);
    assert (run + [a])[..|run|] == run;
  }

  lemma NothingAlong(w: World, c: Settings)
    ensures LapsedAlong(w, [], c) <==> IsLate(w)
  {
    var none: seq<Action> := [];
    assert none[..0] == none;
    if IsLate(w) {
      assert LateAfter(w, none[..0], c);
    }
  }

  /** An action of the manager within a check, or a passing of time. */
  predicate IsCallOfMine(a: Action) {
    a.Tick? || a == Crash(ME) || (a.Call? && a.m == ME)
  }

  /** One `EnsureAPIKey`. */
  predicate IsCheckRun(run: seq<Action>) {
    run != [] && run[0] == Start(ME) && forall i | 1 <= i < |run| :: IsCallOfMine(run[i])
  }

  /** How long the loop sleeps that reads the Secret in state `w`. */
  function SleepTime(w: World, replies: seq<Reply>, c: Settings): nat
    requires Stored(w)
  {
    var left := DueAt(w, c) - (w.now + Head(replies).cost);
    if !Answered(Head(replies)) then 3_600_000_000_000 else if left > 0 then left else 0
  }

  /** One round of the loop: the Secret is read, the time until the rotation slept away, the key checked. */
  predicate IsLoopRound(w: World, run: seq<Action>, replies: seq<Reply>, c: Settings)
    requires Stored(w)
  {
    && |run| >= 2 && run[0] == Tick(Head(replies).cost) && run[1] == Tick(SleepTime(w, replies, c))
    && IsCheckRun(run[2..])
  }

  lemma SleepEnds(w: World, replies: seq<Reply>, c: Settings)
    requires Stored(w)
    ensures var end := w.now + Head(replies).cost + SleepTime(w, replies, c);
      end <= DueAt(w, c) || end <= w.now + Head(replies).cost + HOUR
  {
  }

  lemma RoundOf(w: World, soFar: seq<Action>, run: seq<Action>, replies: seq<Reply>, c: Settings)
    requires Stored(w) && soFar == [Tick(Head(replies).cost), Tick(SleepTime(w, replies, c))]
    requires soFar <= run && IsCheckRun(run[|soFar|..])
    ensures IsLoopRound(w, run, replies, c)
  {
    assert run[2..] == run[|soFar|..];
  }

  /** Between `w` and `u` a key that is due by now was not replaced. */
  predicate Misses(w: World, u: World, c: Settings) {
    u.secret == w.secret && Stored(u) && u.now > DueAt(u, c)
  }

  /** More than `k` rounds in a row, from round `i` on, each missed a due rotation. */
  ghost predicate MissedMoreThan(worlds: seq<World>, i: int, k: nat, c: Settings) {
    0 <= i && i + k + 1 < |worlds| && forall j | i <= j <= i + k :: Misses(worlds[j], worlds[j + 1], c)
  }

  /** Enough replies, every one of them served, and every key offered new. */
  ghost predicate IsObliging(plan: seq<Reply>, keys: map<string, ApiKey>, n: nat) {
    |plan| >= n && forall r | r in plan :: Answered(r) && |r.newKey| >= PREFIX_LENGTH && PrefixOf(r.newKey) !in keys
  }

  /** More calls continue a check. */
  lemma CheckGoesOn(all: seq<Action>, soFar: seq<Action>, was: seq<Action>)
    requires was <= soFar <= all && IsCheckRun(soFar[|was|..])
    requires forall i | |soFar| <= i < |all| :: IsCallOfMine(all[i])
    ensures was <= all && IsCheckRun(all[|was|..])
  {
    forall i | 1 <= i < |all| - |was| ensures IsCallOfMine(all[|was|..][i]) {
      if |was| + i < |soFar| {
        assert all[|was|..][i] == soFar[|was|..][i];
      }
    }
    assert all[|was|..][0] == soFar[|was|..][0];
  }

  /** What the Secret says of its key is what decides. */
  lemma Decided(w: World, c: Settings)
    requires SecretInv(w)
    ensures w.secret.None? || w.secret.value.expiration.None? ==> !Stored(w)
    ensures w.secret.Some? && w.secret.value.expiration.Some? ==>
      Stored(w) && (ShouldRotate(w.now, w.secret.value.expiration.value, c) <==> w.now > DueAt(w, c))
  {
  }

  lemma ObligingRest(plan: seq<Reply>, keys: map<string, ApiKey>, n: nat)
    requires IsObliging(plan, keys, n + 1)
    ensures IsObliging(Rest(plan), keys, n) && Answered(Head(plan)) && (n >= 3 ==> IsObliging(Rest(plan), keys, 3))
  {
  }

  function Joined(runs: seq<seq<Action>>): seq<Action> {
    if runs == [] then [] else Joined(runs[..|runs| - 1]) + runs[|runs| - 1]
  }

  // ---------- The life of a sidecar ----------

  /** Rounds of the loop after the check of the start: the states between them, and what is done in each. */
  ghost predicate IsLife(worlds: seq<World>, pieces: seq<seq<Action>>, rounds: seq<seq<Reply>>, slack: nat, c: Settings) {
    && 0 < |pieces| <= |rounds| && |worlds| == |pieces| + 1
    && forall i | 0 <= i < |pieces| :: IsPart(i, worlds[i], pieces[i], worlds[i + 1], rounds[i], slack, c)
  }

  /** The check of the start takes no longer than its replies, and a round as long as its sleep beside. */
  ghost predicate IsPart(i: nat, w: World, piece: seq<Action>, u: World, replies: seq<Reply>, slack: nat, c: Settings) {
    && After(w, piece, c) == Some(u)
    && if i == 0 then IsCheckRun(piece) && u.now <= w.now + slack
       else Stored(w) && IsLoopRound(w, piece, replies, c) && u.now <= w.now + SleepTime(w, replies, c) + slack
  }

  /** A round in which every reply is served misses nothing. */
  ghost predicate MissesForAReason(worlds: seq<World>, rounds: seq<seq<Reply>>, c: Settings)
    requires |worlds| <= |rounds| + 1
  {
    forall i | 1 <= i < |worlds| - 1 && Misses(worlds[i], worlds[i + 1], c) :: !IsObliging(rounds[i], worlds[i].keys, 6)
  }

  /** If the key lapses in a round, more than `k` rounds in a row before it missed a rotation that was due. */
  ghost predicate LapsesForAReason(worlds: seq<World>, pieces: seq<seq<Action>>, overdue: bool, k: nat, c: Settings)
    requires |worlds| == |pieces| + 1
  {
    forall i | 0 <= i < |pieces| && LapsedAlong(worlds[i], pieces[i], c) ::
      (i == 0 && overdue) || exists j :: j + k < i && MissedMoreThan(worlds, j, k, c)
  }

  lemma LifeBegins(w: World, piece: seq<Action>, u: World, rounds: seq<seq<Reply>>, slack: nat, overdue: bool, k: nat, c: Settings)
    requires rounds != [] && After(w, piece, c) == Some(u) && IsCheckRun(piece) && u.now <= w.now + slack
    requires LapsedAlong(w, piece, c) ==> overdue
    ensures IsLife([w, u], [piece], rounds, slack, c) && Joined([piece]) == piece
    ensures MissesForAReason([w, u], rounds, c) && LapsesForAReason([w, u], [piece], overdue, k, c)
    ensures IsCounted([w, u], 0, false, k, c)
  {
    hide After, LapsedAlong, IsCheckRun;
    assert [piece][..0] == [];
  }

  lemma RoundIsPart(i: nat, w: World, piece: seq<Action>, u: World, replies: seq<Reply>, slack: nat, c: Settings)
    requires i > 0 && After(w, piece, c) == Some(u) && Stored(w) && IsLoopRound(w, piece, replies, c)
    requires u.now <= w.now + SleepTime(w, replies, c) + slack
    ensures IsPart(i, w, piece, u, replies, slack, c)
  {
  }

  lemma LifeGoesOn(worlds: seq<World>, pieces: seq<seq<Action>>, rounds: seq<seq<Reply>>, slack: nat, c: Settings,
                   piece: seq<Action>, u: World)
    requires IsLife(worlds, pieces, rounds, slack, c) && |pieces| < |rounds|
    requires IsPart(|pieces|, worlds[|worlds| - 1], piece, u, rounds[|pieces|], slack, c)
    ensures IsLife(worlds + [u], pieces + [piece], rounds, slack, c)
    ensures Joined(pieces + [piece]) == Joined(pieces) + piece
  {
    hide IsPart;
    var more, parts := worlds + [u], pieces + [piece];
    assert parts[..|parts| - 1] == pieces;
    forall i | 0 <= i < |parts| ensures IsPart(i, more[i], parts[i], more[i + 1], rounds[i], slack, c) {
      if i < |pieces| {
        assert IsPart(i, worlds[i], pieces[i], worlds[i + 1], rounds[i], slack, c);
      }
    }
  }

  /** The last `f` rounds missed a rotation, and `tooMany` tells whether more than `k` in a row ever did. */
  ghost predicate IsCounted(worlds: seq<World>, f: nat, tooMany: bool, k: nat, c: Settings) {
    && f + 1 < |worlds| && (forall j | |worlds| - 1 - f <= j < |worlds| - 1 :: Misses(worlds[j], worlds[j + 1], c))
    && (tooMany ==> exists j :: j + k + 1 < |worlds| && MissedMoreThan(worlds, j, k, c))
  }

  lemma CountGoesOn(worlds: seq<World>, f: nat, tooMany: bool, k: nat, c: Settings, u: World, missed: bool)
    requires worlds != [] && IsCounted(worlds, f, tooMany, k, c) && (missed ==> Misses(worlds[|worlds| - 1], u, c))
    ensures var g := if missed then f + 1 else 0; IsCounted(worlds + [u], g, tooMany || g > k, k, c)
  {
    hide Misses;
    var more, g := worlds + [u], if missed then f + 1 else 0;
    forall j | MissedMoreThan(worlds, j, k, c) ensures MissedMoreThan(more, j, k, c) {
    }
    forall j | |more| - 1 - g <= j < |more| - 1 ensures Misses(more[j], more[j + 1], c) {
      if j < |worlds| - 1 {
        assert Misses(worlds[j], worlds[j + 1], c);
      }
    }
    if g > k {
      assert MissedMoreThan(more, |more| - 1 - g, k, c);
    }
  }

  lemma ReasonsGoOn(worlds: seq<World>, pieces: seq<seq<Action>>, rounds: seq<seq<Reply>>, overdue: bool, k: nat, c: Settings,
                    piece: seq<Action>, u: World, f: nat, tooMany: bool)
    requires 0 < |pieces| < |rounds| && |worlds| == |pieces| + 1 && IsCounted(worlds, f, tooMany, k, c)
    requires MissesForAReason(worlds, rounds, c) && LapsesForAReason(worlds, pieces, overdue, k, c)
    requires Misses(worlds[|pieces|], u, c) ==> !IsObliging(rounds[|pieces|], worlds[|pieces|].keys, 6)
    requires LapsedAlong(worlds[|pieces|], piece, c) ==> tooMany
    ensures MissesForAReason(worlds + [u], rounds, c) && LapsesForAReason(worlds + [u], pieces + [piece], overdue, k, c)
  {
    hide Misses, IsObliging, LapsedAlong;
    var more, parts := worlds + [u], pieces + [piece];
    forall j | MissedMoreThan(worlds, j, k, c) ensures MissedMoreThan(more, j, k, c) {
    }
    forall i | 0 <= i < |parts| && LapsedAlong(more[i], parts[i], c)
      ensures (i == 0 && overdue) || exists j :: j + k < i && MissedMoreThan(more, j, k, c) {
      assert more[i] == worlds[i];
      if i < |pieces| {
        assert parts[i] == pieces[i];
      }
    }
  }

  // ---------- Settings and gaps ----------

  /** `NewManager` refuses a buffer that is not shorter than the expiration. */
  function NewManager(expiration: int, rotationBuffer: int): (r: Result<Settings>)
    ensures r.Ok? <==> rotationBuffer < expiration
    ensures r.Ok? ==> r.value.expiration == expiration && r.value.rotationBuffer == rotationBuffer
  {
    if rotationBuffer >= expiration then Err else Ok(Settings(expiration, rotationBuffer))
  }

  ghost function Times(n: nat, x: nat): nat {
    if n == 0 then 0 else x + Times(n - 1, x)
  }

  lemma TimesStep(n: nat, x: nat)
    ensures Times(n + 1, x) == x + Times(n, x)
  {
  }

  lemma NoTimes(x: nat)
    ensures Times(0, x) == 0
  {
  }

  lemma {:induction false} TimesIsProduct(n: nat, x: nat)
    ensures Times(n, x) == n * x
  {
    if n > 0 {
      TimesIsProduct(n - 1, x);
    }
  }

  lemma {:induction false} TimesMonotone(m: nat, n: nat, x: nat)
    requires m <= n
    ensures Times(m, x) <= Times(n, x)
  {
    if m < n {
      TimesMonotone(m, n - 1, x);
    }
  }

  ghost predicate Spaced(stamps: seq<int>, gap: int) {
    forall i | 0 <= i < |stamps| - 1 :: stamps[i + 1] - stamps[i] > gap
  }

  lemma SpacedGrows(stamps: seq<int>, gap: int, stamp: int)
    requires Spaced(stamps, gap) && (stamps != [] ==> stamp - stamps[|stamps| - 1] > gap)
    ensures Spaced(stamps + [stamp], gap)
  {
  }

  /** The rate bound: n keys in a row were created over more than n - 1 gaps. */
  lemma {:induction false} SpanOfRotations(stamps: seq<int>, gap: int)
    requires Spaced(stamps, gap) && |stamps| >= 2
    ensures stamps[|stamps| - 1] - stamps[0] > (|stamps| - 1) * gap
    decreases |stamps|
  {
    var n := |stamps|;
    assert stamps[n - 2 + 1] - stamps[n - 2] > gap;
    if n > 2 {
      SpanOfRotations(stamps[..n - 1], gap);
    }
  }

  /** With a second to spare, a key is not due when it is created. */
  lemma FreshKeyIsNotDue(w: World, c: Settings)
    requires Stored(w) && c.expiration - c.rotationBuffer >= SECOND
    ensures !ShouldRotate(Expiry(w) - c.expiration, w.secret.value.expiration.value, c)
  {
  }

  /** The expiry of the stored key outlives steps that do not replace the key. */
  lemma SameSecretSameExpiry(w: World, a: Action, c: Settings)
    requires SecretInv(w) && Enabled(w, a) && Apply(w, a, c).secret == w.secret && Stored(w)
    ensures Stored(Apply(w, a, c)) && Expiry(Apply(w, a, c)) == Expiry(w)
  {
    StepKeepsSecretInv(w, a, c);
  }

  /** A step of one's own takes no time, leaves others out, and stores a key if it changes the Secret. */
  lemma OwnStep(w: World, a: Action, c: Settings)
    requires SecretInv(w) && Alone(w) && Enabled(w, a) && (a == Start(ME) || a == Crash(ME) || (a.Call? && a.m == ME))
    ensures var t := Apply(w, a, c); Alone(t) && t.now == w.now && (if t.secret == w.secret then Stored(t) ==> Stored(w) else Stored(t))
  {
    hide Accepted, PrefixOf;
  }

  /** Where a successful write of the Secret leaves a manager that read `prev` as the old key. */
  function AfterWrite(prev: Option<string>): ApiKeyProtocol.Manager {
    if prev.Some? && |prev.value| >= PREFIX_LENGTH then Expiring(PrefixOf(prev.value)) else Resting
  }

  /** The prefix to expire for the key stored in `w`, if it is long enough to have one. */
  function OldTarget(w: World): set<string> {
    if w.secret.Some? && w.secret.value.key.Some? && |w.secret.value.key.value| >= 8
    then {w.secret.value.key.value[..8]} else {}
  }

  /** The prefix of a key that is long enough to have one. */
  function TargetOf(key: Option<string>): set<string> {
    if key.Some? && |key.value| >= PREFIX_LENGTH then {PrefixOf(key.value)} else {}
  }

  lemma NoTarget()
    ensures TargetOf(None) == {}
  {
  }

  lemma OldTargetIsKnown(w: World)
    requires SecretInv(w)
    ensures OldTarget(w) <= w.keys.Keys
    ensures OldTarget(w) == TargetOf(if w.secret.Some? then w.secret.value.key else None)
  {
  }

  lemma FifthIsServed(plan: seq<Reply>, keys: map<string, ApiKey>)
    requires IsObliging(plan, keys, 5)
    ensures Answered(Head(plan)) && Head(Rest(Rest(Rest(Rest(plan))))).ok && IsObliging(plan, keys, 4)
  {
    assert Rest(Rest(Rest(Rest(plan)))) == plan[4..];
    assert plan[4] in plan;
  }

  /** Time has passed as the replies cost, in calls of one's own. */
  ghost predicate HavePassed(w: World, p: seq<Reply>, was: seq<Action>, u: World, plan: seq<Reply>, piece: seq<Action>) {
    && w.now <= u.now && u.now + Budget(plan) == w.now + Budget(p)
    && was <= piece && forall i | |was| <= i < |piece| :: IsCallOfMine(piece[i])
  }

  lemma TimePasses(w: World, p: seq<Reply>, was: seq<Action>, t: World, q: seq<Reply>, soFar: seq<Action>,
                   u: World, plan: seq<Reply>, piece: seq<Action>)
    requires HavePassed(w, p, was, t, q, soFar) && HavePassed(t, q, soFar, u, plan, piece)
    ensures HavePassed(w, p, was, u, plan, piece) && w.now <= t.now <= u.now
  {
    hide Budget, IsCallOfMine;
    forall i | |was| <= i < |piece| ensures IsCallOfMine(piece[i]) {
      if i < |soFar| {
        assert piece[i] == soFar[i];
      }
    }
  }

  /** From `w` to `u` a key created in between has replaced the stored one. */
  ghost predicate WasReplaced(w: World, s: seq<int>, l: bool, u: World, stamps: seq<int>, lapsed: bool, c: Settings) {
    && u.secret != w.secret
    && Stored(u) && stamps == s + [Expiry(u) - c.expiration]
    && w.now <= Expiry(u) - c.expiration <= u.now
    && (lapsed ==> l || IsLate(u) || (Stored(w) && u.now > Expiry(w)))
  }

  /** From `w` to `u` the stored key is the same, and a lapse since then shows in `u`. */
  ghost predicate WasKept(w: World, s: seq<int>, l: bool, u: World, stamps: seq<int>, lapsed: bool) {
    && u.secret == w.secret && stamps == s
    && (Stored(u) ==> Stored(w) && Expiry(u) == Expiry(w))
    && (l ==> lapsed) && (lapsed ==> l || IsLate(u))
  }

  lemma KeptThenKept(w: World, s: seq<int>, l: bool, t: World, n: seq<int>, m: bool, u: World, stamps: seq<int>, lapsed: bool)
    requires WasKept(w, s, l, t, n, m) && WasKept(t, n, m, u, stamps, lapsed) && t.now <= u.now
    requires SecretInv(t) && SecretInv(u)
    ensures WasKept(w, s, l, u, stamps, lapsed)
  {
  }

  lemma KeptThenReplaced(w: World, s: seq<int>, l: bool, t: World, n: seq<int>, m: bool,
                         u: World, stamps: seq<int>, lapsed: bool, c: Settings)
    requires WasKept(w, s, l, t, n, m) && WasReplaced(t, n, m, u, stamps, lapsed, c) && w.now <= t.now
    requires SecretInv(t) && t.now <= u.now
    ensures WasReplaced(w, s, l, u, stamps, lapsed, c)
  {
  }

  lemma ReplacedThenKept(w: World, s: seq<int>, l: bool, t: World, n: seq<int>, m: bool,
                         u: World, stamps: seq<int>, lapsed: bool, c: Settings)
    requires WasReplaced(w, s, l, t, n, m, c) && WasKept(t, n, m, u, stamps, lapsed) && t.now <= u.now
    requires SecretInv(u)
    ensures WasReplaced(w, s, l, u, stamps, lapsed, c)
  {
  }

  /** Every key is as it was, but for these prefixes. */
  predicate KeysStay(was: map<string, ApiKey>, keys: map<string, ApiKey>, but: set<string>) {
    forall p | p in was && p !in but :: p in keys && keys[p] == was[p]
  }

  lemma KeysStayTwice(was: map<string, ApiKey>, mid: map<string, ApiKey>, keys: map<string, ApiKey>, but: set<string>)
    requires KeysStay(was, mid, {}) && KeysStay(mid, keys, but)
    ensures KeysStay(was, keys, but)
  {
  }

  lemma KeysAreKept(was: map<string, ApiKey>, keys: map<string, ApiKey>, but: set<string>)
    requires KeysStay(was, keys, {})
    ensures KeysStay(was, keys, but) && was.Keys <= keys.Keys
  {
  }

  class Manager {
    const settings: Settings
    var world: World
    var plan: seq<Reply>
    ghost const start: World
    ghost var before: seq<Action>
    ghost var origin: World
    ghost var piece: seq<Action>
    ghost var lapsed: bool
    ghost var stamps: seq<int>
    ghost var failures: nat
    ghost var tooMany: bool

    constructor (c: Settings, w: World)
      requires SecretInv(w) && Alone(w) && At(w, ME).Resting?
      requires NewManager(c.expiration, c.rotationBuffer) == Ok(c)
      ensures settings == c && world == w && start == w && Actions() == [] && Rests()
      ensures |stamps| == if Stored(w) then 1 else 0
    {
      settings, world, start, plan := c, w, w, [];
      before, failures, tooMany, origin, piece := [], 0, false, w, [];
      lapsed := IsLate(w);
      NothingAlong(w, c);
      stamps := if Stored(w) then [Expiry(w) - c.expiration] else [];
    }

    /** What has been done since the manager was made: `before` the present round, and in it. */
    ghost function Actions(): seq<Action>
      reads this`before, this`piece
    {
      before + piece
    }

    /**
     The sidecar's doings so far are a run of the protocol, and so are those of the present round, the `piece` from
     `origin` on. `stamps` are the creation times of the stored keys, and `lapsed` tells of the present round.
     */
    ghost predicate Traced()
      reads this`before, this`piece, this`origin, this`world, this`stamps, this`lapsed
    {
      && After(start, Actions(), settings) == Some(world) && After(origin, piece, settings) == Some(world)
      && stamps == StampsAlong(start, Actions(), settings) && (lapsed <==> LapsedAlong(origin, piece, settings))
    }

    ghost predicate Valid()
      reads this
    {
      && SecretInv(world) && Alone(world) && settings.rotationBuffer < settings.expiration && Traced()
      && (Stored(world) <==> stamps != [])
      && (Stored(world) ==> stamps[|stamps| - 1] == Expiry(world) - settings.expiration)
    }

    ghost predicate Rests()
      reads this
    {
      Valid() && At(world, ME).Resting?
    }

    ghost predicate Late()
      reads this
    {
      IsLate(world)
    }

    /** One more action of the run. */
    lemma OneMore(a: Action)
      requires Valid() && Enabled(world, a)
      ensures var t := Apply(world, a, settings);
        && After(start, before + (piece + [a]), settings) == Some(t) && After(origin, piece + [a], settings) == Some(t)
        && StampsAlong(start, before + (piece + [a]), settings) == stamps + NewStamp(Some(world), Some(t), settings)
        && (LapsedAlong(origin, piece + [a], settings) <==> lapsed || IsLate(t))
        && SecretInv(t)
      ensures Late() ==> lapsed
    {
      hide Apply, IsLate, NewStamp, SecretInv;
      StepKeepsSecretInv(world, a, settings);
      AfterOneMore(start, Actions(), a, settings);
      AfterOneMore(origin, piece, a, settings);
      StampsOneMore(start, Actions(), a, settings);
      LapsedOneMore(origin, piece, a, settings);
      assert before + (piece + [a]) == Actions() + [a];
      if Late() {
        assert piece[..|piece|] == piece;
        assert LateAfter(origin, piece[..|piece|], settings);
      }
    }

    /** One step of the protocol; only the passing of time and a change of the Secret can make the key late. */
    method Do(a: Action)
      requires Valid() && Enabled(world, a) && !a.Tick?
      requires a == Start(ME) || a == Crash(ME) || (a.Call? && a.m == ME)
      modifies this`world, this`piece, this`lapsed, this`stamps
      ensures Valid() && world == Apply(old(world), a, settings) && world.now == old(world.now) && piece == old(piece) + [a]
      ensures world.secret == old(world.secret) ==>
        stamps == old(stamps) && lapsed == old(lapsed) && (Stored(world) ==> Stored(old(world)) && Expiry(world) == old(Expiry(world)))
      ensures world.secret != old(world.secret) ==>
        Stored(world) && stamps == old(stamps) + [Expiry(world) - settings.expiration] && lapsed == (old(lapsed) || Late())
    {
      hide SecretInv, Apply, Alone, After, StampsAlong, LapsedAlong;
      OneMore(a);
      OwnStep(world, a, settings);
      ghost var was := world;
      world, piece := Apply(world, a, settings), piece + [a];
      if world.secret == was.secret {
        if Stored(was) {
          SameSecretSameExpiry(was, a, settings);
        }
      } else {
        stamps := stamps + [Expiry(world) - settings.expiration];
      }
      lapsed := lapsed || Late();
    }

    method Sleep(duration: nat)
      requires Valid()
      modifies this`world, this`piece, this`lapsed
      ensures Valid() && world == old(world).(now := old(world).now + duration) && piece == old(piece) + [Tick(duration)]
      ensures lapsed == (old(lapsed) || Late())
    {
      hide SecretInv, After, StampsAlong, LapsedAlong;
      OneMore(Tick(duration));
      world, piece := Apply(world, Tick(duration), settings), piece + [Tick(duration)];
      lapsed := lapsed || Late();
    }

    /** Waiting for the answer to the next call. */
    method Await() returns (r: Reply)
      requires Valid()
      modifies this`world, this`plan, this`piece, this`lapsed
      ensures Valid() && world == old(world).(now := world.now) && r == Head(old(plan)) && plan == Rest(old(plan))
      ensures piece == old(piece) + [Tick(r.cost)]
      ensures old(world).now <= world.now && world.now + Budget(plan) == old(world.now + Budget(plan))
      ensures lapsed == (old(lapsed) || Late())
    {
      r := Head(plan);
      plan := Rest(plan);
      Sleep(r.cost);
    }

    /** `CreateAPIKey`: the expiry is stamped before the call; a key whose reply is lost stays in Headscale. */
    method CreateAPIKey() returns (r: Result<(string, int)>)
      requires Valid() && At(world, ME).Stamping?
      modifies this`world, this`plan, this`piece, this`lapsed, this`stamps
      ensures Valid() && Passed(old(world), old(plan), old(piece)) && Unreplaced(old(world), old(stamps), old(lapsed))
      ensures world.targets == old(world).targets
      ensures KeysStay(old(world).keys, world.keys, {})
      ensures plan == Rest(old(plan))
      ensures r.Err? ==> At(world, ME).Resting?
      ensures r.Ok? ==> r.value.1 == old(world.now) + settings.expiration
      ensures r.Ok? ==> At(world, ME) == Storing(old(At(world, ME).prev), r.value.0, r.value.1)
      ensures IsObliging(old(plan), old(world).keys, 1) ==> r.Ok?
    {
      hide Traced, SecretInv, Budget, Alone, Describes, Expiry, StampsAlong, PrefixOf;
      var expiry := world.now + settings.expiration;
      Do(Call(ME, true, ""));
      var reply := Await();
      if reply.ok && |reply.newKey| >= PREFIX_LENGTH && PrefixOf(reply.newKey) !in world.keys {
        Do(Call(ME, true, reply.newKey));
        r := Ok((reply.newKey, expiry));
        if reply.lost {
          Do(Crash(ME));
          r := Err;
        }
      } else {
        Do(Call(ME, false, ""));
        r := Err;
      }
    }

    /** `CreateOrUpdateSecret`: get, then create or update on the version that was got. */
    method CreateOrUpdateSecret(apiKey: string, expiration: int) returns (ok: bool)
      requires Valid() && At(world, ME).Storing? && At(world, ME).key == apiKey && At(world, ME).expiry == expiration
      modifies this`world, this`plan, this`piece, this`lapsed, this`stamps
      ensures Valid() && Passed(old(world), old(plan), old(piece))
      ensures world.targets == old(world).targets
      ensures KeysStay(old(world).keys, world.keys, {})
      ensures ok ==> plan == Rest(Rest(old(plan)))
      ensures !ok ==> At(world, ME).Resting?
      ensures Unreplaced(old(world), old(stamps), old(lapsed)) || Replaced(old(world), old(stamps), old(lapsed), expiration)
      ensures ok ==> Replaced(old(world), old(stamps), old(lapsed), expiration)
      ensures ok ==> At(world, ME) == AfterWrite(old(At(world, ME).prev))
      ensures |old(plan)| >= 2 && (forall r | r in old(plan) :: Answered(r)) ==> ok
    {
      hide Traced, SecretInv, Budget;
      Do(Call(ME, true, ""));
      var reply := Await();
      Do(Call(ME, Answered(reply), ""));
      if !Answered(reply) {
        return false;
      }
      ok := WriteSecret();
    }

    /** The create or update call; nothing has changed since the Secret was got. Its reply may be lost. */
    method WriteSecret() returns (ok: bool)
      requires Valid() && At(world, ME).Writing? && Accepted(world, At(world, ME).found)
      modifies this`world, this`plan, this`piece, this`lapsed, this`stamps
      ensures Valid() && Passed(old(world), old(plan), old(piece))
      ensures world.targets == old(world).targets
      ensures KeysStay(old(world).keys, world.keys, {})
      ensures plan == Rest(old(plan))
      ensures !ok ==> At(world, ME).Resting?
      ensures Unreplaced(old(world), old(stamps), old(lapsed)) || Replaced(old(world), old(stamps), old(lapsed), old(At(world, ME).expiry))
      ensures ok ==> Replaced(old(world), old(stamps), old(lapsed), old(At(world, ME).expiry))
      ensures ok ==> At(world, ME) == AfterWrite(old(At(world, ME).prev))
      ensures Answered(Head(old(plan))) ==> ok
    {
      hide Traced, StampsAlong, Budget;
      var reply := Await();
      Do(Call(ME, reply.ok, ""));
      ok := reply.ok;
      if reply.ok && reply.lost {
        Do(Crash(ME));
        ok := false;
      }
    }

    /** The Secret is got again for its key; an error only means there is no old key to expire. */
    method ReadOldKey() returns (oldKey: Option<string>)
      requires Valid() && At(world, ME).ReadingOld?
      modifies this`world, this`plan, this`piece, this`lapsed, this`stamps
      ensures Valid() && Passed(old(world), old(plan), old(piece)) && Unreplaced(old(world), old(stamps), old(lapsed))
      ensures world.targets == old(world).targets && At(world, ME) == Stamping(oldKey)
      ensures plan == Rest(old(plan)) && world.keys == old(world).keys
      ensures oldKey == if Answered(Head(old(plan))) && old(world).secret.Some? then old(world).secret.value.key else None
    {
      hide Traced, SecretInv;
      var reply := Await();
      oldKey := if Answered(reply) && world.secret.Some? then world.secret.value.key else None;
      Do(Call(ME, Answered(reply), ""));
    }

    /** `ExpireAPIKey`; its error is only logged. */
    method ExpireAPIKey()
      requires Valid() && At(world, ME).Expiring?
      modifies this`world, this`plan, this`piece, this`lapsed, this`stamps
      ensures Rests() && Passed(old(world), old(plan), old(piece)) && Unreplaced(old(world), old(stamps), old(lapsed))
      ensures world.targets == old(world).targets + {old(At(world, ME).prefix)}
      ensures KeysStay(old(world).keys, world.keys, {old(At(world, ME).prefix)})
      ensures Head(old(plan)).ok && old(At(world, ME).prefix in world.keys) ==>
        old(At(world, ME).prefix) in world.keys && world.keys[old(At(world, ME).prefix)].expired
    {
      hide Traced, SecretInv;
      var reply := Await();
      Do(Call(ME, reply.ok, ""));
    }

    /** A key created and stored, as `createNewAPIKey` and `rotateAPIKey` both do. */
    method CreateAndStore() returns (ok: bool)
      requires Valid() && At(world, ME).Stamping?
      modifies this`world, this`plan, this`piece, this`lapsed, this`stamps
      ensures Valid() && Passed(old(world), old(plan), old(piece)) && world.targets == old(world).targets
      ensures KeysStay(old(world).keys, world.keys, {})
      ensures !ok ==> At(world, ME).Resting?
      ensures Unreplaced(old(world), old(stamps), old(lapsed)) || ReplacedLater(old(world), old(stamps), old(lapsed))
      ensures ok ==> ReplacedLater(old(world), old(stamps), old(lapsed))
      ensures ok ==> At(world, ME) == AfterWrite(old(At(world, ME).prev))
      ensures ok ==> plan == Rest(Rest(Rest(old(plan))))
      ensures IsObliging(old(plan), old(world).keys, 3) ==> ok
    {
      hide Traced, SecretInv;
      var created := CreateAPIKey();
      if created.Err? {
        return false;
      }
      ok := CreateOrUpdateSecret(created.value.0, created.value.1);
    }

    /** `createNewAPIKey`. */
    method CreateNewAPIKey() returns (ok: bool)
      requires Valid() && At(world, ME) == Stamping(None)
      modifies this`world, this`plan, this`piece, this`lapsed, this`stamps
      ensures Rests() && Passed(old(world), old(plan), old(piece)) && world.targets == old(world).targets
      ensures Unreplaced(old(world), old(stamps), old(lapsed)) || ReplacedLater(old(world), old(stamps), old(lapsed))
      ensures ok ==> ReplacedLater(old(world), old(stamps), old(lapsed))
      ensures IsObliging(old(plan), old(world).keys, 3) ==> ok
    {
      hide Traced, SecretInv;
      ok := CreateAndStore();
    }

    /** The last call of a rotation, if the old key was read. */
    method ExpireOldKey(oldKey: Option<string>)
      requires Valid() && At(world, ME) == AfterWrite(oldKey)
      modifies this`world, this`plan, this`piece, this`lapsed, this`stamps
      ensures Rests() && Passed(old(world), old(plan), old(piece)) && Unreplaced(old(world), old(stamps), old(lapsed))
      ensures world.targets == old(world).targets + TargetOf(oldKey)
      ensures KeysStay(old(world).keys, world.keys, TargetOf(oldKey))
      ensures Head(old(plan)).ok && TargetOf(oldKey) <= old(world).keys.Keys ==>
        forall p | p in TargetOf(oldKey) :: p in world.keys && world.keys[p].expired
    {
      hide Traced, SecretInv, PrefixOf;
      if oldKey.Some? && |oldKey.value| >= PREFIX_LENGTH {
        ExpireAPIKey();
      }
    }

    /**
     `rotateAPIKey`: the key that was stored is expired after the new one is stored, and nothing else ever; if it
     could not be read it is not expired.
     */
    method RotateAPIKey() returns (ok: bool)
      requires Valid() && At(world, ME).ReadingOld?
      modifies this`world, this`plan, this`piece, this`lapsed, this`stamps
      ensures Rests() && Passed(old(world), old(plan), old(piece))
      ensures Unreplaced(old(world), old(stamps), old(lapsed)) || ReplacedLater(old(world), old(stamps), old(lapsed))
      ensures ok ==> ReplacedLater(old(world), old(stamps), old(lapsed))
      ensures IsObliging(old(plan), old(world).keys, 4) ==> ok
      ensures world.targets == old(world).targets +
        if ok && Answered(Head(old(plan))) then OldTarget(old(world)) else {}
      ensures KeysStay(old(world).keys, world.keys, OldTarget(old(world)))
      ensures IsObliging(old(plan), old(world).keys, 5) ==>
        forall p | p in OldTarget(old(world)) :: p in world.keys && world.keys[p].expired
    {
      hide HavePassed, Traced, SecretInv, OldTarget, PrefixOf, IsObliging, IsCallOfMine, Budget, KeysStay, TargetOf,
        WasKept, WasReplaced, Alone, Describes, IsLate;
      ghost var w0, s0, l0, asked, a0 := world, stamps, lapsed, plan, piece;
      OldTargetIsKnown(w0);
      if IsObliging(asked, w0.keys, 5) {
        FifthIsServed(asked, w0.keys);
      }
      if IsObliging(asked, w0.keys, 4) {
        ObligingRest(asked, w0.keys, 3);
      }
      var oldKey := ReadOldKey();
      ghost var w1, s1, l1, p1, a1 := world, stamps, lapsed, plan, piece;
      NoTarget();
      ok := CreateAndStore();
      ghost var w2, s2, l2, p2, a2 := world, stamps, lapsed, plan, piece;
      TimePasses(w0, asked, a0, w1, p1, a1, w2, p2, a2);
      if ReplacedLater(w1, s1, l1) {
        KeptThenReplaced(w0, s0, l0, w1, s1, l1, w2, s2, l2, settings);
      } else {
        KeptThenKept(w0, s0, l0, w1, s1, l1, w2, s2, l2);
      }
      KeysAreKept(w0.keys, w2.keys, OldTarget(w0));
      if ok {
        ExpireOldKey(oldKey);
        TimePasses(w0, asked, a0, w2, p2, a2, world, plan, piece);
        ReplacedThenKept(w0, s0, l0, w2, s2, l2, world, stamps, lapsed, settings);
        KeysStayTwice(w0.keys, w2.keys, world.keys, TargetOf(oldKey));
        if oldKey == None {
          KeysAreKept(w0.keys, world.keys, OldTarget(w0));
        }
      }
    }

    /** The first call of a check, after which the decision is made. */
    method ReadSecret() returns (reply: Reply)
      requires Rests()
      modifies this`world, this`plan, this`piece, this`lapsed, this`stamps
      ensures Valid() && Checked(old(world), old(plan), old(piece)) && Unreplaced(old(world), old(stamps), old(lapsed))
      ensures At(world, ME) == ApiKeyProtocol.Check(world, Answered(reply), settings)
      ensures reply == Head(old(plan)) && plan == Rest(old(plan)) && world.keys == old(world).keys
    {
      hide Traced, SecretInv;
      Do(Start(ME));
      reply := Await();
      Do(Call(ME, Answered(reply), ""));
      assert piece[|old(piece)|..] == [Start(ME), Tick(reply.cost), Call(ME, Answered(reply), "")];
    }

    /** `EnsureAPIKey`: true unless an error is returned. */
    method EnsureAPIKey() returns (ok: bool)
      requires Rests()
      modifies this`world, this`plan, this`piece, this`lapsed, this`stamps
      ensures Rests() && Checked(old(world), old(plan), old(piece))
      ensures stamps == old(stamps) ==> Unreplaced(old(world), old(stamps), old(lapsed))
      ensures stamps != old(stamps) ==> ReplacedLater(old(world), old(stamps), old(lapsed))
      ensures stamps != old(stamps) && old(Stored(world)) ==>
        stamps[|stamps| - 1] > old(DueAt(world, settings))
      ensures ok && stamps == old(stamps) ==> Stored(world) && world.now <= DueAt(world, settings)
      ensures IsObliging(old(plan), old(world).keys, 5) ==> ok
    {
      hide Traced, SecretInv, IsCheckRun, IsObliging;
      var reply := ReadSecret();
      ghost var w1, soFar := world, piece;
      if IsObliging(old(plan), old(world).keys, 5) {
        ObligingRest(old(plan), old(world).keys, 4);
      }
      if !Answered(reply) {
        return false;
      }
      Decided(world, settings);
      if world.secret.None? || world.secret.value.expiration.None? {
        ok := CreateNewAPIKey();
      } else if ShouldRotate(world.now, world.secret.value.expiration.value, settings) {
        ok := RotateAPIKey();
      } else {
        return true;
      }
      CheckGoesOn(piece, soFar, old(piece));
    }

    /** `CalculateNextRotation`. */
    method CalculateNextRotation() returns (r: Result<nat>)
      requires Rests()
      modifies this`world, this`plan, this`piece, this`lapsed
      ensures Rests() && Passed(old(world), old(plan), old(piece)) && Unreplaced(old(world), old(stamps), old(lapsed))
      ensures plan == Rest(old(plan)) && piece == old(piece) + [Tick(Head(old(plan)).cost)]
      ensures world == old(world).(now := world.now)
      ensures r.Ok? ==> Stored(world)
      ensures Stored(world) ==> (r.Ok? <==> Answered(Head(old(plan))))
      ensures r.Ok? ==> r.value == if DueAt(world, settings) > world.now then DueAt(world, settings) - world.now else 0
    {
      hide Traced;
      var reply := Await();
      if !Answered(reply) || world.secret.None? || world.secret.value.expiration.None? {
        return Err;
      }
      var rotationTime := world.secret.value.expiration.value * SECOND - settings.rotationBuffer;
      var untilRotation := rotationTime - world.now;
      r := Ok(if untilRotation > 0 then untilRotation else 0);
    }

    /** Later than this by a buffer, the stored key could be past its expiry. */
    ghost function Base(): int
      requires Valid() && Stored(world)
      reads this
    {
      var due, stamp := DueAt(world, settings), stamps[|stamps| - 1];
      if due > stamp then due else stamp
    }

    /** Unless more than `k` checks in a row have failed on a due key, the clock is within the failures' reach of `Base`. */
    ghost predicate OnTime(slack: nat, k: nat)
      requires Valid() && Stored(world)
      reads this
    {
      tooMany || (failures <= k && world.now <= Base() + slack + Times(failures, HOUR + slack))
    }

    ghost predicate Tolerates(slack: nat, k: nat) {
      0 <= settings.rotationBuffer && (k + 2) * (HOUR + slack) < settings.rotationBuffer
    }

    /** What a further failing round may reach is still before the expiry of the stored key. */
    lemma WithinReach(slack: nat, k: nat, f: nat)
      requires Valid() && Stored(world) && Tolerates(slack, k) && f <= k + 1
      ensures Base() + slack + Times(f, HOUR + slack) < Expiry(world)
    {
      TimesMonotone(f, k + 1, HOUR + slack);
      TimesIsProduct(k + 2, HOUR + slack);
    }

    /** A check leaves the key as it was, or replaces it by one with its time before it; and it is not late for that. */
    method CheckInTime(ghost slack: nat, ghost k: nat) returns (ok: bool)
      requires Rests() && Tolerates(slack, k) && Budget(plan) <= slack
      requires tooMany || (!lapsed && failures <= k)
      requires Stored(world) && !tooMany ==>
        world.now + Budget(plan) <= Base() + slack + Times(failures + 1, HOUR + slack)
      requires Spaced(stamps, settings.expiration - settings.rotationBuffer - SECOND)
      modifies this`world, this`plan, this`piece, this`lapsed, this`stamps
      ensures Rests() && Checked(old(world), old(plan), old(piece))
      ensures lapsed ==> old(tooMany)
      ensures lapsed ==> old(lapsed) || old(Stored(world) && world.now + Budget(plan) > Expiry(world))
      ensures stamps == old(stamps) <==> world.secret == old(world).secret
      ensures stamps == old(stamps) && Stored(world) ==> old(Stored(world)) && Base() == old(Base())
      ensures stamps == old(stamps) && old(Stored(world)) ==> Stored(world)
      ensures ok && stamps == old(stamps) ==> Stored(world) && world.now <= DueAt(world, settings)
      ensures stamps != old(stamps) ==> Stored(world) && world.now <= Base() + slack
      ensures IsObliging(old(plan), old(world).keys, 5) ==> ok
      ensures Spaced(stamps, settings.expiration - settings.rotationBuffer - SECOND)
    {
      hide SecretInv, Alone, Traced, Spaced, IsCheckRun, IsObliging, Times, Tolerates;
      ghost var keys := stamps;
      if Stored(world) && failures <= k {
        WithinReach(slack, k, failures + 1);
      }
      StoredAgain();
      ok := EnsureAPIKey();
      if stamps != keys {
        WithinReach(slack, k, 0);
        SpacedGrows(keys, settings.expiration - settings.rotationBuffer - SECOND, stamps[|keys|]);
      } else {
        StoredAgain();
      }
    }

    /** The Secret holds a key exactly if there is one. */
    lemma StoredAgain()
      requires Valid()
      ensures Stored(world) <==> world.secret.Some?
    {
    }

    /** The check of one round; before the loop, of the start. */
    method Check(ghost slack: nat, ghost k: nat) returns (ok: bool, ghost missed: bool)
      requires Rests() && Tolerates(slack, k) && Budget(plan) <= slack
      requires tooMany || (!lapsed && failures <= k)
      requires Stored(world) && !tooMany ==>
        world.now + Budget(plan) <= Base() + slack + Times(failures + 1, HOUR + slack)
      requires Spaced(stamps, settings.expiration - settings.rotationBuffer - SECOND)
      modifies this`world, this`plan, this`piece, this`lapsed, this`stamps, this`failures, this`tooMany
      ensures Rests() && Checked(old(world), old(plan), old(piece)) && (old(tooMany) ==> tooMany)
      ensures ok || old(Stored(world)) ==> Stored(world) && OnTime(slack, k)
      ensures lapsed ==> old(tooMany)
      ensures lapsed ==> old(lapsed) || old(Stored(world) && world.now + Budget(plan) > Expiry(world))
      ensures ok ==> Stored(world) && world.now <= Base() + slack
      ensures missed <==> Misses(old(world), world, settings)
      ensures IsObliging(old(plan), old(world).keys, 5) ==> ok
      ensures missed ==> !ok
      ensures failures == if missed then old(failures) + 1 else 0
      ensures tooMany == (old(tooMany) || failures > k)
      ensures Spaced(stamps, settings.expiration - settings.rotationBuffer - SECOND)
    {
      hide SecretInv, Alone, Traced, Spaced, IsCheckRun, IsObliging, Times, Tolerates;
      NoTimes(HOUR + slack);
      ghost var keys := stamps;
      ok := CheckInTime(slack, k);
      missed := stamps == keys && Stored(world) && world.now > DueAt(world, settings);
      failures := if missed then failures + 1 else 0;
      tooMany := tooMany || failures > k;
    }

    /** The first half of a round: calculate and sleep. */
    method Wait(replies: seq<Reply>)
      requires Rests() && Stored(world) && piece == []
      modifies this`world, this`plan, this`piece, this`lapsed
      ensures Rests() && plan == Rest(replies)
      ensures world == old(world).(now := old(world).now + Head(replies).cost + SleepTime(old(world), replies, settings))
      ensures piece == [Tick(Head(replies).cost), Tick(SleepTime(old(world), replies, settings))]
      ensures Head(replies).cost + Budget(plan) == Budget(replies)
      ensures lapsed == (old(lapsed) || Late())
    {
      hide SecretInv, Alone, Traced;
      plan := replies;
      var next := CalculateNextRotation();
      Sleep(if next.Ok? then next.value else HOUR);
    }

    /** One round of the loop: calculate, sleep, check. */
    method Iterate(replies: seq<Reply>, ghost slack: nat, ghost k: nat) returns (ghost missed: bool)
      requires Rests() && Stored(world) && Tolerates(slack, k) && OnTime(slack, k) && (lapsed ==> tooMany) && piece == []
      requires Budget(replies) <= slack
      requires Spaced(stamps, settings.expiration - settings.rotationBuffer - SECOND)
      modifies this`world, this`plan, this`piece, this`lapsed, this`stamps, this`failures, this`tooMany
      ensures Rests() && Stored(world) && OnTime(slack, k)
      ensures IsLoopRound(old(world), piece, replies, settings)
      ensures world.now <= old(world.now) + SleepTime(old(world), replies, settings) + slack
      ensures lapsed ==> old(tooMany)
      ensures missed <==> Misses(old(world), world, settings)
      ensures missed ==> !IsObliging(replies, old(world).keys, 6)
      ensures failures == if missed then old(failures) + 1 else 0
      ensures tooMany == (old(tooMany) || failures > k)
      ensures Spaced(stamps, settings.expiration - settings.rotationBuffer - SECOND)
    {
      hide SecretInv, Alone, Traced, Spaced, IsCheckRun, Tolerates, Times, IsObliging, SleepTime, IsLoopRound, Budget;
      if IsObliging(replies, world.keys, 6) {
        ObligingRest(replies, world.keys, 5);
      }
      TimesStep(failures, HOUR + slack);
      if !tooMany {
        WithinReach(slack, k, failures + 1);
      }
      SleepEnds(world, replies, settings);
      Wait(replies);
      ghost var soFar := piece;
      var ok;
      ok, missed := Check(slack, k);
      RoundOf(old(world), soFar, piece, replies, settings);
    }

    /** A new round begins: what has been done is done. */
    ghost method Turn()
      requires Rests()
      modifies this`before, this`origin, this`piece, this`lapsed
      ensures Rests() && before == old(Actions()) && origin == world && piece == [] && (lapsed <==> Late())
    {
      before := Actions();
      origin, piece := world, [];
      assert Actions() == before;
      NothingAlong(world, settings);
      lapsed := Late();
    }

    lemma Shows()
      requires Valid()
      ensures After(start, Actions(), settings) == Some(world) && After(origin, piece, settings) == Some(world)
      ensures stamps == StampsAlong(start, Actions(), settings) && (lapsed <==> LapsedAlong(origin, piece, settings))
    {
    }

    /** The check of the start; a key that is late or about to be is replaced at once, or the sidecar ends. */
    method Begin(replies: seq<Reply>, ghost slack: nat, ghost k: nat) returns (started: bool)
      requires Rests() && Tolerates(slack, k) && |stamps| <= 1 && Budget(replies) <= slack
      modifies this
      ensures Rests() && origin == old(world) && before == old(Actions()) && IsCheckRun(piece)
      ensures world.now <= old(world).now + slack && (lapsed ==> old(Stored(world) && world.now + slack > Expiry(world)))
      ensures started ==> Stored(world) && OnTime(slack, k) && failures == 0 && !tooMany
      ensures !started ==> !IsObliging(replies, old(world).keys, 5)
      ensures Spaced(stamps, settings.expiration - settings.rotationBuffer - SECOND)
    {
      hide SecretInv, Alone, Traced, IsCheckRun, IsObliging;
      Turn();
      plan := replies;
      failures, tooMany := 0, true;
      ghost var missed;
      started, missed := Check(slack, k);
      assert piece[0..] == piece;
      if started {
        WithinReach(slack, k, 0);
        tooMany := false;
      }
    }

    /** One round of the life. */
    method Round(replies: seq<Reply>, ghost i: nat, ghost slack: nat, ghost k: nat) returns (ghost missed: bool)
      requires Rests() && Stored(world) && Tolerates(slack, k) && OnTime(slack, k) && i > 0
      requires Budget(replies) <= slack
      requires Spaced(stamps, settings.expiration - settings.rotationBuffer - SECOND)
      modifies this
      ensures Rests() && Stored(world) && OnTime(slack, k) && Actions() == old(Actions()) + piece
      ensures IsPart(i, old(world), piece, world, replies, slack, settings)
      ensures LapsedAlong(old(world), piece, settings) ==> old(tooMany)
      ensures missed <==> Misses(old(world), world, settings)
      ensures missed ==> !IsObliging(replies, old(world).keys, 6)
      ensures failures == if missed then old(failures) + 1 else 0
      ensures tooMany == (old(tooMany) || failures > k)
      ensures Spaced(stamps, settings.expiration - settings.rotationBuffer - SECOND)
    {
      hide SecretInv, Alone, Traced, Spaced, Misses, IsObliging, IsLoopRound, LapsedAlong, IsPart;
      if !tooMany {
        WithinReach(slack, k, failures);
      }
      ghost var was := world;
      Turn();
      missed := Iterate(replies, slack, k);
      Shows();
      RoundIsPart(i, was, piece, world, replies, slack, settings);
    }

    /**
     The main loop, for as many rounds as it is left running, each with at most `slack` outside its sleep. What the
     sidecar does is such a life. The stored key never lapses in a round unless more than `k` rounds in a row before
     missed a rotation that was due, or at the start if that came too late; a round whose calls are all served misses
     none; and rotations keep their distance.
     */
    method Run(rounds: seq<seq<Reply>>, ghost slack: nat, ghost k: nat)
      returns (started: bool, ghost worlds: seq<World>, ghost pieces: seq<seq<Action>>)
      requires Rests() && Tolerates(slack, k) && rounds != [] && |stamps| <= 1
      requires forall i | 0 <= i < |rounds| :: Budget(rounds[i]) <= slack
      modifies this
      ensures Rests() && Actions() == old(Actions()) + Joined(pieces)
      ensures IsLife(worlds, pieces, rounds, slack, settings) && worlds[0] == old(world) && worlds[|pieces|] == world
      ensures if started then |pieces| == |rounds| && Stored(world) else |pieces| == 1 && !IsObliging(rounds[0], old(world).keys, 5)
      ensures MissesForAReason(worlds, rounds, settings)
      ensures LapsesForAReason(worlds, pieces, old(Stored(world) && world.now + slack > Expiry(world)), k, settings)
      ensures Spaced(StampsAlong(start, Actions(), settings), settings.expiration - settings.rotationBuffer - SECOND)
    {
      hide Valid, After, StampsAlong, Joined, SecretInv, Alone, Traced, IsPart, Tolerates, IsCounted, LapsedAlong,
        Spaced, OnTime, IsLife, IsCheckRun, IsLoopRound, IsObliging, Misses, LapsesForAReason, MissesForAReason;
      ghost var was, done := world, Actions();
      ghost var overdue := Stored(world) && world.now + slack > Expiry(world);
      started := Begin(rounds[0], slack, k);
      worlds, pieces := [was, world], [piece];
      Shows();
      LifeBegins(was, piece, world, rounds, slack, overdue, k, settings);
      if !started {
        return;
      }
      Shows();
      for i := 1 to |rounds|
        invariant Rests() && Stored(world) && OnTime(slack, k)
        invariant |worlds| == i + 1 && |pieces| == i && IsLife(worlds, pieces, rounds, slack, settings)
        invariant worlds[0] == was && worlds[i] == world && Actions() == done + Joined(pieces)
        invariant IsCounted(worlds, failures, tooMany, k, settings)
        invariant MissesForAReason(worlds, rounds, settings)
        invariant LapsesForAReason(worlds, pieces, overdue, k, settings)
        invariant Spaced(stamps, settings.expiration - settings.rotationBuffer - SECOND)
      {
        ghost var f, many := failures, tooMany;
        ghost var last := Round(rounds[i], i, slack, k);
        LifeGoesOn(worlds, pieces, rounds, slack, settings, piece, world);
        ReasonsGoOn(worlds, pieces, rounds, overdue, k, settings, piece, world, f, many);
        CountGoesOn(worlds, f, many, k, settings, world, last);
        worlds, pieces := worlds + [world], pieces + [piece];
      }
      Shows();
    }

    ghost predicate ReplacedLater(w: World, s: seq<int>, l: bool)
      reads this
    {
      WasReplaced(w, s, l, world, stamps, lapsed, settings)
    }

    /** Time has passed as the replies cost, in one check. */
    ghost predicate Checked(w: World, p: seq<Reply>, was: seq<Action>)
      reads this
    {
      w.now <= world.now && world.now + Budget(plan) == w.now + Budget(p) && was <= piece && IsCheckRun(piece[|was|..])
    }

    ghost predicate Replaced(w: World, s: seq<int>, l: bool, expiry: int)
      reads this
    {
      && world.secret != w.secret
      && Stored(world) && stamps == s + [expiry - settings.expiration] && Expiry(world) == expiry
      && (lapsed ==> l || Late() || (Stored(w) && world.now > Expiry(w)))
    }

    /** Time has passed as the replies cost, in calls of one's own. */
    ghost predicate Passed(w: World, p: seq<Reply>, was: seq<Action>)
      reads this
    {
      HavePassed(w, p, was, world, plan, piece)
    }

    ghost predicate Unreplaced(w: World, s: seq<int>, l: bool)
      reads this
    {
      WasKept(w, s, l, world, stamps, lapsed)
    }
  }
}
