/**
 The auto-approver controller as a transition system: users edit the API server, two watches
 carry its changes to the controller's caches in order but with any delay, filtered events feed
 a deduplicating queue, and one worker reconciles, reading the caches at one moment and writing
 at later ones.
 */
module AutoApprover {
  import opened Wrappers
  import opened Policy

  type Name = string

  /** `policy.mode` of the parsed config: only database mode accepts pushes. */
  datatype PolicyMode = Database | Other(mode: string)

  datatype Approver = Approver(ref: Name, spec: ApproverSpec, finalizer: bool, deleting: bool,
                               generation: nat, version: nat)

  datatype Headscale = Headscale(acl: AclPolicy, policyMode: PolicyMode, generation: nat)

  datatype Event<T> = Put(name: Name, obj: T) | Gone(name: Name)

  /** Where the worker is in `Reconcile`, with what it has read so far. */
  datatype Worker =
    | Idle
    | Started(name: Name)
    | Finalizing(name: Name, obj: Approver)
    | Fetching(name: Name, obj: Approver)
    | Listing(name: Name, obj: Approver, acl: AclPolicy)
    | Pushing(name: Name, obj: Approver, acl: AclPolicy, live: map<Name, ApproverSpec>)
    | Reporting(name: Name, obj: Approver, failed: bool)
    | Releasing(name: Name, obj: Approver)

  datatype State = State(
    server: map<Name, Approver>,
    cache: map<Name, Approver>,
    log: seq<Event<Approver>>,
    history: seq<Approver>,
    heads: map<Name, Headscale>,
    headCache: map<Name, Headscale>,
    headLog: seq<Event<Headscale>>,
    active: map<Name, Document>,
    queue: set<Name>,
    worker: Worker,
    unaccounted: set<Name>)

  /** How a call ends: served, failed without effect, or served with the reply lost; a lost read is a failed one. */
  datatype Call = Succeeds | Fails | Lost

  datatype Action =
    | CreateApprover(name: Name, ref: Name, spec: ApproverSpec)
    | EditApprover(name: Name, spec: ApproverSpec)
    | DeleteApprover(name: Name)
    | PutHeadscale(head: Name, acl: AclPolicy, policyMode: PolicyMode)
    | TouchHeadscale(head: Name)
    | RemoveHeadscale(head: Name)
    | DeliverApprover
    | DeliverHeadscale
    | Pop(name: Name)
    | Work(call: Call, changed: bool)
    | Restart

  const INITIAL := State(map[], map[], [], [], map[], map[], [], map[], {}, Idle, {})

  // ---------- The API server and its watches ----------

  function Observe<T>(cache: map<Name, T>, e: Event<T>): map<Name, T> {
    match e
    case Put(n, o) => cache[n := o]
    case Gone(n) => cache - {n}
  }

  function Replay<T>(cache: map<Name, T>, log: seq<Event<T>>): map<Name, T>
    decreases |log|
  {
    if log == [] then cache else Replay(Observe(cache, log[0]), log[1..])
  }

  /** A write of `o`: a new version, which the watch will carry. */
  function Write(s: State, n: Name, o: Approver): State {
    var v := o.(version := |s.history|);
    s.(server := s.server[n := v], log := s.log + [Put(n, v)], history := s.history + [v])
  }

  function Remove(s: State, n: Name): State {
    s.(server := s.server - {n}, log := s.log + [Gone(n)])
  }

  function WriteHead(s: State, h: Name, o: Headscale): State {
    s.(heads := s.heads[h := o], headLog := s.headLog + [Put(h, o)])
  }

  /** Optimistic concurrency: an update is accepted only on the version it was read at. */
  predicate Accepts(s: State, n: Name, o: Approver) {
    n in s.server && s.server[n].version == o.version
  }

  // ---------- Event filters ----------

  /** `reconcilableUpdates`; create and delete events always pass. */
  predicate Passes(cache: map<Name, Approver>, e: Event<Approver>) {
    e.Put? && e.name in cache ==>
      || cache[e.name].generation != e.obj.generation
      || cache[e.name].deleting != e.obj.deleting
  }

  /** The generation-changed filter of the Headscale watch. */
  predicate PassesHead(cache: map<Name, Headscale>, e: Event<Headscale>) {
    e.Put? && e.name in cache ==> cache[e.name].generation != e.obj.generation
  }

  function Targeting(cache: map<Name, Approver>, h: Name): set<Name> {
    set n | n in cache && cache[n].ref == h
  }

  // ---------- The policy ----------

  /** The approvers `collectApprovers` keeps: those that target `h` and are not being deleted. */
  function Live(cache: map<Name, Approver>, h: Name): map<Name, ApproverSpec> {
    map n | n in cache && cache[n].ref == h && !cache[n].deleting :: cache[n].spec
  }

  /** The listed approvers in name order. */
  ghost function InNameOrder(live: map<Name, ApproverSpec>): seq<ApproverSpec> {
    SpecsOf(live, Strings.Canonical(live.Keys))
  }

  ghost function SpecsOf(live: map<Name, ApproverSpec>, names: seq<Name>): seq<ApproverSpec> {
    if names == [] then []
    else (if names[0] in live then [live[names[0]]] else []) + SpecsOf(live, names[1..])
  }

  ghost function Render(acl: AclPolicy, live: map<Name, ApproverSpec>): Result<Document> {
    PolicyDocument(Some(acl), InNameOrder(live))
  }

  // ---------- Steps ----------

  predicate Enabled(s: State, a: Action) {
    match a
    case CreateApprover(n, _, _) => n !in s.server
    case EditApprover(n, spec) => n in s.server && s.server[n].spec != spec
    case DeleteApprover(n) => n in s.server && !s.server[n].deleting
    case PutHeadscale(_, _, _) => true
    case TouchHeadscale(h) => h in s.heads
    case RemoveHeadscale(h) => h in s.heads
    case DeliverApprover => s.log != []
    case DeliverHeadscale => s.headLog != []
    case Pop(n) => s.worker.Idle? && n in s.queue
    case Work(_, _) => !s.worker.Idle?
    case Restart => true
  }

  function Requeue(s: State, n: Name): State {
    s.(queue := s.queue + {n}, worker := Idle)
  }

  /** The push of a deletion was given up: nothing queued accounts for the removed entries. */
  function GiveUp(s: State, n: Name, o: Approver): State {
    s.(worker := Releasing(n, o), unaccounted := s.unaccounted + {o.ref})
  }

  /** `Get` and the branch on the deletion timestamp. */
  function Get(s: State, n: Name, call: Call): State {
    if !call.Succeeds? then Requeue(s, n)
    else if n !in s.cache then s.(worker := Idle)
    else if !s.cache[n].deleting then s.(worker := Finalizing(n, s.cache[n]))
    else if !s.cache[n].finalizer then s.(worker := Idle)
    else s.(worker := Fetching(n, s.cache[n]))
  }

  function EnsureFinalizer(s: State, n: Name, o: Approver, call: Call): State {
    if o.finalizer then s.(worker := Fetching(n, o))
    else if call.Fails? || !Accepts(s, n, o) then Requeue(s, n)
    else
      var t := Write(s, n, o.(finalizer := true));
      if call.Lost? then Requeue(t, n) else t.(worker := Fetching(n, t.server[n]))
  }

  /** `getHeadscale` and the policy-mode check. */
  function Fetch(s: State, n: Name, o: Approver, call: Call): State {
    if !call.Succeeds? then
      if o.deleting then GiveUp(s, n, o) else Requeue(s, n)
    else if o.ref !in s.headCache || s.headCache[o.ref].policyMode.Other? then
      s.(worker := if o.deleting then Releasing(n, o) else Reporting(n, o, false))
    else s.(worker := Listing(n, o, s.headCache[o.ref].acl))
  }

  function ListLive(s: State, n: Name, o: Approver, acl: AclPolicy, call: Call): State {
    if !call.Succeeds? then
      if o.deleting then GiveUp(s, n, o) else s.(worker := Reporting(n, o, true))
    else s.(worker := Pushing(n, o, acl, Live(s.cache, o.ref)))
  }

  /** The snapshot the worker would push is what the caches hold now. */
  ghost predicate Fresh(s: State, h: Name, acl: AclPolicy, live: map<Name, ApproverSpec>) {
    h in s.headCache && acl == s.headCache[h].acl && live == Live(s.cache, h)
  }

  /** Building the document, fetching the API key and `SetPolicy`; with its reply lost, the policy set counts as failed. */
  ghost function Push(s: State, n: Name, o: Approver, acl: AclPolicy, live: map<Name, ApproverSpec>, call: Call): State {
    var doc := Render(acl, live);
    if call.Fails? || doc.Err? then
      if o.deleting then GiveUp(s, n, o) else s.(worker := Reporting(n, o, true))
    else
      s.(active := s.active[o.ref := doc.value],
         worker := if o.deleting then Releasing(n, o) else Reporting(n, o, call.Lost?),
         unaccounted := if Fresh(s, o.ref, acl, live) then s.unaccounted - {o.ref} else s.unaccounted)
  }

  /** `setCondition`, a patch that checks no version; then the error of a failed push is returned. */
  function Report(s: State, n: Name, failed: bool, call: Call, changed: bool): State {
    if changed && (call.Fails? || n !in s.server) then Requeue(s, n)
    else
      var t := if changed then Write(s, n, s.server[n]) else s;
      if failed || (changed && call.Lost?) then Requeue(t, n) else t.(worker := Idle)
  }

  /** Removing the finalizer lets the API server drop the object. */
  function Release(s: State, n: Name, o: Approver, call: Call): State {
    if call.Fails? || !Accepts(s, n, o) then Requeue(s, n)
    else if call.Lost? then Requeue(Remove(s, n), n)
    else Remove(s, n).(worker := Idle)
  }

  ghost function Reconcile(s: State, call: Call, changed: bool): State {
    match s.worker
    case Idle => s
    case Started(n) => Get(s, n, call)
    case Finalizing(n, o) => EnsureFinalizer(s, n, o, call)
    case Fetching(n, o) => Fetch(s, n, o, call)
    case Listing(n, o, acl) => ListLive(s, n, o, acl, call)
    case Pushing(n, o, acl, live) => Push(s, n, o, acl, live, call)
    case Reporting(n, o, failed) => Report(s, n, failed, call, changed)
    case Releasing(n, o) => Release(s, n, o, call)
  }

  function DeliverFirst(s: State): State
    requires s.log != []
  {
    var e := s.log[0];
    s.(cache := Observe(s.cache, e), log := s.log[1..],
       queue := if Passes(s.cache, e) then s.queue + {e.name} else s.queue,
       unaccounted := if e.Gone? && e.name in s.cache && !s.cache[e.name].deleting
                      then s.unaccounted + {s.cache[e.name].ref} else s.unaccounted)
  }

  function DeliverFirstHead(s: State): State
    requires s.headLog != []
  {
    var e := s.headLog[0];
    s.(headCache := Observe(s.headCache, e), headLog := s.headLog[1..],
       queue := if PassesHead(s.headCache, e) then s.queue + Targeting(s.cache, e.name) else s.queue)
  }

  ghost function Apply(s: State, a: Action): State
    requires Enabled(s, a)
  {
    match a
    case CreateApprover(n, ref, spec) => Write(s, n, Approver(ref, spec, false, false, 1, 0))
    case EditApprover(n, spec) =>
      Write(s, n, s.server[n].(spec := spec, generation := s.server[n].generation + 1))
    case DeleteApprover(n) =>
      if s.server[n].finalizer
      then Write(s, n, s.server[n].(deleting := true, generation := s.server[n].generation + 1))
      else Remove(s, n)
    case PutHeadscale(h, acl, mode) =>
      WriteHead(s, h, Headscale(acl, mode, if h in s.heads then s.heads[h].generation + 1 else 1))
    case TouchHeadscale(h) => WriteHead(s, h, s.heads[h])
    case RemoveHeadscale(h) => s.(heads := s.heads - {h}, headLog := s.headLog + [Gone(h)])
    case DeliverApprover => DeliverFirst(s)
    case DeliverHeadscale => DeliverFirstHead(s)
    case Pop(n) => s.(queue := s.queue - {n}, worker := Started(n))
    case Work(call, changed) => Reconcile(s, call, changed)
    case Restart =>
      s.(cache := s.server, log := [], headCache := s.heads, headLog := [],
         queue := s.server.Keys, worker := Idle, unaccounted := {})
  }

  /** The state after a run, if every action of it was enabled. */
  ghost function After(s: State, run: seq<Action>): Option<State>
    decreases |run|
  {
    if run == [] then Some(s)
    else if !Enabled(s, run[0]) then None
    else After(Apply(s, run[0]), run[1..])
  }
}
