/** The durable record of the offline mutation queue and its critical sections.
  *
  * Every body that runs under the shared store lock is a function here: it takes the disk,
  * the volatile fields of one window and the number of store writes that get through, and
  * gives back the disk, the fields and a verdict.  The writes of a section are a plan, a
  * sequence of `Write`s; a crash or a refused write leaves the disk after a prefix of it.
  */
module QueueModel {
  import opened Wrappers

  type Id = string
  type Scope = string
  type Key = string
  type Body = int

  const MAX_SAFE_INTEGER := 0x1F_FFFF_FFFF_FFFF

  datatype Method = Post | Patch | Put | Delete

  datatype Entry = Entry(
    id: Id, verb: Method, path: string, body: Option<Body>, subject: Option<string>,
    displayAmount: Option<int>, createdAt: int, attempts: int, lastError: Option<string>)
  {
    /** The subject that a failure of this entry blocks; an absent or empty one blocks nothing. */
    function Blocks(): Option<string> {
      if subject.Some? && subject.value != "" then subject else None
    }
  }

  datatype Rejected = Rejected(
    id: Id, path: string, body: Option<Body>, displayAmount: Option<int>,
    reason: string, status: int, at: int)

  // ─── What the storage accepts as a snapshot ───

  predicate ValidAmount(amount: Option<int>) {
    amount.Some? ==> 0 <= amount.value <= MAX_SAFE_INTEGER
  }

  predicate ValidPath(path: string) {
    path != "" && path[0] == '/'
  }

  predicate ValidEntry(e: Entry) {
    e.id != "" && ValidPath(e.path) && ValidAmount(e.displayAmount) && 0 <= e.attempts
  }

  predicate ValidRejected(r: Rejected) {
    r.id != "" && ValidPath(r.path) && ValidAmount(r.displayAmount)
  }

  predicate UniqueIds(entries: seq<Entry>, rejected: seq<Rejected>) {
    && (forall i, j | 0 <= i < j < |entries| :: entries[i].id != entries[j].id)
    && (forall i, j | 0 <= i < j < |rejected| :: rejected[i].id != rejected[j].id)
    && (forall i, j | 0 <= i < |entries| && 0 <= j < |rejected| :: entries[i].id != rejected[j].id)
  }

  predicate ValidLists(entries: seq<Entry>, rejected: seq<Rejected>) {
    && (forall i | 0 <= i < |entries| :: ValidEntry(entries[i]))
    && (forall i | 0 <= i < |rejected| :: ValidRejected(rejected[i]))
    && UniqueIds(entries, rejected)
  }

  predicate ValidRetired(retired: seq<Scope>) {
    && (forall i | 0 <= i < |retired| :: retired[i] != "")
    && (forall i, j | 0 <= i < j < |retired| :: retired[i] != retired[j])
  }

  datatype Snapshot = Snapshot(
    epoch: int, scope: Option<Scope>, retired: seq<Scope>, purgePending: bool,
    entries: seq<Entry>, rejected: seq<Rejected>)
  {
    predicate HasMatter() { entries != [] || rejected != [] }
  }

  /** `parseState`: the shape a stored snapshot must have to be read back. */
  predicate ValidSnapshot(s: Snapshot) {
    && 0 <= s.epoch
    && s.scope != Some("")
    && ValidRetired(s.retired)
    && ValidLists(s.entries, s.rejected)
  }

  function EntryIds(entries: seq<Entry>): set<Id> {
    set i | 0 <= i < |entries| :: entries[i].id
  }

  function RejectedIds(rejected: seq<Rejected>): set<Id> {
    set i | 0 <= i < |rejected| :: rejected[i].id
  }

  // ─── The disk ───

  /** A paired device as stored under the identity key. */
  datatype Device = Device(id: string, queueScope: Option<Scope>, bindingPending: bool)

  /** A tenant cell: business data, with the scope under which it was written, or the identity. */
  datatype Cell = Data(author: Scope) | Identity(device: Device)

  datatype Disk = Disk(
    v2: Option<Snapshot>, legacyEntries: Option<seq<Entry>>, legacyRejected: Option<seq<Rejected>>,
    items: map<Key, Cell>)

  datatype Write =
    | PutV2(snapshot: Snapshot)
    | PutLegacyEntries(entries: seq<Entry>)
    | PutLegacyRejected(rejected: seq<Rejected>)
    | DropLegacyEntries
    | DropLegacyRejected
    | PutItem(key: Key, cell: Cell)
    | DropItem(key: Key)

  function Apply(d: Disk, w: Write): Disk {
    match w
    case PutV2(s) => d.(v2 := Some(s))
    case PutLegacyEntries(es) => d.(legacyEntries := Some(es))
    case PutLegacyRejected(rs) => d.(legacyRejected := Some(rs))
    case DropLegacyEntries => d.(legacyEntries := None)
    case DropLegacyRejected => d.(legacyRejected := None)
    case PutItem(k, c) => d.(items := d.items[k := c])
    case DropItem(k) => d.(items := d.items - {k})
  }

  function ApplyAll(d: Disk, ws: seq<Write>): Disk {
    if ws == [] then d else Apply(ApplyAll(d, ws[..|ws| - 1]), ws[|ws| - 1])
  }

  /** The first `k` writes of a plan, or all of them. */
  function Prefix(plan: seq<Write>, k: nat): seq<Write> {
    if k < |plan| then plan[..k] else plan
  }

  /** An offset no plan reaches: every write of the section gets through. */
  const FULL: nat := 64

  /** `readDurableState`: the v2 snapshot, else the v1 keys read as an unscoped snapshot. */
  datatype Read = Read(s: Snapshot, legacy: bool)

  function HasLegacy(d: Disk): bool {
    d.legacyEntries.Some? || d.legacyRejected.Some?
  }

  function LegacySnapshot(d: Disk): Snapshot {
    Snapshot(0, None, [], false, d.legacyEntries.GetOr([]), d.legacyRejected.GetOr([]))
  }

  function Current(d: Disk): Snapshot {
    if d.v2.Some? then d.v2.value else LegacySnapshot(d)
  }

  function Durable(d: Disk): Option<Read> {
    if ValidSnapshot(Current(d)) then Some(Read(Current(d), HasLegacy(d))) else None
  }

  // ─── The volatile fields of one window ───

  datatype Queue = Queue(
    entries: seq<Entry>, rejected: seq<Rejected>, loaded: bool, legacyCleanup: bool,
    epoch: int, bound: Option<Scope>, retired: seq<Scope>, purgePending: bool,
    clearing: bool, invalidated: bool, generation: nat)

  const FRESH_QUEUE := Queue([], [], false, false, 0, None, [], false, false, false, 0)

  datatype Verdict = Done | ScopeChanged | ScopeRetired | Unsynced | Corrupted | Refused | NotBound | Clearing

  datatype Section = Section(disk: Disk, queue: Queue, verdict: Verdict)

  function Invalidate(q: Queue): Queue {
    if q.invalidated then q else q.(invalidated := true, generation := q.generation + 1)
  }

  function Matches(q: Queue, s: Snapshot): bool {
    s.epoch == q.epoch && s.scope == q.bound
  }

  /** The fields that a window takes over from the disk before it changes anything. */
  function Refreshed(q: Queue, r: Read): Queue {
    q.(entries := r.s.entries, rejected := r.s.rejected, retired := r.s.retired,
       purgePending := r.s.purgePending, legacyCleanup := q.legacyCleanup || r.legacy)
  }

  /** `refreshBeforeMutation`. */
  function Refresh(d: Disk, q: Queue): Section {
    match Durable(d)
    case None => Section(d, q, Corrupted)
    case Some(r) =>
      if Matches(q, r.s) then Section(d, Refreshed(q, r), Done) else Section(d, Invalidate(q), ScopeChanged)
  }

  const CLEANUP := [PutLegacyEntries([]), PutLegacyRejected([]), DropLegacyEntries, DropLegacyRejected]

  /** `persistSnapshot`: one durable write, then the opportunistic removal of the v1 keys. */
  function PersistPlan(s: Snapshot, cleanup: bool): seq<Write> {
    [PutV2(s)] + if cleanup then CLEANUP else []
  }

  function SnapshotOf(q: Queue, entries: seq<Entry>, rejected: seq<Rejected>): Snapshot {
    Snapshot(q.epoch, q.bound, q.retired, q.purgePending, entries, rejected)
  }

  /** A refreshed window replaces both lists; `published` is false when `clear` cut the caller off. */
  function Persist(d: Disk, q: Queue, entries: seq<Entry>, rejected: seq<Rejected>, k: nat, published: bool): Section {
    var plan := PersistPlan(SnapshotOf(q, entries, rejected), q.legacyCleanup);
    var q' := q.(legacyCleanup := q.legacyCleanup && k < |plan|);
    if k == 0 then Section(d, q, Refused)
    else Section(ApplyAll(d, Prefix(plan, k)),
                 if published then q'.(entries := entries, rejected := rejected) else q', Done)
  }

  /** What `ensureScopeReady` and the `clearing` test let through, for a queue that needs a scope. */
  function Gate(q: Queue): Verdict {
    if q.invalidated then ScopeChanged
    else if q.bound.None? then NotBound
    else if q.clearing then Clearing
    else Done
  }

  function EnqueueSection(d: Disk, q: Queue, e: Entry, k: nat): Section {
    if Gate(q) != Done then Section(d, q, Gate(q))
    else if !ValidAmount(e.displayAmount) then Section(d, q, Refused)
    else
      var r := Refresh(d, q);
      if r.verdict != Done then r
      else if e.id in EntryIds(r.queue.entries) || e.id in RejectedIds(r.queue.rejected) then
        Section(d, r.queue, Corrupted)
      else Persist(d, r.queue, r.queue.entries + [e], r.queue.rejected, k, true)
  }

  function Unacknowledged(rejected: seq<Rejected>, ids: set<Id>): seq<Rejected> {
    if rejected == [] then []
    else (if rejected[0].id in ids then [] else [rejected[0]]) + Unacknowledged(rejected[1..], ids)
  }

  /** `acquitterRejets`. */
  function AcknowledgeSection(d: Disk, q: Queue, ids: set<Id>, k: nat): Section {
    if Gate(q) != Done then Section(d, q, Gate(q))
    else
      var r := Refresh(d, q);
      if r.verdict != Done then r
      else Persist(d, r.queue, r.queue.entries, Unacknowledged(r.queue.rejected, ids), k, true)
  }

  // ─── Outcomes of a network pass ───

  datatype Outcome = Sent | Temporary(error: string) | Permanent(rejected: Rejected)

  function Retried(e: Entry, error: string): Entry {
    e.(attempts := e.attempts + 1, lastError := Some(error))
  }

  /** The entries that stay in the queue once the outcomes are known. */
  function StillQueued(entries: seq<Entry>, outcomes: map<Id, Outcome>): seq<Entry> {
    if entries == [] then []
    else
      var e := entries[0];
      var kept :=
        if e.id !in outcomes then [e]
        else match outcomes[e.id]
          case Temporary(error) => [Retried(e, error)]
          case _ => [];
      kept + StillQueued(entries[1..], outcomes)
  }

  /** The refusals to keep, the latest first. */
  function NewlyRejected(entries: seq<Entry>, outcomes: map<Id, Outcome>): seq<Rejected> {
    if entries == [] then []
    else
      var e := entries[|entries| - 1];
      (if e.id in outcomes && outcomes[e.id].Permanent? then [outcomes[e.id].rejected] else [])
      + NewlyRejected(entries[..|entries| - 1], outcomes)
  }

  /** The commit of a pass that was started under `generation`. */
  function CommitSection(d: Disk, q: Queue, outcomes: map<Id, Outcome>, generation: nat, k: nat, published: bool): Section {
    var r := Refresh(d, q);
    if r.verdict != Done then r
    else if generation != r.queue.generation then r
    else
      Persist(d, r.queue, StillQueued(r.queue.entries, outcomes),
              NewlyRejected(r.queue.entries, outcomes) + r.queue.rejected, k, published)
  }

  // ─── Scope lifecycle ───

  /** `assertDurableScopeUnlocked`. */
  function AssertScope(d: Disk, q: Queue): Section {
    if q.invalidated then Section(d, q, ScopeChanged)
    else match Durable(d)
      case None => Section(d, q, Corrupted)
      case Some(r) =>
        if q.bound.Some? && r.s.scope != q.bound && q.bound.value in r.s.retired then
          Section(d, Invalidate(q), ScopeRetired)
        else if !Matches(q, r.s) then Section(d, Invalidate(q), ScopeChanged)
        else Section(d, q, Done)
  }

  function BindRefusal(s: Snapshot, scope: Scope, pairing: bool): Verdict {
    if scope in s.retired then ScopeRetired
    else if s.purgePending then ScopeChanged
    else if s.scope.Some? && s.scope != Some(scope) then ScopeChanged
    else if pairing && s.scope.None? && s.HasMatter() then ScopeChanged
    else Done
  }

  function BoundTo(q: Queue, s: Snapshot, scope: Scope): Queue {
    q.(entries := s.entries, rejected := s.rejected, epoch := s.epoch, bound := Some(scope),
       retired := s.retired, purgePending := false, loaded := true)
  }

  /** The claim of a scope that nothing forbids; the flag it writes is the one the window remembers. */
  function Claim(d: Disk, q: Queue, r: Read, scope: Scope, k: nat): Section {
    var q1 := q.(legacyCleanup := q.legacyCleanup || r.legacy);
    var plan := PersistPlan(r.s.(scope := Some(scope), purgePending := q.purgePending), q1.legacyCleanup);
    if r.s.scope == Some(scope) && !r.legacy then Section(d, BoundTo(q1, r.s, scope), Done)
    else if k == 0 then Section(d, q1, Refused)
    else
      Section(ApplyAll(d, Prefix(plan, k)),
              BoundTo(q1, r.s, scope).(legacyCleanup := q1.legacyCleanup && k < |plan|), Done)
  }

  /** `runBindScope`. */
  function RunBind(d: Disk, q: Queue, scope: Scope, pairing: bool, k: nat): Section {
    match Durable(d)
    case None => Section(d, q, Corrupted)
    case Some(r) =>
      if BindRefusal(r.s, scope, pairing) != Done then Section(d, q, BindRefusal(r.s, scope, pairing))
      else Claim(d, q, r, scope, k)
  }

  /** `bindScope`, with its tests before the first await. */
  function BindScope(d: Disk, q: Queue, scope: Scope, pairing: bool, k: nat): Section {
    if q.invalidated then Section(d, q, ScopeChanged)
    else if q.bound == Some(scope) then AssertScope(d, q)
    else if q.bound.Some? && !pairing then Section(d, q, ScopeChanged)
    else RunBind(d, q, scope, pairing, k)
  }

  /** How far the writes of a purge of the queue got: a strict prefix, then two best-effort removals. */
  datatype WipeRun = WipeRun(kept: nat, first: bool, second: bool)

  function WithRetired(retired: seq<Scope>, scope: Option<Scope>): seq<Scope> {
    if scope.Some? && scope.value !in retired then retired + [scope.value] else retired
  }

  function Tombstone(q: Queue, epoch: int): Snapshot {
    Snapshot(epoch, None, WithRetired(q.retired, q.bound), true, [], [])
  }

  function WipePlan(q: Queue, epoch: int): seq<Write> {
    [PutLegacyEntries([]), PutLegacyRejected([])] + PersistPlan(Tombstone(q, epoch), q.legacyCleanup)
  }

  function Wipe(d: Disk, q: Queue, epoch: int, run: WipeRun): Section {
    var plan := WipePlan(q, epoch);
    var strict := ApplyAll(d, Prefix(plan, run.kept));
    if run.kept < 3 then Section(strict, q, Refused)
    else
      var once := if run.first then Apply(strict, DropLegacyEntries) else strict;
      var twice := if run.second then Apply(once, DropLegacyRejected) else once;
      Section(twice,
              q.(entries := [], rejected := [], epoch := epoch, bound := None,
                 retired := WithRetired(q.retired, q.bound), purgePending := true, loaded := true,
                 legacyCleanup := false),
              Done)
  }

  /** The part of `clear` that precedes its first await. */
  function ClearCall(q: Queue): Queue {
    q.(generation := q.generation + 1, clearing := true)
  }

  /** `runClear`, for a queue that needs a scope; `requireEmpty` is the protected purge. */
  function RunClear(d: Disk, q: Queue, requireEmpty: bool, run: WipeRun): Section {
    if d.v2.Some? then
      var s := d.v2.value;
      if !ValidSnapshot(s) then
        if requireEmpty then Section(d, q, Corrupted) else Wipe(d, q, q.epoch + 1, run)
      else if !Matches(q, s) then Section(d, Invalidate(q), ScopeChanged)
      else if requireEmpty && s.HasMatter() then Section(d, q.(clearing := false), Unsynced)
      else Wipe(d, q, s.epoch + 1, run)
    else if q.epoch != 0 || q.bound.Some? then Section(d, Invalidate(q), ScopeChanged)
    else if requireEmpty && Durable(d).None? then Section(d, q, Corrupted)
    else if requireEmpty && Current(d).HasMatter() then Section(d, q.(clearing := false), Unsynced)
    else Wipe(d, q, q.epoch + 1, run)
  }

  /** The acknowledgement of a pending purge. */
  function Settle(d: Disk, q: Queue, s: Snapshot, k: nat): Section {
    var plan := PersistPlan(s.(scope := None, purgePending := false), q.legacyCleanup);
    if k == 0 then Section(d, q, Refused)
    else
      Section(ApplyAll(d, Prefix(plan, k)),
              q.(entries := s.entries, rejected := s.rejected, epoch := s.epoch, bound := None,
                 retired := s.retired, purgePending := false, loaded := true, clearing := false,
                 legacyCleanup := q.legacyCleanup && k < |plan|),
              Done)
  }

  /** `completeClear`. */
  function CompleteClear(d: Disk, q: Queue, k: nat): Section {
    match Durable(d)
    case None => Section(d, q, Corrupted)
    case Some(r) =>
      if r.s.scope.Some? then Section(d, q, ScopeChanged)
      else if !r.s.purgePending then Section(d, q.(clearing := false), Done)
      else Settle(d, q, r.s, k)
  }

  // ─── Tenant cells ───

  /** `scopedStore`: the authority captured by the caller, compared again under the lock. */
  datatype Authority = Authority(scope: Scope, epoch: int, generation: nat)

  function ScopedGuard(d: Disk, q: Queue, a: Authority): Section {
    if q.clearing || q.invalidated || q.generation != a.generation || q.bound != Some(a.scope) || q.epoch != a.epoch then
      Section(d, q, ScopeChanged)
    else match Durable(d)
      case None => Section(d, q, Corrupted)
      case Some(r) =>
        if r.s.epoch != a.epoch || r.s.scope != Some(a.scope) then
          Section(d, Invalidate(q), if a.scope in r.s.retired then ScopeRetired else ScopeChanged)
        else Section(d, q, Done)
  }

  function ScopedSet(d: Disk, q: Queue, a: Authority, key: Key, cell: Cell, k: nat): Section {
    var g := ScopedGuard(d, q, a);
    if g.verdict != Done then g
    else if k == 0 then Section(d, q, Refused)
    else Section(Apply(d, PutItem(key, cell)), q, Done)
  }

  function ScopedRemove(d: Disk, q: Queue, a: Authority, key: Key, k: nat): Section {
    var g := ScopedGuard(d, q, a);
    if g.verdict != Done then g
    else if k == 0 then Section(d, q, Refused)
    else Section(Apply(d, DropItem(key)), q, Done)
  }
}
