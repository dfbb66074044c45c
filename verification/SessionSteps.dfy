/** The durable session store as a state machine: one shared table, replicas, and any answer the database may give. */
module SessionSteps {
  import opened Wrappers
  import opened Sessions

  const MAX_MARKERS: nat := 20000
  const MAX_TOUCHED: nat := 20000
  const SECOND: Time := 1000000
  const MAX_TOUCH_INTERVAL: Time := 60 * SECOND

  /** How often a live session's stored last_seen is refreshed. */
  function TouchEvery(idle: Time): (t: Time)
    ensures SECOND <= t <= MAX_TOUCH_INTERVAL
  {
    var q := if idle > 0 && idle / 4 < MAX_TOUCH_INTERVAL then idle / 4 else MAX_TOUCH_INTERVAL;
    if q < SECOND then SECOND else q
  }

  /** maxRows <= 0 means uncapped. */
  datatype Config = Config(maxRows: int, policy: Policy)

  /** What the table stores under an id. */
  datatype Row = Row(csrf: string, created: Time, lastSeen: Time) {
    predicate Expired(p: Policy, now: Time) {
      p.Expired(lastSeen, created, now)
    }
  }

  type Table = map<Id, Row>

  /** What the caller of one statement sees, and whether the statement took effect. */
  datatype Reply = Answered | Errored(applied: bool) {
    predicate Applied() { Answered? || applied }
  }

  /** A transaction: an error before the commit, or a commit whose answer may be lost. */
  datatype Tx = Aborted | Committed | CommitLost(applied: bool) {
    predicate Applied() { Committed? || (CommitLost? && applied) }
  }

  // --- one replica ---------------------------------------------------------------------------------------

  /** A session object held by a process; obj tells objects with one id apart. */
  datatype Held = Held(row: Row, obj: nat)

  /** Who holds the admission mutex, and what it is in the middle of. */
  datatype Admission = Free
                     | Saving(id: Id, held: Held)
                     | Swapping(oldId: Id, oldObj: nat, id: Id, held: Held, marked: bool)
                     | Repersisting(full: bool)

  /** A Save after it has released admission. */
  datatype SaveStage = Marking(held: Held, ok: bool) | Landing(held: Held)

  datatype Stage = Began | Scanned | Reconciled | Collected | Repersisted | Swept

  datatype Scan = NoScan
                | Scan(stage: Stage, at: Time, epoch: nat, present: Table, pending: set<Id>, dead: set<Id>, todo: set<Id>)

  datatype Replica = Replica(local: map<Id, Held>, unpersisted: set<Id>, gen: nat, generations: map<Id, nat>,
                             touched: map<Id, Time>, rows: int, admit: Admission, saves: map<Id, SaveStage>,
                             deleting: set<Id>, adopting: set<(Id, Row)>, scan: Scan)

  /** NewSessionStore: the counter is seeded from a count, or at the cap when that fails. */
  function Fresh(cfg: Config, counted: Option<nat>): Replica {
    var rows := if cfg.maxRows <= 0 then 0 else if counted.Some? then counted.value else cfg.maxRows;
    Replica(map[], {}, 0, map[], map[], rows, Free, map[], {}, {}, NoScan)
  }

  predicate CapReached(cfg: Config, r: Replica) {
    cfg.maxRows > 0 && r.rows >= cfg.maxRows
  }

  // --- markers -------------------------------------------------------------------------------------------

  predicate CanReserve(r: Replica, id: Id) {
    id in r.generations || |r.generations| < MAX_MARKERS
  }

  /** reserveGeneration, when a slot is to be had. */
  function Stamp(r: Replica, id: Id): Replica {
    r.(gen := r.gen + 1, generations := r.generations[id := r.gen + 1])
  }

  /** releaseGeneration. */
  function Release(r: Replica, id: Id): Replica {
    r.(generations := r.generations - {id})
  }

  predicate CanHandOff(r: Replica, oldId: Id, newId: Id) {
    newId in r.generations || oldId in r.generations || |r.generations| < MAX_MARKERS
  }

  /** handOffGeneration, when a slot is to be had. */
  function HandOff(r: Replica, oldId: Id, newId: Id): Replica {
    Stamp(Release(r, oldId), newId)
  }

  /** pruneGenerations. */
  function Pruned(generations: map<Id, nat>, epoch: nat): map<Id, nat> {
    map id | id in generations && generations[id] > epoch :: generations[id]
  }

  /** absenceIsFinal; no epoch stands for noScan. */
  predicate AbsenceIsFinal(r: Replica, id: Id, epoch: Option<nat>) {
    id !in r.unpersisted && (epoch.Some? ==> id !in r.generations || r.generations[id] <= epoch.value)
  }

  function SetPersisted(r: Replica, id: Id, ok: bool): Replica {
    r.(unpersisted := if ok then r.unpersisted - {id} else r.unpersisted + {id})
  }

  function Forget(r: Replica, id: Id): Replica {
    r.(touched := r.touched - {id}, unpersisted := r.unpersisted - {id}, generations := r.generations - {id})
  }

  // --- the local store -----------------------------------------------------------------------------------

  /** Save in the local store.  At its capacity it drops a victim, and the eviction hook forgets it. */
  function LocalSave(r: Replica, id: Id, h: Held, victim: Option<Id>): Replica {
    if victim.Some? then Keep(Forget(LocalDelete(r, victim.value), victim.value), id, h) else Keep(r, id, h)
  }

  function Keep(r: Replica, id: Id, h: Held): Replica {
    r.(local := r.local[id := h])
  }

  predicate CanEvict(r: Replica, id: Id, victim: Option<Id>) {
    victim.Some? ==> id !in r.local && victim.value in r.local
  }

  /** The exact session object is still held. */
  predicate Holds(r: Replica, id: Id, obj: nat) {
    id in r.local && r.local[id].obj == obj
  }

  /** Replace in the local store. */
  function LocalReplace(r: Replica, oldId: Id, id: Id, h: Held): Replica {
    r.(local := (r.local - {oldId})[id := h])
  }

  function LocalDelete(r: Replica, id: Id): Replica {
    r.(local := r.local - {id})
  }

  // --- statements ----------------------------------------------------------------------------------------

  datatype Inserted = Stored | AtCapacity | InsertError

  datatype InsertEffect = InsertEffect(table: Table, rep: Replica, result: Inserted)

  /** insert. */
  function Insert(cfg: Config, t: Table, r: Replica, id: Id, row: Row, tx: Tx): InsertEffect {
    if tx.Aborted? then InsertEffect(t, Release(r, id), InsertError)
    else
      var grew := id !in t;
      if grew && CapReached(cfg, r) then InsertEffect(t, Release(r, id), AtCapacity)
      else
        InsertEffect(if tx.Applied() then t[id := row] else t,
                     if grew then r.(rows := r.rows + 1) else r,
                     if tx.Committed? then Stored else InsertError)
  }

  datatype Swapped = Done | Absent | SwapError

  datatype SwapEffect = SwapEffect(table: Table, rep: Replica, result: Swapped)

  /** replaceRow. */
  function ReplaceRow(t: Table, r: Replica, oldId: Id, id: Id, row: Row, tx: Tx): SwapEffect {
    if tx.Aborted? then SwapEffect(t, Release(r, id), SwapError)
    else if oldId !in t then SwapEffect(t, Release(r, id), Absent)
    else SwapEffect(if tx.Applied() then (t - {oldId})[id := row] else t, r, if tx.Committed? then Done else SwapError)
  }

  datatype DeleteEffect = DeleteEffect(table: Table, rep: Replica)

  /** A counted DELETE: only an answered removal moves the counter. */
  function DeleteRow(t: Table, r: Replica, id: Id, reply: Reply): DeleteEffect {
    DeleteEffect(if reply.Applied() then t - {id} else t,
                 if reply.Answered? && id in t then r.(rows := r.rows - 1) else r)
  }

  datatype TouchEffect = TouchEffect(table: Table, rep: Replica)

  /** touch. */
  function Touch(cfg: Config, t: Table, r: Replica, id: Id, now: Time, reply: Reply): TouchEffect {
    if id in r.touched && now - r.touched[id] < TouchEvery(cfg.policy.idle) then TouchEffect(t, r)
    else
      var room := if |r.touched| >= MAX_TOUCHED then map[] else r.touched;
      TouchEffect(if id in t && reply.Applied() then t[id := t[id].(lastSeen := now)] else t,
                  r.(touched := room[id := now]))
  }

  // --- the steps -----------------------------------------------------------------------------------------

  /** What a step does to the table and the replica, the pre-auth session whose login it let win, and
      the session it served. */
  datatype Effect = Effect(table: Table, rep: Replica, won: Option<Id>, served: Option<Id>)

  /** One step of one replica. */
  datatype Event =
    | SaveBegin(id: Id, h: Held)
    | SaveCommit(tx: Tx)
    | SaveMark(id: Id)
    | SaveLand(id: Id, victim: Option<Id>)
    | DeleteShared(id: Id, reply: Reply)
    | DeleteLocal(id: Id)
    | ReplaceBegin(oldId: Id, oldObj: nat, id: Id, h: Held)
    | ReplaceCommit(tx: Tx, victim: Option<Id>)
    | ReplaceUnmarked(reply: Reply)
    | Lookup(id: Id, reply: Reply, touched: Reply)
    | Adopt(id: Id, row: Row, obj: nat, victim: Option<Id>, touched: Reply)
    | Detach
    | ScanEpoch(at: Time)
    | ScanSnapshot(reply: Reply)
    | ScanReconcile(reply: Reply)
    | ScanCollect
    | RepersistBegin
    | RepersistOne(id: Id, tx: Tx)
    | RepersistEnd
    | SweepLocal
    | SweepDead(id: Id, reply: Reply)
    | SweepShared(id: Id, reply: Reply)
    | ScanPrune

  function Quiet(t: Table, r: Replica): Effect {
    Effect(t, r, None, None)
  }

  function Seen(h: Held, now: Time): Held {
    h.(row := h.row.(lastSeen := now))
  }

  /** Manager.Load over what Get found: an unexpired session is served and its last activity noted. */
  function Serve(cfg: Config, t: Table, r: Replica, id: Id, now: Time): Effect {
    if id in r.local && !r.local[id].row.Expired(cfg.policy, now) then
      Effect(t, Keep(r, id, Seen(r.local[id], now)), None, Some(id))
    else Quiet(t, r)
  }

  /** persistNew up to its marker; a refusal skips to the end of Save. */
  function DoSaveBegin(cfg: Config, t: Table, r: Replica, id: Id, h: Held): Effect {
    if (CapReached(cfg, r) && id !in r.local) || !CanReserve(r, id) then
      Quiet(t, r.(saves := r.saves[id := Marking(h, false)]))
    else Quiet(t, Stamp(r, id).(admit := Saving(id, h)))
  }

  function DoSaveCommit(cfg: Config, t: Table, r: Replica, tx: Tx): Effect
    requires r.admit.Saving?
  {
    var i := Insert(cfg, t, r, r.admit.id, r.admit.held.row, tx);
    Quiet(i.table, i.rep.(admit := Free, saves := r.saves[r.admit.id := Marking(r.admit.held, i.result.Stored?)]))
  }

  function DoSaveMark(t: Table, r: Replica, id: Id): Effect
    requires id in r.saves && r.saves[id].Marking?
  {
    Quiet(t, SetPersisted(r, id, r.saves[id].ok).(saves := r.saves[id := Landing(r.saves[id].held)]))
  }

  function DoSaveLand(t: Table, r: Replica, id: Id, victim: Option<Id>): Effect
    requires id in r.saves
  {
    Quiet(t, LocalSave(r.(saves := r.saves - {id}), id, r.saves[id].held, victim))
  }

  /** Delete's first half, under admission. */
  function DoDeleteShared(t: Table, r: Replica, id: Id, reply: Reply): Effect {
    var d := DeleteRow(t, r, id, reply);
    Quiet(d.table, Forget(d.rep, id).(deleting := r.deleting + {id}))
  }

  /** ... and its second half, after admission has been released. */
  function DoDeleteLocal(t: Table, r: Replica, id: Id): Effect {
    Quiet(t, LocalDelete(r, id).(deleting := r.deleting - {id}))
  }

  function DoReplaceBegin(t: Table, r: Replica, oldId: Id, oldObj: nat, id: Id, h: Held): Effect {
    var marked := CanHandOff(r, oldId, id);
    Quiet(t, (if marked then HandOff(r, oldId, id) else r).(admit := Swapping(oldId, oldObj, id, h, marked)))
  }

  /** The login falls back to the local swap; the new session is process-local. */
  function SwapLocally(t: Table, r: Replica, oldId: Id, oldObj: nat, id: Id, h: Held): Effect {
    if Holds(r, oldId, oldObj) then
      Effect(t, SetPersisted(Forget(LocalReplace(r, oldId, id, h), oldId), id, false), Some(oldId), None)
    else Quiet(t, r)
  }

  /** Replace after its marker has been handed off. */
  function DoReplaceCommit(t: Table, r: Replica, tx: Tx, victim: Option<Id>): Effect
    requires r.admit.Swapping?
  {
    var a := r.admit;
    var s := ReplaceRow(t, r.(admit := Free), a.oldId, a.id, a.held.row, tx);
    match s.result
    case SwapError => SwapLocally(s.table, s.rep, a.oldId, a.oldObj, a.id, a.held)
    case Absent => if a.oldId in r.unpersisted then SwapLocally(s.table, s.rep, a.oldId, a.oldObj, a.id, a.held) else Quiet(s.table, s.rep)
    case Done =>
      var done := LocalDelete(SetPersisted(Forget(s.rep, a.oldId), a.id, true), a.oldId);
      Effect(s.table, LocalSave(done, a.id, a.held, victim), Some(a.oldId), None)
  }

  /** replaceLocally: the swap at marker capacity. */
  function DoReplaceUnmarked(t: Table, r: Replica, reply: Reply): Effect
    requires r.admit.Swapping?
  {
    var a := r.admit;
    var d := DeleteRow(t, r.(admit := Free), a.oldId, reply);
    if reply.Answered? && a.oldId !in t && a.oldId !in r.unpersisted then Quiet(d.table, d.rep)
    else SwapLocally(d.table, d.rep, a.oldId, a.oldObj, a.id, a.held)
  }

  /** Get up to adoption: the row is authoritative for existence. */
  function DoLookup(cfg: Config, t: Table, r: Replica, id: Id, now: Time, reply: Reply, touched: Reply): Effect {
    if reply.Errored? then Serve(cfg, t, r, id, now)
    else if id !in t then (if AbsenceIsFinal(r, id, None) then Quiet(t, r) else Serve(cfg, t, r, id, now))
    else if id !in r.local then Quiet(t, r.(adopting := r.adopting + {(id, t[id])}))
    else
      var d := Touch(cfg, t, r, id, now, touched);
      Serve(cfg, d.table, d.rep, id, now)
  }

  /** Get's adoption of a row that no local session stood behind; at marker capacity it goes unmarked. */
  function DoAdopt(cfg: Config, t: Table, r: Replica, id: Id, row: Row, obj: nat, victim: Option<Id>, now: Time, touched: Reply): Effect {
    var marked := if CanReserve(r, id) then Stamp(r, id) else r;
    var d := Touch(cfg, t, LocalSave(marked, id, Held(row, obj), victim), id, now, touched);
    Serve(cfg, d.table, d.rep.(adopting := r.adopting - {(id, row)}), id, now)
  }

  function DoDetach(t: Table, r: Replica): Effect {
    Quiet(t, r.(local := map[], touched := map[]))
  }

  // --- the scan ------------------------------------------------------------------------------------------

  function DoScanEpoch(t: Table, r: Replica, at: Time): Effect {
    Quiet(t, r.(scan := Scan(Began, at, r.gen, map[], {}, {}, {})))
  }

  /** The sessions the policy alone ends. */
  function PolicyDead(cfg: Config, r: Replica, at: Time): set<Id> {
    set id | id in r.local && r.local[id].row.Expired(cfg.policy, at)
  }

  function DoScanSnapshot(cfg: Config, t: Table, r: Replica, reply: Reply): Effect
    requires r.scan.Scan?
  {
    if reply.Errored? then Quiet(t, r.(local := r.local - PolicyDead(cfg, r, r.scan.at), scan := NoScan))
    else Quiet(t, r.(scan := r.scan.(stage := Scanned, present := t)))
  }

  function DoScanReconcile(cfg: Config, t: Table, r: Replica, reply: Reply): Effect
    requires r.scan.Scan?
  {
    Quiet(t, r.(rows := if cfg.maxRows > 0 && reply.Answered? then |t| else r.rows, scan := r.scan.(stage := Reconciled)))
  }

  function DoScanCollect(t: Table, r: Replica): Effect
    requires r.scan.Scan?
  {
    Quiet(t, r.(scan := r.scan.(stage := Collected, pending := r.unpersisted)))
  }

  function DoRepersistBegin(cfg: Config, t: Table, r: Replica): Effect {
    Quiet(t, r.(admit := Repersisting(CapReached(cfg, r))))
  }

  /** One turn of the repersist loop. */
  function DoRepersistOne(cfg: Config, t: Table, r: Replica, id: Id, tx: Tx): Effect
    requires r.scan.Scan? && r.admit.Repersisting?
  {
    var q := r.(scan := r.scan.(pending := r.scan.pending - {id}));
    if id !in r.local || id in r.scan.present then Quiet(t, SetPersisted(q, id, true))
    else if r.admit.full || !CanReserve(q, id) then Quiet(t, q)
    else
      var row := r.local[id].row;
      var i := Insert(cfg, t, Stamp(q, id), id, row, tx);
      if !i.result.Stored? then Quiet(i.table, i.rep.(admit := Repersisting(CapReached(cfg, i.rep))))
      else Quiet(i.table, SetPersisted(i.rep, id, true).(scan := q.scan.(present := q.scan.present[id := row])))
  }

  function DoRepersistEnd(t: Table, r: Replica): Effect
    requires r.scan.Scan?
  {
    Quiet(t, r.(admit := Free, scan := r.scan.(stage := Repersisted)))
  }

  /** Held here, in no row of the snapshot, and judged to have ended elsewhere. */
  function RetiredOnAbsence(r: Replica): set<Id>
    requires r.scan.Scan?
  {
    set id | id in r.local && id !in r.scan.present && AbsenceIsFinal(r, id, Some(r.scan.epoch))
  }

  function DoSweepLocal(cfg: Config, t: Table, r: Replica): Effect
    requires r.scan.Scan?
  {
    var dead := RetiredOnAbsence(r) + PolicyDead(cfg, r, r.scan.at);
    Quiet(t, r.(local := r.local - dead, scan := r.scan.(stage := Swept, dead := dead, todo := r.scan.present.Keys)))
  }

  function DoSweepDead(t: Table, r: Replica, id: Id, reply: Reply): Effect
    requires r.scan.Scan?
  {
    var f := Forget(r, id);
    var s := r.scan.(dead := r.scan.dead - {id}, present := r.scan.present - {id}, todo := r.scan.todo - {id});
    if id in r.scan.present then
      var d := DeleteRow(t, f, id, reply);
      Quiet(d.table, d.rep.(scan := s))
    else Quiet(t, f.(scan := s))
  }

  /** Lapsed even if the session was used for as long after its last write as the throttle can hide. */
  predicate Abandoned(cfg: Config, row: Row, at: Time) {
    row.(lastSeen := row.lastSeen + TouchEvery(cfg.policy.idle)).Expired(cfg.policy, at)
  }

  /** The row is still the one that was read. */
  predicate StillSeen(t: Table, row: Row, id: Id) {
    id in t && t[id].lastSeen == row.lastSeen
  }

  function DoSweepShared(cfg: Config, t: Table, r: Replica, id: Id, reply: Reply): Effect
    requires r.scan.Scan? && id in r.scan.present
  {
    var row := r.scan.present[id];
    var q := r.(scan := r.scan.(todo := r.scan.todo - {id}));
    if id in r.local || !Abandoned(cfg, row, r.scan.at) then Quiet(t, q)
    else
      var hit := StillSeen(t, row, id);
      Quiet(if hit && reply.Applied() then t - {id} else t,
            if reply.Errored? then r.(scan := r.scan.(todo := {})) else if hit then q.(rows := r.rows - 1) else q)
  }

  function DoScanPrune(t: Table, r: Replica): Effect
    requires r.scan.Scan?
  {
    Quiet(t, r.(generations := Pruned(r.generations, r.scan.epoch), scan := NoScan))
  }

  predicate InStage(r: Replica, s: Stage) {
    r.scan.Scan? && r.scan.stage == s
  }

  /** When a step can be taken.  Every section under the admission mutex needs it free. */
  predicate Enabled(r: Replica, now: Time, ev: Event) {
    match ev
    case SaveBegin(_, _) => r.admit.Free?
    case SaveCommit(_) => r.admit.Saving?
    case SaveMark(id) => id in r.saves && r.saves[id].Marking?
    case SaveLand(id, victim) => id in r.saves && r.saves[id].Landing? && CanEvict(r, id, victim)
    case DeleteShared(_, _) => r.admit.Free?
    case DeleteLocal(id) => id in r.deleting
    case ReplaceBegin(_, _, _, _) => r.admit.Free?
    case ReplaceCommit(_, victim) => r.admit.Swapping? && r.admit.marked && CanEvict(r, r.admit.id, victim) && victim != Some(r.admit.oldId)
    case ReplaceUnmarked(_) => r.admit.Swapping? && !r.admit.marked
    case Lookup(_, _, _) => true
    case Adopt(id, row, _, victim, _) => (id, row) in r.adopting && CanEvict(r, id, victim)
    case Detach => true
    case ScanEpoch(at) => r.scan.NoScan? && at <= now
    case ScanSnapshot(_) => InStage(r, Began)
    case ScanReconcile(_) => InStage(r, Scanned) && r.admit.Free?
    case ScanCollect => InStage(r, Reconciled)
    case RepersistBegin => InStage(r, Collected) && r.admit.Free?
    case RepersistOne(id, _) => InStage(r, Collected) && r.admit.Repersisting? && id in r.scan.pending
    case RepersistEnd => InStage(r, Collected) && r.admit.Repersisting? && r.scan.pending == {}
    case SweepLocal => InStage(r, Repersisted)
    case SweepDead(id, _) => InStage(r, Swept) && id in r.scan.dead && (id in r.scan.present ==> r.admit.Free?)
    case SweepShared(id, _) => InStage(r, Swept) && r.scan.dead == {} && id in r.scan.todo && id in r.scan.present && r.admit.Free?
    case ScanPrune => InStage(r, Swept) && r.scan.dead == {} && r.scan.todo == {}
  }

  function Do(cfg: Config, t: Table, r: Replica, now: Time, ev: Event): Effect
    requires Enabled(r, now, ev)
  {
    match ev
    case SaveBegin(id, h) => DoSaveBegin(cfg, t, r, id, h)
    case SaveCommit(tx) => DoSaveCommit(cfg, t, r, tx)
    case SaveMark(id) => DoSaveMark(t, r, id)
    case SaveLand(id, victim) => DoSaveLand(t, r, id, victim)
    case DeleteShared(id, reply) => DoDeleteShared(t, r, id, reply)
    case DeleteLocal(id) => DoDeleteLocal(t, r, id)
    case ReplaceBegin(oldId, oldObj, id, h) => DoReplaceBegin(t, r, oldId, oldObj, id, h)
    case ReplaceCommit(tx, victim) => DoReplaceCommit(t, r, tx, victim)
    case ReplaceUnmarked(reply) => DoReplaceUnmarked(t, r, reply)
    case Lookup(id, reply, touched) => DoLookup(cfg, t, r, id, now, reply, touched)
    case Adopt(id, row, obj, victim, touched) => DoAdopt(cfg, t, r, id, row, obj, victim, now, touched)
    case Detach => DoDetach(t, r)
    case ScanEpoch(at) => DoScanEpoch(t, r, at)
    case ScanSnapshot(reply) => DoScanSnapshot(cfg, t, r, reply)
    case ScanReconcile(reply) => DoScanReconcile(cfg, t, r, reply)
    case ScanCollect => DoScanCollect(t, r)
    case RepersistBegin => DoRepersistBegin(cfg, t, r)
    case RepersistOne(id, tx) => DoRepersistOne(cfg, t, r, id, tx)
    case RepersistEnd => DoRepersistEnd(t, r)
    case SweepLocal => DoSweepLocal(cfg, t, r)
    case SweepDead(id, reply) => DoSweepDead(t, r, id, reply)
    case SweepShared(id, reply) => DoSweepShared(cfg, t, r, id, reply)
    case ScanPrune => DoScanPrune(t, r)
  }

  // --- the whole system ----------------------------------------------------------------------------------

  type RId = nat

  /** All replicas over one table, with what has happened: the ids minted, the logins won per pre-auth
      id, and when each session was last served. */
  datatype System = System(clock: Time, table: Table, reps: map<RId, Replica>, used: set<Id>, wins: multiset<Id>,
                           lastServed: map<Id, Time>)

  datatype Move = Tick(d: nat) | Step(r: RId, ev: Event)

  /** Sessions are minted fresh, at the current time. */
  predicate Minted(s: System, ev: Event) {
    match ev
    case SaveBegin(id, h) => id !in s.used && h.row.created == h.row.lastSeen == s.clock
    case ReplaceBegin(_, _, id, h) => id !in s.used && h.row.created == h.row.lastSeen == s.clock
    case _ => true
  }

  function MintedIds(ev: Event): set<Id> {
    match ev
    case SaveBegin(id, _) => {id}
    case ReplaceBegin(_, _, id, _) => {id}
    case _ => {}
  }

  predicate CanMove(s: System, m: Move) {
    match m
    case Tick(_) => true
    case Step(r, ev) => r in s.reps && Enabled(s.reps[r], s.clock, ev) && Minted(s, ev)
  }

  function Moved(cfg: Config, s: System, m: Move): System
    requires CanMove(s, m)
  {
    match m
    case Tick(d) => s.(clock := s.clock + d)
    case Step(r, ev) =>
      var e := Do(cfg, s.table, s.reps[r], s.clock, ev);
      System(s.clock, e.table, s.reps[r := e.rep], s.used + MintedIds(ev),
             if e.won.Some? then s.wins + multiset{e.won.value} else s.wins,
             if e.served.Some? then s.lastServed[e.served.value := s.clock] else s.lastServed)
  }

  /** The moves can be made one after the other. */
  predicate Legal(cfg: Config, s: System, moves: seq<Move>)
    decreases |moves|
  {
    moves == [] || (CanMove(s, moves[0]) && Legal(cfg, Moved(cfg, s, moves[0]), moves[1..]))
  }

  function Run(cfg: Config, s: System, moves: seq<Move>): System
    requires Legal(cfg, s, moves)
    decreases |moves|
  {
    if moves == [] then s else Run(cfg, Moved(cfg, s, moves[0]), moves[1..])
  }

  /** The moves lead from s to u. */
  ghost predicate Reaches(cfg: Config, s: System, moves: seq<Move>, u: System) {
    Legal(cfg, s, moves) && Run(cfg, s, moves) == u
  }

  lemma {:induction false} ReachesThen(cfg: Config, s: System, a: seq<Move>, u: System, b: seq<Move>, v: System)
    requires Reaches(cfg, s, a, u) && Reaches(cfg, u, b, v)
    ensures Reaches(cfg, s, a + b, v)
    decreases |a|
  {
    hide CanMove, Moved;
    if a == [] {
      assert a + b == b;
    } else {
      ReachesThen(cfg, Moved(cfg, s, a[0]), a[1..], u, b, v);
      assert (a + b)[1..] == a[1..] + b;
    }
  }

  lemma OneMove(cfg: Config, s: System, m: Move)
    requires CanMove(s, m)
    ensures Reaches(cfg, s, [m], Moved(cfg, s, m))
  {
    hide CanMove, Moved;
    assert [m][1..] == [];
    assert Reaches(cfg, Moved(cfg, s, m), [], Moved(cfg, s, m));
  }
}
