/** What a scan may retire on the mere absence of a row. */
module ScanSafety {
  import opened Wrappers
  import opened Sessions
  import opened SessionSteps

  // --- how markers change --------------------------------------------------------------------------------

  ghost predicate Stamped(r: Replica) {
    forall id :: id in r.generations ==> r.generations[id] <= r.gen
  }

  /** Every marker of q is one of r, or newer than anything r had handed out. */
  ghost predicate Remarked(r: Replica, q: Replica) {
    && r.gen <= q.gen && Stamped(q)
    && forall id :: id in q.generations ==> (id in r.generations && q.generations[id] == r.generations[id]) || r.gen < q.generations[id]
  }

  /** ... and neither the scan nor the admission mutex is concerned. */
  ghost predicate Aside(r: Replica, q: Replica) {
    Remarked(r, q) && q.scan == r.scan && q.admit == r.admit
  }

  lemma Twice(r: Replica, q: Replica, w: Replica)
    requires Aside(r, q) && Aside(q, w)
    ensures Aside(r, w)
  {
  }

  lemma MarkerPieces(r: Replica, oldId: Id, id: Id, ok: bool, h: Held)
    requires Stamped(r)
    ensures Aside(r, r) && Aside(r, Stamp(r, id)) && Aside(r, Release(r, id)) && Aside(r, Forget(r, id)) && Aside(r, SetPersisted(r, id, ok))
    ensures Aside(r, LocalDelete(r, id)) && Aside(r, Keep(r, id, h)) && Aside(r, LocalReplace(r, oldId, id, h))
  {
  }

  lemma LandAside(r: Replica, id: Id, h: Held, victim: Option<Id>)
    requires Stamped(r)
    ensures Aside(r, LocalSave(r, id, h, victim))
  {
    hide Remarked, LocalDelete, Forget, Keep;
    StampedBy();
    MarkerPieces(r, id, id, true, h);
    if victim.Some? {
      MarkerPieces(r, id, victim.value, true, h);
      var d := LocalDelete(r, victim.value);
      MarkerPieces(d, id, victim.value, true, h);
      var f := Forget(d, victim.value);
      MarkerPieces(f, id, id, true, h);
      Twice(r, d, f);
      Twice(r, f, Keep(f, id, h));
    }
  }

  lemma StampedBy()
    ensures forall r, q {:trigger Remarked(r, q)} :: Remarked(r, q) ==> Stamped(q)
  {
  }

  lemma InsertAside(cfg: Config, t: Table, r: Replica, id: Id, row: Row, tx: Tx)
    requires Stamped(r)
    ensures Aside(r, Insert(cfg, t, r, id, row, tx).rep)
  {
    hide CapReached;
  }

  lemma RowAside(t: Table, r: Replica, oldId: Id, id: Id, row: Row, tx: Tx)
    requires Stamped(r)
    ensures Aside(r, ReplaceRow(t, r, oldId, id, row, tx).rep)
  {
  }

  lemma DeleteAside(t: Table, r: Replica, id: Id, reply: Reply)
    requires Stamped(r)
    ensures Aside(r, DeleteRow(t, r, id, reply).rep)
  {
  }

  lemma TouchAside(cfg: Config, t: Table, r: Replica, id: Id, now: Time, reply: Reply)
    requires Stamped(r)
    ensures Aside(r, Touch(cfg, t, r, id, now, reply).rep)
  {
    hide TouchEvery;
  }

  lemma ServeAside(cfg: Config, t: Table, r: Replica, id: Id, now: Time)
    requires Stamped(r)
    ensures Aside(r, Serve(cfg, t, r, id, now).rep) && Serve(cfg, t, r, id, now).table == t
  {
  }

  lemma SwapAside(t: Table, r: Replica, oldId: Id, oldObj: nat, id: Id, h: Held)
    requires Stamped(r)
    ensures Aside(r, SwapLocally(t, r, oldId, oldObj, id, h).rep) && SwapLocally(t, r, oldId, oldObj, id, h).table == t
  {
    hide Remarked, LocalReplace, Forget, SetPersisted;
    StampedBy();
    MarkerPieces(r, oldId, id, true, h);
    var l := LocalReplace(r, oldId, id, h);
    MarkerPieces(l, oldId, oldId, true, h);
    var f := Forget(l, oldId);
    MarkerPieces(f, oldId, id, false, h);
    Twice(r, l, f);
    Twice(r, f, SetPersisted(f, id, false));
  }

  // --- the history of one replica ------------------------------------------------------------------------

  /** marks: every stamp that has not been given up, whether or not a finished scan has pruned it.
      pruned: the epoch of the last finished scan.
      kept: the ids adopted and marked here whose row has stood ever since.
      published: likewise the ids a Save or a login made visible here.
      exposed: the ids whose publication had been stamped, but not committed, both when the current scan
      took its epoch and when it took its snapshot. */
  datatype Trace = Trace(marks: map<Id, nat>, pruned: nat, kept: set<Id>, published: set<Id>, exposed: set<Id>)

  const NO_TRACE: Trace := Trace(map[], 0, {}, {}, {})

  /** The id being published, stamped and not yet committed. */
  predicate InFlight(r: Replica, x: Id) {
    && ((r.admit.Saving? && r.admit.id == x) || (r.admit.Swapping? && r.admit.marked && r.admit.id == x))
    && x in r.generations
  }

  predicate Snapped(r: Replica) {
    r.scan.Scan? && r.scan.stage != Began && r.scan.stage != Swept
  }

  predicate MarkedAfter(r: Replica, x: Id) {
    r.scan.Scan? && x in r.generations && r.generations[x] > r.scan.epoch
  }

  /** The ids whose marker the step gave up: released, handed off or forgotten. */
  function GivenUp(r: Replica, q: Replica): set<Id> {
    set id | id in r.generations && id !in q.generations
  }

  function Recorded(tr: Trace, r: Replica, ev: Event, e: Effect): Trace {
    var q := e.rep;
    if ev.ScanPrune? then tr.(pruned := if r.scan.Scan? then r.scan.epoch else tr.pruned, exposed := {})
    else
      var standing := e.table.Keys - GivenUp(r, q);
      var adopted := if ev.Adopt? && ev.id in q.generations && CanReserve(r, ev.id) then {ev.id} else {};
      var committed := if (ev.SaveCommit? && r.admit.Saving?) || (ev.ReplaceCommit? && r.admit.Swapping?) then {r.admit.id} else {};
      var caught := if ev.ScanSnapshot? && Snapped(q)
                    then set id | id in r.generations && InFlight(r, id)
                    else tr.exposed;
      Trace((tr.marks - GivenUp(r, q)) + q.generations, tr.pruned,
            (tr.kept + adopted) * standing,
            (tr.published + (committed * q.generations.Keys)) * standing,
            if Snapped(q) then set id | id in caught && id !in q.scan.present && !MarkedAfter(q, id) else {})
  }

  /** Another replica's step: rows may have gone. */
  function Observed(tr: Trace, t: Table): Trace {
    tr.(kept := tr.kept * t.Keys, published := tr.published * t.Keys)
  }

  // --- what holds at every point -------------------------------------------------------------------------

  /** The markers are exactly the stamps newer than the last finished scan. */
  ghost predicate MarksOk(r: Replica, tr: Trace) {
    && Stamped(r) && tr.pruned <= r.gen && (r.scan.Scan? ==> tr.pruned <= r.scan.epoch <= r.gen)
    && (forall id :: id in r.generations <==> id in tr.marks && tr.marks[id] > tr.pruned)
    && (forall id :: id in r.generations ==> r.generations[id] == tr.marks[id])
  }

  /** Before the sweep, an id is accounted for if the snapshot has its row or its marker is newer. */
  predicate Covered(r: Replica, x: Id) {
    Snapped(r) ==> x in r.scan.present || MarkedAfter(r, x)
  }

  ghost predicate Guarded(t: Table, r: Replica, tr: Trace) {
    && MarksOk(r, tr)
    && (forall x :: x in tr.kept ==> x in t && Covered(r, x))
    && (forall x :: x in tr.published ==> x in t && (Covered(r, x) || x in tr.exposed))
    && (forall x :: InFlight(r, x) ==> Covered(r, x) || x in tr.exposed)
    && (forall x :: x in tr.exposed ==> Snapped(r) && x !in r.scan.present && !MarkedAfter(r, x))
  }

  /** What a step other than the final pruning does as far as scans are concerned. */
  ghost predicate Facts(t: Table, r: Replica, ev: Event, e: Effect) {
    var q := e.rep;
    && Remarked(r, q)
    && (q.scan.Scan? ==> (r.scan.Scan? && q.scan.epoch == r.scan.epoch && q.scan.at == r.scan.at)
                         || (ev.ScanEpoch? && q.scan.epoch == r.gen && q.scan.at == ev.at && !Snapped(q)))
    && (Snapped(q) ==> (Snapped(r) && r.scan.present.Keys <= q.scan.present.Keys)
                       || (ev.ScanSnapshot? && q.scan.present == t && q.generations == r.generations && q.admit == r.admit && e.table == t))
    && (q.admit == r.admit || (!q.admit.Saving? && !q.admit.Swapping?)
        || ((q.admit.Saving? || q.admit.Swapping?) && ((q.admit.Swapping? ==> q.admit.marked) && q.admit.id in q.generations ==> q.generations[q.admit.id] > r.gen)))
    && (ev.Adopt? && CanReserve(r, ev.id) && ev.id in q.generations ==> q.generations[ev.id] > r.gen)
  }

  // --- the facts, step by step ---------------------------------------------------------------------------

  lemma SaveBeginFacts(cfg: Config, t: Table, r: Replica, id: Id, h: Held)
    requires Stamped(r) && r.admit.Free?
    ensures Facts(t, r, SaveBegin(id, h), DoSaveBegin(cfg, t, r, id, h))
  {
    hide CapReached, CanReserve;
  }

  lemma SaveCommitFacts(cfg: Config, t: Table, r: Replica, tx: Tx)
    requires Stamped(r) && r.admit.Saving?
    ensures Facts(t, r, SaveCommit(tx), DoSaveCommit(cfg, t, r, tx))
  {
    hide Insert, Stamped;
    InsertAside(cfg, t, r, r.admit.id, r.admit.held.row, tx);
    SameStamps(Insert(cfg, t, r, r.admit.id, r.admit.held.row, tx).rep, DoSaveCommit(cfg, t, r, tx).rep);
  }

  lemma SaveMarkFacts(t: Table, r: Replica, id: Id)
    requires Stamped(r) && id in r.saves && r.saves[id].Marking?
    ensures Facts(t, r, SaveMark(id), DoSaveMark(t, r, id))
  {
  }

  lemma SaveLandFacts(t: Table, r: Replica, id: Id, victim: Option<Id>)
    requires Stamped(r) && id in r.saves
    ensures Facts(t, r, SaveLand(id, victim), DoSaveLand(t, r, id, victim))
  {
    hide LocalSave, Stamped;
    var q := r.(saves := r.saves - {id});
    assert Stamped(q) by { SameStamps(r, q); }
    LandAside(q, id, r.saves[id].held, victim);
  }

  lemma SameStamps(r: Replica, q: Replica)
    requires Stamped(r) && q.gen == r.gen && q.generations == r.generations
    ensures Stamped(q)
  {
  }

  lemma DeleteFacts(t: Table, r: Replica, id: Id, reply: Reply)
    requires Stamped(r)
    ensures Facts(t, r, DeleteShared(id, reply), DoDeleteShared(t, r, id, reply))
    ensures Facts(t, r, DeleteLocal(id), DoDeleteLocal(t, r, id))
  {
    hide DeleteRow;
    DeleteAside(t, r, id, reply);
  }

  lemma ReplaceBeginFacts(t: Table, r: Replica, oldId: Id, oldObj: nat, id: Id, h: Held)
    requires Stamped(r) && r.admit.Free?
    ensures Facts(t, r, ReplaceBegin(oldId, oldObj, id, h), DoReplaceBegin(t, r, oldId, oldObj, id, h))
  {
    hide CanHandOff;
  }

  lemma ReplaceCommitFacts(t: Table, r: Replica, tx: Tx, victim: Option<Id>)
    requires Stamped(r) && r.admit.Swapping?
    ensures Facts(t, r, ReplaceCommit(tx, victim), DoReplaceCommit(t, r, tx, victim))
  {
    hide ReplaceRow, SwapLocally, LocalSave, LocalDelete, SetPersisted, Forget, Stamped;
    var a, q := r.admit, r.(admit := Free);
    assert Stamped(q) by { SameStamps(r, q); }
    RowAside(t, q, a.oldId, a.id, a.held.row, tx);
    var s := ReplaceRow(t, q, a.oldId, a.id, a.held.row, tx);
    SwapAside(s.table, s.rep, a.oldId, a.oldObj, a.id, a.held);
    DoneAside(s.rep, a.oldId, a.id, a.held, victim);
    hide Remarked;
    CommitFacts(t, r, q, s.rep, tx, victim);
  }

  lemma CommitFacts(t: Table, r: Replica, q: Replica, w: Replica, tx: Tx, victim: Option<Id>)
    requires Stamped(r) && r.admit.Swapping? && q == r.(admit := Free) && Aside(q, w)
    requires Aside(w, DoReplaceCommit(t, r, tx, victim).rep) || DoReplaceCommit(t, r, tx, victim).rep == w
    ensures Facts(t, r, ReplaceCommit(tx, victim), DoReplaceCommit(t, r, tx, victim))
  {
    hide DoReplaceCommit;
  }

  lemma DoneAside(r: Replica, oldId: Id, id: Id, h: Held, victim: Option<Id>)
    requires Stamped(r)
    ensures Aside(r, LocalSave(LocalDelete(SetPersisted(Forget(r, oldId), id, true), oldId), id, h, victim))
  {
    hide LocalSave, LocalDelete, SetPersisted, Forget, Remarked;
    StampedBy();
    MarkerPieces(r, oldId, oldId, true, h);
    var f := Forget(r, oldId);
    MarkerPieces(f, oldId, id, true, h);
    var p := SetPersisted(f, id, true);
    MarkerPieces(p, oldId, oldId, true, h);
    var d := LocalDelete(p, oldId);
    LandAside(d, id, h, victim);
    Twice(r, f, p);
    Twice(r, p, d);
    Twice(r, d, LocalSave(d, id, h, victim));
  }

  lemma ReplaceUnmarkedFacts(t: Table, r: Replica, reply: Reply)
    requires Stamped(r) && r.admit.Swapping?
    ensures Facts(t, r, ReplaceUnmarked(reply), DoReplaceUnmarked(t, r, reply))
  {
    hide DeleteRow, SwapLocally, Stamped;
    var a, q := r.admit, r.(admit := Free);
    assert Stamped(q) by { SameStamps(r, q); }
    DeleteAside(t, q, a.oldId, reply);
    var d := DeleteRow(t, q, a.oldId, reply);
    SwapAside(d.table, d.rep, a.oldId, a.oldObj, a.id, a.held);
  }

  lemma LookupFacts(cfg: Config, t: Table, r: Replica, id: Id, now: Time, reply: Reply, touched: Reply)
    requires Stamped(r)
    ensures Facts(t, r, Lookup(id, reply, touched), DoLookup(cfg, t, r, id, now, reply, touched))
  {
    hide Serve, Touch, AbsenceIsFinal, Stamped;
    ServeAside(cfg, t, r, id, now);
    TouchAside(cfg, t, r, id, now, touched);
    var d := Touch(cfg, t, r, id, now, touched);
    ServeAside(cfg, d.table, d.rep, id, now);
    if id in t && id !in r.local && reply.Answered? {
      SameStamps(r, DoLookup(cfg, t, r, id, now, reply, touched).rep);
    }
  }

  lemma AdoptFacts(cfg: Config, t: Table, r: Replica, id: Id, row: Row, obj: nat, victim: Option<Id>, now: Time, touched: Reply)
    requires Stamped(r)
    ensures Facts(t, r, Adopt(id, row, obj, victim, touched), DoAdopt(cfg, t, r, id, row, obj, victim, now, touched))
  {
    hide Serve, Touch, LocalSave, CanReserve, Stamped;
    StampedBy();
    var h := Held(row, obj);
    var m := if CanReserve(r, id) then Stamp(r, id) else r;
    MarkerPieces(r, id, id, true, h);
    LandAside(m, id, h, victim);
    var l := LocalSave(m, id, h, victim);
    TouchAside(cfg, t, l, id, now, touched);
    var d := Touch(cfg, t, l, id, now, touched);
    var w := d.rep.(adopting := r.adopting - {(id, row)});
    assert Stamped(w) by { SameStamps(d.rep, w); }
    ServeAside(cfg, d.table, w, id, now);
  }

  lemma RepersistFacts(cfg: Config, t: Table, r: Replica, id: Id, tx: Tx)
    requires Stamped(r) && InStage(r, Collected) && r.admit.Repersisting?
    ensures Facts(t, r, RepersistOne(id, tx), DoRepersistOne(cfg, t, r, id, tx))
  {
    hide Insert, CanReserve, CapReached, Stamped, Remarked, Stamp, Facts, DoRepersistOne;
    var q := r.(scan := r.scan.(pending := r.scan.pending - {id}));
    if id !in r.local || id in r.scan.present || r.admit.full || !CanReserve(q, id) {
      SkipFacts(cfg, t, r, q, id, tx);
    } else {
      SameStamps(r, q);
      StampAside(q, id);
      InsertAside(cfg, t, Stamp(q, id), id, r.local[id].row, tx);
      Twice(q, Stamp(q, id), Insert(cfg, t, Stamp(q, id), id, r.local[id].row, tx).rep);
      WriteFacts(cfg, t, r, q, id, tx);
    }
  }

  lemma StampAside(r: Replica, id: Id)
    requires Stamped(r)
    ensures Aside(r, Stamp(r, id)) && Stamped(Stamp(r, id))
  {
  }

  /** A turn that writes nothing. */
  lemma SkipFacts(cfg: Config, t: Table, r: Replica, q: Replica, id: Id, tx: Tx)
    requires Stamped(r) && InStage(r, Collected) && r.admit.Repersisting? && q == r.(scan := r.scan.(pending := r.scan.pending - {id}))
    requires id !in r.local || id in r.scan.present || r.admit.full || !CanReserve(q, id)
    ensures Facts(t, r, RepersistOne(id, tx), DoRepersistOne(cfg, t, r, id, tx))
  {
    hide Facts, CanReserve, Insert, Stamp, Stamped;
    assert Same(r, DoRepersistOne(cfg, t, r, id, tx).rep);
    hide DoRepersistOne, Same;
    SameFacts(t, r, RepersistOne(id, tx), DoRepersistOne(cfg, t, r, id, tx));
  }

  /** A turn that tries to write a row. */
  lemma WriteFacts(cfg: Config, t: Table, r: Replica, q: Replica, id: Id, tx: Tx)
    requires InStage(r, Collected) && r.admit.Repersisting? && q == r.(scan := r.scan.(pending := r.scan.pending - {id}))
    requires id in r.local && id !in r.scan.present && !r.admit.full && CanReserve(q, id)
    requires Aside(q, Insert(cfg, t, Stamp(q, id), id, r.local[id].row, tx).rep)
    ensures Facts(t, r, RepersistOne(id, tx), DoRepersistOne(cfg, t, r, id, tx))
  {
    hide Insert, CanReserve, CapReached, Stamp;
  }

  lemma SweepLocalFacts(cfg: Config, t: Table, r: Replica)
    requires Stamped(r) && r.scan.Scan?
    ensures Facts(t, r, SweepLocal, DoSweepLocal(cfg, t, r))
  {
    hide RetiredOnAbsence, PolicyDead;
  }

  lemma SweepDeadFacts(t: Table, r: Replica, id: Id, reply: Reply)
    requires Stamped(r) && InStage(r, Swept)
    ensures Facts(t, r, SweepDead(id, reply), DoSweepDead(t, r, id, reply))
  {
    hide DeleteRow, Forget, Remarked, Stamped, Facts;
    ForgetAside(r, id);
    var f := Forget(r, id);
    DeleteAside(t, f, id, reply);
    Twice(r, f, DeleteRow(t, f, id, reply).rep);
    var d := if id in r.scan.present then DeleteRow(t, f, id, reply).rep else f;
    SweptFacts(t, r, d, SweepDead(id, reply), DoSweepDead(t, r, id, reply));
  }

  lemma ForgetAside(r: Replica, id: Id)
    requires Stamped(r)
    ensures Aside(r, Forget(r, id)) && Stamped(Forget(r, id))
  {
  }

  /** A sweep is past its snapshot. */
  lemma SweptFacts(t: Table, r: Replica, d: Replica, ev: Event, e: Effect)
    requires Aside(r, d) && InStage(r, Swept) && e.rep == d.(scan := e.rep.scan) && InStage(e.rep, Swept) && !ev.Adopt?
    requires e.rep.scan.epoch == r.scan.epoch && e.rep.scan.at == r.scan.at
    ensures Facts(t, r, ev, e)
  {
  }

  lemma SweepSharedFacts(cfg: Config, t: Table, r: Replica, id: Id, reply: Reply)
    requires Stamped(r) && InStage(r, Swept) && id in r.scan.present
    ensures Facts(t, r, SweepShared(id, reply), DoSweepShared(cfg, t, r, id, reply))
  {
    hide Abandoned, StillSeen;
  }

  lemma ScanFacts(cfg: Config, t: Table, r: Replica, now: Time, ev: Event)
    requires Stamped(r) && Enabled(r, now, ev)
    requires ev.Detach? || ev.ScanEpoch? || ev.ScanSnapshot? || ev.ScanReconcile? || ev.ScanCollect? || ev.RepersistBegin? || ev.RepersistEnd?
    ensures Facts(t, r, ev, Do(cfg, t, r, now, ev))
  {
    hide Facts, Do, Enabled;
    match ev
    case ScanEpoch(at) => EpochFacts(cfg, t, r, now, at);
    case ScanSnapshot(reply) => SnapshotFacts(cfg, t, r, now, reply);
    case _ => StageFacts(cfg, t, r, now, ev);
  }

  /** The markers stay as they are, a running scan keeps what it has read, and no publication begins. */
  ghost predicate Same(r: Replica, q: Replica) {
    && q.gen == r.gen && q.generations == r.generations && (q.admit == r.admit || (!q.admit.Saving? && !q.admit.Swapping?))
    && (q.scan.Scan? ==> r.scan.Scan? && q.scan.epoch == r.scan.epoch && q.scan.at == r.scan.at)
    && (Snapped(q) ==> Snapped(r) && r.scan.present.Keys <= q.scan.present.Keys)
  }

  lemma SameFacts(t: Table, r: Replica, ev: Event, e: Effect)
    requires Stamped(r) && Same(r, e.rep) && !ev.Adopt?
    ensures Facts(t, r, ev, e)
  {
    hide Snapped;
  }

  lemma EpochFacts(cfg: Config, t: Table, r: Replica, now: Time, at: Time)
    requires Stamped(r) && Enabled(r, now, ScanEpoch(at))
    ensures Facts(t, r, ScanEpoch(at), Do(cfg, t, r, now, ScanEpoch(at)))
  {
  }

  lemma SnapshotFacts(cfg: Config, t: Table, r: Replica, now: Time, reply: Reply)
    requires Stamped(r) && Enabled(r, now, ScanSnapshot(reply))
    ensures Facts(t, r, ScanSnapshot(reply), Do(cfg, t, r, now, ScanSnapshot(reply)))
  {
    hide PolicyDead;
  }

  lemma StageFacts(cfg: Config, t: Table, r: Replica, now: Time, ev: Event)
    requires Stamped(r) && Enabled(r, now, ev) && (ev.Detach? || ev.ScanReconcile? || ev.ScanCollect? || ev.RepersistBegin? || ev.RepersistEnd?)
    ensures Facts(t, r, ev, Do(cfg, t, r, now, ev))
  {
    assert Same(r, Do(cfg, t, r, now, ev).rep) by { hide CapReached, Facts, Stamped; }
    hide Do, Facts, Same, Enabled;
    SameFacts(t, r, ev, Do(cfg, t, r, now, ev));
  }

  // --- the invariant is kept -----------------------------------------------------------------------------

  /** What the step is allowed to claim about what it commits or adopts. */
  ghost predicate Apt(r: Replica, ev: Event) {
    && (ev.SaveCommit? ==> r.admit.Saving?) && (ev.ReplaceCommit? ==> r.admit.Swapping? && r.admit.marked)
    && (ev.ScanSnapshot? ==> !Snapped(r))
  }

  lemma MarksKept(t: Table, r: Replica, tr: Trace, ev: Event, e: Effect)
    requires MarksOk(r, tr) && Facts(t, r, ev, e) && !ev.ScanPrune?
    ensures MarksOk(e.rep, Recorded(tr, r, ev, e))
  {
  }

  /** An id whose marker has not been given up stays covered. */
  lemma CoverKept(t: Table, r: Replica, tr: Trace, ev: Event, e: Effect, x: Id)
    requires MarksOk(r, tr) && Facts(t, r, ev, e) && x !in GivenUp(r, e.rep) && Apt(r, ev)
    requires Covered(r, x) && (ev.ScanSnapshot? && Snapped(e.rep) ==> x in t)
    ensures Covered(e.rep, x)
  {
  }

  lemma KeptKept(t: Table, r: Replica, tr: Trace, ev: Event, e: Effect, x: Id)
    requires Guarded(t, r, tr) && Facts(t, r, ev, e) && !ev.ScanPrune? && Apt(r, ev) && x in Recorded(tr, r, ev, e).kept
    ensures x in e.table && Covered(e.rep, x)
  {
    hide Facts, MarksOk, Covered, GivenUp;
    if x in tr.kept {
      CoverKept(t, r, tr, ev, e, x);
    } else {
      NewlyMarked(t, r, tr, ev, e, x);
    }
  }

  lemma NewlyMarked(t: Table, r: Replica, tr: Trace, ev: Event, e: Effect, x: Id)
    requires MarksOk(r, tr) && Facts(t, r, ev, e) && Apt(r, ev)
    requires ev.Adopt? && ev.id == x && CanReserve(r, x) && x in e.rep.generations
    ensures Covered(e.rep, x)
  {
  }

  /** Covered, or exposed, after the step. */
  lemma ExposedKept(t: Table, r: Replica, tr: Trace, ev: Event, e: Effect, x: Id)
    requires Guarded(t, r, tr) && Facts(t, r, ev, e) && !ev.ScanPrune? && Apt(r, ev) && x !in GivenUp(r, e.rep)
    requires Covered(r, x) || x in tr.exposed
    requires ev.ScanSnapshot? && Snapped(e.rep) ==> x in t || (x in r.generations && InFlight(r, x))
    ensures Covered(e.rep, x) || x in Recorded(tr, r, ev, e).exposed
  {
    hide GivenUp, InFlight, MarksOk;
    if Covered(r, x) && !(ev.ScanSnapshot? && Snapped(e.rep)) {
      CoverKept(t, r, tr, ev, e, x);
    }
  }

  lemma PublishedKept(t: Table, r: Replica, tr: Trace, ev: Event, e: Effect, x: Id)
    requires Guarded(t, r, tr) && Facts(t, r, ev, e) && !ev.ScanPrune? && Apt(r, ev) && x in Recorded(tr, r, ev, e).published
    ensures x in e.table && (Covered(e.rep, x) || x in Recorded(tr, r, ev, e).exposed)
  {
    hide Facts, MarksOk, Covered, GivenUp, Snapped, MarkedAfter;
    if x in tr.published {
      ExposedKept(t, r, tr, ev, e, x);
    } else if x in r.generations {
      assert InFlight(r, x);
      ExposedKept(t, r, tr, ev, e, x);
    } else {
      NewlyStamped(t, r, tr, ev, e, x);
    }
  }

  lemma NewlyStamped(t: Table, r: Replica, tr: Trace, ev: Event, e: Effect, x: Id)
    requires MarksOk(r, tr) && Facts(t, r, ev, e) && Apt(r, ev) && !ev.ScanSnapshot?
    requires x in e.rep.generations && x !in r.generations
    ensures Covered(e.rep, x)
  {
  }

  lemma FlightKept(t: Table, r: Replica, tr: Trace, ev: Event, e: Effect, x: Id)
    requires Guarded(t, r, tr) && Facts(t, r, ev, e) && !ev.ScanPrune? && Apt(r, ev) && InFlight(e.rep, x)
    ensures Covered(e.rep, x) || x in Recorded(tr, r, ev, e).exposed
  {
    hide MarksOk, Covered, Snapped, MarkedAfter;
    if e.rep.admit == r.admit && x in r.generations {
      assert InFlight(r, x);
      hide Facts;
      ExposedKept(t, r, tr, ev, e, x);
    } else if x !in r.generations && !ev.ScanSnapshot? {
      hide Facts;
      NewlyStamped(t, r, tr, ev, e, x);
    } else {
      FreshFlight(t, r, tr, ev, e, x);
    }
  }

  lemma FreshFlight(t: Table, r: Replica, tr: Trace, ev: Event, e: Effect, x: Id)
    requires MarksOk(r, tr) && Facts(t, r, ev, e) && Apt(r, ev) && InFlight(e.rep, x)
    requires e.rep.admit != r.admit || (x !in r.generations && ev.ScanSnapshot?)
    ensures Covered(e.rep, x)
  {
  }

  lemma GuardKept(t: Table, r: Replica, tr: Trace, ev: Event, e: Effect)
    requires Guarded(t, r, tr) && Facts(t, r, ev, e) && !ev.ScanPrune? && Apt(r, ev)
    ensures Guarded(e.table, e.rep, Recorded(tr, r, ev, e))
  {
    hide Facts, MarksOk, Covered, GivenUp, InFlight, Apt;
    MarksKept(t, r, tr, ev, e);
    var tr' := Recorded(tr, r, ev, e);
    forall x | x in tr'.kept ensures x in e.table && Covered(e.rep, x) {
      KeptKept(t, r, tr, ev, e, x);
    }
    forall x | x in tr'.published ensures x in e.table && (Covered(e.rep, x) || x in tr'.exposed) {
      PublishedKept(t, r, tr, ev, e, x);
    }
    forall x | InFlight(e.rep, x) ensures Covered(e.rep, x) || x in tr'.exposed {
      FlightKept(t, r, tr, ev, e, x);
    }
  }

  /** The final pruning removes exactly the markers the finished scan has outlived. */
  lemma PruneKept(t: Table, r: Replica, tr: Trace)
    requires Guarded(t, r, tr) && InStage(r, Swept)
    ensures var e := DoScanPrune(t, r); Guarded(t, e.rep, Recorded(tr, r, ScanPrune, e))
  {
  }

  /** Another replica's step can only take rows away or add them. */
  lemma ObserveKept(t: Table, r: Replica, tr: Trace, t': Table)
    requires Guarded(t, r, tr)
    ensures Guarded(t', r, Observed(tr, t'))
  {
    hide MarksOk, Covered;
    MarksIgnore(r, tr, t');
  }

  lemma MarksIgnore(r: Replica, tr: Trace, t': Table)
    requires MarksOk(r, tr)
    ensures MarksOk(r, Observed(tr, t'))
  {
  }

  lemma StepFacts(cfg: Config, t: Table, r: Replica, now: Time, ev: Event)
    requires Stamped(r) && Enabled(r, now, ev) && !ev.ScanPrune?
    ensures Facts(t, r, ev, Do(cfg, t, r, now, ev)) && Apt(r, ev)
  {
    hide Stamped, Facts, DoSaveBegin, DoReplaceBegin, DoSaveCommit, DoSaveMark, DoSaveLand, DoDeleteShared, DoDeleteLocal,
         DoReplaceCommit, DoReplaceUnmarked, DoLookup, DoAdopt, DoRepersistOne, DoSweepLocal, DoSweepDead, DoSweepShared,
         DoDetach, DoScanEpoch, DoScanSnapshot, DoScanReconcile, DoScanCollect, DoRepersistBegin, DoRepersistEnd, CanEvict;
    match ev
    case SaveBegin(id, h) => SaveBeginFacts(cfg, t, r, id, h);
    case SaveCommit(tx) => SaveCommitFacts(cfg, t, r, tx);
    case SaveMark(id) => SaveMarkFacts(t, r, id);
    case SaveLand(id, victim) => SaveLandFacts(t, r, id, victim);
    case DeleteShared(id, reply) => DeleteFacts(t, r, id, reply);
    case DeleteLocal(id) => DeleteFacts(t, r, id, Answered);
    case ReplaceBegin(oldId, oldObj, id, h) => ReplaceBeginFacts(t, r, oldId, oldObj, id, h);
    case ReplaceCommit(tx, victim) => ReplaceCommitFacts(t, r, tx, victim);
    case ReplaceUnmarked(reply) => ReplaceUnmarkedFacts(t, r, reply);
    case Lookup(id, reply, touched) => LookupFacts(cfg, t, r, id, now, reply, touched);
    case Adopt(id, row, obj, victim, touched) => AdoptFacts(cfg, t, r, id, row, obj, victim, now, touched);
    case RepersistOne(id, tx) => RepersistFacts(cfg, t, r, id, tx);
    case SweepLocal => SweepLocalFacts(cfg, t, r);
    case SweepDead(id, reply) => SweepDeadFacts(t, r, id, reply);
    case SweepShared(id, reply) => SweepSharedFacts(cfg, t, r, id, reply);
    case _ => ScanFacts(cfg, t, r, now, ev);
  }

  // --- runs ----------------------------------------------------------------------------------------------

  type Traces = map<RId, Trace>

  function TracesMoved(cfg: Config, s: System, trs: Traces, m: Move): Traces
    requires CanMove(s, m)
  {
    match m
    case Tick(_) => trs
    case Step(r, ev) =>
      var e := Do(cfg, s.table, s.reps[r], s.clock, ev);
      map q | q in trs :: if q == r then Recorded(trs[q], s.reps[r], ev, e) else Observed(trs[q], e.table)
  }

  function RunTraces(cfg: Config, s: System, trs: Traces, moves: seq<Move>): Traces
    requires Legal(cfg, s, moves)
    decreases |moves|
  {
    if moves == [] then trs else RunTraces(cfg, Moved(cfg, s, moves[0]), TracesMoved(cfg, s, trs, moves[0]), moves[1..])
  }

  ghost predicate AllGuarded(s: System, trs: Traces) {
    trs.Keys == s.reps.Keys && forall r :: r in s.reps ==> Guarded(s.table, s.reps[r], trs[r])
  }

  lemma OwnStep(cfg: Config, t: Table, r: Replica, tr: Trace, now: Time, ev: Event)
    requires Guarded(t, r, tr) && Enabled(r, now, ev)
    ensures var e := Do(cfg, t, r, now, ev); Guarded(e.table, e.rep, Recorded(tr, r, ev, e))
  {
    if ev.ScanPrune? {
      PruneKept(t, r, tr);
    } else {
      assert Stamped(r);
      hide Guarded, Recorded, Do, Enabled;
      StepFacts(cfg, t, r, now, ev);
      GuardKept(t, r, tr, ev, Do(cfg, t, r, now, ev));
    }
  }

  lemma MoveGuarded(cfg: Config, s: System, trs: Traces, m: Move)
    requires AllGuarded(s, trs) && CanMove(s, m)
    ensures AllGuarded(Moved(cfg, s, m), TracesMoved(cfg, s, trs, m))
  {
    hide Guarded, Do, Enabled, Recorded, Observed, Minted, MintedIds;
    if m.Step? {
      OwnStep(cfg, s.table, s.reps[m.r], trs[m.r], s.clock, m.ev);
      var e := Do(cfg, s.table, s.reps[m.r], s.clock, m.ev);
      forall q | q in s.reps && q != m.r ensures Guarded(e.table, s.reps[q], Observed(trs[q], e.table)) {
        ObserveKept(s.table, s.reps[q], trs[q], e.table);
      }
    }
  }

  lemma {:induction false} RunGuarded(cfg: Config, s: System, trs: Traces, moves: seq<Move>)
    requires AllGuarded(s, trs) && Legal(cfg, s, moves)
    ensures AllGuarded(Run(cfg, s, moves), RunTraces(cfg, s, trs, moves))
    decreases |moves|
  {
    hide AllGuarded, Moved, TracesMoved, CanMove;
    if moves != [] {
      MoveGuarded(cfg, s, trs, moves[0]);
      RunGuarded(cfg, Moved(cfg, s, moves[0]), TracesMoved(cfg, s, trs, moves[0]), moves[1..]);
    }
  }

  /** Replicas that have just started, with empty histories. */
  ghost predicate AtStart(s: System, trs: Traces) {
    && trs.Keys == s.reps.Keys
    && forall r :: r in s.reps ==> trs[r] == NO_TRACE && exists cfg, counted :: s.reps[r] == Fresh(cfg, counted)
  }

  /** What a sweep about to judge the local sessions will do. */
  ghost predicate Verdicts(r: Replica, tr: Trace)
    requires r.scan.Scan?
  {
    // no session is retired on absence whose marker was stamped after the scan's epoch
    && (forall x :: x in tr.marks && tr.marks[x] > r.scan.epoch ==> x !in RetiredOnAbsence(r))
    // nor one adopted and marked whose row still stands
    && (forall x :: x in tr.kept ==> x !in RetiredOnAbsence(r))
    // nor one published here whose row still stands -- except exactly those whose publication the scan's
    // epoch and snapshot both fell into
    && (forall x :: x in tr.published && x in r.local && x !in r.unpersisted ==> (x in RetiredOnAbsence(r) <==> x in tr.exposed))
    // and the verdicts are those that no pruning at all would have led to
    && RetiredOnAbsence(r) == RetiredOnAbsence(r.(generations := tr.marks))
  }

  lemma GuardedVerdicts(t: Table, r: Replica, tr: Trace)
    requires Guarded(t, r, tr) && InStage(r, Repersisted)
    ensures Verdicts(r, tr)
  {
  }

  /** In every run -- any number of replicas, any storage errors -- each scan's sweep is right about what it
      retires on absence alone. */
  lemma SweepsAreSafe(cfg: Config, s: System, trs: Traces, moves: seq<Move>, r: RId)
    requires AtStart(s, trs) && Legal(cfg, s, moves)
    requires r in Run(cfg, s, moves).reps && InStage(Run(cfg, s, moves).reps[r], Repersisted)
    ensures r in RunTraces(cfg, s, trs, moves) && Verdicts(Run(cfg, s, moves).reps[r], RunTraces(cfg, s, trs, moves)[r])
  {
    forall q | q in s.reps ensures Guarded(s.table, s.reps[q], trs[q]) {
    }
    hide Guarded, Verdicts, Run, RunTraces, Legal, AtStart;
    RunGuarded(cfg, s, trs, moves);
    GuardedVerdicts(Run(cfg, s, moves).table, Run(cfg, s, moves).reps[r], RunTraces(cfg, s, trs, moves)[r]);
  }

  /** One replica of a system, after some moves of its own. */
  ghost predicate Leads(cfg: Config, t: Table, r: Replica, now: Time, evs: seq<Event>, t': Table, r': Replica)
    decreases |evs|
  {
    if evs == [] then t' == t && r' == r
    else Enabled(r, now, evs[0]) && var e := Do(cfg, t, r, now, evs[0]); Leads(cfg, e.table, e.rep, now, evs[1..], t', r')
  }

  lemma LeadsOn(cfg: Config, t: Table, r: Replica, now: Time, ev: Event, evs: seq<Event>, t': Table, r': Replica)
    requires Enabled(r, now, ev)
    requires var e := Do(cfg, t, r, now, ev); Leads(cfg, e.table, e.rep, now, evs, t', r')
    ensures Leads(cfg, t, r, now, [ev] + evs, t', r')
  {
    assert ([ev] + evs)[1..] == evs;
  }

  lemma {:induction false} LeadsThrough(cfg: Config, t: Table, r: Replica, now: Time, evs: seq<Event>, t': Table, r': Replica,
                                        more: seq<Event>, u: Table, q: Replica)
    requires Leads(cfg, t, r, now, evs, t', r') && Leads(cfg, t', r', now, more, u, q)
    ensures Leads(cfg, t, r, now, evs + more, u, q)
    decreases |evs|
  {
    hide Enabled, Do;
    if evs == [] {
      assert evs + more == more;
    } else {
      var e := Do(cfg, t, r, now, evs[0]);
      LeadsThrough(cfg, e.table, e.rep, now, evs[1..], t', r', more, u, q);
      LeadsOn(cfg, t, r, now, evs[0], evs[1..] + more, u, q);
      assert evs + more == [evs[0]] + (evs[1..] + more);
    }
  }

  /** A Save has committed x; a scan took its epoch after the stamp and its snapshot before the commit. */
  ghost predicate CaughtInGap(r: Replica, x: Id) {
    && r.admit.Free? && InStage(r, Scanned) && x !in r.scan.present && x in r.generations && r.generations[x] <= r.scan.epoch
    && r.unpersisted == {} && x !in r.local && x in r.saves && r.saves[x].Marking? && r.saves[x].ok
  }

  /** A Save has been stamped, and a scan has taken its epoch since. */
  ghost predicate StampedInGap(cfg: Config, r: Replica, x: Id, h: Held) {
    && r.admit == Saving(x, h) && InStage(r, Began) && x in r.generations && r.generations[x] <= r.scan.epoch
    && r.unpersisted == {} && x !in r.local && !CapReached(cfg, r)
  }

  lemma StampInGap(cfg: Config, t: Table, r: Replica, now: Time, x: Id, h: Held) returns (evs: seq<Event>, r': Replica)
    requires r.admit.Free? && r.scan.NoScan? && x !in r.local && r.unpersisted == {} && !CapReached(cfg, r) && CanReserve(r, x)
    ensures Leads(cfg, t, r, now, evs, t, r') && StampedInGap(cfg, r', x, h)
  {
    var r1 := DoSaveBegin(cfg, t, r, x, h).rep;
    r' := DoScanEpoch(t, r1, now).rep;
    LeadsOn(cfg, t, r1, now, ScanEpoch(now), [], t, r');
    LeadsOn(cfg, t, r, now, SaveBegin(x, h), [ScanEpoch(now)], t, r');
    evs := [SaveBegin(x, h)] + [ScanEpoch(now)];
  }

  lemma CommitInGap(cfg: Config, t: Table, r: Replica, now: Time, x: Id, h: Held) returns (evs: seq<Event>, t': Table, r': Replica)
    requires StampedInGap(cfg, r, x, h) && x !in t
    ensures Leads(cfg, t, r, now, evs, t', r') && x in t' && CaughtInGap(r', x)
  {
    var r1 := DoScanSnapshot(cfg, t, r, Answered).rep;
    t' := t[x := h.row];
    r' := DoSaveCommit(cfg, t, r1, Committed).rep;
    LeadsOn(cfg, t, r1, now, SaveCommit(Committed), [], t', r');
    LeadsOn(cfg, t, r, now, ScanSnapshot(Answered), [SaveCommit(Committed)], t', r');
    evs := [ScanSnapshot(Answered)] + [SaveCommit(Committed)];
  }

  lemma IntoGap(cfg: Config, t: Table, r: Replica, now: Time, x: Id, h: Held) returns (evs: seq<Event>, t': Table, r': Replica)
    requires r.admit.Free? && r.scan.NoScan? && x !in t && x !in r.local && r.unpersisted == {}
    requires !CapReached(cfg, r) && CanReserve(r, x)
    ensures Leads(cfg, t, r, now, evs, t', r') && x in t' && CaughtInGap(r', x)
  {
    hide Leads, StampedInGap, CaughtInGap, CapReached, CanReserve;
    var first, q := StampInGap(cfg, t, r, now, x, h);
    var second;
    second, t', r' := CommitInGap(cfg, t, q, now, x, h);
    LeadsThrough(cfg, t, r, now, first, t, q, second, t', r');
    evs := first + second;
  }

  /** ... and the session is now held. */
  ghost predicate HeldInGap(r: Replica, x: Id) {
    && r.admit.Free? && InStage(r, Scanned) && x !in r.scan.present && x in r.generations && r.generations[x] <= r.scan.epoch
    && r.unpersisted == {} && x in r.local
  }

  lemma LandInGap(cfg: Config, t: Table, r: Replica, now: Time, x: Id) returns (evs: seq<Event>, r': Replica)
    requires CaughtInGap(r, x)
    ensures Leads(cfg, t, r, now, evs, t, r') && HeldInGap(r', x)
  {
    var r1 := DoSaveMark(t, r, x).rep;
    r' := DoSaveLand(t, r1, x, None).rep;
    LeadsOn(cfg, t, r1, now, SaveLand(x, None), [], t, r');
    LeadsOn(cfg, t, r, now, SaveMark(x), [SaveLand(x, None)], t, r');
    evs := [SaveMark(x)] + [SaveLand(x, None)];
  }

  /** The scan has nothing to write. */
  ghost predicate CollectedInGap(r: Replica, x: Id) {
    && r.admit.Free? && InStage(r, Collected) && r.scan.pending == {} && x !in r.scan.present && x in r.local
    && AbsenceIsFinal(r, x, Some(r.scan.epoch))
  }

  lemma CollectInGap(cfg: Config, t: Table, r: Replica, now: Time, x: Id) returns (evs: seq<Event>, r': Replica)
    requires HeldInGap(r, x)
    ensures Leads(cfg, t, r, now, evs, t, r') && CollectedInGap(r', x)
  {
    var r1 := DoScanReconcile(cfg, t, r, Answered).rep;
    r' := DoScanCollect(t, r1).rep;
    LeadsOn(cfg, t, r1, now, ScanCollect, [], t, r');
    LeadsOn(cfg, t, r, now, ScanReconcile(Answered), [ScanCollect], t, r');
    evs := [ScanReconcile(Answered)] + [ScanCollect];
  }

  lemma WriteInGap(cfg: Config, t: Table, r: Replica, now: Time, x: Id) returns (evs: seq<Event>, r': Replica)
    requires CollectedInGap(r, x)
    ensures Leads(cfg, t, r, now, evs, t, r') && InStage(r', Repersisted) && x in RetiredOnAbsence(r')
  {
    var r1 := DoRepersistBegin(cfg, t, r).rep;
    r' := DoRepersistEnd(t, r1).rep;
    LeadsOn(cfg, t, r1, now, RepersistEnd, [], t, r');
    LeadsOn(cfg, t, r, now, RepersistBegin, [RepersistEnd], t, r');
    evs := [RepersistBegin] + [RepersistEnd];
  }

  lemma OutOfGap(cfg: Config, t: Table, r: Replica, now: Time, x: Id) returns (evs: seq<Event>, r': Replica)
    requires HeldInGap(r, x)
    ensures Leads(cfg, t, r, now, evs, t, r') && InStage(r', Repersisted) && x in RetiredOnAbsence(r')
  {
    hide Leads, HeldInGap, CollectedInGap, RetiredOnAbsence;
    var first, q := CollectInGap(cfg, t, r, now, x);
    var second;
    second, r' := WriteInGap(cfg, t, q, now, x);
    LeadsThrough(cfg, t, r, now, first, t, q, second, t, r');
    evs := first + second;
  }

  /** The gap is real: a Save between whose stamp and commit a scan takes both its epoch and its snapshot
      loses its session to that scan, though the row has been stored. */
  lemma GapRetires(cfg: Config, t: Table, r: Replica, now: Time, x: Id, h: Held) returns (evs: seq<Event>, t': Table, r': Replica)
    requires r.admit.Free? && r.scan.NoScan? && x !in t && x !in r.local && r.unpersisted == {}
    requires !CapReached(cfg, r) && CanReserve(r, x)
    ensures Leads(cfg, t, r, now, evs, t', r') && x in t' && InStage(r', Repersisted) && x in RetiredOnAbsence(r')
  {
    hide Leads, CapReached, CanReserve, CaughtInGap, HeldInGap;
    var into, caught;
    into, t', caught := IntoGap(cfg, t, r, now, x, h);
    var land, held := LandInGap(cfg, t', caught, now, x);
    var out;
    out, r' := OutOfGap(cfg, t', held, now, x);
    LeadsThrough(cfg, t', caught, now, land, t', held, out, t', r');
    LeadsThrough(cfg, t, r, now, into, t', caught, land + out, t', r');
    evs := into + (land + out);
  }
}
