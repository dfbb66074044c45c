/** The cap on the session table: one replica, the only writer, whatever the database answers. */
module RowCap {
  import opened Wrappers
  import opened Sessions
  import opened SessionSteps

  function Max(a: int, b: int): int {
    if a > b then a else b
  }

  /** The counter may run below the true count only by what the table held beyond the cap at start-up. */
  ghost predicate Counted(cfg: Config, start: nat, t: Table, rows: int) {
    |t| <= rows + Max(0, start - cfg.maxRows) && |t| <= Max(start, cfg.maxRows)
  }

  lemma Sizes(t: Table, id: Id, e: Row)
    ensures |t[id := e]| == |t| + if id in t then 0 else 1
    ensures |t - {id}| == |t| - if id in t then 1 else 0
  {
    assert t[id := e].Keys == t.Keys + {id} && (t - {id}).Keys == t.Keys - {id};
    SizeIsKeys(t);
    SizeIsKeys(t[id := e]);
    SizeIsKeys(t - {id});
  }

  lemma SizeIsKeys(t: Table)
    ensures |t| == |t.Keys|
  {
  }

  /** An insert moves the counter at least as far as the table. */
  lemma InsertCounts(cfg: Config, start: nat, t: Table, r: Replica, id: Id, row: Row, tx: Tx)
    requires cfg.maxRows > 0 && Counted(cfg, start, t, r.rows)
    ensures var i := Insert(cfg, t, r, id, row, tx); Counted(cfg, start, i.table, i.rep.rows)
  {
    Sizes(t, id, row);
  }

  lemma DeleteCounts(cfg: Config, start: nat, t: Table, r: Replica, id: Id, reply: Reply)
    requires Counted(cfg, start, t, r.rows)
    ensures var d := DeleteRow(t, r, id, reply); Counted(cfg, start, d.table, d.rep.rows)
  {
    if id in t {
      Sizes(t, id, t[id]);
    } else {
      assert t - {id} == t;
    }
  }

  /** A login's swap never grows the table. */
  lemma SwapCounts(cfg: Config, start: nat, t: Table, r: Replica, oldId: Id, id: Id, row: Row, tx: Tx)
    requires Counted(cfg, start, t, r.rows)
    ensures var s := ReplaceRow(t, r, oldId, id, row, tx); |s.table| <= |t| && s.rep.rows == r.rows
  {
    if oldId in t {
      Sizes(t, oldId, t[oldId]);
      Sizes(t - {oldId}, id, row);
    }
  }

  lemma TouchCounts(cfg: Config, t: Table, r: Replica, id: Id, now: Time, reply: Reply)
    ensures var d := Touch(cfg, t, r, id, now, reply); |d.table| == |t| && d.rep.rows == r.rows
  {
    if id in t {
      Sizes(t, id, t[id].(lastSeen := now));
    }
  }

  /** The steps that issue no counted statement. */
  predicate Uncounted(ev: Event) {
    match ev
    case SaveBegin(_, _) => true
    case SaveMark(_) => true
    case SaveLand(_, _) => true
    case DeleteLocal(_) => true
    case ReplaceBegin(_, _, _, _) => true
    case Detach => true
    case ScanEpoch(_) => true
    case ScanSnapshot(_) => true
    case ScanCollect => true
    case RepersistBegin => true
    case RepersistEnd => true
    case SweepLocal => true
    case ScanPrune => true
    case _ => false
  }

  lemma UncountedStep(cfg: Config, t: Table, r: Replica, now: Time, ev: Event)
    requires Enabled(r, now, ev) && Uncounted(ev)
    ensures var e := Do(cfg, t, r, now, ev); e.table == t && e.rep.rows == r.rows
  {
    hide PolicyDead, RetiredOnAbsence, Pruned, CanReserve, CanHandOff, CapReached;
  }

  lemma LookupCounts(cfg: Config, start: nat, t: Table, r: Replica, id: Id, now: Time, reply: Reply, touched: Reply)
    requires Counted(cfg, start, t, r.rows)
    ensures var e := DoLookup(cfg, t, r, id, now, reply, touched); Counted(cfg, start, e.table, e.rep.rows)
  {
    hide Touch, AbsenceIsFinal;
    TouchCounts(cfg, t, r, id, now, touched);
  }

  lemma AdoptCounts(cfg: Config, start: nat, t: Table, r: Replica, id: Id, row: Row, obj: nat, victim: Option<Id>, now: Time, touched: Reply)
    requires Counted(cfg, start, t, r.rows)
    ensures var f := DoAdopt(cfg, t, r, id, row, obj, victim, now, touched); Counted(cfg, start, f.table, f.rep.rows)
  {
    hide Touch, CanReserve;
    var marked := if CanReserve(r, id) then Stamp(r, id) else r;
    TouchCounts(cfg, t, LocalSave(marked, id, Held(row, obj), victim), id, now, touched);
  }

  lemma RepersistCounts(cfg: Config, start: nat, t: Table, r: Replica, id: Id, tx: Tx)
    requires cfg.maxRows > 0 && Counted(cfg, start, t, r.rows) && r.scan.Scan? && r.admit.Repersisting?
    ensures var e := DoRepersistOne(cfg, t, r, id, tx); Counted(cfg, start, e.table, e.rep.rows)
  {
    hide Insert, Counted, CanReserve, CapReached;
    var q := r.(scan := r.scan.(pending := r.scan.pending - {id}));
    if id in r.local {
      InsertCounts(cfg, start, t, Stamp(q, id), id, r.local[id].row, tx);
    }
  }

  lemma DeadCounts(cfg: Config, start: nat, t: Table, r: Replica, id: Id, reply: Reply)
    requires Counted(cfg, start, t, r.rows) && r.scan.Scan?
    ensures var e := DoSweepDead(t, r, id, reply); Counted(cfg, start, e.table, e.rep.rows)
  {
    hide DeleteRow, Counted;
    DeleteCounts(cfg, start, t, Forget(r, id), id, reply);
  }

  /** Every step keeps the count sound. */
  lemma StepCounts(cfg: Config, start: nat, t: Table, r: Replica, now: Time, ev: Event)
    requires cfg.maxRows > 0 && Counted(cfg, start, t, r.rows) && Enabled(r, now, ev)
    ensures var e := Do(cfg, t, r, now, ev); Counted(cfg, start, e.table, e.rep.rows)
  {
    if Uncounted(ev) {
      UncountedStep(cfg, t, r, now, ev);
    } else {
      CountedStep(cfg, start, t, r, now, ev);
    }
  }

  lemma CountedStep(cfg: Config, start: nat, t: Table, r: Replica, now: Time, ev: Event)
    requires cfg.maxRows > 0 && Counted(cfg, start, t, r.rows) && Enabled(r, now, ev) && !Uncounted(ev)
    ensures var e := Do(cfg, t, r, now, ev); Counted(cfg, start, e.table, e.rep.rows)
  {
    hide Counted, DoReplaceCommit, SwapLocally, DoLookup, DoAdopt, DoRepersistOne, DoSweepDead, DoSweepShared, Insert, DeleteRow, CanEvict;
    match ev
    case SaveCommit(tx) => InsertCounts(cfg, start, t, r, r.admit.id, r.admit.held.row, tx);
    case DeleteShared(id, reply) => DeleteCounts(cfg, start, t, r, id, reply);
    case ReplaceCommit(tx, victim) => SwapStepCounts(cfg, start, t, r, tx, victim);
    case ReplaceUnmarked(reply) => UnmarkedCounts(cfg, start, t, r, reply);
    case Lookup(id, reply, touched) => LookupCounts(cfg, start, t, r, id, now, reply, touched);
    case Adopt(id, row, obj, victim, touched) => AdoptCounts(cfg, start, t, r, id, row, obj, victim, now, touched);
    case ScanReconcile(reply) => Recounted(cfg, start, t, r.rows);
    case RepersistOne(id, tx) => RepersistCounts(cfg, start, t, r, id, tx);
    case SweepDead(id, reply) => DeadCounts(cfg, start, t, r, id, reply);
    case SweepShared(id, reply) => SharedCounts(cfg, start, t, r, id, reply);
    case _ =>
  }

  lemma UnmarkedCounts(cfg: Config, start: nat, t: Table, r: Replica, reply: Reply)
    requires Counted(cfg, start, t, r.rows) && r.admit.Swapping?
    ensures var e := DoReplaceUnmarked(t, r, reply); Counted(cfg, start, e.table, e.rep.rows)
  {
    hide DeleteRow, Counted;
    DeleteCounts(cfg, start, t, r.(admit := Free), r.admit.oldId, reply);
  }

  lemma Recounted(cfg: Config, start: nat, t: Table, rows: int)
    requires Counted(cfg, start, t, rows)
    ensures Counted(cfg, start, t, |t|)
  {
  }

  lemma SwapStepCounts(cfg: Config, start: nat, t: Table, r: Replica, tx: Tx, victim: Option<Id>)
    requires Counted(cfg, start, t, r.rows) && r.admit.Swapping?
    ensures var e := DoReplaceCommit(t, r, tx, victim); Counted(cfg, start, e.table, e.rep.rows)
  {
    hide ReplaceRow;
    SwapCounts(cfg, start, t, r.(admit := Free), r.admit.oldId, r.admit.id, r.admit.held.row, tx);
  }

  lemma SharedCounts(cfg: Config, start: nat, t: Table, r: Replica, id: Id, reply: Reply)
    requires Counted(cfg, start, t, r.rows) && r.scan.Scan? && id in r.scan.present
    ensures var e := DoSweepShared(cfg, t, r, id, reply); Counted(cfg, start, e.table, e.rep.rows)
  {
    hide Abandoned;
    if id in t {
      Sizes(t, id, t[id]);
    }
  }

  /** A system of one replica, just started over table t; counting the rows may have failed. */
  ghost predicate Started(cfg: Config, s: System, counted: bool) {
    s.reps == map[0 := Fresh(cfg, if counted then Some(|s.table|) else None)]
  }

  lemma {:induction false} RunCounts(cfg: Config, start: nat, s: System, moves: seq<Move>)
    requires cfg.maxRows > 0 && s.reps.Keys == {0} && Counted(cfg, start, s.table, s.reps[0].rows) && Legal(cfg, s, moves)
    ensures |Run(cfg, s, moves).table| <= Max(start, cfg.maxRows)
    decreases |moves|
  {
    hide Enabled, Do, Minted, MintedIds;
    if moves != [] {
      if moves[0].Step? {
        StepCounts(cfg, start, s.table, s.reps[0], s.clock, moves[0].ev);
      }
      RunCounts(cfg, start, Moved(cfg, s, moves[0]), moves[1..]);
    }
  }

  /** In every run the table stays within the cap, or within its size at start-up if that was larger:
      with lost commits, failed deletes, failed counts, and a failed count at start-up. */
  lemma TableCapped(cfg: Config, s: System, counted: bool, moves: seq<Move>)
    requires cfg.maxRows > 0 && Started(cfg, s, counted) && Legal(cfg, s, moves)
    ensures |Run(cfg, s, moves).table| <= Max(|s.table|, cfg.maxRows)
  {
    RunCounts(cfg, |s.table|, s, moves);
  }

  predicate IsReplace(ev: Event) {
    ev.ReplaceBegin? || ev.ReplaceCommit? || ev.ReplaceUnmarked?
  }

  /** A login never consults the cap: with any other counter and any other limit it does the same to the
      table and has the same outcome. */
  lemma ReplaceIgnoresCap(cfg: Config, cfg': Config, t: Table, r: Replica, rows: int, now: Time, ev: Event)
    requires IsReplace(ev) && Enabled(r, now, ev)
    ensures var q := r.(rows := rows);
            && Enabled(q, now, ev)
            && var e, e' := Do(cfg, t, r, now, ev), Do(cfg', t, q, now, ev);
               e'.table == e.table && e'.won == e.won && e'.rep == e.rep.(rows := e.rep.rows - r.rows + rows)
  {
    hide DoReplaceBegin, DoReplaceCommit, DoReplaceUnmarked, CanEvict, InStage;
    match ev
    case ReplaceBegin(oldId, oldObj, id, h) => BeginIgnoresCap(t, r, rows, oldId, oldObj, id, h);
    case ReplaceCommit(tx, victim) =>
      CommitIgnoresCap(t, r, rows, tx, victim);
      EvictIgnoresCap(r, rows, victim);
    case ReplaceUnmarked(reply) => UnmarkedIgnoresCap(t, r, rows, reply);
  }

  lemma BeginIgnoresCap(t: Table, r: Replica, rows: int, oldId: Id, oldObj: nat, id: Id, h: Held)
    ensures var e, e' := DoReplaceBegin(t, r, oldId, oldObj, id, h), DoReplaceBegin(t, r.(rows := rows), oldId, oldObj, id, h);
            e'.table == e.table && e'.won == e.won && e'.rep == e.rep.(rows := rows) && e.rep.rows == r.rows
  {
    assert CanHandOff(r.(rows := rows), oldId, id) == CanHandOff(r, oldId, id);
    hide CanHandOff;
    assert HandOff(r.(rows := rows), oldId, id) == HandOff(r, oldId, id).(rows := rows);
    assert HandOff(r, oldId, id).rows == r.rows;
    hide HandOff;
  }

  lemma EvictIgnoresCap(r: Replica, rows: int, victim: Option<Id>)
    requires r.admit.Swapping?
    ensures CanEvict(r, r.admit.id, victim) <==> CanEvict(r.(rows := rows), r.admit.id, victim)
  {
  }

  lemma CommitIgnoresCap(t: Table, r: Replica, rows: int, tx: Tx, victim: Option<Id>)
    requires r.admit.Swapping?
    ensures var e, e' := DoReplaceCommit(t, r, tx, victim), DoReplaceCommit(t, r.(rows := rows), tx, victim);
            e'.table == e.table && e'.won == e.won && e'.rep == e.rep.(rows := rows) && e.rep.rows == r.rows
  {
    var q, a := r.(rows := rows), r.admit;
    hide ReplaceRow, SwapLocally, LocalSave, Forget, SetPersisted, LocalDelete;
    RowIgnoresCap(t, r.(admit := Free), rows, a.oldId, a.id, a.held.row, tx);
    var s := ReplaceRow(t, r.(admit := Free), a.oldId, a.id, a.held.row, tx);
    SwapIgnoresCap(s.table, s.rep, rows, a.oldId, a.oldObj, a.id, a.held);
    ForgetIgnoresCap(s.rep, rows, a.oldId);
    var f := Forget(s.rep, a.oldId);
    MarkIgnoresCap(f, rows, a.id);
    var p := SetPersisted(f, a.id, true);
    DropIgnoresCap(p, rows, a.oldId);
    LandIgnoresCap(LocalDelete(p, a.oldId), rows, a.id, a.held, victim);
  }

  lemma RowIgnoresCap(t: Table, r: Replica, rows: int, oldId: Id, id: Id, row: Row, tx: Tx)
    ensures var s, s' := ReplaceRow(t, r, oldId, id, row, tx), ReplaceRow(t, r.(rows := rows), oldId, id, row, tx);
            s'.table == s.table && s'.result == s.result && s'.rep == s.rep.(rows := rows) && s.rep.rows == r.rows
  {
  }

  lemma ForgetIgnoresCap(r: Replica, rows: int, id: Id)
    ensures Forget(r.(rows := rows), id) == Forget(r, id).(rows := rows) && Forget(r, id).rows == r.rows
  {
  }

  lemma MarkIgnoresCap(r: Replica, rows: int, id: Id)
    ensures SetPersisted(r.(rows := rows), id, true) == SetPersisted(r, id, true).(rows := rows) && SetPersisted(r, id, true).rows == r.rows
  {
  }

  lemma DropIgnoresCap(r: Replica, rows: int, id: Id)
    ensures LocalDelete(r.(rows := rows), id) == LocalDelete(r, id).(rows := rows) && LocalDelete(r, id).rows == r.rows
  {
  }

  lemma LandIgnoresCap(r: Replica, rows: int, id: Id, h: Held, victim: Option<Id>)
    ensures LocalSave(r.(rows := rows), id, h, victim) == LocalSave(r, id, h, victim).(rows := rows) && LocalSave(r, id, h, victim).rows == r.rows
  {
  }

  lemma SwapIgnoresCap(t: Table, r: Replica, rows: int, oldId: Id, oldObj: nat, id: Id, h: Held)
    ensures var e, e' := SwapLocally(t, r, oldId, oldObj, id, h), SwapLocally(t, r.(rows := rows), oldId, oldObj, id, h);
            e'.table == e.table == t && e'.won == e.won && e'.rep == e.rep.(rows := rows) && e.rep.rows == r.rows
  {
  }

  lemma UnmarkedIgnoresCap(t: Table, r: Replica, rows: int, reply: Reply)
    requires r.admit.Swapping?
    ensures var e, e' := DoReplaceUnmarked(t, r, reply), DoReplaceUnmarked(t, r.(rows := rows), reply);
            e'.table == e.table && e'.won == e.won && e'.rep == e.rep.(rows := e.rep.rows - r.rows + rows)
  {
    var q := r.(rows := rows);
    var a := r.admit;
    var d, d' := DeleteRow(t, r.(admit := Free), a.oldId, reply), DeleteRow(t, q.(admit := Free), a.oldId, reply);
    assert d'.table == d.table && d'.rep == d.rep.(rows := d.rep.rows - r.rows + rows);
    SwapIgnoresCap(d.table, d.rep, d'.rep.rows, a.oldId, a.oldObj, a.id, a.held);
    hide SwapLocally;
  }
}
