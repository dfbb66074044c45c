/** One replica of the durable session store, in place: every method does what the steps of SessionSteps say. */
module SessionStore {
  import opened Wrappers
  import opened Sessions
  import opened SessionSteps
  import RowCap

  // --- whole operations as runs of steps, none of another's in between ---------------------------------

  /** Save: stamp, commit, mark, land. */
  function SaveSteps(cfg: Config, t: Table, r: Replica, id: Id, h: Held, tx: Tx, victim: Option<Id>): (e: Effect)
    requires r.admit.Free?
  {
    var b := DoSaveBegin(cfg, t, r, id, h);
    var c := if b.rep.admit.Saving? then DoSaveCommit(cfg, t, b.rep, tx) else b;
    var m := DoSaveMark(c.table, c.rep, id);
    DoSaveLand(m.table, m.rep, id, victim)
  }

  /** Replace: hand off the marker, then swap -- in the table, or at marker capacity locally. */
  function ReplaceSteps(t: Table, r: Replica, oldId: Id, oldObj: nat, id: Id, h: Held, tx: Tx, reply: Reply, victim: Option<Id>): Effect {
    var b := DoReplaceBegin(t, r, oldId, oldObj, id, h);
    if b.rep.admit.marked then DoReplaceCommit(t, b.rep, tx, victim) else DoReplaceUnmarked(t, b.rep, reply)
  }

  /** Get and Load: look the row up, and adopt it if no local session stands behind it. */
  function LoadSteps(cfg: Config, t: Table, r: Replica, id: Id, now: Time, reply: Reply, touched: Reply, obj: nat, victim: Option<Id>): Effect {
    var l := DoLookup(cfg, t, r, id, now, reply, touched);
    if reply.Answered? && id in t && id !in r.local then DoAdopt(cfg, l.table, l.rep, id, t[id], obj, victim, now, touched) else l
  }

  /** The repersist loop over the pending ids in some order, with one database answer per turn. */
  function RepersistSteps(cfg: Config, t: Table, r: Replica, order: seq<Id>, txs: seq<Tx>): Effect
    requires r.scan.Scan? && r.admit.Repersisting? && |order| == |txs|
    decreases |order|
  {
    if order == [] then Quiet(t, r)
    else
      var n := |order| - 1;
      var e := RepersistSteps(cfg, t, r, order[..n], txs[..n]);
      if e.rep.scan.Scan? && e.rep.admit.Repersisting? then DoRepersistOne(cfg, e.table, e.rep, order[n], txs[n]) else e
  }

  /** A replica's state with nothing in flight. */
  function Bare(r: Replica): Replica {
    r.(admit := Free, saves := map[], deleting := {}, adopting := {}, scan := NoScan)
  }

  /** What is in flight makes no difference to the pieces steps are made of. */
  lemma BareMarks(r: Replica, oldId: Id, id: Id, ok: bool)
    ensures Bare(Stamp(r, id)) == Stamp(Bare(r), id) && Bare(Release(r, id)) == Release(Bare(r), id)
    ensures Bare(Forget(r, id)) == Forget(Bare(r), id) && Bare(SetPersisted(r, id, ok)) == SetPersisted(Bare(r), id, ok)
    ensures Bare(LocalDelete(r, id)) == LocalDelete(Bare(r), id)
  {
  }

  lemma BareLand(r: Replica, id: Id, h: Held, victim: Option<Id>)
    ensures Bare(LocalSave(r, id, h, victim)) == LocalSave(Bare(r), id, h, victim)
  {
  }

  lemma BareInsert(cfg: Config, t: Table, r: Replica, id: Id, row: Row, tx: Tx)
    ensures var i, j := Insert(cfg, t, r, id, row, tx), Insert(cfg, t, Bare(r), id, row, tx);
            j.table == i.table && j.result == i.result && j.rep == Bare(i.rep)
  {
  }

  lemma BareRow(t: Table, r: Replica, oldId: Id, id: Id, row: Row, tx: Tx)
    ensures var i, j := ReplaceRow(t, r, oldId, id, row, tx), ReplaceRow(t, Bare(r), oldId, id, row, tx);
            j.table == i.table && j.result == i.result && j.rep == Bare(i.rep)
  {
  }

  lemma BareSwap(t: Table, r: Replica, oldId: Id, oldObj: nat, id: Id, h: Held)
    ensures var i, j := SwapLocally(t, r, oldId, oldObj, id, h), SwapLocally(t, Bare(r), oldId, oldObj, id, h);
            j.table == i.table && j.won == i.won && j.rep == Bare(i.rep)
  {
  }

  lemma BareTouch(cfg: Config, t: Table, r: Replica, id: Id, now: Time, reply: Reply)
    ensures var i, j := Touch(cfg, t, r, id, now, reply), Touch(cfg, t, Bare(r), id, now, reply);
            j.table == i.table && j.rep == Bare(i.rep)
  {
    hide TouchEvery;
  }

  lemma BareServe(cfg: Config, t: Table, r: Replica, id: Id, now: Time)
    ensures var i, j := Serve(cfg, t, r, id, now), Serve(cfg, t, Bare(r), id, now);
            j.table == i.table && j.served == i.served && j.rep == Bare(i.rep)
  {
  }

  /** Save in terms of the pieces. */
  lemma SaveIs(cfg: Config, t: Table, r: Replica, id: Id, h: Held, tx: Tx, victim: Option<Id>)
    requires Bare(r) == r
    ensures var e := SaveSteps(cfg, t, r, id, h, tx, victim);
            if (CapReached(cfg, r) && id !in r.local) || !CanReserve(r, id) then
              e.table == t && Bare(e.rep) == LocalSave(SetPersisted(r, id, false), id, h, victim)
            else
              var i := Insert(cfg, t, Stamp(r, id), id, h.row, tx);
              e.table == i.table && Bare(e.rep) == LocalSave(SetPersisted(i.rep, id, i.result.Stored?), id, h, victim)
  {
    hide LocalSave, Insert, Stamp, SetPersisted, CapReached, CanReserve;
    var b := DoSaveBegin(cfg, t, r, id, h);
    BareMarks(r, id, id, true);
    if b.rep.admit.Saving? {
      BareInsert(cfg, t, b.rep, id, h.row, tx);
    }
    var c := if b.rep.admit.Saving? then DoSaveCommit(cfg, t, b.rep, tx) else b;
    BareMarks(c.rep, id, id, c.rep.saves[id].ok);
    var m := DoSaveMark(c.table, c.rep, id);
    BareLand(m.rep.(saves := m.rep.saves - {id}), id, h, victim);
  }

  /** Replace in terms of the pieces. */
  lemma ReplaceIs(t: Table, r: Replica, oldId: Id, oldObj: nat, id: Id, h: Held, tx: Tx, reply: Reply, victim: Option<Id>)
    requires Bare(r) == r
    ensures var e := ReplaceSteps(t, r, oldId, oldObj, id, h, tx, reply, victim);
            if !CanHandOff(r, oldId, id) then e == DoReplaceUnmarked(t, r.(admit := Swapping(oldId, oldObj, id, h, false)), reply)
            else
              var s := ReplaceRow(t, HandOff(r, oldId, id), oldId, id, h.row, tx);
              var w := SwapLocally(s.table, s.rep, oldId, oldObj, id, h);
              e.table == s.table &&
              if s.result.SwapError? || (s.result.Absent? && oldId in r.unpersisted) then Bare(e.rep) == w.rep && e.won == w.won
              else if s.result.Absent? then Bare(e.rep) == s.rep && e.won == None
              else Bare(e.rep) == LocalSave(LocalDelete(SetPersisted(Forget(s.rep, oldId), id, true), oldId), id, h, victim) && e.won.Some?
  {
    hide CanHandOff, ReplaceRow, LocalSave, LocalDelete, SetPersisted, Forget, DoReplaceUnmarked;
    if CanHandOff(r, oldId, id) {
      var q := HandOff(r, oldId, id);
      assert Bare(q) == q;
      BareRow(t, q, oldId, id, h.row, tx);
      assert q.(admit := Swapping(oldId, oldObj, id, h, true)).(admit := Free) == q;
      var s := ReplaceRow(t, q, oldId, id, h.row, tx);
      SwapTable(s.table, s.rep, oldId, oldObj, id, h);
      BareSwap(s.table, s.rep, oldId, oldObj, id, h);
      hide SwapLocally;
      BareDone(s.rep, oldId, id, h, victim);
    }
  }

  lemma SwapTable(t: Table, r: Replica, oldId: Id, oldObj: nat, id: Id, h: Held)
    ensures SwapLocally(t, r, oldId, oldObj, id, h).table == t
  {
  }

  lemma BareDone(r: Replica, oldId: Id, id: Id, h: Held, victim: Option<Id>)
    ensures Bare(LocalSave(LocalDelete(SetPersisted(Forget(r, oldId), id, true), oldId), id, h, victim)) ==
            LocalSave(LocalDelete(SetPersisted(Forget(Bare(r), oldId), id, true), oldId), id, h, victim)
  {
    hide Bare, LocalSave, LocalDelete, SetPersisted, Forget;
    BareMarks(r, oldId, oldId, true);
    var f := Forget(r, oldId);
    BareMarks(f, oldId, id, true);
    var p := SetPersisted(f, id, true);
    BareMarks(p, oldId, oldId, true);
    BareLand(LocalDelete(p, oldId), id, h, victim);
  }

  /** Load in terms of the pieces. */
  lemma LoadIs(cfg: Config, t: Table, r: Replica, id: Id, now: Time, reply: Reply, touched: Reply, obj: nat, victim: Option<Id>)
    requires Bare(r) == r
    ensures var e := LoadSteps(cfg, t, r, id, now, reply, touched, obj, victim);
            if reply.Answered? && id !in t && id !in r.unpersisted then e == Quiet(t, r)
            else if reply.Errored? || id !in t then e == Serve(cfg, t, r, id, now)
            else
              var m := if CanReserve(r, id) then Stamp(r, id) else r;
              var l := if id in r.local then r else LocalSave(m, id, Held(t[id], obj), victim);
              var d := Touch(cfg, t, l, id, now, touched);
              var s := Serve(cfg, d.table, d.rep, id, now);
              e.table == s.table && Bare(e.rep) == Bare(s.rep) && e.served == s.served
  {
    hide Serve, Touch, LocalSave, Stamp, CanReserve;
    if reply.Answered? && id in t && id !in r.local {
      var q := r.(adopting := r.adopting + {(id, t[id])});
      assert DoLookup(cfg, t, r, id, now, reply, touched) == Quiet(t, q);
      LoadAdopts(cfg, t, r, q, id, now, touched, obj, victim);
    }
  }

  lemma LoadAdopts(cfg: Config, t: Table, r: Replica, q: Replica, id: Id, now: Time, touched: Reply, obj: nat, victim: Option<Id>)
    requires id in t && Bare(r) == r && q == r.(adopting := r.adopting + {(id, t[id])})
    ensures var e := DoAdopt(cfg, t, q, id, t[id], obj, victim, now, touched);
            var m := if CanReserve(r, id) then Stamp(r, id) else r;
            var d := Touch(cfg, t, LocalSave(m, id, Held(t[id], obj), victim), id, now, touched);
            var s := Serve(cfg, d.table, d.rep, id, now);
            e.table == s.table && Bare(e.rep) == Bare(s.rep) && e.served == s.served
  {
    assert CanReserve(q, id) == CanReserve(r, id);
    assert Bare(q) == r;
    hide Serve, Touch, LocalSave, Stamp, CanReserve;
    var h := Held(t[id], obj);
    var m, n := if CanReserve(r, id) then Stamp(r, id) else r, if CanReserve(q, id) then Stamp(q, id) else q;
    BareMarks(q, id, id, true);
    assert Bare(n) == m;
    BareLand(n, id, h, victim);
    var l := LocalSave(n, id, h, victim);
    BareTouch(cfg, t, l, id, now, touched);
    var d := Touch(cfg, t, l, id, now, touched);
    var w := d.rep.(adopting := q.adopting - {(id, t[id])});
    assert Bare(w) == Bare(d.rep);
    BareServe(cfg, d.table, w, id, now);
    BareServe(cfg, d.table, Bare(d.rep), id, now);
    assert Bare(Bare(d.rep)) == Bare(d.rep);
  }

  lemma NextTurn(cfg: Config, t: Table, r: Replica, order: seq<Id>, txs: seq<Tx>, k: nat)
    requires r.scan.Scan? && r.admit.Repersisting? && |order| == |txs| && k < |order|
    requires var e := RepersistSteps(cfg, t, r, order[..k], txs[..k]); e.rep.scan.Scan? && e.rep.admit.Repersisting?
    ensures var e := RepersistSteps(cfg, t, r, order[..k], txs[..k]);
            RepersistSteps(cfg, t, r, order[..k + 1], txs[..k + 1]) == DoRepersistOne(cfg, e.table, e.rep, order[k], txs[k])
  {
    hide DoRepersistOne;
    assert order[..k + 1][..k] == order[..k] && txs[..k + 1][..k] == txs[..k];
  }

  /** One turn of the loop in terms of the pieces. */
  lemma TurnIs(cfg: Config, t: Table, r: Replica, scan: Scan, full: bool, id: Id, tx: Tx)
    requires Bare(r) == r && scan.Scan?
    ensures var e := DoRepersistOne(cfg, t, r.(admit := Repersisting(full), scan := scan), id, tx);
            var later := scan.(pending := scan.pending - {id});
            if id !in r.local || id in scan.present then
              e.table == t && e.rep == SetPersisted(r, id, true).(admit := Repersisting(full), scan := later)
            else if full || !CanReserve(r, id) then e.table == t && e.rep == r.(admit := Repersisting(full), scan := later)
            else
              var i := Insert(cfg, t, Stamp(r, id), id, r.local[id].row, tx);
              e.table == i.table &&
              e.rep == if i.result.Stored?
                       then SetPersisted(i.rep, id, true).(admit := Repersisting(full), scan := later.(present := scan.present[id := r.local[id].row]))
                       else i.rep.(admit := Repersisting(CapReached(cfg, i.rep)), scan := later)
  {
    var c := r.(admit := Repersisting(full), scan := scan);
    var q := c.(scan := c.scan.(pending := c.scan.pending - {id}));
    assert CanReserve(q, id) == CanReserve(r, id);
    if id in r.local && id !in scan.present && !full && CanReserve(r, id) {
      hide CanReserve;
      InsertAlongside(cfg, t, r, q, id, r.local[id].row, tx);
      hide Insert;
    } else {
      hide CanReserve, Insert;
    }
  }

  lemma InsertAlongside(cfg: Config, t: Table, r: Replica, q: Replica, id: Id, row: Row, tx: Tx)
    requires q == r.(admit := q.admit, scan := q.scan)
    ensures var i, j := Insert(cfg, t, Stamp(r, id), id, row, tx), Insert(cfg, t, Stamp(q, id), id, row, tx);
            && j.table == i.table && j.result == i.result && j.rep == i.rep.(admit := q.admit, scan := q.scan)
            && CapReached(cfg, j.rep) == CapReached(cfg, i.rep)
  {
    hide Insert, Stamp;
    StampAlongside(r, q, id);
    InsertBeside(cfg, t, Stamp(r, id), Stamp(q, id), id, row, tx);
  }

  lemma StampAlongside(r: Replica, q: Replica, id: Id)
    requires q == r.(admit := q.admit, scan := q.scan)
    ensures Stamp(q, id) == Stamp(r, id).(admit := q.admit, scan := q.scan)
    ensures Stamp(q, id) == Stamp(r, id).(admit := Stamp(q, id).admit, scan := Stamp(q, id).scan)
  {
  }

  lemma InsertBeside(cfg: Config, t: Table, r: Replica, q: Replica, id: Id, row: Row, tx: Tx)
    requires q == r.(admit := q.admit, scan := q.scan)
    ensures var i, j := Insert(cfg, t, r, id, row, tx), Insert(cfg, t, q, id, row, tx);
            j.table == i.table && j.result == i.result && j.rep == i.rep.(admit := q.admit, scan := q.scan)
  {
    assert CapReached(cfg, q) == CapReached(cfg, r);
  }

  // --- what every operation keeps ------------------------------------------------------------------------

  /** No login can win on x here any more: neither a row nor a local session is left of it. */
  predicate SpentIn(t: Table, r: Replica, x: Id) {
    x !in t && x !in r.local && x !in r.unpersisted
  }

  /** The counter still bounds the table, and no id but minted has been revived. */
  ghost predicate Kept(cfg: Config, t: Table, r: Replica, t': Table, r': Replica, minted: Option<Id>) {
    && (cfg.maxRows > 0 ==> forall start: nat :: RowCap.Counted(cfg, start, t, r.rows) ==> RowCap.Counted(cfg, start, t', r'.rows))
    && forall x :: SpentIn(t, r, x) && minted != Some(x) ==> SpentIn(t', r', x)
  }

  lemma InsertKept(cfg: Config, t: Table, r: Replica, id: Id, row: Row, tx: Tx)
    ensures var i := Insert(cfg, t, r, id, row, tx); Kept(cfg, t, r, i.table, i.rep, Some(id))
  {
    hide CapReached, RowCap.Counted;
    if cfg.maxRows > 0 {
      forall start: nat | RowCap.Counted(cfg, start, t, r.rows)
        ensures var i := Insert(cfg, t, r, id, row, tx); RowCap.Counted(cfg, start, i.table, i.rep.rows)
      {
        RowCap.InsertCounts(cfg, start, t, r, id, row, tx);
      }
    }
  }

  lemma LandKept(cfg: Config, t: Table, r: Replica, t': Table, r': Replica, id: Id, ok: bool, h: Held, victim: Option<Id>)
    requires Kept(cfg, t, r, t', r', Some(id))
    ensures Kept(cfg, t, r, t', LocalSave(SetPersisted(r', id, ok), id, h, victim), Some(id))
  {
    hide RowCap.Counted;
  }

  lemma SaveKept(cfg: Config, t: Table, r: Replica, id: Id, h: Held, tx: Tx, victim: Option<Id>)
    requires Bare(r) == r
    ensures var e := SaveSteps(cfg, t, r, id, h, tx, victim); Kept(cfg, t, r, e.table, Bare(e.rep), Some(id))
  {
    hide SaveSteps, Insert, LocalSave, SetPersisted, Kept, CapReached, CanReserve;
    SaveIs(cfg, t, r, id, h, tx, victim);
    if (CapReached(cfg, r) && id !in r.local) || !CanReserve(r, id) {
      NothingKept(cfg, t, r, r, id);
      LandKept(cfg, t, r, t, r, id, false, h, victim);
    } else {
      var i := Insert(cfg, t, Stamp(r, id), id, h.row, tx);
      InsertKept(cfg, t, Stamp(r, id), id, h.row, tx);
      StampKept(cfg, t, r, i.table, i.rep, id);
      LandKept(cfg, t, r, i.table, i.rep, id, i.result.Stored?, h, victim);
    }
  }

  lemma NothingKept(cfg: Config, t: Table, r: Replica, q: Replica, id: Id)
    requires q.rows == r.rows && q.local == r.local && q.unpersisted == r.unpersisted
    ensures Kept(cfg, t, r, t, q, Some(id)) && Kept(cfg, t, r, t, q, None)
  {
  }

  lemma StampKept(cfg: Config, t: Table, r: Replica, t': Table, r': Replica, id: Id)
    requires Kept(cfg, t, Stamp(r, id), t', r', Some(id))
    ensures Kept(cfg, t, r, t', r', Some(id))
  {
    hide RowCap.Counted;
    assert forall x :: SpentIn(t, r, x) <==> SpentIn(t, Stamp(r, id), x);
  }

  lemma DeleteKept(cfg: Config, t: Table, r: Replica, id: Id, reply: Reply)
    ensures var e := DoDeleteShared(t, r, id, reply); Kept(cfg, t, r, e.table, Bare(DoDeleteLocal(e.table, e.rep, id).rep), None)
  {
    hide RowCap.Counted, DeleteRow, SpentIn;
    forall start: nat | RowCap.Counted(cfg, start, t, r.rows)
      ensures var d := DeleteRow(t, r, id, reply); RowCap.Counted(cfg, start, d.table, d.rep.rows)
    {
      RowCap.DeleteCounts(cfg, start, t, r, id, reply);
    }
    forall x | SpentIn(t, r, x) ensures var e := DoDeleteShared(t, r, id, reply); SpentIn(e.table, Bare(DoDeleteLocal(e.table, e.rep, id).rep), x) {
      DeleteSpares(t, r, id, reply, x);
    }
  }

  lemma DeleteSpares(t: Table, r: Replica, id: Id, reply: Reply, x: Id)
    requires SpentIn(t, r, x)
    ensures var e := DoDeleteShared(t, r, id, reply); SpentIn(e.table, Bare(DoDeleteLocal(e.table, e.rep, id).rep), x)
  {
  }

  lemma CommitKept(cfg: Config, t: Table, r: Replica, tx: Tx, victim: Option<Id>)
    requires r.admit.Swapping?
    ensures var e := DoReplaceCommit(t, r, tx, victim); Kept(cfg, t, r, e.table, e.rep, Some(r.admit.id))
  {
    hide RowCap.Counted, DoReplaceCommit, SpentIn;
    forall x | SpentIn(t, r, x) && x != r.admit.id ensures var e := DoReplaceCommit(t, r, tx, victim); SpentIn(e.table, e.rep, x) {
      CommitSpares(t, r, tx, victim, x);
    }
    forall start: nat | RowCap.Counted(cfg, start, t, r.rows)
      ensures var e := DoReplaceCommit(t, r, tx, victim); RowCap.Counted(cfg, start, e.table, e.rep.rows)
    {
      RowCap.SwapStepCounts(cfg, start, t, r, tx, victim);
    }
  }

  lemma CommitSpares(t: Table, r: Replica, tx: Tx, victim: Option<Id>, x: Id)
    requires r.admit.Swapping? && SpentIn(t, r, x) && x != r.admit.id
    ensures var e := DoReplaceCommit(t, r, tx, victim); SpentIn(e.table, e.rep, x)
  {
    hide ReplaceRow, SwapLocally, LocalSave, LocalDelete, SetPersisted, Forget, SpentIn;
    var a, q := r.admit, r.(admit := Free);
    FreeSpent(t, r, x);
    RowSpares(t, q, a.oldId, a.id, a.held.row, tx, x);
    var s := ReplaceRow(t, q, a.oldId, a.id, a.held.row, tx);
    SwapSpares(s.table, s.rep, a.oldId, a.oldObj, a.id, a.held, x);
    DoneSpares(s.table, s.rep, a.oldId, a.id, a.held, victim, x);
  }

  lemma FreeSpent(t: Table, r: Replica, x: Id)
    ensures SpentIn(t, r.(admit := Free), x) <==> SpentIn(t, r, x)
  {
  }

  lemma RowSpares(t: Table, r: Replica, oldId: Id, id: Id, row: Row, tx: Tx, x: Id)
    requires SpentIn(t, r, x) && x != id
    ensures var s := ReplaceRow(t, r, oldId, id, row, tx); SpentIn(s.table, s.rep, x)
  {
  }

  lemma SwapSpares(t: Table, r: Replica, oldId: Id, oldObj: nat, id: Id, h: Held, x: Id)
    requires SpentIn(t, r, x) && x != id
    ensures var e := SwapLocally(t, r, oldId, oldObj, id, h); SpentIn(e.table, e.rep, x)
  {
  }

  lemma DoneSpares(t: Table, r: Replica, oldId: Id, id: Id, h: Held, victim: Option<Id>, x: Id)
    requires SpentIn(t, r, x) && x != id
    ensures SpentIn(t, LocalSave(LocalDelete(SetPersisted(Forget(r, oldId), id, true), oldId), id, h, victim), x)
  {
    hide LocalSave;
    var q := LocalDelete(SetPersisted(Forget(r, oldId), id, true), oldId);
    assert q.local == r.local - {oldId} && q.unpersisted == r.unpersisted - {oldId} - {id};
    LandSame(q, id, h, victim);
  }

  lemma UnmarkedKept(cfg: Config, t: Table, r: Replica, reply: Reply)
    requires r.admit.Swapping?
    ensures var e := DoReplaceUnmarked(t, r, reply); Kept(cfg, t, r, e.table, e.rep, Some(r.admit.id))
  {
    hide RowCap.Counted, DoReplaceUnmarked, SpentIn;
    forall start: nat | RowCap.Counted(cfg, start, t, r.rows)
      ensures var e := DoReplaceUnmarked(t, r, reply); RowCap.Counted(cfg, start, e.table, e.rep.rows)
    {
      RowCap.UnmarkedCounts(cfg, start, t, r, reply);
    }
    forall x | SpentIn(t, r, x) && x != r.admit.id ensures var e := DoReplaceUnmarked(t, r, reply); SpentIn(e.table, e.rep, x) {
      UnmarkedSpares(t, r, reply, x);
    }
  }

  lemma UnmarkedSpares(t: Table, r: Replica, reply: Reply, x: Id)
    requires r.admit.Swapping? && SpentIn(t, r, x) && x != r.admit.id
    ensures var e := DoReplaceUnmarked(t, r, reply); SpentIn(e.table, e.rep, x)
  {
    hide DeleteRow, SwapLocally, SpentIn;
    var a, q := r.admit, r.(admit := Free);
    FreeSpent(t, r, x);
    RemovalSpares(t, q, a.oldId, reply, x);
    var d := DeleteRow(t, q, a.oldId, reply);
    SwapSpares(d.table, d.rep, a.oldId, a.oldObj, a.id, a.held, x);
  }

  lemma RemovalSpares(t: Table, r: Replica, id: Id, reply: Reply, x: Id)
    requires SpentIn(t, r, x)
    ensures var d := DeleteRow(t, r, id, reply); SpentIn(d.table, d.rep, x)
  {
  }

  lemma ReplaceKept(cfg: Config, t: Table, r: Replica, oldId: Id, oldObj: nat, id: Id, h: Held, tx: Tx, reply: Reply, victim: Option<Id>)
    ensures var e := ReplaceSteps(t, r, oldId, oldObj, id, h, tx, reply, victim); Kept(cfg, t, r, e.table, Bare(e.rep), Some(id))
  {
    hide DoReplaceCommit, DoReplaceUnmarked, CanHandOff, RowCap.Counted;
    var b := DoReplaceBegin(t, r, oldId, oldObj, id, h);
    assert forall x :: SpentIn(t, r, x) <==> SpentIn(t, b.rep, x);
    if b.rep.admit.marked {
      CommitKept(cfg, t, b.rep, tx, victim);
    } else {
      UnmarkedKept(cfg, t, b.rep, reply);
    }
  }

  /** A login that wins on an answered transaction spends the pre-auth id, and nobody wins on a spent one, whatever is answered. */
  lemma ReplaceSpends(t: Table, r: Replica, oldId: Id, oldObj: nat, id: Id, h: Held, tx: Tx, reply: Reply, victim: Option<Id>)
    requires id != oldId
    ensures var e := ReplaceSteps(t, r, oldId, oldObj, id, h, tx, reply, victim);
            && (e.won.Some? && tx == Committed && reply == Answered ==> SpentIn(e.table, Bare(e.rep), oldId))
            && (SpentIn(t, r, oldId) ==> e.won == None)
  {
    hide CanHandOff, DoReplaceCommit, DoReplaceUnmarked;
    var q := DoReplaceBegin(t, r, oldId, oldObj, id, h).rep;
    assert q.local == r.local && q.unpersisted == r.unpersisted && q.admit == Swapping(oldId, oldObj, id, h, CanHandOff(r, oldId, id));
    if CanHandOff(r, oldId, id) {
      CommitSpends(t, q, tx, victim);
    } else {
      UnmarkedSpends(t, q, reply);
    }
  }

  lemma CommitSpends(t: Table, r: Replica, tx: Tx, victim: Option<Id>)
    requires r.admit.Swapping? && r.admit.id != r.admit.oldId
    ensures var e := DoReplaceCommit(t, r, tx, victim);
            && (e.won.Some? && tx == Committed ==> SpentIn(e.table, e.rep, r.admit.oldId)) && (SpentIn(t, r, r.admit.oldId) ==> e.won == None)
  {
  }

  lemma UnmarkedSpends(t: Table, r: Replica, reply: Reply)
    requires r.admit.Swapping? && r.admit.id != r.admit.oldId
    ensures var e := DoReplaceUnmarked(t, r, reply);
            && (e.won.Some? && reply == Answered ==> SpentIn(e.table, e.rep, r.admit.oldId)) && (SpentIn(t, r, r.admit.oldId) ==> e.won == None)
  {
  }

  lemma LoadKept(cfg: Config, t: Table, r: Replica, id: Id, now: Time, reply: Reply, touched: Reply, obj: nat, victim: Option<Id>)
    ensures var e := LoadSteps(cfg, t, r, id, now, reply, touched, obj, victim); Kept(cfg, t, r, e.table, Bare(e.rep), None)
  {
    hide DoLookup, DoAdopt, RowCap.Counted;
    var l := DoLookup(cfg, t, r, id, now, reply, touched);
    forall start: nat | RowCap.Counted(cfg, start, t, r.rows) ensures RowCap.Counted(cfg, start, l.table, l.rep.rows) {
      RowCap.LookupCounts(cfg, start, t, r, id, now, reply, touched);
    }
    LookupSpares(cfg, t, r, id, now, reply, touched);
    if reply.Answered? && id in t && id !in r.local {
      var e := DoAdopt(cfg, l.table, l.rep, id, t[id], obj, victim, now, touched);
      forall start: nat | RowCap.Counted(cfg, start, l.table, l.rep.rows) ensures RowCap.Counted(cfg, start, e.table, e.rep.rows) {
        RowCap.AdoptCounts(cfg, start, l.table, l.rep, id, t[id], obj, victim, now, touched);
      }
      AdoptSpares(cfg, l.table, l.rep, id, t[id], obj, victim, now, touched);
    }
  }

  lemma LookupSpares(cfg: Config, t: Table, r: Replica, id: Id, now: Time, reply: Reply, touched: Reply)
    ensures var e := DoLookup(cfg, t, r, id, now, reply, touched); forall x :: SpentIn(t, r, x) ==> SpentIn(e.table, e.rep, x)
    ensures reply.Answered? && id in t ==> id in DoLookup(cfg, t, r, id, now, reply, touched).table
  {
    hide Touch, Serve, AbsenceIsFinal;
    ServeSame(cfg, t, r, id, now);
    TouchSame(cfg, t, r, id, now, touched);
    var d := Touch(cfg, t, r, id, now, touched);
    ServeSame(cfg, d.table, d.rep, id, now);
  }

  lemma ServeSame(cfg: Config, t: Table, r: Replica, id: Id, now: Time)
    ensures var e := Serve(cfg, t, r, id, now); e.table == t && e.rep.local.Keys == r.local.Keys && e.rep.unpersisted == r.unpersisted
  {
  }

  lemma TouchSame(cfg: Config, t: Table, r: Replica, id: Id, now: Time, reply: Reply)
    ensures var d := Touch(cfg, t, r, id, now, reply);
            d.table.Keys == t.Keys && d.rep.local == r.local && d.rep.unpersisted == r.unpersisted
  {
    hide TouchEvery;
  }

  lemma AdoptSpares(cfg: Config, t: Table, r: Replica, id: Id, row: Row, obj: nat, victim: Option<Id>, now: Time, touched: Reply)
    requires id in t
    ensures var e := DoAdopt(cfg, t, r, id, row, obj, victim, now, touched); forall x :: SpentIn(t, r, x) ==> SpentIn(e.table, e.rep, x)
  {
    hide Touch, Serve, CanReserve, Stamp, LocalSave;
    var m := if CanReserve(r, id) then Stamp(r, id) else r;
    var h := Held(row, obj);
    LandSame(m, id, h, victim);
    assert m.local == r.local && m.unpersisted == r.unpersisted by { StampSame(r, id); }
    TouchSame(cfg, t, LocalSave(m, id, h, victim), id, now, touched);
    var d := Touch(cfg, t, LocalSave(m, id, h, victim), id, now, touched);
    ServeSame(cfg, d.table, d.rep.(adopting := r.adopting - {(id, row)}), id, now);
  }

  lemma StampSame(r: Replica, id: Id)
    ensures Stamp(r, id).local == r.local && Stamp(r, id).unpersisted == r.unpersisted
  {
  }

  lemma LandSame(r: Replica, id: Id, h: Held, victim: Option<Id>)
    ensures var q := LocalSave(r, id, h, victim); q.local.Keys <= r.local.Keys + {id} && q.unpersisted <= r.unpersisted
  {
  }

  lemma {:induction false} RepersistKept(cfg: Config, t: Table, r: Replica, order: seq<Id>, txs: seq<Tx>)
    requires r.scan.Scan? && r.admit.Repersisting? && |order| == |txs|
    ensures var e := RepersistSteps(cfg, t, r, order, txs); Kept(cfg, t, r, e.table, e.rep, None)
    decreases |order|
  {
    hide DoRepersistOne, RowCap.Counted;
    if order != [] {
      var n := |order| - 1;
      RepersistKept(cfg, t, r, order[..n], txs[..n]);
      var e := RepersistSteps(cfg, t, r, order[..n], txs[..n]);
      if e.rep.scan.Scan? && e.rep.admit.Repersisting? {
        TurnKept(cfg, e.table, e.rep, order[n], txs[n]);
      }
    }
  }

  lemma TurnKept(cfg: Config, t: Table, r: Replica, id: Id, tx: Tx)
    requires r.scan.Scan? && r.admit.Repersisting?
    ensures var e := DoRepersistOne(cfg, t, r, id, tx); Kept(cfg, t, r, e.table, e.rep, None)
  {
    hide DoRepersistOne, RowCap.Counted, SpentIn;
    if cfg.maxRows > 0 {
      forall start: nat | RowCap.Counted(cfg, start, t, r.rows)
        ensures var e := DoRepersistOne(cfg, t, r, id, tx); RowCap.Counted(cfg, start, e.table, e.rep.rows)
      {
        RowCap.RepersistCounts(cfg, start, t, r, id, tx);
      }
    }
    forall x | SpentIn(t, r, x) ensures var e := DoRepersistOne(cfg, t, r, id, tx); SpentIn(e.table, e.rep, x) {
      TurnSpares(cfg, t, r, id, tx, x);
    }
  }

  lemma TurnSpares(cfg: Config, t: Table, r: Replica, id: Id, tx: Tx, x: Id)
    requires r.scan.Scan? && r.admit.Repersisting? && SpentIn(t, r, x)
    ensures var e := DoRepersistOne(cfg, t, r, id, tx); SpentIn(e.table, e.rep, x)
  {
    hide CanReserve, CapReached, Insert, Stamp;
    if id in r.local {
      InsertSame(cfg, t, r.(scan := r.scan.(pending := r.scan.pending - {id})), id, r.local[id].row, tx);
    }
  }

  lemma InsertSame(cfg: Config, t: Table, q: Replica, id: Id, row: Row, tx: Tx)
    ensures var i := Insert(cfg, t, Stamp(q, id), id, row, tx);
            && i.table.Keys <= t.Keys + {id} && i.rep.local == q.local && i.rep.unpersisted == q.unpersisted
            && i.rep.scan == q.scan && i.rep.admit == q.admit
  {
    hide CapReached;
  }

  /** What is in flight does not matter to it. */
  lemma SameKept(cfg: Config, t: Table, r: Replica, q: Replica, t': Table, r': Replica, q': Replica)
    requires Kept(cfg, t, r, t', r', None) && Bare(r) == Bare(q) && Bare(r') == Bare(q')
    ensures Kept(cfg, t, q, t', q', None)
  {
    assert Bare(q).local == r.local && Bare(q).unpersisted == r.unpersisted && Bare(q).rows == r.rows;
    assert Bare(q').local == r'.local && Bare(q').unpersisted == r'.unpersisted && Bare(q').rows == r'.rows;
    assert forall x :: (SpentIn(t, r, x) <==> SpentIn(t, q, x)) && (SpentIn(t', r', x) <==> SpentIn(t', q', x));
    hide RowCap.Counted;
  }

  class Database {
    var table: Table

    constructor (t: Table)
      ensures table == t
    {
      table := t;
    }

    /** A counted statement DELETE FROM ... WHERE id = ?: what the caller sees. */
    method Delete(id: Id, reply: Reply) returns (n: Option<nat>)
      modifies this
      ensures table == if reply.Applied() then old(table) - {id} else old(table)
      ensures n == if reply.Answered? then Some(if id in old(table) then 1 else 0) else None
    {
      var there := id in table;
      if reply.Applied() {
        table := table - {id};
      }
      n := if reply.Answered? then Some(if there then 1 else 0) else None;
    }
  }

  class SessionStore {
    const cfg: Config
    const db: Database
    var local: map<Id, Held>
    var unpersisted: set<Id>
    var gen: nat
    var generations: map<Id, nat>
    var touched: map<Id, Time>
    var rows: int

    constructor (cfg: Config, db: Database, reply: Reply)
      ensures this.cfg == cfg && this.db == db
      ensures Core() == Fresh(cfg, if reply.Answered? then Some(|db.table|) else None)
      ensures Capped(|db.table|)
    {
      this.cfg, this.db := cfg, db;
      local, unpersisted, gen, generations, touched := map[], {}, 0, map[], map[];
      rows := 0;
      new;
      if cfg.maxRows > 0 {
        rows := if reply.Answered? then |db.table| else cfg.maxRows;
      }
    }

    /** The replica state outside any operation. */
    function Core(): Replica
      reads this
    {
      Replica(local, unpersisted, gen, generations, touched, rows, Free, map[], {}, {}, NoScan)
    }

    /** The counter bounds the table, which started at this size, and the table is within the cap or that size. */
    ghost predicate Capped(start: nat)
      reads this, db
    {
      cfg.maxRows > 0 ==> RowCap.Counted(cfg, start, db.table, rows)
    }

    predicate Spent(x: Id)
      reads this, db
    {
      SpentIn(db.table, Core(), x)
    }

    lemma CoreBare()
      ensures Bare(Core()) == Core()
    {
    }

    predicate RowCapReached()
      reads this
    {
      cfg.maxRows > 0 && rows >= cfg.maxRows
    }

    // --- markers -----------------------------------------------------------------------------------------

    method ReserveGeneration(id: Id) returns (ok: bool)
      modifies this`gen, this`generations
      ensures ok == CanReserve(old(Core()), id)
      ensures Core() == if ok then Stamp(old(Core()), id) else old(Core())
    {
      if id !in generations && |generations| >= MAX_MARKERS {
        return false;
      }
      gen := gen + 1;
      generations := generations[id := gen];
      ok := true;
    }

    method ReleaseGeneration(id: Id)
      modifies this`generations
      ensures Core() == Release(old(Core()), id)
    {
      generations := generations - {id};
    }

    method HandOffGeneration(oldId: Id, newId: Id) returns (ok: bool)
      modifies this`gen, this`generations
      ensures ok == CanHandOff(old(Core()), oldId, newId)
      ensures Core() == if ok then HandOff(old(Core()), oldId, newId) else old(Core())
    {
      if newId !in generations && oldId !in generations && |generations| >= MAX_MARKERS {
        return false;
      }
      generations := generations - {oldId};
      gen := gen + 1;
      generations := generations[newId := gen];
      ok := true;
    }

    method PruneGenerations(epoch: nat)
      modifies this`generations
      ensures generations == Pruned(old(generations), epoch)
    {
      var todo := generations.Keys;
      ghost var was := generations;
      while todo != {}
        invariant todo <= generations.Keys && generations.Keys <= was.Keys
        invariant forall id :: id in generations ==> generations[id] == was[id]
        invariant forall id :: id in was && id !in todo ==> (id in generations <==> was[id] > epoch)
        invariant unchanged(`gen) && unchanged(`local)
      {
        var id :| id in todo;
        todo := todo - {id};
        if generations[id] <= epoch {
          generations := generations - {id};
        }
      }
    }

    method SetPersisted(id: Id, ok: bool)
      modifies this`unpersisted
      ensures Core() == SessionSteps.SetPersisted(old(Core()), id, ok)
    {
      if ok {
        unpersisted := unpersisted - {id};
        return;
      }
      unpersisted := unpersisted + {id};
    }

    method Forget(id: Id)
      modifies this`touched, this`unpersisted, this`generations
      ensures Core() == SessionSteps.Forget(old(Core()), id)
    {
      touched := touched - {id};
      unpersisted := unpersisted - {id};
      generations := generations - {id};
    }

    // --- the local store ---------------------------------------------------------------------------------

    method LocalSave(id: Id, h: Held, victim: Option<Id>)
      modifies this
      ensures Core() == SessionSteps.LocalSave(old(Core()), id, h, victim)
    {
      if victim.Some? {
        local := local - {victim.value};
        Forget(victim.value);
      }
      local := local[id := h];
    }

    method LocalReplace(oldId: Id, oldObj: nat, id: Id, h: Held) returns (ok: bool)
      modifies this`local
      ensures ok == Holds(old(Core()), oldId, oldObj)
      ensures Core() == if ok then SessionSteps.LocalReplace(old(Core()), oldId, id, h) else old(Core())
    {
      if oldId !in local || local[oldId].obj != oldObj {
        return false;
      }
      local := (local - {oldId})[id := h];
      ok := true;
    }

    method LocalDelete(id: Id)
      modifies this`local
      ensures Core() == SessionSteps.LocalDelete(old(Core()), id)
    {
      local := local - {id};
    }

    // --- statements --------------------------------------------------------------------------------------

    method Insert(id: Id, row: Row, tx: Tx) returns (result: Inserted)
      modifies this, db
      ensures var i := SessionSteps.Insert(cfg, old(db.table), old(Core()), id, row, tx);
              db.table == i.table && Core() == i.rep && result == i.result
    {
      if tx.Aborted? {
        ReleaseGeneration(id);
        return InsertError;
      }
      var grew := id !in db.table;
      if grew && RowCapReached() {
        ReleaseGeneration(id);
        return AtCapacity;
      }
      if tx.Applied() {
        db.table := db.table[id := row];
      }
      if grew {
        rows := rows + 1;
      }
      result := if tx.Committed? then Stored else InsertError;
    }

    method ReplaceRow(oldId: Id, id: Id, row: Row, tx: Tx) returns (result: Swapped)
      modifies this`generations, db
      ensures var s := SessionSteps.ReplaceRow(old(db.table), old(Core()), oldId, id, row, tx);
              db.table == s.table && Core() == s.rep && result == s.result
    {
      if tx.Aborted? {
        ReleaseGeneration(id);
        return SwapError;
      }
      if oldId !in db.table {
        ReleaseGeneration(id);
        return Absent;
      }
      if tx.Applied() {
        db.table := (db.table - {oldId})[id := row];
      }
      result := if tx.Committed? then Done else SwapError;
    }

    method Touch(id: Id, now: Time, reply: Reply)
      modifies this`touched, db
      ensures var d := SessionSteps.Touch(cfg, old(db.table), old(Core()), id, now, reply);
              db.table == d.table && Core() == d.rep
    {
      if id in touched && now - touched[id] < TouchEvery(cfg.policy.idle) {
        return;
      }
      if |touched| >= MAX_TOUCHED {
        touched := map[];
      }
      touched := touched[id := now];
      if id in db.table && reply.Applied() {
        db.table := db.table[id := db.table[id].(lastSeen := now)];
      }
    }

    // --- operations --------------------------------------------------------------------------------------

    /** persistNew, but for the release of the admission mutex. */
    method PersistNew(id: Id, row: Row, tx: Tx) returns (ok: bool)
      modifies this, db
      ensures var b := DoSaveBegin(cfg, old(db.table), old(Core()), id, Held(row, 0));
              if b.rep.admit.Saving? then
                var i := SessionSteps.Insert(cfg, old(db.table), Stamp(old(Core()), id), id, row, tx);
                db.table == i.table && Core() == i.rep && ok == i.result.Stored?
              else !ok && db.table == old(db.table) && Core() == old(Core())
    {
      if RowCapReached() && id !in local {
        return false;
      }
      var marked := ReserveGeneration(id);
      if !marked {
        return false;
      }
      var result := Insert(id, row, tx);
      ok := result.Stored?;
    }

    method Save(id: Id, h: Held, tx: Tx, victim: Option<Id>)
      modifies this, db
      ensures var e := SaveSteps(cfg, old(db.table), old(Core()), id, h, tx, victim); db.table == e.table && Core() == Bare(e.rep)
      ensures Kept(cfg, old(db.table), old(Core()), db.table, Core(), Some(id))
    {
      SaveKept(cfg, db.table, Core(), id, h, tx, victim);
      SaveIs(cfg, db.table, Core(), id, h, tx, victim);
      var ok := PersistNew(id, h.row, tx);
      SetPersisted(id, ok);
      LocalSave(id, h, victim);
    }

    method Delete(id: Id, reply: Reply)
      modifies this, db
      ensures var e := DoDeleteShared(old(db.table), old(Core()), id, reply);
              db.table == e.table && Core() == Bare(DoDeleteLocal(e.table, e.rep, id).rep)
      ensures Kept(cfg, old(db.table), old(Core()), db.table, Core(), None)
      ensures reply.Answered? ==> Spent(id)
    {
      hide Kept;
      DeleteKept(cfg, db.table, Core(), id, reply);
      var n := db.Delete(id, reply);
      if n == Some(1) {
        rows := rows - 1;
      }
      Forget(id);
      local := local - {id};
    }

    /** What Replace does once the database could not swap the rows. */
    method FallBack(oldId: Id, oldObj: nat, id: Id, h: Held) returns (ok: bool)
      modifies this
      ensures var e := SwapLocally(db.table, old(Core()), oldId, oldObj, id, h); Core() == e.rep && (ok <==> e.won.Some?)
    {
      ok := LocalReplace(oldId, oldObj, id, h);
      if !ok {
        return;
      }
      Forget(oldId);
      SetPersisted(id, false);
    }

    method ReplaceLocally(oldId: Id, oldObj: nat, id: Id, h: Held, reply: Reply) returns (ok: bool)
      modifies this, db
      ensures var e := DoReplaceUnmarked(old(db.table), old(Core()).(admit := Swapping(oldId, oldObj, id, h, false)), reply);
              db.table == e.table && Core() == Bare(e.rep) && (ok <==> e.won.Some?)
    {
      var n := db.Delete(oldId, reply);
      if n == Some(1) {
        rows := rows - 1;
      } else if n == Some(0) && oldId !in unpersisted {
        return false;
      }
      ok := FallBack(oldId, oldObj, id, h);
    }

    method Replace(oldId: Id, oldObj: nat, id: Id, h: Held, tx: Tx, reply: Reply, victim: Option<Id>) returns (ok: bool)
      modifies this, db
      ensures var e := ReplaceSteps(old(db.table), old(Core()), oldId, oldObj, id, h, tx, reply, victim);
              db.table == e.table && Core() == Bare(e.rep) && (ok <==> e.won.Some?)
      ensures Kept(cfg, old(db.table), old(Core()), db.table, Core(), Some(id))
      // a login that wins on answered statements spends the pre-auth id, and no login wins on a spent one
      ensures ok && tx == Committed && reply == Answered && id != oldId ==> Spent(oldId)
      ensures old(Spent(oldId)) && id != oldId ==> !ok
    {
      hide CanHandOff, HandOff, SwapLocally, SessionSteps.ReplaceRow, SessionSteps.LocalSave, SessionSteps.LocalDelete, SessionSteps.Forget,
           SessionSteps.SetPersisted, DoReplaceUnmarked, ReplaceSteps, Kept, SpentIn, Bare;
      ReplaceKept(cfg, db.table, Core(), oldId, oldObj, id, h, tx, reply, victim);
      if id != oldId {
        ReplaceSpends(db.table, Core(), oldId, oldObj, id, h, tx, reply, victim);
      }
      CoreBare();
      ReplaceIs(db.table, Core(), oldId, oldObj, id, h, tx, reply, victim);
      var marked := HandOffGeneration(oldId, id);
      if !marked {
        ok := ReplaceLocally(oldId, oldObj, id, h, reply);
        return;
      }
      var result := ReplaceRow(oldId, id, h.row, tx);
      if result == SwapError || (result == Absent && oldId in unpersisted) {
        ok := FallBack(oldId, oldObj, id, h);
        return;
      }
      if result == Absent {
        return false;
      }
      Forget(oldId);
      SetPersisted(id, true);
      LocalDelete(oldId);
      LocalSave(id, h, victim);
      ok := true;
    }

    /** Load over Get. */
    method Load(id: Id, now: Time, reply: Reply, touchReply: Reply, obj: nat, victim: Option<Id>) returns (served: bool)
      modifies this, db
      ensures var e := LoadSteps(cfg, old(db.table), old(Core()), id, now, reply, touchReply, obj, victim);
              db.table == e.table && Core() == Bare(e.rep) && (served <==> e.served.Some?)
      ensures Kept(cfg, old(db.table), old(Core()), db.table, Core(), None)
    {
      LoadKept(cfg, db.table, Core(), id, now, reply, touchReply, obj, victim);
      hide Kept, Serve, SessionSteps.Touch, SessionSteps.LocalSave, Stamp, CanReserve, LoadSteps;
      LoadIs(cfg, db.table, Core(), id, now, reply, touchReply, obj, victim);
      if reply.Answered? {
        if id !in db.table {
          if id !in unpersisted {
            return false;
          }
        } else {
          if id !in local {
            var row := db.table[id];
            var marked := ReserveGeneration(id);
            LocalSave(id, Held(row, obj), victim);
          }
          Touch(id, now, touchReply);
        }
      }
      served := ServeLocal(id, now);
    }

    /** Manager.Load over a session that Get has found. */
    method ServeLocal(id: Id, now: Time) returns (served: bool)
      modifies this`local
      ensures var e := Serve(cfg, db.table, old(Core()), id, now); db.table == e.table && Core() == e.rep && (served <==> e.served.Some?)
    {
      if id !in local || local[id].row.Expired(cfg.policy, now) {
        return false;
      }
      local := local[id := Seen(local[id], now)];
      served := true;
    }

    /** A scan over this store, at the point where the pending ids have been collected. */
    function Collecting(scan: Scan, full: bool): Replica
      reads this
    {
      Core().(admit := Repersisting(full), scan := scan)
    }

    /** repersist: order is the order in which the unpersisted ids come up. */
    method Repersist(scan: Scan, order: seq<Id>, txs: seq<Tx>) returns (present: Table)
      requires scan.Scan? && |order| == |txs| && scan.pending == (set id | id in order)
      modifies this, db
      ensures var e := RepersistSteps(cfg, old(db.table), old(Collecting(scan, RowCapReached())), order, txs);
              db.table == e.table && e.rep.scan.Scan? && present == e.rep.scan.present && Core() == e.rep.(admit := Free, scan := NoScan)
      ensures Kept(cfg, old(db.table), old(Core()), db.table, Core(), None)
    {
      hide DoRepersistOne, Kept;
      present := scan.present;
      var full := RowCapReached();
      ghost var t, r := db.table, Collecting(scan, full);
      ghost var pending := scan.pending;
      assert order[..0] == [] && txs[..0] == [];
      for k := 0 to |order|
        invariant var e := RepersistSteps(cfg, t, r, order[..k], txs[..k]);
                  db.table == e.table && e.rep == Collecting(scan.(present := present, pending := pending), full)
      {
        NextTurn(cfg, t, r, order, txs, k);
        present, full := RepersistTurn(scan.(present := present, pending := pending), present, full, order[k], txs[k]);
        pending := pending - {order[k]};
      }
      assert order[..|order|] == order && txs[..|txs|] == txs;
      RepersistKept(cfg, t, r, order, txs);
      SameKept(cfg, t, r, r.(admit := Free, scan := NoScan), db.table, RepersistSteps(cfg, t, r, order, txs).rep, Core());
    }

    /** One pending id. */
    method RepersistTurn(ghost scan: Scan, written: Table, full: bool, id: Id, tx: Tx) returns (present: Table, full': bool)
      requires scan.Scan? && scan.present == written
      modifies this, db
      ensures var e := DoRepersistOne(cfg, old(db.table), old(Collecting(scan, full)), id, tx);
              db.table == e.table && e.rep == Collecting(scan.(present := present, pending := scan.pending - {id}), full')
    {
      hide DoRepersistOne, SessionSteps.Insert, SessionSteps.SetPersisted, Stamp, CanReserve;
      TurnIs(cfg, db.table, Core(), scan, full, id, tx);
      present, full' := written, full;
      if id !in local || id in written {
        SetPersisted(id, true);
        return;
      }
      if full {
        return;
      }
      var row := local[id].row;
      var marked := ReserveGeneration(id);
      if !marked {
        return;
      }
      var result := Insert(id, row, tx);
      if result.Stored? {
        SetPersisted(id, true);
        present := present[id := row];
      } else if RowCapReached() {
        full' := true;
      }
    }

    /** The local half of a sweep: every session the predicate ends. */
    method SweepLocal(scan: Scan) returns (dead: set<Id>)
      requires scan.Scan?
      modifies this`local
      ensures var e := DoSweepLocal(cfg, db.table, old(Core()).(scan := scan));
              e.rep.scan.Scan? && dead == e.rep.scan.dead && Core() == e.rep.(scan := NoScan)
      // a live session is kept when its marker is newer than the scan, its row was seen, or it has none of its own yet
      ensures forall id :: id in old(local) && !old(local)[id].row.Expired(cfg.policy, scan.at) ==>
                             (id in local <==> id in scan.present || id in unpersisted || (id in generations && generations[id] > scan.epoch))
    {
      ghost var r := Core().(scan := scan);
      ghost var was := local;
      dead := {};
      var todo := local.Keys;
      while todo != {}
        invariant todo <= local.Keys && local == was - dead && todo !! dead
        invariant forall id :: id in dead <==> id in was && id !in todo && (id in RetiredOnAbsence(r) || id in PolicyDead(cfg, r, scan.at))
        invariant unchanged(`generations) && unchanged(`unpersisted) && unchanged(`gen) && unchanged(`touched) && unchanged(`rows)
      {
        var id :| id in todo;
        todo := todo - {id};
        var gone := local[id].row.Expired(cfg.policy, scan.at);
        if id !in scan.present && id !in unpersisted && (id !in generations || generations[id] <= scan.epoch) {
          gone := true;
        }
        if gone {
          dead := dead + {id};
          local := local - {id};
        }
      }
    }
  }
}
