/** The sweep of abandoned rows ends no session in use, under one shared clock and without storage errors. */
module IdleSafety {
  import opened Wrappers
  import opened Sessions
  import opened SessionSteps
  import opened SingleWinner
  import S = ScanSafety

  /** The database answers everything. */
  predicate Answers(ev: Event) {
    match ev
    case SaveCommit(tx) => tx == Committed
    case DeleteShared(_, reply) => reply == Answered
    case ReplaceCommit(tx, _) => tx == Committed
    case ReplaceUnmarked(reply) => reply == Answered
    case Lookup(_, reply, touched) => reply == Answered && touched == Answered
    case Adopt(_, _, _, _, touched) => touched == Answered
    case ScanSnapshot(reply) => reply == Answered
    case ScanReconcile(reply) => reply == Answered
    case RepersistOne(_, tx) => tx == Committed
    case SweepDead(_, reply) => reply == Answered
    case SweepShared(_, reply) => reply == Answered
    case _ => true
  }

  predicate MoveAnswers(m: Move) {
    m.Step? ==> Answers(m.ev)
  }

  lemma AnswersAreBenign(ev: Event)
    requires Answers(ev)
    ensures Benign(ev)
  {
  }

  // --- one id's times at one replica ---------------------------------------------------------------------

  /** When the id was last touched here, the local session's last_seen, and that of the session still
      being created. */
  datatype Times = Times(touched: Option<Time>, local: Option<Time>, forming: Option<Time>)

  function Touched(r: Replica, x: Id): Option<Time> {
    if x in r.touched then Some(r.touched[x]) else None
  }

  function LocalSeen(r: Replica, x: Id): Option<Time> {
    if x in r.local then Some(r.local[x].row.lastSeen) else None
  }

  function Forming(r: Replica, x: Id): Option<Time> {
    if r.admit.Saving? && r.admit.id == x then Some(r.admit.held.row.lastSeen)
    else if r.admit.Swapping? && r.admit.id == x then Some(r.admit.held.row.lastSeen)
    else if x in r.saves then Some(r.saves[x].held.row.lastSeen)
    else None
  }

  function TimesOf(r: Replica, x: Id): Times {
    Times(Touched(r, x), LocalSeen(r, x), Forming(r, x))
  }

  function RowSeen(t: Table, x: Id): Option<Time> {
    if x in t then Some(t[x].lastSeen) else None
  }

  const NO_TIMES: Times := Times(None, None, None)

  /** What a step may do to the times of an id it does not mint. */
  ghost predicate Keeps(te: Time, now: Time, row: Option<Time>, f: Facet, m: Times, served: bool, row': Option<Time>, f': Facet, m': Times) {
    // touched here only when there is, or was, a row to touch
    && (m'.touched == m.touched || m'.touched == None || (m'.touched == Some(now) && (row.Some? || f.adoptable)))
    // a row is left alone, refreshed, or written by the process that created the session
    && (row'.Some? ==>
          || (row' == row && m'.touched in {m.touched, None})
          || (row.Some? && row' == Some(now))
          || (row == None && m'.touched in {m.touched, None} && ((Embryo(f) && m.forming == row') || (f.pending && f.local && m.local == row'))))
    // a served session is current, and so is its row up to the throttle
    && (served ==> m'.local == Some(now) && (f.local || f.adoptable)
                   && (row'.Some? ==> row' == Some(now) || (row' == row && m.touched.Some? && now - m.touched.value < te)))
    // a local session of an unwritten id only ever gets its own times
    && (Origin(f') && m'.local.Some? ==> m'.local == m.local || served || (m.local == None && m'.local == m.forming && (f.saved || f.swapping)))
    && (m'.forming == m.forming || m'.forming == None)
  }

  ghost predicate StepKeeps(cfg: Config, t: Table, r: Replica, now: Time, e: Effect, x: Id) {
    Keeps(TouchEvery(cfg.policy.idle), now, RowSeen(t, x), FacetOf(r, x), TimesOf(r, x), e.served == Some(x),
          RowSeen(e.table, x), FacetOf(e.rep, x), TimesOf(e.rep, x))
  }

  // --- the pieces ----------------------------------------------------------------------------------------

  lemma LocalIs(r: Replica, x: Id)
    ensures TimesOf(r, x).local.Some? <==> FacetOf(r, x).local
  {
    hide Names;
  }

  lemma StampTimes(r: Replica, id: Id, x: Id)
    ensures TimesOf(Stamp(r, id), x) == TimesOf(r, x)
  {
  }

  lemma PersistTimes(r: Replica, id: Id, ok: bool, x: Id)
    ensures TimesOf(SetPersisted(r, id, ok), x) == TimesOf(r, x)
  {
  }

  lemma ForgetTimes(r: Replica, id: Id, x: Id)
    ensures TimesOf(Forget(r, id), x) == TimesOf(r, x).(touched := if x == id then None else Touched(r, x))
  {
  }

  lemma KeepTimes(r: Replica, id: Id, h: Held, x: Id)
    ensures TimesOf(Keep(r, id, h), x) == TimesOf(r, x).(local := if x == id then Some(h.row.lastSeen) else LocalSeen(r, x))
  {
  }

  lemma DropTimes(r: Replica, id: Id, x: Id)
    ensures TimesOf(LocalDelete(r, id), x) == TimesOf(r, x).(local := if x == id then None else LocalSeen(r, x))
  {
  }

  lemma TimeFields(r: Replica, x: Id)
    ensures TimesOf(r, x).touched == Touched(r, x) && TimesOf(r, x).local == LocalSeen(r, x)
  {
  }

  lemma LandTimes(r: Replica, id: Id, h: Held, victim: Option<Id>, x: Id)
    ensures TimesOf(LocalSave(r, id, h, victim), x) ==
            TimesOf(r, x).(touched := if victim == Some(x) then None else Touched(r, x),
                           local := if x == id then Some(h.row.lastSeen) else if victim == Some(x) then None else LocalSeen(r, x))
  {
    hide TimesOf, Keep, Forget, LocalDelete, Touched, LocalSeen;
    TimeFields(r, x);
    if victim.Some? {
      DropTimes(r, victim.value, x);
      var d := LocalDelete(r, victim.value);
      TimeFields(d, x);
      ForgetTimes(d, victim.value, x);
      var f := Forget(d, victim.value);
      TimeFields(f, x);
      KeepTimes(f, id, h, x);
    } else {
      KeepTimes(r, id, h, x);
    }
  }

  lemma ExchangeTimes(r: Replica, oldId: Id, id: Id, h: Held, x: Id)
    ensures TimesOf(LocalReplace(r, oldId, id, h), x) ==
            TimesOf(r, x).(local := if x == id then Some(h.row.lastSeen) else if x == oldId then None else LocalSeen(r, x))
  {
  }

  lemma InsertTimes(cfg: Config, t: Table, r: Replica, id: Id, row: Row, x: Id)
    ensures var i := Insert(cfg, t, r, id, row, Committed);
            && TimesOf(i.rep, x) == TimesOf(r, x)
            && RowSeen(i.table, x) == if x == id && i.result.Stored? then Some(row.lastSeen) else RowSeen(t, x)
  {
    hide CapReached;
  }

  lemma RowTimes(t: Table, r: Replica, oldId: Id, id: Id, row: Row, x: Id)
    ensures var s := ReplaceRow(t, r, oldId, id, row, Committed);
            && TimesOf(s.rep, x) == TimesOf(r, x)
            && RowSeen(s.table, x) == if oldId !in t then RowSeen(t, x) else if x == id then Some(row.lastSeen) else if x == oldId then None else RowSeen(t, x)
  {
  }

  lemma DeleteTimes(t: Table, r: Replica, id: Id, x: Id)
    ensures var d := DeleteRow(t, r, id, Answered);
            TimesOf(d.rep, x) == TimesOf(r, x) && RowSeen(d.table, x) == if x == id then None else RowSeen(t, x)
  {
  }

  /** A touch either finds a recent one, or refreshes the row and remembers it. */
  lemma TouchTimes(cfg: Config, t: Table, r: Replica, id: Id, now: Time, x: Id)
    ensures var d := Touch(cfg, t, r, id, now, Answered);
            && TimesOf(d.rep, x).(touched := None) == TimesOf(r, x).(touched := None)
            && (x != id ==> RowSeen(d.table, x) == RowSeen(t, x) && TimesOf(d.rep, x).touched in {Touched(r, x), None})
            && (x == id ==>
                  || (RowSeen(d.table, x) == RowSeen(t, x) && TimesOf(d.rep, x).touched == Touched(r, x)
                      && Touched(r, x).Some? && now - Touched(r, x).value < TouchEvery(cfg.policy.idle))
                  || (TimesOf(d.rep, x).touched == Some(now) && RowSeen(d.table, x) == if x in t then Some(now) else None))
  {
    hide TouchEvery;
  }

  lemma ServeTimes(cfg: Config, t: Table, r: Replica, id: Id, now: Time, x: Id)
    ensures var e := Serve(cfg, t, r, id, now);
            && e.table == t && (e.served == None || e.served == Some(id)) && (e.served == Some(id) ==> id in r.local)
            && TimesOf(e.rep, x) == if e.served == Some(x) then TimesOf(r, x).(local := Some(now)) else TimesOf(r, x)
  {
  }

  lemma SwapTimes(t: Table, r: Replica, oldId: Id, oldObj: nat, id: Id, h: Held, x: Id)
    ensures var e := SwapLocally(t, r, oldId, oldObj, id, h);
            && e.table == t && e.served == None
            && TimesOf(e.rep, x) == if e.won == None then TimesOf(r, x) else
                 TimesOf(r, x).(touched := if x == oldId then None else Touched(r, x),
                                local := if x == id then Some(h.row.lastSeen) else if x == oldId then None else LocalSeen(r, x))
  {
    hide TimesOf, LocalReplace, Forget, SetPersisted, Touched, LocalSeen;
    TimeFields(r, x);
    ExchangeTimes(r, oldId, id, h, x);
    var l := LocalReplace(r, oldId, id, h);
    TimeFields(l, x);
    ForgetTimes(l, oldId, x);
    PersistTimes(Forget(l, oldId), id, false, x);
  }

  lemma FreeTimes(r: Replica, x: Id)
    requires r.admit.Swapping?
    ensures TimesOf(r.(admit := Free), x).(forming := None) == TimesOf(r, x).(forming := None)
    ensures TimesOf(r, x).forming == if x == r.admit.id then Some(r.admit.held.row.lastSeen) else TimesOf(r.(admit := Free), x).forming
    ensures FacetOf(r, x).swapping <==> x == r.admit.id
    ensures x == r.admit.id && !FacetOf(r, x).saved ==> TimesOf(r.(admit := Free), x).forming == None
  {
    hide Names;
  }

  // --- every step keeps the times ------------------------------------------------------------------------

  lemma SaveCommitKeeps(cfg: Config, t: Table, r: Replica, now: Time, x: Id)
    requires Fine(x in t, FacetOf(r, x)) && r.admit.Saving?
    ensures StepKeeps(cfg, t, r, now, DoSaveCommit(cfg, t, r, Committed), x)
  {
    hide Names, Insert, CapReached;
    InsertTimes(cfg, t, r, r.admit.id, r.admit.held.row, x);
    InsertFacet(cfg, t, r, r.admit.id, r.admit.held.row, Committed, x);
  }

  lemma SaveMarkKeeps(cfg: Config, t: Table, r: Replica, now: Time, id: Id, x: Id)
    requires id in r.saves && r.saves[id].Marking?
    ensures StepKeeps(cfg, t, r, now, DoSaveMark(t, r, id), x)
  {
    hide Names;
  }

  lemma SaveLandKeeps(cfg: Config, t: Table, r: Replica, now: Time, id: Id, victim: Option<Id>, x: Id)
    requires Fine(x in t, FacetOf(r, x)) && id in r.saves && r.saves[id].Landing?
    requires StepPasses(t, r, DoSaveLand(t, r, id, victim), x)
    ensures StepKeeps(cfg, t, r, now, DoSaveLand(t, r, id, victim), x)
  {
    hide Names, LocalSave;
    LandTimes(r.(saves := r.saves - {id}), id, r.saves[id].held, victim, x);
  }

  lemma DeleteKeeps(cfg: Config, t: Table, r: Replica, now: Time, id: Id, x: Id)
    ensures StepKeeps(cfg, t, r, now, DoDeleteShared(t, r, id, Answered), x)
  {
    hide Names, DeleteRow, Forget;
    DeleteTimes(t, r, id, x);
    ForgetTimes(DeleteRow(t, r, id, Answered).rep, id, x);
  }

  lemma DropKeeps(cfg: Config, t: Table, r: Replica, now: Time, id: Id, x: Id)
    ensures StepKeeps(cfg, t, r, now, DoDeleteLocal(t, r, id), x)
  {
    hide Names, LocalDelete;
    DropTimes(r, id, x);
  }

  lemma ReplaceCommitKeeps(cfg: Config, t: Table, r: Replica, now: Time, victim: Option<Id>, x: Id)
    requires Fine(x in t, FacetOf(r, x)) && r.admit.Swapping?
    requires StepPasses(t, r, DoReplaceCommit(t, r, Committed, victim), x)
    ensures StepKeeps(cfg, t, r, now, DoReplaceCommit(t, r, Committed, victim), x)
  {
    hide FacetOf, TimesOf, ReplaceRow, LocalSave, LocalDelete, Forget, SetPersisted, SwapLocally;
    var a := r.admit;
    var q := r.(admit := Free);
    FreeTimes(r, x);
    RowTimes(t, q, a.oldId, a.id, a.held.row, x);
    RowFacet(t, q, a.oldId, a.id, a.held.row, x);
    var s := ReplaceRow(t, q, a.oldId, a.id, a.held.row, Committed);
    TimeFields(s.rep, x);
    LocalIs(r, x);
    SwapTimes(s.table, s.rep, a.oldId, a.oldObj, a.id, a.held, x);
    if s.result == Done {
      DoneTimes(s.rep, a.oldId, a.id, a.held, victim, x);
    }
  }

  lemma DoneTimes(r: Replica, oldId: Id, id: Id, h: Held, victim: Option<Id>, x: Id)
    ensures TimesOf(LocalSave(LocalDelete(SetPersisted(Forget(r, oldId), id, true), oldId), id, h, victim), x) ==
            TimesOf(r, x).(touched := if x == oldId || victim == Some(x) then None else Touched(r, x),
                           local := if x == id then Some(h.row.lastSeen) else if x == oldId || victim == Some(x) then None else LocalSeen(r, x))
  {
    hide TimesOf, LocalSave, LocalDelete, Forget, SetPersisted, Touched, LocalSeen;
    TimeFields(r, x);
    ForgetTimes(r, oldId, x);
    var f := Forget(r, oldId);
    TimeFields(f, x);
    PersistTimes(f, id, true, x);
    var p := SetPersisted(f, id, true);
    TimeFields(p, x);
    DropTimes(p, oldId, x);
    var d := LocalDelete(p, oldId);
    TimeFields(d, x);
    LandTimes(d, id, h, victim, x);
  }

  lemma ReplaceUnmarkedKeeps(cfg: Config, t: Table, r: Replica, now: Time, x: Id)
    requires Fine(x in t, FacetOf(r, x)) && r.admit.Swapping?
    requires StepPasses(t, r, DoReplaceUnmarked(t, r, Answered), x)
    ensures StepKeeps(cfg, t, r, now, DoReplaceUnmarked(t, r, Answered), x)
  {
    hide FacetOf, TimesOf, DeleteRow, SwapLocally;
    var a := r.admit;
    var q := r.(admit := Free);
    FreeTimes(r, x);
    DeleteTimes(t, q, a.oldId, x);
    var d := DeleteRow(t, q, a.oldId, Answered);
    TimeFields(d.rep, x);
    LocalIs(r, x);
    SwapTimes(d.table, d.rep, a.oldId, a.oldObj, a.id, a.held, x);
  }

  lemma LookupKeeps(cfg: Config, t: Table, r: Replica, now: Time, id: Id, x: Id)
    requires Fine(x in t, FacetOf(r, x))
    ensures StepKeeps(cfg, t, r, now, DoLookup(cfg, t, r, id, now, Answered, Answered), x)
  {
    hide Serve, Touch, AbsenceIsFinal, FacetOf, TimesOf, TouchEvery;
    TouchTimes(cfg, t, r, id, now, x);
    ServeTimes(cfg, t, r, id, now, x);
    var d := Touch(cfg, t, r, id, now, Answered);
    ServeTimes(cfg, d.table, d.rep, id, now, x);
    LocalIs(r, x);
    TimeFields(r, x);
    if id in t {
      AdoptingTimes(r, r.adopting + {(id, t[id])}, x);
    }
  }

  lemma AdoptKeeps(cfg: Config, t: Table, r: Replica, now: Time, id: Id, row: Row, obj: nat, victim: Option<Id>, x: Id)
    requires Fine(x in t, FacetOf(r, x)) && (id, row) in r.adopting && victim != Some(id)
    requires StepPasses(t, r, DoAdopt(cfg, t, r, id, row, obj, victim, now, Answered), x)
    ensures StepKeeps(cfg, t, r, now, DoAdopt(cfg, t, r, id, row, obj, victim, now, Answered), x)
  {
    hide Serve, Touch, Stamp, LocalSave, CanReserve, FacetOf, TimesOf, TouchEvery, Touched, LocalSeen;
    var m := if CanReserve(r, id) then Stamp(r, id) else r;
    StampTimes(r, id, x);
    TimeFields(r, x);
    TimeFields(m, x);
    LandTimes(m, id, Held(row, obj), victim, x);
    var l := LocalSave(m, id, Held(row, obj), victim);
    TimeFields(l, x);
    TouchTimes(cfg, t, l, id, now, x);
    var d := Touch(cfg, t, l, id, now, Answered);
    var w := d.rep.(adopting := r.adopting - {(id, row)});
    AdoptingTimes(d.rep, r.adopting - {(id, row)}, x);
    ServeTimes(cfg, d.table, w, id, now, x);
    AdoptedFacet(d.rep, r, (id, row), x);
    LocalIs(r, x);
  }

  lemma AdoptingTimes(r: Replica, es: set<(Id, Row)>, x: Id)
    ensures TimesOf(r.(adopting := es), x) == TimesOf(r, x)
  {
  }

  lemma SameTimes(r: Replica, q: Replica, x: Id)
    requires q.touched == r.touched && q.local == r.local && q.admit == r.admit && q.saves == r.saves
    ensures TimesOf(q, x) == TimesOf(r, x)
  {
  }

  /** The admission mutex is not on a session being created. */
  lemma RepersistingTimes(r: Replica, q: Replica, x: Id)
    requires q.touched == r.touched && q.local == r.local && q.saves == r.saves && r.admit.Repersisting? && q.admit.Repersisting?
    ensures TimesOf(q, x) == TimesOf(r, x)
  {
  }

  /** The turn that writes a row writes the local session's own. */
  lemma RepersistKeeps(cfg: Config, t: Table, r: Replica, now: Time, id: Id, x: Id)
    requires Fine(x in t, FacetOf(r, x)) && r.scan.Scan? && r.admit.Repersisting? && id in r.scan.pending
    ensures StepKeeps(cfg, t, r, now, DoRepersistOne(cfg, t, r, id, Committed), x)
  {
    var e := DoRepersistOne(cfg, t, r, id, Committed);
    RepersistEffect(cfg, t, r, id);
    hide DoRepersistOne, FacetOf, TimesOf;
    RepersistingTimes(r, e.rep, x);
    DoneFacet(r, id, x);
    FacetFields(r, x);
    TimeFields(r, x);
  }

  lemma RepersistEffect(cfg: Config, t: Table, r: Replica, id: Id)
    requires r.scan.Scan? && r.admit.Repersisting? && id in r.scan.pending
    ensures var e := DoRepersistOne(cfg, t, r, id, Committed);
            && e.served == None && e.rep.touched == r.touched && e.rep.local == r.local && e.rep.saves == r.saves && e.rep.admit.Repersisting?
            && (e.table == t || (id in r.local && e.table == t[id := r.local[id].row]))
  {
    hide CanReserve, CapReached, Insert, Stamp, SetPersisted;
    var q := r.(scan := r.scan.(pending := r.scan.pending - {id}));
    PersistEffect(q, id);
    if id in r.local {
      var i := Insert(cfg, t, Stamp(q, id), id, r.local[id].row, Committed);
      WriteEffect(cfg, t, q, id, r.local[id].row);
      PersistEffect(i.rep, id);
    }
  }

  lemma PersistEffect(q: Replica, id: Id)
    ensures var p := SetPersisted(q, id, true);
            p.touched == q.touched && p.local == q.local && p.saves == q.saves && p.admit == q.admit && p.scan == q.scan
  {
  }

  lemma WriteEffect(cfg: Config, t: Table, q: Replica, id: Id, row: Row)
    ensures var i := Insert(cfg, t, Stamp(q, id), id, row, Committed);
            && i.rep.touched == q.touched && i.rep.local == q.local && i.rep.saves == q.saves && i.rep.admit == q.admit && i.rep.scan == q.scan
            && (i.table == t || i.table == t[id := row])
  {
    hide CapReached;
  }

  lemma SweepLocalKeeps(cfg: Config, t: Table, r: Replica, now: Time, x: Id)
    requires r.scan.Scan?
    ensures StepKeeps(cfg, t, r, now, DoSweepLocal(cfg, t, r), x)
  {
    hide Names, RetiredOnAbsence, PolicyDead;
  }

  lemma SweepDeadKeeps(cfg: Config, t: Table, r: Replica, now: Time, id: Id, x: Id)
    requires r.scan.Scan?
    ensures StepKeeps(cfg, t, r, now, DoSweepDead(t, r, id, Answered), x)
  {
    hide FacetOf, TimesOf, Forget, DeleteRow;
    var e, f := DoSweepDead(t, r, id, Answered), Forget(r, id);
    ForgetTimes(r, id, x);
    DeleteTimes(t, f, id, x);
    TimeFields(r, x);
    SameTimes(if id in r.scan.present then DeleteRow(t, f, id, Answered).rep else f, e.rep, x);
  }

  lemma SweepSharedKeeps(cfg: Config, t: Table, r: Replica, now: Time, id: Id, x: Id)
    requires r.scan.Scan? && id in r.scan.present
    ensures StepKeeps(cfg, t, r, now, DoSweepShared(cfg, t, r, id, Answered), x)
  {
    hide FacetOf, TimesOf, Abandoned, StillSeen;
    SameTimes(r, DoSweepShared(cfg, t, r, id, Answered).rep, x);
  }

  lemma IdleKeeps(cfg: Config, t: Table, r: Replica, now: Time, ev: Event, x: Id)
    requires Enabled(r, now, ev) && Answers(ev) && Idle(ev)
    ensures StepKeeps(cfg, t, r, now, Do(cfg, t, r, now, ev), x)
  {
    hide Names, Pruned, CapReached;
  }

  lemma SaveBeginKeeps(cfg: Config, t: Table, r: Replica, now: Time, id: Id, h: Held, x: Id)
    requires r.admit.Free? && x != id
    ensures StepKeeps(cfg, t, r, now, DoSaveBegin(cfg, t, r, id, h), x)
  {
    hide Names, CapReached, CanReserve;
  }

  lemma ReplaceBeginKeeps(cfg: Config, t: Table, r: Replica, now: Time, oldId: Id, oldObj: nat, id: Id, h: Held, x: Id)
    requires r.admit.Free? && x != id
    ensures StepKeeps(cfg, t, r, now, DoReplaceBegin(t, r, oldId, oldObj, id, h), x)
  {
    hide Names, CanHandOff;
  }

  lemma MintTimes(cfg: Config, t: Table, r: Replica, now: Time, ev: Event, x: Id)
    requires FacetOf(r, x) == BLANK && Touched(r, x) == None && Enabled(r, now, ev) && x in MintedIds(ev)
    requires (ev.SaveBegin? || ev.ReplaceBegin?) && ev.h.row.lastSeen == now
    ensures var e := Do(cfg, t, r, now, ev); e.served == None && TimesOf(e.rep, x) == Times(None, None, Some(now))
  {
    hide Names, CapReached, CanReserve, CanHandOff;
  }

  lemma StepKeep(cfg: Config, t: Table, r: Replica, now: Time, ev: Event, x: Id)
    requires Fine(x in t, FacetOf(r, x)) && Enabled(r, now, ev) && Answers(ev) && x !in MintedIds(ev)
    ensures StepKeeps(cfg, t, r, now, Do(cfg, t, r, now, ev), x)
  {
    hide Fine, FacetOf, StepPasses, StepKeeps, DoSaveBegin, DoReplaceBegin, DoSaveCommit, DoSaveMark, DoSaveLand, DoDeleteShared, DoDeleteLocal,
         DoReplaceCommit, DoReplaceUnmarked, DoLookup, DoAdopt, DoRepersistOne, DoSweepLocal, DoSweepDead, DoSweepShared, Idle;
    if ev.SaveBegin? {
      SaveBeginKeeps(cfg, t, r, now, ev.id, ev.h, x);
    } else if ev.ReplaceBegin? {
      ReplaceBeginKeeps(cfg, t, r, now, ev.oldId, ev.oldObj, ev.id, ev.h, x);
    } else if Idle(ev) {
      IdleKeeps(cfg, t, r, now, ev, x);
    } else {
      ActiveKeeps(cfg, t, r, now, ev, x);
    }
  }

  lemma ActiveKeeps(cfg: Config, t: Table, r: Replica, now: Time, ev: Event, x: Id)
    requires Fine(x in t, FacetOf(r, x)) && Enabled(r, now, ev) && Answers(ev) && x !in MintedIds(ev)
    requires !ev.SaveBegin? && !ev.ReplaceBegin? && !Idle(ev)
    ensures StepKeeps(cfg, t, r, now, Do(cfg, t, r, now, ev), x)
  {
    hide Fine, FacetOf, StepPasses, StepKeeps, DoSaveCommit, DoSaveMark, DoSaveLand, DoDeleteShared, DoDeleteLocal, DoReplaceCommit, DoReplaceUnmarked,
         DoLookup, DoAdopt, DoRepersistOne, DoSweepLocal, DoSweepDead, DoSweepShared;
    AnswersAreBenign(ev);
    StepPass(cfg, t, r, now, ev, x);
    match ev
    case SaveCommit(tx) => SaveCommitKeeps(cfg, t, r, now, x);
    case SaveMark(id) => SaveMarkKeeps(cfg, t, r, now, id, x);
    case SaveLand(id, victim) => SaveLandKeeps(cfg, t, r, now, id, victim, x);
    case DeleteShared(id, _) => DeleteKeeps(cfg, t, r, now, id, x);
    case DeleteLocal(id) => DropKeeps(cfg, t, r, now, id, x);
    case ReplaceCommit(_, victim) => ReplaceCommitKeeps(cfg, t, r, now, victim, x);
    case ReplaceUnmarked(_) => ReplaceUnmarkedKeeps(cfg, t, r, now, x);
    case Lookup(id, _, _) => LookupKeeps(cfg, t, r, now, id, x);
    case Adopt(id, row, obj, victim, _) => AdoptKeeps(cfg, t, r, now, id, row, obj, victim, x);
    case RepersistOne(id, _) => RepersistKeeps(cfg, t, r, now, id, x);
    case SweepLocal => SweepLocalKeeps(cfg, t, r, now, x);
    case SweepDead(id, _) => SweepDeadKeeps(cfg, t, r, now, id, x);
    case SweepShared(id, _) => SweepSharedKeeps(cfg, t, r, now, id, x);
    case _ =>
  }

  // --- the whole system ----------------------------------------------------------------------------------

  /** The row is no older than the last service by more than the throttle, and no touch is newer. */
  ghost predicate RowTimed(te: Time, clock: Time, row: Option<Time>, last: Option<Time>, ms: map<RId, Times>) {
    row.Some? ==>
      && row.value <= clock && (last.Some? ==> row.value > last.value - te)
      && forall r :: r in ms && ms[r].touched.Some? ==> ms[r].touched.value <= row.value
  }

  /** Nothing is in the future. */
  ghost predicate Past(clock: Time, last: Option<Time>, ms: map<RId, Times>) {
    && (last.Some? ==> last.value <= clock)
    && (forall r :: r in ms && ms[r].touched.Some? ==> ms[r].touched.value <= clock)
    && (forall r :: r in ms && ms[r].forming.Some? ==> ms[r].forming.value <= clock)
  }

  /** An id that has no row yet is known only where it was created ... */
  ghost predicate Apart(fs: map<RId, Facet>, ms: map<RId, Times>) {
    forall r, q :: r in fs && q in fs && q in ms && Origin(fs[r]) ==> ms[q].touched == None && (q != r ==> !fs[q].local && !fs[q].saved)
  }

  /** ... and its session there is as fresh as its last service. */
  ghost predicate OriginTimed(clock: Time, last: Option<Time>, f: Facet, m: Times) {
    && (m.local.Some? <==> f.local)
    && (Origin(f) && m.local.Some? ==> m.local.value <= clock && (last.Some? ==> last.value <= m.local.value))
    && (Origin(f) && (Embryo(f) || f.saved) ==> last == None)
  }

  /** How an id's times stand everywhere: last is when any replica last served it. */
  ghost predicate Timed(te: Time, clock: Time, row: Option<Time>, last: Option<Time>, used: bool, fs: map<RId, Facet>, ms: map<RId, Times>) {
    && ms.Keys == fs.Keys && RowTimed(te, clock, row, last, ms) && Past(clock, last, ms) && Apart(fs, ms)
    && (forall r :: r in fs ==> OriginTimed(clock, last, fs[r], ms[r]))
    && (!used ==> last == None && forall r :: r in ms ==> ms[r].touched == None)
  }

  lemma RowStep(te: Time, now: Time, row: Option<Time>, last: Option<Time>, f: Facet, ms: map<RId, Times>, r0: RId,
                served: bool, row': Option<Time>, f': Facet, m': Times)
    requires te > 0 && r0 in ms && Fine(row.Some?, f) && RowTimed(te, now, row, last, ms) && Past(now, last, ms) && OriginTimed(now, last, f, ms[r0])
    requires Keeps(te, now, row, f, ms[r0], served, row', f', m') && (Origin(f) ==> forall q :: q in ms ==> ms[q].touched == None)
    ensures RowTimed(te, now, row', if served then Some(now) else last, ms[r0 := m'])
  {
    var ns := ms[r0 := m'];
    if row'.Some? {
      forall r | r in ns && ns[r].touched.Some? ensures ns[r].touched.value <= row'.value {
        if r != r0 {
          assert ns[r] == ms[r];
        }
      }
    }
  }

  lemma PastStep(te: Time, now: Time, row: Option<Time>, last: Option<Time>, f: Facet, ms: map<RId, Times>, r0: RId,
                 served: bool, row': Option<Time>, f': Facet, m': Times)
    requires r0 in ms && Past(now, last, ms) && Keeps(te, now, row, f, ms[r0], served, row', f', m')
    ensures Past(now, if served then Some(now) else last, ms[r0 := m'])
  {
  }

  lemma ApartStep(te: Time, now: Time, wins: nat, row: Option<Time>, used: bool, fs: map<RId, Facet>, ms: map<RId, Times>, r0: RId,
                  won: bool, served: bool, row': Option<Time>, f': Facet, m': Times)
    requires ms.Keys == fs.Keys && r0 in fs && Sound(wins, row.Some?, used, fs) && Apart(fs, ms)
    requires Passes(row.Some?, fs[r0], won, row'.Some?, f') && Keeps(te, now, row, fs[r0], ms[r0], served, row', f', m')
    ensures Apart(fs[r0 := f'], ms[r0 := m'])
  {
    hide Passes, Keeps, Origin, Settled, Embryo, Token;
    var gs, ns := fs[r0 := f'], ms[r0 := m'];
    HereApart(te, now, row, fs[r0], ms[r0], won, served, row', f', m');
    forall r, q | r in gs && q in gs && q in ns && Origin(gs[r]) ensures ns[q].touched == None && (q != r ==> !gs[q].local && !gs[q].saved) {
      assert Origin(fs[r]);
      assert Fine(row.Some?, fs[r]) && !fs[r0].adoptable;
      assert ms[q].touched == None;
      if q == r0 && q != r {
        assert !Origin(fs[r0]);
      }
    }
  }

  lemma HereApart(te: Time, now: Time, row: Option<Time>, f: Facet, m: Times, won: bool, served: bool, row': Option<Time>, f': Facet, m': Times)
    requires Passes(row.Some?, f, won, row'.Some?, f') && Keeps(te, now, row, f, m, served, row', f', m')
    ensures Origin(f') ==> Origin(f)
    ensures row == None && !f.adoptable && m.touched == None ==> m'.touched == None
    ensures !Origin(f) && !f.adoptable && !f.local && !f.saved ==> !f'.local && !f'.saved
  {
  }

  lemma OriginStep(te: Time, now: Time, row: Option<Time>, last: Option<Time>, f: Facet, m: Times, won: bool,
                   served: bool, row': Option<Time>, f': Facet, m': Times)
    requires Fine(row.Some?, f) && OriginTimed(now, last, f, m) && (m.forming.Some? ==> m.forming.value <= now)
    requires Passes(row.Some?, f, won, row'.Some?, f') && Keeps(te, now, row, f, m, served, row', f', m') && (m'.local.Some? <==> f'.local)
    ensures OriginTimed(now, if served then Some(now) else last, f', m')
  {
  }

  lemma TimedStep(te: Time, now: Time, wins: nat, row: Option<Time>, last: Option<Time>, used: bool, fs: map<RId, Facet>, ms: map<RId, Times>,
                  r0: RId, won: bool, served: bool, row': Option<Time>, f': Facet, m': Times)
    requires te > 0 && r0 in fs && Sound(wins, row.Some?, used, fs) && Timed(te, now, row, last, used, fs, ms)
    requires Passes(row.Some?, fs[r0], won, row'.Some?, f') && Keeps(te, now, row, fs[r0], ms[r0], served, row', f', m')
    requires m'.local.Some? <==> f'.local
    ensures Timed(te, now, row', if served then Some(now) else last, used, fs[r0 := f'], ms[r0 := m'])
  {
    var gs, ns, last' := fs[r0 := f'], ms[r0 := m'], if served then Some(now) else last;
    assert Fine(row.Some?, fs[r0]);
    assert Origin(fs[r0]) ==> forall q :: q in ms ==> ms[q].touched == None;
    RowStep(te, now, row, last, fs[r0], ms, r0, served, row', f', m');
    PastStep(te, now, row, last, fs[r0], ms, r0, served, row', f', m');
    ApartStep(te, now, wins, row, used, fs, ms, r0, won, served, row', f', m');
    OriginStep(te, now, row, last, fs[r0], ms[r0], won, served, row', f', m');
    forall r | r in gs ensures OriginTimed(now, last', gs[r], ns[r]) {
      if r != r0 {
        ElsewhereTimed(te, now, wins, row, last, used, fs, ms, r0, r, served, row', f', m');
      }
    }
    hide RowTimed, Past, Apart, OriginTimed, Passes, Keeps;
    if !used {
      UnusedTimes(te, now, row, fs[r0], ms[r0], served, row', f', m');
    }
  }

  lemma ElsewhereTimed(te: Time, now: Time, wins: nat, row: Option<Time>, last: Option<Time>, used: bool, fs: map<RId, Facet>, ms: map<RId, Times>,
                       r0: RId, r: RId, served: bool, row': Option<Time>, f': Facet, m': Times)
    requires r0 in fs && r in fs && r != r0 && ms.Keys == fs.Keys && Sound(wins, row.Some?, used, fs) && Apart(fs, ms)
    requires OriginTimed(now, last, fs[r], ms[r]) && Keeps(te, now, row, fs[r0], ms[r0], served, row', f', m')
    ensures OriginTimed(now, if served then Some(now) else last, fs[r], ms[r])
  {
  }

  lemma UnusedTimes(te: Time, now: Time, row: Option<Time>, f: Facet, m: Times, served: bool, row': Option<Time>, f': Facet, m': Times)
    requires row == None && f == BLANK && m.touched == None && Keeps(te, now, row, f, m, served, row', f', m')
    ensures !served && m'.touched == None
  {
  }

  lemma TimedMint(te: Time, now: Time, last: Option<Time>, fs: map<RId, Facet>, ms: map<RId, Times>, r0: RId, f': Facet)
    requires r0 in fs && Timed(te, now, None, last, false, fs, ms) && (forall r :: r in fs ==> fs[r] == BLANK)
    requires Settled(f') && Embryo(f')
    ensures last == None && Timed(te, now, None, last, true, fs[r0 := f'], ms[r0 := Times(None, None, Some(now))])
  {
  }

  lemma TimedTick(te: Time, clock: Time, later: Time, row: Option<Time>, last: Option<Time>, used: bool, fs: map<RId, Facet>, ms: map<RId, Times>)
    requires clock <= later && Timed(te, clock, row, last, used, fs, ms)
    ensures Timed(te, later, row, last, used, fs, ms)
  {
    hide Apart;
  }

  ghost function Clocks(s: System, x: Id): map<RId, Times> {
    map r | r in s.reps :: TimesOf(s.reps[r], x)
  }

  function Last(s: System, x: Id): Option<Time> {
    if x in s.lastServed then Some(s.lastServed[x]) else None
  }

  ghost predicate Current(cfg: Config, s: System, x: Id) {
    && Okay(s, x)
    && Timed(TouchEvery(cfg.policy.idle), s.clock, RowSeen(s.table, x), Last(s, x), x in s.used, Facets(s, x), Clocks(s, x))
  }

  lemma ClocksStep(s: System, r0: RId, rep: Replica, x: Id)
    requires r0 in s.reps
    ensures Clocks(s.(reps := s.reps[r0 := rep]), x) == Clocks(s, x)[r0 := TimesOf(rep, x)]
    ensures Clocks(s, x)[r0] == TimesOf(s.reps[r0], x)
  {
    hide TimesOf;
  }

  lemma SameClocks(s: System, t: System, x: Id)
    requires s.reps == t.reps
    ensures Clocks(s, x) == Clocks(t, x)
  {
  }

  lemma StepCurrent(cfg: Config, s: System, r0: RId, ev: Event, x: Id)
    requires Current(cfg, s, x) && CanMove(s, Step(r0, ev)) && Answers(ev) && x !in MintedIds(ev)
    ensures Current(cfg, Moved(cfg, s, Step(r0, ev)), x)
  {
    hide FacetOf, TimesOf, Do, Enabled, Answers, Minted, MintedIds, Sound, Timed, Passes, Keeps, Fine, TouchEvery;
    AnswersAreBenign(ev);
    StepOkay(cfg, s, r0, ev, x);
    SoundFine(s, r0, x);
    StepPass(cfg, s.table, s.reps[r0], s.clock, ev, x);
    StepKeep(cfg, s.table, s.reps[r0], s.clock, ev, x);
    var e := Do(cfg, s.table, s.reps[r0], s.clock, ev);
    var t := Moved(cfg, s, Step(r0, ev));
    LocalIs(e.rep, x);
    FacetsStep(s, r0, e.rep, x);
    ClocksStep(s, r0, e.rep, x);
    TimedStep(TouchEvery(cfg.policy.idle), s.clock, s.wins[x], RowSeen(s.table, x), Last(s, x), x in s.used, Facets(s, x), Clocks(s, x),
              r0, e.won == Some(x), e.served == Some(x), RowSeen(e.table, x), FacetOf(e.rep, x), TimesOf(e.rep, x));
    SameFacets(s.(reps := s.reps[r0 := e.rep]), t, x);
    SameClocks(s.(reps := s.reps[r0 := e.rep]), t, x);
  }

  lemma MintCurrent(cfg: Config, s: System, r0: RId, ev: Event, x: Id)
    requires Current(cfg, s, x) && CanMove(s, Step(r0, ev)) && x in MintedIds(ev)
    ensures Current(cfg, Moved(cfg, s, Step(r0, ev)), x)
  {
    assert x !in s.used && (ev.SaveBegin? || ev.ReplaceBegin?) && ev.h.row.lastSeen == s.clock;
    MintOkay(cfg, s, r0, ev, x);
    UnusedBlank(s, x);
    NeverTouched(cfg, s, r0, x);
    hide FacetOf, TimesOf, Do, Enabled, Minted, MintedIds, Sound, Timed, TouchEvery, Touched, Okay;
    MintPasses(cfg, s.table, s.reps[r0], s.clock, ev, x);
    MintTimes(cfg, s.table, s.reps[r0], s.clock, ev, x);
    var e := Do(cfg, s.table, s.reps[r0], s.clock, ev);
    var t := Moved(cfg, s, Step(r0, ev));
    FacetsStep(s, r0, e.rep, x);
    ClocksStep(s, r0, e.rep, x);
    TimedMint(TouchEvery(cfg.policy.idle), s.clock, Last(s, x), Facets(s, x), Clocks(s, x), r0, FacetOf(e.rep, x));
    SameFacets(s.(reps := s.reps[r0 := e.rep]), t, x);
    SameClocks(s.(reps := s.reps[r0 := e.rep]), t, x);
  }

  lemma UnusedBlank(s: System, x: Id)
    requires Okay(s, x) && x !in s.used
    ensures x !in s.table && forall r :: r in Facets(s, x) ==> Facets(s, x)[r] == BLANK
    ensures forall r :: r in s.reps ==> FacetOf(s.reps[r], x) == BLANK
  {
    hide FacetOf;
    forall r | r in s.reps ensures FacetOf(s.reps[r], x) == BLANK {
      assert Facets(s, x)[r] == FacetOf(s.reps[r], x);
    }
  }

  lemma NeverTouched(cfg: Config, s: System, r0: RId, x: Id)
    requires Current(cfg, s, x) && x !in s.used && r0 in s.reps
    ensures Touched(s.reps[r0], x) == None
  {
    hide Okay, FacetOf;
    assert Clocks(s, x)[r0].touched == Touched(s.reps[r0], x);
  }

  /** Freshly started replicas, nothing served yet, and no row from the future. */
  ghost predicate IsQuietStart(s: System) {
    IsStart(s) && s.lastServed == map[] && forall x :: x in s.table ==> s.table[x].lastSeen <= s.clock
  }

  lemma StartCurrent(cfg: Config, s: System, x: Id)
    requires IsQuietStart(s)
    ensures Current(cfg, s, x)
  {
    StartOkay(s, x);
    forall r | r in s.reps ensures Facets(s, x)[r] == BLANK && Clocks(s, x)[r] == NO_TIMES {
    }
    hide FacetOf, TimesOf, Okay;
  }

  lemma {:induction false} RunCurrent(cfg: Config, s: System, moves: seq<Move>, x: Id)
    requires Current(cfg, s, x) && Legal(cfg, s, moves) && forall m :: m in moves ==> MoveAnswers(m)
    ensures Current(cfg, Run(cfg, s, moves), x)
    decreases |moves|
  {
    hide Do, Enabled, Minted, MintedIds, FacetOf, TimesOf, Answers, Sound, Timed, TouchEvery;
    if moves != [] {
      var m := moves[0];
      assert MoveAnswers(m);
      assert Current(cfg, Moved(cfg, s, m), x) by {
        if m.Step? {
          if x in MintedIds(m.ev) {
            MintCurrent(cfg, s, m.r, m.ev, x);
          } else {
            StepCurrent(cfg, s, m.r, m.ev, x);
          }
        } else {
          TimedTick(TouchEvery(cfg.policy.idle), s.clock, s.clock + m.d, RowSeen(s.table, x), Last(s, x), x in s.used, Facets(s, x), Clocks(s, x));
          SameFacets(s, Moved(cfg, s, m), x);
          SameClocks(s, Moved(cfg, s, m), x);
        }
      }
      hide Current, Moved;
      RunCurrent(cfg, Moved(cfg, s, m), moves[1..], x);
    }
  }

  /** A scan's clock reading is not in the future. */
  ghost predicate ScansPast(s: System) {
    forall r :: r in s.reps ==> S.Stamped(s.reps[r]) && (s.reps[r].scan.Scan? ==> s.reps[r].scan.at <= s.clock)
  }

  lemma ScanAt(cfg: Config, t: Table, r: Replica, now: Time, ev: Event)
    requires S.Stamped(r) && Enabled(r, now, ev) && (r.scan.Scan? ==> r.scan.at <= now)
    ensures var q := Do(cfg, t, r, now, ev).rep; S.Stamped(q) && (q.scan.Scan? ==> q.scan.at <= now)
  {
    if ev.ScanPrune? {
    } else {
      S.StepFacts(cfg, t, r, now, ev);
      hide Do, S.Stamped;
    }
  }

  lemma {:induction false} RunScansPast(cfg: Config, s: System, moves: seq<Move>)
    requires ScansPast(s) && Legal(cfg, s, moves)
    ensures ScansPast(Run(cfg, s, moves))
    decreases |moves|
  {
    hide Do, Enabled, Minted, MintedIds, S.Stamped;
    if moves != [] {
      var m := moves[0];
      if m.Step? {
        ScanAt(cfg, s.table, s.reps[m.r], s.clock, m.ev);
      }
      RunScansPast(cfg, Moved(cfg, s, m), moves[1..]);
    }
  }

  /** Some replica served the session within the idle timeout, and the row the sweep read is inside its
      absolute timeout. */
  predicate InUse(cfg: Config, s: System, r: RId, x: Id)
    requires r in s.reps && s.reps[r].scan.Scan? && x in s.reps[r].scan.present
  {
    && x in s.lastServed && s.clock - s.lastServed[x] <= cfg.policy.idle
    && s.clock - s.reps[r].scan.present[x].created <= cfg.policy.absolute
  }

  /** What the sweep deletes had lapsed: the invariant, at the moment of the delete. */
  lemma SweepSpares(cfg: Config, s: System, r: RId, x: Id)
    requires Current(cfg, s, x) && ScansPast(s) && CanMove(s, Step(r, SweepShared(x, Answered)))
    requires x in s.table && x !in Moved(cfg, s, Step(r, SweepShared(x, Answered))).table
    ensures !InUse(cfg, s, r, x)
  {
    hide Okay, FacetOf, TimesOf, Past, Apart, OriginTimed, S.Stamped;
    var rep := s.reps[r];
    var row := rep.scan.present[x];
    assert x !in rep.local && Abandoned(cfg, row, rep.scan.at) && StillSeen(s.table, row, x);
    assert x in s.lastServed ==> row.lastSeen > s.lastServed[x] - TouchEvery(cfg.policy.idle);
  }

  /** In every run without storage errors, of any number of replicas on one clock, no sweep of abandoned
      rows ends a session that is in use. */
  lemma AbandonedSweepSpares(cfg: Config, s: System, moves: seq<Move>, r: RId, x: Id)
    requires IsQuietStart(s) && Legal(cfg, s, moves) && forall m :: m in moves ==> MoveAnswers(m)
    requires var u := Run(cfg, s, moves);
             CanMove(u, Step(r, SweepShared(x, Answered))) && x in u.table && x !in Moved(cfg, u, Step(r, SweepShared(x, Answered))).table
    ensures !InUse(cfg, Run(cfg, s, moves), r, x)
  {
    StartCurrent(cfg, s, x);
    assert ScansPast(s);
    hide IsQuietStart, Current, ScansPast, Moved, Legal, CanMove;
    RunCurrent(cfg, s, moves, x);
    RunScansPast(cfg, s, moves);
    hide Run;
    SweepSpares(cfg, Run(cfg, s, moves), r, x);
  }
}
