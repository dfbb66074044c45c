/** A pre-auth session is won by at most one login, over every interleaving of any number of replicas. */
module SingleWinner {
  import opened Wrappers
  import opened Sessions
  import opened SessionSteps

  // --- one id at one replica -----------------------------------------------------------------------------

  predicate Names(es: set<(Id, Row)>, x: Id) {
    exists e :: e in es && e.0 == x
  }

  /** Where an id stands at one replica. */
  datatype Facet = Facet(local: bool, unpersisted: bool, pending: bool, adoptable: bool, saving: bool, swapping: bool,
                         saved: bool, failed: bool)

  function FacetOf(r: Replica, x: Id): Facet {
    Facet(x in r.local, x in r.unpersisted, r.scan.Scan? && x in r.scan.pending, Names(r.adopting, x),
          r.admit.Saving? && r.admit.id == x, r.admit.Swapping? && r.admit.id == x,
          x in r.saves, x in r.saves && r.saves[x].Marking? && !r.saves[x].ok)
  }

  const BLANK: Facet := Facet(false, false, false, false, false, false, false, false)

  /** The id is being created here and nothing else knows it. */
  predicate Embryo(f: Facet) {
    f.saving || f.swapping || f.failed
  }

  /** This process created the id and may not have written its row yet. */
  predicate Origin(f: Facet) {
    Embryo(f) || f.unpersisted || f.pending
  }

  /** ... and could still let a login win on it, or write its row. */
  predicate Token(f: Facet) {
    Embryo(f) || f.unpersisted || (f.pending && (f.local || f.saved))
  }

  predicate Settled(f: Facet) {
    && (Embryo(f) ==> !f.unpersisted && !f.pending && !f.local)
    && (f.saving || f.swapping ==> !f.saved)
    && (f.saved && Origin(f) ==> !f.local)
    && (f.failed ==> f.saved)
  }

  /** What one replica may rely on about one id; row says whether the table holds it. */
  predicate Fine(row: bool, f: Facet) {
    Settled(f) && (row ==> !Origin(f)) && (f.adoptable ==> !Origin(f))
  }

  function Count(b: bool): nat {
    if b then 1 else 0
  }

  /** What a step may do about an id it does not mint. */
  predicate Passes(row: bool, f: Facet, won: bool, row': bool, f': Facet) {
    && (Origin(f') ==> Origin(f))
    && Count(won) + Count(row') + Count(Token(f')) <= Count(row) + Count(Token(f))
    && (row' && !row ==> Token(f) && !Origin(f'))
    && (f'.adoptable ==> f.adoptable || row)
    && Settled(f') && (f == BLANK && !row ==> f' == BLANK)
    && (f'.local ==> f.local || f.adoptable || f.saved || f.swapping) && (f'.saved ==> f.saved || f.saving) && (Embryo(f') ==> Embryo(f))
  }

  ghost predicate StepPasses(t: Table, r: Replica, e: Effect, x: Id) {
    Passes(x in t, FacetOf(r, x), e.won == Some(x), x in e.table, FacetOf(e.rep, x))
  }

  /** What the single winner needs of the database: a row written for a session is known to be written, and a login is answered.
      Every other statement may fail, or take effect and lose its answer. */
  predicate Benign(ev: Event) {
    match ev
    case SaveCommit(tx) => tx != CommitLost(true)
    case RepersistOne(_, tx) => tx != CommitLost(true)
    case ReplaceCommit(tx, _) => tx == Committed
    case ReplaceUnmarked(reply) => reply == Answered
    case _ => true
  }

  // --- what the pieces do to a facet ---------------------------------------------------------------------

  lemma StampFacet(r: Replica, id: Id, x: Id)
    ensures FacetOf(Stamp(r, id), x) == FacetOf(r, x)
  {
  }

  lemma ReleaseFacet(r: Replica, id: Id, x: Id)
    ensures FacetOf(Release(r, id), x) == FacetOf(r, x)
  {
  }

  lemma PersistFacet(r: Replica, id: Id, ok: bool, x: Id)
    ensures FacetOf(SetPersisted(r, id, ok), x) == FacetOf(r, x).(unpersisted := if x == id then !ok else x in r.unpersisted)
  {
    hide Names;
  }

  lemma ForgetFacet(r: Replica, id: Id, x: Id)
    ensures FacetOf(Forget(r, id), x) == FacetOf(r, x).(unpersisted := x in r.unpersisted && x != id)
  {
    hide Names;
  }

  lemma KeepFacet(r: Replica, id: Id, h: Held, x: Id)
    ensures FacetOf(Keep(r, id, h), x) == FacetOf(r, x).(local := x == id || x in r.local)
  {
    hide Names;
  }

  lemma DropFacet(r: Replica, id: Id, x: Id)
    ensures FacetOf(LocalDelete(r, id), x) == FacetOf(r, x).(local := x in r.local && x != id)
  {
    hide Names;
  }

  lemma FacetFields(r: Replica, x: Id)
    ensures FacetOf(r, x).local == (x in r.local) && FacetOf(r, x).unpersisted == (x in r.unpersisted)
  {
    hide Names;
  }

  lemma LandFacet(r: Replica, id: Id, h: Held, victim: Option<Id>, x: Id)
    ensures FacetOf(LocalSave(r, id, h, victim), x) ==
            FacetOf(r, x).(local := x == id || (x in r.local && victim != Some(x)), unpersisted := x in r.unpersisted && victim != Some(x))
  {
    hide FacetOf, Keep, Forget, LocalDelete;
    FacetFields(r, x);
    if victim.Some? {
      DropFacet(r, victim.value, x);
      var d := LocalDelete(r, victim.value);
      FacetFields(d, x);
      ForgetFacet(d, victim.value, x);
      var f := Forget(d, victim.value);
      FacetFields(f, x);
      KeepFacet(f, id, h, x);
    } else {
      KeepFacet(r, id, h, x);
    }
  }

  lemma ExchangeFacet(r: Replica, oldId: Id, id: Id, h: Held, x: Id)
    ensures FacetOf(LocalReplace(r, oldId, id, h), x) == FacetOf(r, x).(local := x == id || (x in r.local && x != oldId))
  {
    hide Names;
  }

  lemma InsertFacet(cfg: Config, t: Table, r: Replica, id: Id, row: Row, tx: Tx, x: Id)
    requires tx != CommitLost(true)
    ensures var i := Insert(cfg, t, r, id, row, tx);
            && FacetOf(i.rep, x) == FacetOf(r, x)
            && (x in i.table <==> x in t || (x == id && i.result.Stored?)) && (tx == Committed ==> !i.result.InsertError?)
            && (i.result.AtCapacity? ==> id !in t)
  {
    hide Names, CapReached;
  }

  lemma RowFacet(t: Table, r: Replica, oldId: Id, id: Id, row: Row, x: Id)
    ensures var s := ReplaceRow(t, r, oldId, id, row, Committed);
            && FacetOf(s.rep, x) == FacetOf(r, x) && s.result == (if oldId in t then Done else Absent)
            && (x in s.table <==> if oldId in t then x == id || (x in t && x != oldId) else x in t)
  {
    hide Names;
  }

  lemma DeleteFacet(t: Table, r: Replica, id: Id, reply: Reply, x: Id)
    ensures var d := DeleteRow(t, r, id, reply);
            FacetOf(d.rep, x) == FacetOf(r, x) && (x in d.table <==> x in t && (x != id || !reply.Applied()))
  {
    hide Names;
  }

  lemma TouchFacet(cfg: Config, t: Table, r: Replica, id: Id, now: Time, reply: Reply, x: Id)
    ensures var d := Touch(cfg, t, r, id, now, reply); FacetOf(d.rep, x) == FacetOf(r, x) && (x in d.table <==> x in t)
  {
    hide Names, TouchEvery;
  }

  lemma ServeFacet(cfg: Config, t: Table, r: Replica, id: Id, now: Time, x: Id)
    ensures var e := Serve(cfg, t, r, id, now); e.table == t && e.won == None && FacetOf(e.rep, x) == FacetOf(r, x)
  {
    hide Names;
  }

  /** A login that falls back to the local swap. */
  lemma SwapFacet(t: Table, r: Replica, oldId: Id, oldObj: nat, id: Id, h: Held, x: Id)
    ensures var e, f := SwapLocally(t, r, oldId, oldObj, id, h), FacetOf(r, x);
            && e.table == t && (e.won == None || (e.won == Some(oldId) && oldId in r.local))
            && FacetOf(e.rep, x) == if e.won == None then f else
                 f.(local := x == id || (f.local && x != oldId), unpersisted := x == id || (f.unpersisted && x != oldId))
  {
    hide FacetOf, LocalReplace, Forget, SetPersisted;
    ExchangeFacet(r, oldId, id, h, x);
    var l := LocalReplace(r, oldId, id, h);
    ForgetFacet(l, oldId, x);
    PersistFacet(Forget(l, oldId), id, false, x);
    FacetFields(r, x);
    FacetFields(l, x);
    FacetFields(Forget(l, oldId), x);
  }

  /** The facet after the fields a step sets itself. */
  lemma AdmitFacet(r: Replica, x: Id)
    ensures FacetOf(r.(admit := Free), x) == FacetOf(r, x).(saving := false, swapping := false)
    ensures r.admit.Swapping? ==> (FacetOf(r, x).swapping <==> x == r.admit.id) && !FacetOf(r, x).saving
    ensures r.admit.Saving? ==> (FacetOf(r, x).saving <==> x == r.admit.id) && !FacetOf(r, x).swapping
  {
    hide Names;
  }

  /** The fields a facet depends on. */
  ghost predicate SameStanding(r: Replica, q: Replica) {
    && q.local == r.local && q.unpersisted == r.unpersisted && q.adopting == r.adopting && q.admit == r.admit && q.saves == r.saves
    && q.scan.Scan? == r.scan.Scan? && (q.scan.Scan? ==> q.scan.pending == r.scan.pending)
  }

  lemma SameFacet(r: Replica, q: Replica, x: Id)
    requires SameStanding(r, q)
    ensures FacetOf(q, x) == FacetOf(r, x)
  {
    hide Names;
  }

  /** One pending id done with. */
  lemma DoneFacet(r: Replica, id: Id, x: Id)
    requires r.scan.Scan?
    ensures FacetOf(r.(scan := r.scan.(pending := r.scan.pending - {id})), x) == FacetOf(r, x).(pending := FacetOf(r, x).pending && x != id)
    ensures x in r.scan.pending <==> FacetOf(r, x).pending
  {
    hide Names;
  }

  // --- every step passes ---------------------------------------------------------------------------------

  lemma SaveCommitPasses(cfg: Config, t: Table, r: Replica, tx: Tx, x: Id)
    requires Fine(x in t, FacetOf(r, x)) && r.admit.Saving? && tx != CommitLost(true)
    ensures StepPasses(t, r, DoSaveCommit(cfg, t, r, tx), x)
  {
    hide Names, Insert;
    InsertFacet(cfg, t, r, r.admit.id, r.admit.held.row, tx, x);
  }

  lemma SaveMarkPasses(t: Table, r: Replica, id: Id, x: Id)
    requires Fine(x in t, FacetOf(r, x)) && id in r.saves && r.saves[id].Marking?
    ensures StepPasses(t, r, DoSaveMark(t, r, id), x)
  {
    hide Names;
  }

  lemma SaveLandPasses(t: Table, r: Replica, id: Id, victim: Option<Id>, x: Id)
    requires Fine(x in t, FacetOf(r, x)) && id in r.saves && r.saves[id].Landing?
    ensures StepPasses(t, r, DoSaveLand(t, r, id, victim), x)
  {
    hide Names, LocalSave;
    LandFacet(r.(saves := r.saves - {id}), id, r.saves[id].held, victim, x);
  }

  lemma DeletePasses(t: Table, r: Replica, id: Id, reply: Reply, x: Id)
    requires Fine(x in t, FacetOf(r, x))
    ensures StepPasses(t, r, DoDeleteShared(t, r, id, reply), x)
  {
    hide Names, DeleteRow, Forget;
    DeleteFacet(t, r, id, reply, x);
    ForgetFacet(DeleteRow(t, r, id, reply).rep, id, x);
  }

  lemma DropPasses(t: Table, r: Replica, id: Id, x: Id)
    requires Fine(x in t, FacetOf(r, x))
    ensures StepPasses(t, r, DoDeleteLocal(t, r, id), x)
  {
    hide Names, LocalDelete;
    DropFacet(r, id, x);
  }

  lemma ReplaceCommitPasses(t: Table, r: Replica, victim: Option<Id>, x: Id)
    requires Fine(x in t, FacetOf(r, x)) && r.admit.Swapping?
    ensures StepPasses(t, r, DoReplaceCommit(t, r, Committed, victim), x)
  {
    hide FacetOf, ReplaceRow, LocalSave, LocalDelete, Forget, SetPersisted, SwapLocally;
    var a := r.admit;
    var q := r.(admit := Free);
    AdmitFacet(r, x);
    RowFacet(t, q, a.oldId, a.id, a.held.row, x);
    var s := ReplaceRow(t, q, a.oldId, a.id, a.held.row, Committed);
    FacetFields(r, a.oldId);
    FacetFields(s.rep, x);
    SwapFacet(s.table, s.rep, a.oldId, a.oldObj, a.id, a.held, x);
    if s.result == Done {
      DonePasses(s.rep, a.oldId, a.id, a.held, victim, x);
    }
  }

  lemma DonePasses(r: Replica, oldId: Id, id: Id, h: Held, victim: Option<Id>, x: Id)
    ensures FacetOf(LocalSave(LocalDelete(SetPersisted(Forget(r, oldId), id, true), oldId), id, h, victim), x) ==
            FacetOf(r, x).(local := x == id || (x in r.local && x != oldId && victim != Some(x)),
                           unpersisted := x in r.unpersisted && x != oldId && x != id && victim != Some(x))
  {
    hide FacetOf, LocalSave, LocalDelete, Forget, SetPersisted;
    ForgetFacet(r, oldId, x);
    var f := Forget(r, oldId);
    PersistFacet(f, id, true, x);
    var p := SetPersisted(f, id, true);
    DropFacet(p, oldId, x);
    var d := LocalDelete(p, oldId);
    LandFacet(d, id, h, victim, x);
    FacetFields(r, x);
    FacetFields(f, x);
    FacetFields(p, x);
    FacetFields(d, x);
  }

  lemma ReplaceUnmarkedPasses(t: Table, r: Replica, x: Id)
    requires Fine(x in t, FacetOf(r, x)) && r.admit.Swapping?
    ensures StepPasses(t, r, DoReplaceUnmarked(t, r, Answered), x)
  {
    hide FacetOf, DeleteRow, SwapLocally;
    var a := r.admit;
    var q := r.(admit := Free);
    AdmitFacet(r, x);
    DeleteFacet(t, q, a.oldId, Answered, x);
    var d := DeleteRow(t, q, a.oldId, Answered);
    FacetFields(r, a.oldId);
    FacetFields(d.rep, x);
    FacetFields(d.rep, a.oldId);
    SwapFacet(d.table, d.rep, a.oldId, a.oldObj, a.id, a.held, x);
  }

  lemma AdoptingFacet(r: Replica, e: (Id, Row), x: Id)
    ensures FacetOf(r.(adopting := r.adopting + {e}), x) == FacetOf(r, x).(adoptable := FacetOf(r, x).adoptable || e.0 == x)
  {
    if Names(r.adopting + {e}, x) {
      var d :| d in r.adopting + {e} && d.0 == x;
    }
    if Names(r.adopting, x) {
      var d :| d in r.adopting && d.0 == x;
      assert d in r.adopting + {e};
    }
    assert e in r.adopting + {e};
  }

  lemma LookupPasses(cfg: Config, t: Table, r: Replica, id: Id, now: Time, reply: Reply, touched: Reply, x: Id)
    requires Fine(x in t, FacetOf(r, x))
    ensures StepPasses(t, r, DoLookup(cfg, t, r, id, now, reply, touched), x)
  {
    hide Serve, Touch, AbsenceIsFinal, FacetOf;
    TouchFacet(cfg, t, r, id, now, touched, x);
    ServeFacet(cfg, t, r, id, now, x);
    var d := Touch(cfg, t, r, id, now, touched);
    ServeFacet(cfg, d.table, d.rep, id, now, x);
    if id in t {
      AdoptingFacet(r, (id, t[id]), x);
    }
  }

  lemma AdoptPasses(cfg: Config, t: Table, r: Replica, id: Id, row: Row, obj: nat, victim: Option<Id>, now: Time, touched: Reply, x: Id)
    requires Fine(x in t, FacetOf(r, x)) && (id, row) in r.adopting
    ensures StepPasses(t, r, DoAdopt(cfg, t, r, id, row, obj, victim, now, touched), x)
  {
    hide Serve, Touch, Stamp, LocalSave, CanReserve, FacetOf;
    var m := if CanReserve(r, id) then Stamp(r, id) else r;
    StampFacet(r, id, x);
    LandFacet(m, id, Held(row, obj), victim, x);
    var l := LocalSave(m, id, Held(row, obj), victim);
    TouchFacet(cfg, t, l, id, now, touched, x);
    var d := Touch(cfg, t, l, id, now, touched);
    ServeFacet(cfg, d.table, d.rep.(adopting := r.adopting - {(id, row)}), id, now, x);
    AdoptedFacet(d.rep, r, (id, row), x);
    FacetFields(m, x);
    FacetFields(r, x);
  }

  lemma AdoptedFacet(q: Replica, r: Replica, e: (Id, Row), x: Id)
    requires e in r.adopting
    ensures FacetOf(q.(adopting := r.adopting - {e}), x) == FacetOf(q, x).(adoptable := Names(r.adopting - {e}, x))
    ensures Names(r.adopting - {e}, x) ==> FacetOf(r, x).adoptable
    ensures x == e.0 ==> FacetOf(r, x).adoptable
  {
  }

  lemma RepersistPasses(cfg: Config, t: Table, r: Replica, id: Id, tx: Tx, x: Id)
    requires Fine(x in t, FacetOf(r, x)) && r.scan.Scan? && r.admit.Repersisting? && id in r.scan.pending && tx != CommitLost(true)
    ensures StepPasses(t, r, DoRepersistOne(cfg, t, r, id, tx), x)
  {
    hide DoRepersistOne, StepPasses, Fine, FacetOf, CanReserve;
    var q := r.(scan := r.scan.(pending := r.scan.pending - {id}));
    if id in r.local && id !in r.scan.present && !r.admit.full && CanReserve(q, id) {
      WritePasses(cfg, t, r, q, id, tx, x);
    } else {
      SkipPasses(cfg, t, r, q, id, tx, x);
    }
  }

  /** A turn that writes none. */
  lemma SkipPasses(cfg: Config, t: Table, r: Replica, q: Replica, id: Id, tx: Tx, x: Id)
    requires Fine(x in t, FacetOf(r, x)) && r.scan.Scan? && r.admit.Repersisting? && id in r.scan.pending
    requires q == r.(scan := r.scan.(pending := r.scan.pending - {id}))
    requires id !in r.local || id in r.scan.present || r.admit.full || !CanReserve(q, id)
    ensures StepPasses(t, r, DoRepersistOne(cfg, t, r, id, tx), x)
  {
    var e := DoRepersistOne(cfg, t, r, id, tx);
    assert e.table == t && e.won == None && (e.rep == q || (e.rep == SetPersisted(q, id, true) && (id !in r.local || id in r.scan.present)));
    hide DoRepersistOne, SetPersisted, CanReserve, FacetOf;
    DoneFacet(r, id, x);
    PersistFacet(q, id, true, x);
    FacetFields(q, x);
    FacetFields(r, x);
  }

  /** The turn that writes a row. */
  lemma WritePasses(cfg: Config, t: Table, r: Replica, q: Replica, id: Id, tx: Tx, x: Id)
    requires Fine(x in t, FacetOf(r, x)) && r.scan.Scan? && r.admit.Repersisting? && id in r.scan.pending && id in r.local && tx != CommitLost(true)
    requires id !in r.scan.present && !r.admit.full && CanReserve(q, id) && q == r.(scan := r.scan.(pending := r.scan.pending - {id}))
    ensures StepPasses(t, r, DoRepersistOne(cfg, t, r, id, tx), x)
  {
    hide Insert, Stamp, SetPersisted, CanReserve, CapReached, FacetOf, SameStanding;
    var row := r.local[id].row;
    DoneFacet(r, id, x);
    FacetFields(r, x);
    StampFacet(q, id, x);
    InsertFacet(cfg, t, Stamp(q, id), id, row, tx, x);
    var i := Insert(cfg, t, Stamp(q, id), id, row, tx);
    FacetFields(i.rep, x);
    PersistFacet(i.rep, id, true, x);
    var p := SetPersisted(i.rep, id, true);
    InsertKeeps(cfg, t, q, id, row, tx);
    WrittenFacet(q, i.rep, p, x, id, row);
    RefusedFacet(i.rep, CapReached(cfg, i.rep), x);
  }

  lemma InsertKeeps(cfg: Config, t: Table, q: Replica, id: Id, row: Row, tx: Tx)
    ensures var i := Insert(cfg, t, Stamp(q, id), id, row, tx); i.rep.admit == q.admit && i.rep.scan == q.scan
  {
  }

  lemma RefusedFacet(r: Replica, full: bool, x: Id)
    ensures r.admit.Repersisting? ==> FacetOf(r.(admit := Repersisting(full)), x) == FacetOf(r, x)
  {
    hide Names;
  }

  lemma WrittenFacet(q: Replica, i: Replica, p: Replica, x: Id, id: Id, row: Row)
    requires q.scan.Scan? && i.scan == q.scan && p == SetPersisted(i, id, true)
    ensures FacetOf(p.(scan := q.scan.(present := q.scan.present[id := row])), x) == FacetOf(p, x)
  {
    hide Names;
  }

  lemma SweepLocalPasses(cfg: Config, t: Table, r: Replica, x: Id)
    requires Fine(x in t, FacetOf(r, x)) && r.scan.Scan?
    ensures StepPasses(t, r, DoSweepLocal(cfg, t, r), x)
  {
    hide Names, RetiredOnAbsence, PolicyDead;
  }

  lemma SweepDeadPasses(t: Table, r: Replica, id: Id, reply: Reply, x: Id)
    requires Fine(x in t, FacetOf(r, x)) && r.scan.Scan?
    ensures StepPasses(t, r, DoSweepDead(t, r, id, reply), x)
  {
    hide FacetOf, Forget, DeleteRow, SameStanding;
    var f := Forget(r, id);
    ForgetFacet(r, id, x);
    FacetFields(r, x);
    DeleteFacet(t, f, id, reply, x);
    DeadFacet(t, r, id, reply, x);
  }

  lemma DeadFacet(t: Table, r: Replica, id: Id, reply: Reply, x: Id)
    requires r.scan.Scan?
    ensures var e := DoSweepDead(t, r, id, reply);
            && (id in r.scan.present ==> FacetOf(e.rep, x) == FacetOf(DeleteRow(t, Forget(r, id), id, reply).rep, x))
            && (id !in r.scan.present ==> FacetOf(e.rep, x) == FacetOf(Forget(r, id), x))
  {
    hide FacetOf;
    var f := Forget(r, id);
    SameFacet(if id in r.scan.present then DeleteRow(t, f, id, reply).rep else f, DoSweepDead(t, r, id, reply).rep, x);
  }

  lemma SweepSharedPasses(cfg: Config, t: Table, r: Replica, id: Id, reply: Reply, x: Id)
    requires Fine(x in t, FacetOf(r, x)) && r.scan.Scan? && id in r.scan.present
    ensures StepPasses(t, r, DoSweepShared(cfg, t, r, id, reply), x)
  {
    hide FacetOf, Passes, Fine, SameStanding, DoSweepShared;
    SharedStands(cfg, t, r, id, reply, x);
    SameFacet(r, DoSweepShared(cfg, t, r, id, reply).rep, x);
    OnlyRowGone(x in t, x in DoSweepShared(cfg, t, r, id, reply).table, FacetOf(r, x));
  }

  lemma SharedStands(cfg: Config, t: Table, r: Replica, id: Id, reply: Reply, x: Id)
    requires r.scan.Scan? && id in r.scan.present
    ensures var e := DoSweepShared(cfg, t, r, id, reply);
            SameStanding(r, e.rep) && e.won == None && (x in e.table ==> x in t)
  {
    hide Abandoned, StillSeen;
  }

  lemma OnlyRowGone(row: bool, row': bool, f: Facet)
    requires Fine(row, f) && (row' ==> row)
    ensures Passes(row, f, false, row', f)
  {
  }

  /** The steps that issue no statement that changes the table, and win nothing. */
  predicate Idle(ev: Event) {
    match ev
    case Detach => true
    case ScanEpoch(_) => true
    case ScanSnapshot(_) => true
    case ScanReconcile(_) => true
    case ScanCollect => true
    case RepersistBegin => true
    case RepersistEnd => true
    case ScanPrune => true
    case _ => false
  }

  lemma IdlePasses(cfg: Config, t: Table, r: Replica, now: Time, ev: Event, x: Id)
    requires Fine(x in t, FacetOf(r, x)) && Enabled(r, now, ev) && Idle(ev)
    ensures StepPasses(t, r, Do(cfg, t, r, now, ev), x)
  {
    hide FacetOf, Do, Enabled;
    IdleFacet(cfg, t, r, now, ev, x);
  }

  /** Such a step may forget a session or a pending id, and no more. */
  lemma IdleFacet(cfg: Config, t: Table, r: Replica, now: Time, ev: Event, x: Id)
    requires Enabled(r, now, ev) && Idle(ev)
    ensures var e, f := Do(cfg, t, r, now, ev), FacetOf(r, x);
            var f' := FacetOf(e.rep, x);
            && e.table == t && e.won == None && f' == f.(local := f'.local, pending := f'.pending)
            && (f'.local ==> f.local) && (f'.pending ==> f.pending || f.unpersisted)
  {
    hide Names, DoScanSnapshot, DoScanReconcile, DoScanPrune, DoRepersistBegin, DoRepersistEnd;
    if ev.ScanSnapshot? {
      SnapshotFacet(cfg, t, r, ev.reply, x);
    } else if ev.ScanReconcile? || ev.ScanPrune? || ev.RepersistBegin? || ev.RepersistEnd? {
      StageFacet(cfg, t, r, now, ev, x);
    }
  }

  lemma SnapshotFacet(cfg: Config, t: Table, r: Replica, reply: Reply, x: Id)
    requires r.scan.Scan?
    ensures var e, f := DoScanSnapshot(cfg, t, r, reply), FacetOf(r, x);
            var f' := FacetOf(e.rep, x);
            && e.table == t && e.won == None && f' == f.(local := f'.local, pending := f'.pending)
            && (f'.local ==> f.local) && (f'.pending ==> f.pending)
  {
    hide Names, PolicyDead;
  }

  lemma StageFacet(cfg: Config, t: Table, r: Replica, now: Time, ev: Event, x: Id)
    requires Enabled(r, now, ev) && (ev.ScanReconcile? || ev.ScanPrune? || ev.RepersistBegin? || ev.RepersistEnd?)
    ensures var e, f := Do(cfg, t, r, now, ev), FacetOf(r, x);
            var f' := FacetOf(e.rep, x);
            && e.table == t && e.won == None && f' == f.(pending := f'.pending) && (f'.pending ==> f.pending)
  {
    hide Names, Pruned, CapReached;
  }

  /** An id that the step does not mint. */
  lemma SaveBeginPasses(cfg: Config, t: Table, r: Replica, id: Id, h: Held, x: Id)
    requires Fine(x in t, FacetOf(r, x)) && r.admit.Free? && x != id
    ensures StepPasses(t, r, DoSaveBegin(cfg, t, r, id, h), x)
  {
    hide Names, CapReached, CanReserve, Stamp;
    StampFacet(r, id, x);
  }

  lemma ReplaceBeginPasses(t: Table, r: Replica, oldId: Id, oldObj: nat, id: Id, h: Held, x: Id)
    requires Fine(x in t, FacetOf(r, x)) && r.admit.Free? && x != id
    ensures StepPasses(t, r, DoReplaceBegin(t, r, oldId, oldObj, id, h), x)
  {
    hide Names, CanHandOff, Stamp, Release;
    ReleaseFacet(r, oldId, x);
    StampFacet(Release(r, oldId), id, x);
  }

  /** The id that it does. */
  lemma MintPasses(cfg: Config, t: Table, r: Replica, now: Time, ev: Event, x: Id)
    requires FacetOf(r, x) == BLANK && x !in t && Enabled(r, now, ev) && x in MintedIds(ev)
    ensures var e := Do(cfg, t, r, now, ev);
            e.table == t && e.won == None && Settled(FacetOf(e.rep, x)) && Embryo(FacetOf(e.rep, x)) && !FacetOf(e.rep, x).adoptable
  {
    hide Names, CapReached, CanReserve, CanHandOff;
  }

  lemma StepPass(cfg: Config, t: Table, r: Replica, now: Time, ev: Event, x: Id)
    requires Fine(x in t, FacetOf(r, x)) && Enabled(r, now, ev) && Benign(ev) && x !in MintedIds(ev)
    ensures StepPasses(t, r, Do(cfg, t, r, now, ev), x)
  {
    hide Fine, FacetOf, StepPasses, DoSaveBegin, DoReplaceBegin, DoSaveCommit, DoSaveMark, DoSaveLand, DoDeleteShared, DoDeleteLocal,
         DoReplaceCommit, DoReplaceUnmarked, DoLookup, DoAdopt, DoRepersistOne, DoSweepLocal, DoSweepDead, DoSweepShared, CanEvict, Idle;
    if ev.SaveBegin? {
      SaveBeginPasses(cfg, t, r, ev.id, ev.h, x);
    } else if ev.ReplaceBegin? {
      ReplaceBeginPasses(t, r, ev.oldId, ev.oldObj, ev.id, ev.h, x);
    } else if Idle(ev) {
      IdlePasses(cfg, t, r, now, ev, x);
    } else {
      ActivePasses(cfg, t, r, now, ev, x);
    }
  }

  lemma ActivePasses(cfg: Config, t: Table, r: Replica, now: Time, ev: Event, x: Id)
    requires Fine(x in t, FacetOf(r, x)) && Enabled(r, now, ev) && Benign(ev) && x !in MintedIds(ev)
    requires !ev.SaveBegin? && !ev.ReplaceBegin? && !Idle(ev)
    ensures StepPasses(t, r, Do(cfg, t, r, now, ev), x)
  {
    hide Fine, FacetOf, StepPasses, DoSaveCommit, DoSaveMark, DoSaveLand, DoDeleteShared, DoDeleteLocal, DoReplaceCommit, DoReplaceUnmarked,
         DoLookup, DoAdopt, DoRepersistOne, DoSweepLocal, DoSweepDead, DoSweepShared, CanEvict;
    match ev
    case SaveCommit(tx) => SaveCommitPasses(cfg, t, r, tx, x);
    case SaveMark(id) => SaveMarkPasses(t, r, id, x);
    case SaveLand(id, victim) => SaveLandPasses(t, r, id, victim, x);
    case DeleteShared(id, reply) => DeletePasses(t, r, id, reply, x);
    case DeleteLocal(id) => DropPasses(t, r, id, x);
    case ReplaceCommit(_, victim) => ReplaceCommitPasses(t, r, victim, x);
    case ReplaceUnmarked(_) => ReplaceUnmarkedPasses(t, r, x);
    case Lookup(id, reply, touched) => LookupPasses(cfg, t, r, id, now, reply, touched, x);
    case Adopt(id, row, obj, victim, touched) => AdoptPasses(cfg, t, r, id, row, obj, victim, now, touched, x);
    case RepersistOne(id, tx) => RepersistPasses(cfg, t, r, id, tx, x);
    case SweepLocal => SweepLocalPasses(cfg, t, r, x);
    case SweepDead(id, reply) => SweepDeadPasses(t, r, id, reply, x);
    case SweepShared(id, reply) => SweepSharedPasses(cfg, t, r, id, reply, x);
    case _ =>
  }

  // --- the whole system ----------------------------------------------------------------------------------

  /** How an id stands everywhere: logins won on it, whether a row holds it, whether it has been minted,
      and its facet at each replica. */
  ghost predicate Sound(wins: nat, row: bool, used: bool, fs: map<RId, Facet>) {
    && wins + Count(row) <= 1
    && (forall r :: r in fs ==> Fine(row, fs[r]) && wins + Count(row) + Count(Token(fs[r])) <= 1)
    && (forall r, q :: r in fs && q in fs && r != q && Origin(fs[r]) ==> !Origin(fs[q]))
    && (forall r, q :: r in fs && q in fs && fs[r].adoptable ==> !Origin(fs[q]))
    && (!used ==> !row && wins == 0 && forall r :: r in fs ==> fs[r] == BLANK)
  }

  ghost function Facets(s: System, x: Id): map<RId, Facet> {
    map r | r in s.reps :: FacetOf(s.reps[r], x)
  }

  ghost predicate Okay(s: System, x: Id) {
    Sound(s.wins[x], x in s.table, x in s.used, Facets(s, x))
  }

  lemma SoundStep(wins: nat, row: bool, used: bool, fs: map<RId, Facet>, r0: RId, won: bool, row': bool, f': Facet)
    requires Sound(wins, row, used, fs) && r0 in fs && Passes(row, fs[r0], won, row', f')
    ensures Sound(wins + Count(won), row', used, fs[r0 := f'])
  {
    var gs := fs[r0 := f'];
    hide Settled, Embryo;
    forall r | r in gs ensures Fine(row', gs[r]) && wins + Count(won) + Count(row') + Count(Token(gs[r])) <= 1 {
      if r != r0 {
        assert Token(fs[r]) ==> Origin(fs[r]);
        assert Token(fs[r0]) ==> Origin(fs[r0]);
      }
    }
  }

  lemma SoundMint(wins: nat, row: bool, fs: map<RId, Facet>, r0: RId, f': Facet)
    requires Sound(wins, row, false, fs) && r0 in fs && Settled(f') && Embryo(f') && !f'.adoptable
    ensures Sound(wins, row, true, fs[r0 := f'])
  {
  }

  lemma FacetsStep(s: System, r0: RId, rep: Replica, x: Id)
    requires r0 in s.reps
    ensures Facets(s.(reps := s.reps[r0 := rep]), x) == Facets(s, x)[r0 := FacetOf(rep, x)]
  {
    hide FacetOf;
  }

  lemma SameFacets(s: System, t: System, x: Id)
    requires s.reps == t.reps
    ensures Facets(s, x) == Facets(t, x)
  {
  }

  /** A step about an id it does not mint. */
  lemma StepOkay(cfg: Config, s: System, r0: RId, ev: Event, x: Id)
    requires Okay(s, x) && CanMove(s, Step(r0, ev)) && Benign(ev) && x !in MintedIds(ev)
    ensures Okay(Moved(cfg, s, Step(r0, ev)), x)
  {
    hide FacetOf, Do, Enabled, Benign, Minted, MintedIds, Sound, Passes;
    SoundFine(s, r0, x);
    StepPass(cfg, s.table, s.reps[r0], s.clock, ev, x);
    var e := Do(cfg, s.table, s.reps[r0], s.clock, ev);
    SoundStep(s.wins[x], x in s.table, x in s.used, Facets(s, x), r0, e.won == Some(x), x in e.table, FacetOf(e.rep, x));
    FacetsStep(s, r0, e.rep, x);
    var t := Moved(cfg, s, Step(r0, ev));
    SameFacets(s.(reps := s.reps[r0 := e.rep]), t, x);
    assert t.wins[x] == s.wins[x] + Count(e.won == Some(x));
  }

  lemma SoundFine(s: System, r0: RId, x: Id)
    requires Okay(s, x) && r0 in s.reps
    ensures Fine(x in s.table, FacetOf(s.reps[r0], x)) && Facets(s, x)[r0] == FacetOf(s.reps[r0], x)
    ensures x !in s.used ==> FacetOf(s.reps[r0], x) == BLANK && x !in s.table
  {
    hide FacetOf, Fine;
    assert Facets(s, x)[r0] == FacetOf(s.reps[r0], x);
  }

  /** A step about the id it mints. */
  lemma MintOkay(cfg: Config, s: System, r0: RId, ev: Event, x: Id)
    requires Okay(s, x) && CanMove(s, Step(r0, ev)) && x in MintedIds(ev)
    ensures Okay(Moved(cfg, s, Step(r0, ev)), x)
  {
    assert x !in s.used;
    hide FacetOf, Do, Enabled, Minted, MintedIds, Sound;
    SoundFine(s, r0, x);
    MintPasses(cfg, s.table, s.reps[r0], s.clock, ev, x);
    var e := Do(cfg, s.table, s.reps[r0], s.clock, ev);
    SoundMint(s.wins[x], x in s.table, Facets(s, x), r0, FacetOf(e.rep, x));
    FacetsStep(s, r0, e.rep, x);
    SameFacets(s.(reps := s.reps[r0 := e.rep]), Moved(cfg, s, Step(r0, ev)), x);
  }

  ghost predicate IsStart(s: System) {
    && s.wins == multiset{} && s.table.Keys <= s.used
    && forall r :: r in s.reps ==> exists cfg, counted :: s.reps[r] == Fresh(cfg, counted)
  }

  lemma StartOkay(s: System, x: Id)
    requires IsStart(s)
    ensures Okay(s, x)
  {
    forall r | r in s.reps ensures Facets(s, x)[r] == BLANK {
    }
    hide FacetOf;
  }

  predicate MoveBenign(m: Move) {
    m.Step? ==> Benign(m.ev)
  }

  lemma {:induction false} RunOkay(cfg: Config, s: System, moves: seq<Move>, x: Id)
    requires Okay(s, x) && Legal(cfg, s, moves) && forall m :: m in moves ==> MoveBenign(m)
    ensures Okay(Run(cfg, s, moves), x)
    decreases |moves|
  {
    hide Do, Enabled, Minted, MintedIds, FacetOf, Benign;
    if moves != [] {
      var m := moves[0];
      assert MoveBenign(m);
      assert Okay(Moved(cfg, s, m), x) by {
        if m.Step? {
          if x in MintedIds(m.ev) {
            MintOkay(cfg, s, m.r, m.ev, x);
          } else {
            StepOkay(cfg, s, m.r, m.ev, x);
          }
        }
      }
      hide Okay;
      RunOkay(cfg, Moved(cfg, s, m), moves[1..], x);
    }
  }

  /** In every run of any number of replicas, with any failures but a commit of a new row that is applied and not answered, or
      a login that is not answered, each pre-auth session lets at most one login win -- and once it has, no row brings it back. */
  lemma OneWinner(cfg: Config, s: System, moves: seq<Move>, x: Id)
    requires IsStart(s) && Legal(cfg, s, moves) && forall m :: m in moves ==> MoveBenign(m)
    ensures Run(cfg, s, moves).wins[x] <= 1
    ensures Run(cfg, s, moves).wins[x] == 1 ==> x !in Run(cfg, s, moves).table
  {
    hide IsStart, Legal;
    StartOkay(s, x);
    RunOkay(cfg, s, moves, x);
  }
}
