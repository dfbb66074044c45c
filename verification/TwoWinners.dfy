/** Why the single winner needs what it asks of the database: for each excluded answer, a run in which two logins win. */
module TwoWinners {
  import opened Wrappers
  import opened Text
  import opened Sessions
  import opened SessionSteps
  import opened SingleWinner

  // --- runs ----------------------------------------------------------------------------------------------

  /** All moves but ev are harmless. */
  ghost predicate BenignBut(moves: seq<Move>, ev: Event) {
    forall m :: m in moves ==> MoveBenign(m) || (m.Step? && m.ev == ev)
  }

  lemma BenignBoth(a: seq<Move>, b: seq<Move>, ev: Event)
    requires BenignBut(a, ev) && BenignBut(b, ev)
    ensures BenignBut(a + b, ev)
  {
    hide MoveBenign;
  }

  /** moves lead from s to u at one time, by steps of replica r alone and with no harmful answer but that of but. */
  ghost predicate Path(cfg: Config, s: System, moves: seq<Move>, u: System, but: Event, r: RId) {
    && Reaches(cfg, s, moves, u) && BenignBut(moves, but) && u.clock == s.clock
    && r in s.reps && u.reps.Keys == s.reps.Keys && forall k :: k in s.reps && k != r ==> u.reps[k] == s.reps[k]
  }

  /** What one step changes. */
  ghost predicate Did(s: System, u: System, e: Effect, r: RId, minted: set<Id>) {
    && r in u.reps && u.reps[r] == e.rep && u.table == e.table && u.used == s.used + minted
    && u.wins == if e.won.Some? then s.wins + multiset{e.won.value} else s.wins
  }

  lemma StepPath(cfg: Config, s: System, r: RId, ev: Event, but: Event) returns (u: System)
    requires CanMove(s, Step(r, ev)) && (Benign(ev) || ev == but)
    ensures Path(cfg, s, [Step(r, ev)], u, but, r) && Did(s, u, Do(cfg, s.table, s.reps[r], s.clock, ev), r, MintedIds(ev))
  {
    OneMove(cfg, s, Step(r, ev));
    hide Do, Enabled, Minted, MintedIds, Reaches, Benign;
    u := Moved(cfg, s, Step(r, ev));
  }

  lemma PathThen(cfg: Config, s: System, a: seq<Move>, v: System, b: seq<Move>, u: System, but: Event, r: RId)
    requires Path(cfg, s, a, v, but, r) && Path(cfg, v, b, u, but, r)
    ensures Path(cfg, s, a + b, u, but, r)
  {
    hide Reaches, BenignBut;
    ReachesThen(cfg, s, a, v, b, u);
    BenignBoth(a, b, but);
  }

  // --- saving --------------------------------------------------------------------------------------------

  /** No section under way, and room for markers. */
  predicate Calm(q: Replica, markers: nat) {
    q.admit.Free? && |q.generations| <= markers
  }

  function Born(s: System): Row {
    Row("", s.clock, s.clock)
  }

  /** What sessions are held, and which of them without a row. */
  predicate Holding(q: Replica, local: map<Id, Held>, unpersisted: set<Id>) {
    q.local == local && q.unpersisted == unpersisted
  }

  lemma SaveBeginPath(cfg: Config, s: System, r: RId, x: Id, h: Held, n: nat, but: Event) returns (u: System)
    requires cfg.maxRows <= 0 && r in s.reps && Calm(s.reps[r], n) && n < MAX_MARKERS && x !in s.used && h.row == Born(s)
    ensures Path(cfg, s, [Step(r, SaveBegin(x, h))], u, but, r) && r in u.reps
    ensures u.table == s.table && u.used == s.used + {x} && u.wins == s.wins
    ensures var p, q := s.reps[r], u.reps[r];
            && q.admit == Saving(x, h) && Holding(q, p.local, p.unpersisted) && q.scan == p.scan
            && q.generations.Keys == p.generations.Keys + {x} && |q.generations| <= n + 1
  {
    hide Path;
    u := StepPath(cfg, s, r, SaveBegin(x, h), but);
  }

  lemma SaveCommitPath(cfg: Config, s: System, r: RId, tx: Tx, n: nat) returns (u: System)
    requires cfg.maxRows <= 0 && r in s.reps && s.reps[r].admit.Saving? && s.reps[r].admit.id !in s.table && |s.reps[r].generations| <= n
    ensures Path(cfg, s, [Step(r, SaveCommit(tx))], u, SaveCommit(tx), r) && r in u.reps
    ensures var p, q := s.reps[r], u.reps[r];
            var x, h := p.admit.id, p.admit.held;
            && u.table == (if tx.Applied() then s.table[x := h.row] else s.table) && u.used == s.used && u.wins == s.wins
            && q.admit.Free? && Holding(q, p.local, p.unpersisted) && q.scan == p.scan
            && x in q.saves && q.saves[x] == Marking(h, tx == Committed)
            && |q.generations| <= n && q.generations.Keys <= p.generations.Keys && (tx == Committed ==> q.generations == p.generations)
  {
    hide Path;
    u := StepPath(cfg, s, r, SaveCommit(tx), SaveCommit(tx));
  }

  lemma SaveMarkPath(cfg: Config, s: System, r: RId, x: Id, but: Event) returns (u: System)
    requires r in s.reps && x in s.reps[r].saves && s.reps[r].saves[x].Marking?
    ensures Path(cfg, s, [Step(r, SaveMark(x))], u, but, r) && r in u.reps
    ensures u.table == s.table && u.used == s.used && u.wins == s.wins
    ensures var p, q := s.reps[r], u.reps[r];
            && q.admit == p.admit && Holding(q, p.local, if p.saves[x].ok then p.unpersisted - {x} else p.unpersisted + {x}) && q.scan == p.scan
            && x in q.saves && q.saves[x] == Landing(p.saves[x].held) && q.generations == p.generations
  {
    hide Path;
    u := StepPath(cfg, s, r, SaveMark(x), but);
  }

  lemma SaveLandPath(cfg: Config, s: System, r: RId, x: Id, but: Event) returns (u: System)
    requires r in s.reps && x in s.reps[r].saves && s.reps[r].saves[x].Landing?
    ensures Path(cfg, s, [Step(r, SaveLand(x, None))], u, but, r) && r in u.reps
    ensures u.table == s.table && u.used == s.used && u.wins == s.wins
    ensures var p, q := s.reps[r], u.reps[r];
            q.admit == p.admit && Holding(q, p.local[x := p.saves[x].held], p.unpersisted) && q.scan == p.scan && q.generations == p.generations
  {
    hide Path;
    u := StepPath(cfg, s, r, SaveLand(x, None), but);
  }

  /** A whole save, with any answer to its commit. */
  lemma SavePath(cfg: Config, s: System, r: RId, x: Id, obj: nat, tx: Tx, n: nat) returns (moves: seq<Move>, u: System)
    requires cfg.maxRows <= 0 && r in s.reps && Calm(s.reps[r], n) && n < MAX_MARKERS && x !in s.used && x !in s.table
    ensures Path(cfg, s, moves, u, SaveCommit(tx), r) && r in u.reps
    ensures u.table == (if tx.Applied() then s.table[x := Born(s)] else s.table) && u.used == s.used + {x} && u.wins == s.wins
    ensures var p, q := s.reps[r], u.reps[r];
            && Calm(q, n + 1) && Holding(q, p.local[x := Held(Born(s), obj)], if tx == Committed then p.unpersisted - {x} else p.unpersisted + {x})
            && q.scan == p.scan && q.generations.Keys <= p.generations.Keys + {x}
            && (tx == Committed ==> q.generations.Keys == p.generations.Keys + {x})
  {
    hide Path;
    var h, but := Held(Born(s), obj), SaveCommit(tx);
    var a, b, c, d := [Step(r, SaveBegin(x, h))], [Step(r, SaveCommit(tx))], [Step(r, SaveMark(x))], [Step(r, SaveLand(x, None))];
    var v1 := SaveBeginPath(cfg, s, r, x, h, n, but);
    var v2 := SaveCommitPath(cfg, v1, r, tx, n + 1);
    var v3 := SaveMarkPath(cfg, v2, r, x, but);
    u := SaveLandPath(cfg, v3, r, x, but);
    PathThen(cfg, s, a, v1, b, v2, but, r);
    PathThen(cfg, s, a + b, v2, c, v3, but, r);
    PathThen(cfg, s, a + b + c, v3, d, u, but, r);
    moves := a + b + c + d;
  }

  // --- adopting ------------------------------------------------------------------------------------------

  lemma LookupPath(cfg: Config, s: System, r: RId, x: Id, but: Event) returns (u: System)
    requires r in s.reps && x in s.table && x !in s.reps[r].local
    ensures Path(cfg, s, [Step(r, Lookup(x, Answered, Answered))], u, but, r) && r in u.reps
    ensures u.table == s.table && u.used == s.used && u.wins == s.wins
    ensures var p, q := s.reps[r], u.reps[r]; q == p.(adopting := q.adopting) && (x, s.table[x]) in q.adopting
  {
    hide Path;
    u := StepPath(cfg, s, r, Lookup(x, Answered, Answered), but);
  }

  /** Replica p has become q by adopting x. */
  predicate TookOver(p: Replica, q: Replica, x: Id, obj: nat) {
    && q.admit == p.admit && q.local.Keys == p.local.Keys + {x} && Holds(q, x, obj) && q.unpersisted == p.unpersisted
    && q.generations.Keys == p.generations.Keys + (if CanReserve(p, x) then {x} else {}) && |q.generations| <= |p.generations| + 1
  }

  lemma AdoptStepPath(cfg: Config, s: System, r: RId, x: Id, row: Row, obj: nat, but: Event) returns (u: System)
    requires r in s.reps && (x, row) in s.reps[r].adopting
    ensures Path(cfg, s, [Step(r, Adopt(x, row, obj, None, Answered))], u, but, r) && r in u.reps
    ensures u.table.Keys == s.table.Keys && u.used == s.used && u.wins == s.wins && TookOver(s.reps[r], u.reps[r], x, obj)
  {
    hide Path, DoAdopt, TookOver;
    u := StepPath(cfg, s, r, Adopt(x, row, obj, None, Answered), but);
    Adopted(cfg, s.table, s.reps[r], x, row, obj, s.clock);
  }

  lemma Adopted(cfg: Config, t: Table, p: Replica, x: Id, row: Row, obj: nat, now: Time)
    ensures var e := DoAdopt(cfg, t, p, x, row, obj, None, now, Answered); e.table.Keys == t.Keys && e.won == None && TookOver(p, e.rep, x, obj)
  {
    hide Touch, Serve;
    var l := Landed(p, x, row, obj);
    assert DoAdopt(cfg, t, p, x, row, obj, None, now, Answered) == var d := Touch(cfg, t, l, x, now, Answered);
                                                                   Serve(cfg, d.table, d.rep.(adopting := p.adopting - {(x, row)}), x, now);
    LandedIs(p, x, row, obj);
    hide Landed, CanReserve, DoAdopt;
    TouchedIs(cfg, t, l, x, now);
    var d := Touch(cfg, t, l, x, now, Answered);
    ServedIs(cfg, d.table, d.rep.(adopting := p.adopting - {(x, row)}), x, now);
  }

  function Landed(p: Replica, x: Id, row: Row, obj: nat): Replica {
    LocalSave(if CanReserve(p, x) then Stamp(p, x) else p, x, Held(row, obj), None)
  }

  lemma LandedIs(p: Replica, x: Id, row: Row, obj: nat)
    ensures TookOver(p, Landed(p, x, row, obj), x, obj)
  {
    hide Landed, CanReserve;
    LandedFields(p, x, row, obj);
    var q := Landed(p, x, row, obj);
    assert Holds(q, x, obj) && q.local.Keys == p.local.Keys + {x};
    assert q.generations.Keys == p.generations.Keys + (if CanReserve(p, x) then {x} else {}) && |q.generations| <= |p.generations| + 1 by {
      if CanReserve(p, x) {
        PutSize(p.generations, x, p.gen + 1);
      } else {
        assert p.generations.Keys + {} == p.generations.Keys;
      }
    }
  }

  lemma LandedFields(p: Replica, x: Id, row: Row, obj: nat)
    ensures var q := Landed(p, x, row, obj);
            && q.generations == (if CanReserve(p, x) then p.generations[x := p.gen + 1] else p.generations)
            && q.local == p.local[x := Held(row, obj)] && q.unpersisted == p.unpersisted && q.admit == p.admit
  {
    hide CanReserve;
  }

  lemma PutSize(m: map<Id, nat>, x: Id, v: nat)
    ensures m[x := v].Keys == m.Keys + {x} && |m[x := v]| <= |m| + 1
  {
    assert m[x := v].Keys == m.Keys + {x};
    assert |m[x := v].Keys| == |m[x := v]| && |m.Keys| == |m|;
  }

  lemma TouchedIs(cfg: Config, t: Table, r: Replica, x: Id, now: Time)
    ensures var d := Touch(cfg, t, r, x, now, Answered); d.table.Keys == t.Keys && d.rep == r.(touched := d.rep.touched)
  {
    hide TouchEvery;
  }

  lemma ServedIs(cfg: Config, t: Table, r: Replica, x: Id, now: Time)
    ensures var e := Serve(cfg, t, r, x, now);
            && e.table == t && e.won == None && e.rep == r.(local := e.rep.local) && e.rep.local.Keys == r.local.Keys
            && forall y :: y in r.local ==> e.rep.local[y].obj == r.local[y].obj
  {
  }

  /** A replica takes over a session that another one stored. */
  lemma AdoptPath(cfg: Config, s: System, r: RId, x: Id, obj: nat, but: Event) returns (moves: seq<Move>, u: System)
    requires r in s.reps && x in s.table && x !in s.reps[r].local
    ensures Path(cfg, s, moves, u, but, r) && r in u.reps
    ensures u.table.Keys == s.table.Keys && u.used == s.used && u.wins == s.wins && TookOver(s.reps[r], u.reps[r], x, obj)
  {
    hide Path;
    var a, b := [Step(r, Lookup(x, Answered, Answered))], [Step(r, Adopt(x, s.table[x], obj, None, Answered))];
    var v := LookupPath(cfg, s, r, x, but);
    u := AdoptStepPath(cfg, v, r, x, s.table[x], obj, but);
    moves := a + b;
    PathThen(cfg, s, a, v, b, u, but, r);
  }

  // --- logging in ----------------------------------------------------------------------------------------

  lemma ReplaceBeginPath(cfg: Config, s: System, r: RId, x: Id, obj: nat, y: Id, but: Event) returns (u: System)
    requires r in s.reps && s.reps[r].admit.Free? && y !in s.used
    ensures Path(cfg, s, [Step(r, ReplaceBegin(x, obj, y, Held(Born(s), 0)))], u, but, r) && r in u.reps
    ensures u.table == s.table && u.used == s.used + {y} && u.wins == s.wins
    ensures var p, q := s.reps[r], u.reps[r];
            && q.admit == Swapping(x, obj, y, Held(Born(s), 0), CanHandOff(p, x, y)) && Holding(q, p.local, p.unpersisted)
            && |q.generations| <= |p.generations| + 1
  {
    hide Path;
    u := StepPath(cfg, s, r, ReplaceBegin(x, obj, y, Held(Born(s), 0)), but);
  }

  /** Whether a marked login on x wins through its row, or through the local session. */
  predicate ByRow(t: Table, x: Id, tx: Tx) {
    tx == Committed && x in t
  }

  lemma ReplaceCommitPath(cfg: Config, s: System, r: RId, tx: Tx) returns (u: System)
    requires r in s.reps && s.reps[r].admit.Swapping? && s.reps[r].admit.marked
    requires var a := s.reps[r].admit;
             && a.oldId != a.id && (a.oldId in s.table || (tx == Committed && a.oldId in s.reps[r].unpersisted))
             && Holds(s.reps[r], a.oldId, a.oldObj)
    ensures Path(cfg, s, [Step(r, ReplaceCommit(tx, None))], u, ReplaceCommit(tx, None), r) && r in u.reps
    ensures var p, q := s.reps[r], u.reps[r];
            var x, y, h := p.admit.oldId, p.admit.id, p.admit.held;
            && u.table == (if x in s.table && tx.Applied() then (s.table - {x})[y := h.row] else s.table)
            && u.used == s.used && u.wins == s.wins + multiset{x} && q.admit.Free?
            && Holding(q, (p.local - {x})[y := h], if ByRow(s.table, x, tx) then p.unpersisted - {x} - {y} else p.unpersisted - {x} + {y})
            && |q.generations| <= |p.generations|
  {
    hide Path, DoReplaceCommit, Holding, Holds, ByRow;
    u := StepPath(cfg, s, r, ReplaceCommit(tx, None), ReplaceCommit(tx, None));
    LoggedIn(s.table, s.reps[r], tx);
  }

  lemma LoggedIn(t: Table, p: Replica, tx: Tx)
    requires p.admit.Swapping? && p.admit.marked
    requires var a := p.admit; a.oldId != a.id && (a.oldId in t || (tx == Committed && a.oldId in p.unpersisted)) && Holds(p, a.oldId, a.oldObj)
    ensures var e := DoReplaceCommit(t, p, tx, None);
            var q, x, y, h := e.rep, p.admit.oldId, p.admit.id, p.admit.held;
            && e.table == (if x in t && tx.Applied() then (t - {x})[y := h.row] else t)
            && e.won == Some(x) && q.admit.Free?
            && Holding(q, (p.local - {x})[y := h], if ByRow(t, x, tx) then p.unpersisted - {x} - {y} else p.unpersisted - {x} + {y})
            && |q.generations| <= |p.generations|
  {
    hide Holding, Holds, ByRow;
    LoggedInSession(t, p, tx);
    LoggedInMarkers(t, p, tx);
  }

  lemma LoggedInSession(t: Table, p: Replica, tx: Tx)
    requires p.admit.Swapping?
    requires var a := p.admit; a.oldId != a.id && (a.oldId in t || (tx == Committed && a.oldId in p.unpersisted)) && Holds(p, a.oldId, a.oldObj)
    ensures var e := DoReplaceCommit(t, p, tx, None);
            var q, x, y, h := e.rep, p.admit.oldId, p.admit.id, p.admit.held;
            && e.table == (if x in t && tx.Applied() then (t - {x})[y := h.row] else t)
            && e.won == Some(x) && q.admit.Free?
            && Holding(q, (p.local - {x})[y := h], if ByRow(t, x, tx) then p.unpersisted - {x} - {y} else p.unpersisted - {x} + {y})
  {
  }

  lemma LoggedInMarkers(t: Table, p: Replica, tx: Tx)
    requires p.admit.Swapping?
    ensures |DoReplaceCommit(t, p, tx, None).rep.generations| <= |p.generations|
  {
    hide DoReplaceCommit;
    MarkersLeft(t, p, tx);
    var m, x, y := p.generations, p.admit.oldId, p.admit.id;
    SwapSize(m, x);
    SwapSize(m, y);
    SwapSize(m - {y}, x);
  }

  lemma MarkersLeft(t: Table, p: Replica, tx: Tx)
    requires p.admit.Swapping?
    ensures var m, x, y := p.generations, p.admit.oldId, p.admit.id;
            DoReplaceCommit(t, p, tx, None).rep.generations in {m, m - {x}, m - {y}, m - {y} - {x}}
  {
  }

  lemma SwapSize(m: map<Id, nat>, x: Id)
    ensures |m - {x}| <= |m|
  {
    assert m.Keys - {x} <= m.Keys;
    Smaller((m - {x}).Keys, m.Keys);
    assert |(m - {x}).Keys| == |m - {x}| && |m.Keys| == |m|;
  }

  lemma {:induction false} Smaller(a: set<Id>, b: set<Id>)
    requires a <= b
    ensures |a| <= |b|
    decreases |a|
  {
    if a != {} {
      var x :| x in a;
      Smaller(a - {x}, b - {x});
    }
  }

  /** A login on x, which becomes y. */
  lemma LoginPath(cfg: Config, s: System, r: RId, x: Id, obj: nat, y: Id, tx: Tx, n: nat) returns (moves: seq<Move>, u: System)
    requires r in s.reps && Calm(s.reps[r], n) && y !in s.used && x != y && (n < MAX_MARKERS || x in s.reps[r].generations)
    requires (x in s.table || (tx == Committed && x in s.reps[r].unpersisted)) && Holds(s.reps[r], x, obj)
    ensures Path(cfg, s, moves, u, ReplaceCommit(tx, None), r) && r in u.reps
    ensures var p, q := s.reps[r], u.reps[r];
            && u.table == (if x in s.table && tx.Applied() then (s.table - {x})[y := Born(s)] else s.table)
            && u.used == s.used + {y} && u.wins == s.wins + multiset{x} && Calm(q, n + 1)
            && Holding(q, (p.local - {x})[y := Held(Born(s), 0)], if ByRow(s.table, x, tx) then p.unpersisted - {x} - {y} else p.unpersisted - {x} + {y})
  {
    hide Path, ByRow;
    var but := ReplaceCommit(tx, None);
    var a, b := [Step(r, ReplaceBegin(x, obj, y, Held(Born(s), 0)))], [Step(r, ReplaceCommit(tx, None))];
    var v := ReplaceBeginPath(cfg, s, r, x, obj, y, but);
    u := ReplaceCommitPath(cfg, v, r, tx);
    moves := a + b;
    PathThen(cfg, s, a, v, b, u, but, r);
  }

  // --- the start -----------------------------------------------------------------------------------------

  /** Two replicas, just started over an empty table. */
  function Beginning(cfg: Config): System {
    System(0, map[], map[0 := Fresh(cfg, None), 1 := Fresh(cfg, None)], {}, multiset{}, map[])
  }

  lemma BeginningIs(cfg: Config)
    requires cfg.maxRows <= 0
    ensures IsStart(Beginning(cfg)) && Calm(Fresh(cfg, None), 0) && Holding(Fresh(cfg, None), map[], {}) && Fresh(cfg, None).scan.NoScan?
    ensures Fresh(cfg, None).generations == map[]
  {
    assert Fresh(cfg, None) == Fresh(cfg, None);
  }

  /** A run from the start, with one kind of harmful answer, in which two logins on x win. */
  ghost predicate TwoWin(cfg: Config, moves: seq<Move>, but: Event, x: Id) {
    Legal(cfg, Beginning(cfg), moves) && BenignBut(moves, but) && Run(cfg, Beginning(cfg), moves).wins[x] >= 2
  }

  /** Paths of both replicas, one after the other. */
  ghost predicate Way(cfg: Config, moves: seq<Move>, u: System, but: Event) {
    Reaches(cfg, Beginning(cfg), moves, u) && BenignBut(moves, but)
  }

  lemma WayOn(cfg: Config, a: seq<Move>, v: System, b: seq<Move>, u: System, but: Event, r: RId)
    requires Way(cfg, a, v, but) && Path(cfg, v, b, u, but, r)
    ensures Way(cfg, a + b, u, but)
    ensures r in v.reps && r in u.reps && u.reps.Keys == v.reps.Keys && u.clock == v.clock
    ensures forall k :: k in v.reps && k != r ==> u.reps[k] == v.reps[k]
  {
    hide Reaches, BenignBut;
    ReachesThen(cfg, Beginning(cfg), a, v, b, u);
    BenignBoth(a, b, but);
  }

  lemma WayStarts(cfg: Config, but: Event)
    ensures Way(cfg, [], Beginning(cfg), but) && Beginning(cfg).reps.Keys == {0, 1}
  {
  }

  /** A path that needs no harmful answer fits any. */
  lemma Harmless(cfg: Config, s: System, moves: seq<Move>, u: System, ev: Event, but: Event, r: RId)
    requires Path(cfg, s, moves, u, ev, r) && Benign(ev)
    ensures Path(cfg, s, moves, u, but, r)
  {
    hide Reaches;
    forall m | m in moves ensures MoveBenign(m) || (m.Step? && m.ev == but) {
    }
  }

  lemma BeginningHas(cfg: Config)
    requires cfg.maxRows <= 0
    ensures var s := Beginning(cfg);
            && IsStart(s) && s.reps.Keys == {0, 1} && s.table == map[] && s.used == {} && s.wins == multiset{} && s.clock == 0
            && forall r :: r in s.reps ==> Calm(s.reps[r], 0) && s.reps[r].local == map[] && s.reps[r].unpersisted == {} && s.reps[r].scan.NoScan?
                                           && s.reps[r].generations == map[]
  {
    BeginningIs(cfg);
  }

  lemma FromSave(cfg: Config, s: System, moves: seq<Move>, u: System, tx: Tx, but: Event, r: RId)
    requires Path(cfg, s, moves, u, SaveCommit(tx), r) && tx != CommitLost(true)
    ensures Path(cfg, s, moves, u, but, r)
  {
    hide Path;
    Harmless(cfg, s, moves, u, SaveCommit(tx), but, r);
  }

  lemma FromLogin(cfg: Config, s: System, moves: seq<Move>, u: System, but: Event, r: RId)
    requires Path(cfg, s, moves, u, ReplaceCommit(Committed, None), r)
    ensures Path(cfg, s, moves, u, but, r)
  {
    hide Path;
    Harmless(cfg, s, moves, u, ReplaceCommit(Committed, None), but, r);
  }

  lemma WayEnds(cfg: Config, moves: seq<Move>, u: System, but: Event, x: Id)
    requires Way(cfg, moves, u, but) && u.wins[x] >= 2
    ensures TwoWin(cfg, moves, but, x)
  {
  }

  /** Replica r has x under obj, and room. */
  predicate Has(u: System, r: RId, x: Id, obj: nat, n: nat) {
    r in u.reps && Calm(u.reps[r], n) && Holds(u.reps[r], x, obj)
  }

  /** Replicas 0 and 1 both hold x, which has a row; replica 0 knows of the row or not. */
  ghost predicate Both(u: System, x: Id, known: bool) {
    && u.reps.Keys == {0, 1} && Has(u, 0, x, 0, 3) && Has(u, 1, x, 1, 3) && x in u.table && u.wins[x] == 0
    && (x in u.reps[0].unpersisted <==> !known) && x !in u.reps[1].unpersisted
    && "v" !in u.used && "w" !in u.used && x != "v" && x != "w"
  }

  /** Nothing has happened here. */
  predicate Blank(q: Replica) {
    Calm(q, 0) && Holding(q, map[], {}) && q.scan.NoScan? && q.generations == map[]
  }

  /** Replica 0 has saved x, and replica 1 has done nothing. */
  ghost predicate Owned(u: System, x: Id, tx: Tx) {
    && u.reps.Keys == {0, 1} && Has(u, 0, x, 0, 1) && Blank(u.reps[1]) && u.wins == multiset{}
    && u.table == (if tx.Applied() then map[x := Born(u)] else map[]) && u.reps[0].scan.NoScan?
    && Holding(u.reps[0], map[x := Held(Born(u), 0)], if tx == Committed then {} else {x})
  }

  lemma OwnedWay(cfg: Config, tx: Tx, but: Event) returns (moves: seq<Move>, u: System)
    requires cfg.maxRows <= 0 && (tx == CommitLost(true) ==> but == SaveCommit(tx))
    ensures Way(cfg, moves, u, but) && Owned(u, "x", tx) && u.used == {"x"}
  {
    hide Path, Way, Benign, Beginning, IsStart;
    WayStarts(cfg, but);
    BeginningHas(cfg);
    var a, v := SavePath(cfg, Beginning(cfg), 0, "x", 0, tx, 0);
    if tx != CommitLost(true) {
      FromSave(cfg, Beginning(cfg), a, v, tx, but, 0);
    }
    WayOn(cfg, [], Beginning(cfg), a, v, but, 0);
    moves, u := [] + a, v;
  }

  /** Replica 1 adopts x from its row. */
  lemma SharedThen(cfg: Config, a: seq<Move>, v: System, x: Id, known: bool, but: Event) returns (moves: seq<Move>, u: System)
    requires Way(cfg, a, v, but) && v.reps.Keys == {0, 1} && Has(v, 0, x, 0, 3) && Blank(v.reps[1]) && x in v.table && v.wins[x] == 0
    requires (x in v.reps[0].unpersisted <==> !known) && "v" !in v.used && "w" !in v.used && x != "v" && x != "w"
    ensures Way(cfg, moves, u, but) && Both(u, x, known)
  {
    hide Path, Way, Benign;
    var b;
    b, u := AdoptPath(cfg, v, 1, x, 1, but);
    WayOn(cfg, a, v, b, u, but, 1);
    moves := a + b;
  }

  /** After a save at replica 0, whose commit took effect, replica 1 adopts the session. */
  lemma SharedWay(cfg: Config, tx: Tx, but: Event) returns (moves: seq<Move>, u: System)
    requires cfg.maxRows <= 0 && tx.Applied() && (tx == CommitLost(true) ==> but == SaveCommit(tx))
    ensures Way(cfg, moves, u, but) && Both(u, "x", tx == Committed)
  {
    hide Path, Way, Benign, Beginning, IsStart;
    var a, v := OwnedWay(cfg, tx, but);
    moves, u := SharedThen(cfg, a, v, "x", tx == Committed, but);
  }

  /** Two logins on one session: first replica r's, then replica q's. */
  lemma LoginsWay(cfg: Config, moves: seq<Move>, v: System, but: Event, x: Id, r: RId, q: RId, tx: Tx) returns (all: seq<Move>)
    requires Way(cfg, moves, v, but) && v.reps.Keys == {0, 1} && {r, q} == {0, 1} && "v" !in v.used && "w" !in v.used && x != "v" && x != "w"
    requires Has(v, r, x, r, 3) && Has(v, q, x, q, 3) && x in v.table && x !in v.reps[r].unpersisted
    requires if tx.Applied() then tx == Committed && x in v.reps[q].unpersisted else but == ReplaceCommit(tx, None)
    ensures TwoWin(cfg, all, but, x)
  {
    hide Path, Way, Benign;
    var c, v1 := LoginPath(cfg, v, r, x, r, "v", tx, 3);
    if tx == Committed {
      FromLogin(cfg, v, c, v1, but, r);
    }
    WayOn(cfg, moves, v, c, v1, but, r);
    var d, v2 := LoginPath(cfg, v1, q, x, q, "w", Committed, 3);
    FromLogin(cfg, v1, d, v2, but, q);
    WayOn(cfg, moves + c, v1, d, v2, but, q);
    all := moves + c + d;
    WayEnds(cfg, all, v2, but, x);
  }

  // --- a login that fails, and leaves the row ------------------------------------------------------------

  /** A login whose transaction does not take effect wins on the local session, and the row is still there for another one. */
  lemma AbortedLoginAdmitsTwo(cfg: Config, tx: Tx) returns (moves: seq<Move>)
    requires cfg.maxRows <= 0 && !tx.Applied()
    ensures IsStart(Beginning(cfg)) && TwoWin(cfg, moves, ReplaceCommit(tx, None), "x")
  {
    hide Way, TwoWin, Beginning, IsStart, Has;
    BeginningHas(cfg);
    var a, v := SharedWay(cfg, Committed, ReplaceCommit(tx, None));
    moves := LoginsWay(cfg, a, v, ReplaceCommit(tx, None), "x", 0, 1, tx);
  }

  // --- a save whose row is written, and not known to be --------------------------------------------------

  /** The replica that saved the session still takes it for its own, after another one has let a login win through the row. */
  lemma LostSaveAdmitsTwo(cfg: Config) returns (moves: seq<Move>)
    requires cfg.maxRows <= 0
    ensures IsStart(Beginning(cfg)) && TwoWin(cfg, moves, SaveCommit(CommitLost(true)), "x")
  {
    hide Way, TwoWin, Beginning, IsStart, Has;
    BeginningHas(cfg);
    var but := SaveCommit(CommitLost(true));
    var a, v := SharedWay(cfg, CommitLost(true), but);
    moves := LoginsWay(cfg, a, v, but, "x", 1, 0, Committed);
  }

  // --- a login whose row is written, and not known to be -------------------------------------------------

  /** The same happens to the session that the login made. */
  lemma LostLoginAdmitsTwo(cfg: Config) returns (moves: seq<Move>)
    requires cfg.maxRows <= 0
    ensures IsStart(Beginning(cfg)) && TwoWin(cfg, moves, ReplaceCommit(CommitLost(true), None), "y")
  {
    hide Way, TwoWin, Beginning, IsStart, Has;
    BeginningHas(cfg);
    var a, v := LostLoginWay(cfg);
    moves := LoginsWay(cfg, a, v, ReplaceCommit(CommitLost(true), None), "y", 1, 0, Committed);
  }

  lemma LostLoginWay(cfg: Config) returns (moves: seq<Move>, u: System)
    requires cfg.maxRows <= 0
    ensures Way(cfg, moves, u, ReplaceCommit(CommitLost(true), None)) && Both(u, "y", false)
  {
    hide Path, Way, Benign, Beginning, IsStart, Has, Blank, Calm, Holding;
    var but := ReplaceCommit(CommitLost(true), None);
    var a, v := OwnedWay(cfg, Committed, but);
    var b, w := RenamedPath(cfg, v);
    WayOn(cfg, a, v, b, w, but, 0);
    moves, u := SharedThen(cfg, a + b, w, "y", false, but);
  }

  lemma RenamedPath(cfg: Config, s: System) returns (moves: seq<Move>, u: System)
    requires cfg.maxRows <= 0 && s.reps.Keys == {0, 1} && Owned(s, "x", Committed) && s.used == {"x"}
    ensures Path(cfg, s, moves, u, ReplaceCommit(CommitLost(true), None), 0)
    ensures Has(u, 0, "y", 0, 3) && "y" in u.table && u.wins["y"] == 0 && "y" in u.reps[0].unpersisted && u.used == {"x", "y"}
  {
    hide Path, Owned, Calm, Holding, Holds, ByRow;
    OwnedReady(s);
    moves, u := LoginPath(cfg, s, 0, "x", 0, "y", CommitLost(true), 1);
    Renamed(s.table, s.reps[0], u.reps[0], Born(s));
  }

  lemma OwnedReady(s: System)
    requires Owned(s, "x", Committed) && s.used == {"x"}
    ensures 0 in s.reps && Calm(s.reps[0], 1) && Holds(s.reps[0], "x", 0) && "x" in s.table && s.wins == multiset{} && "y" !in s.used
  {
  }

  lemma Renamed(t: Table, p: Replica, q: Replica, row: Row)
    requires Calm(q, 2)
    requires Holding(q, (p.local - {"x"})["y" := Held(row, 0)],
                     if ByRow(t, "x", CommitLost(true)) then p.unpersisted - {"x"} - {"y"} else p.unpersisted - {"x"} + {"y"})
    ensures Calm(q, 3) && Holds(q, "y", 0) && "y" in q.unpersisted
  {
  }

  // --- a row written again by a scan, and not known to be ------------------------------------------------

  const LOST: Event := RepersistOne("x", CommitLost(true))

  /** The steps of a scan up to the end of its writing. */
  function ScanEvent(now: Time, k: nat): Event
    requires k < 7
  {
    [ScanEpoch(now), ScanSnapshot(Answered), ScanReconcile(Answered), ScanCollect, RepersistBegin, LOST, RepersistEnd][k]
  }

  function StageAt(k: nat): Stage {
    if k == 1 then Began else if k == 2 then Scanned else if k == 3 then Reconciled else if k < 7 then Collected else Repersisted
  }

  /** The replica that holds x without knowing of a row, after k of them. */
  predicate ScanAt(q: Replica, h: Held, k: nat) {
    && Holding(q, map["x" := h], {"x"}) && |q.generations| <= (if k < 6 then 1 else 2)
    && q.admit == (if k == 5 || k == 6 then Repersisting(false) else Free)
    && (if k == 0 then q.scan.NoScan? else
          q.scan.Scan? && q.scan.stage == StageAt(k) && q.scan.present == map[] && q.scan.pending == if k == 4 || k == 5 then {"x"} else {})
  }

  function TableAt(h: Held, k: nat): Table {
    if k < 6 then map[] else map["x" := h.row]
  }

  /** What each of them does to the replica and the table. */
  ghost predicate ScanTurn(cfg: Config, q: Replica, h: Held, now: Time, k: nat)
    requires k < 7
  {
    && Enabled(q, now, ScanEvent(now, k))
    && var e := Do(cfg, TableAt(h, k), q, now, ScanEvent(now, k)); e.table == TableAt(h, k + 1) && e.won == None && ScanAt(e.rep, h, k + 1)
  }

  lemma ReadTurns(cfg: Config, q: Replica, h: Held, now: Time, k: nat)
    requires k < 4 && ScanAt(q, h, k)
    ensures ScanTurn(cfg, q, h, now, k)
  {
    hide PolicyDead;
  }

  lemma BeginTurn(cfg: Config, q: Replica, h: Held, now: Time)
    requires cfg.maxRows <= 0 && ScanAt(q, h, 4)
    ensures ScanTurn(cfg, q, h, now, 4)
  {
    hide Do;
    RepersistDoes(cfg, TableAt(h, 4), q, now, LOST);
  }

  /** What the repersist events stand for. */
  lemma RepersistDoes(cfg: Config, t: Table, q: Replica, now: Time, ev: Event)
    ensures Enabled(q, now, RepersistBegin) ==> Do(cfg, t, q, now, RepersistBegin) == DoRepersistBegin(cfg, t, q)
    ensures ev.RepersistOne? && Enabled(q, now, ev) ==> Do(cfg, t, q, now, ev) == DoRepersistOne(cfg, t, q, ev.id, ev.tx)
    ensures Enabled(q, now, RepersistEnd) ==> Do(cfg, t, q, now, RepersistEnd) == DoRepersistEnd(t, q)
  {
    hide DoRepersistBegin, DoRepersistOne, DoRepersistEnd;
  }

  lemma EndTurn(cfg: Config, q: Replica, h: Held, now: Time)
    requires ScanAt(q, h, 6)
    ensures ScanTurn(cfg, q, h, now, 6)
  {
    hide Do;
    RepersistDoes(cfg, TableAt(h, 6), q, now, LOST);
  }

  lemma LostTurn(cfg: Config, q: Replica, h: Held, now: Time)
    requires cfg.maxRows <= 0 && ScanAt(q, h, 5)
    ensures ScanTurn(cfg, q, h, now, 5)
  {
    hide Stamp, Do, DoRepersistOne;
    RepersistDoes(cfg, TableAt(h, 5), q, now, LOST);
    LostWrite(cfg, q);
    StampIs(q.(scan := q.scan.(pending := q.scan.pending - {"x"})), "x");
  }

  /** The row is written, and the replica counts it without knowing. */
  lemma LostWrite(cfg: Config, q: Replica)
    requires cfg.maxRows <= 0 && q.scan.Scan? && q.admit == Repersisting(false)
    requires "x" in q.local && q.scan.present == map[] && |q.generations| < MAX_MARKERS
    ensures var p := Stamp(q.(scan := q.scan.(pending := q.scan.pending - {"x"})), "x");
            DoRepersistOne(cfg, map[], q, "x", CommitLost(true)) ==
            Quiet(map["x" := q.local["x"].row], p.(rows := p.rows + 1, admit := Repersisting(false)))
  {
    hide Stamp;
  }

  lemma StampIs(q: Replica, x: Id)
    ensures var p := Stamp(q, x); p == q.(gen := p.gen, generations := p.generations) && |p.generations| <= |q.generations| + 1
  {
    PutSize(q.generations, x, q.gen + 1);
  }

  /** A scan that writes the row, and is not told so. */
  lemma {:induction false} ScanPath(cfg: Config, s: System, h: Held, k: nat) returns (moves: seq<Move>, u: System)
    requires cfg.maxRows <= 0 && k <= 7 && 0 in s.reps && ScanAt(s.reps[0], h, 0) && s.table == map[]
    ensures Path(cfg, s, moves, u, LOST, 0) && 0 in u.reps && u.table == TableAt(h, k) && u.used == s.used && u.wins == s.wins
    ensures ScanAt(u.reps[0], h, k)
  {
    hide Path, Do, Enabled, ScanAt, Benign, TableAt, ScanEvent;
    if k == 0 {
      PathStarts(cfg, s, LOST, 0);
      moves, u := [], s;
      NoTable(h);
    } else {
      var a, v := ScanPath(cfg, s, h, k - 1);
      var ev := ScanEvent(v.clock, k - 1);
      ScanMoves(cfg, v, h, k - 1);
      u := StepPath(cfg, v, 0, ev, LOST);
      moves := a + [Step(0, ev)];
      PathThen(cfg, s, a, v, [Step(0, ev)], u, LOST, 0);
    }
  }

  lemma NoTable(h: Held)
    ensures TableAt(h, 0) == map[]
  {
  }

  lemma ScanMoves(cfg: Config, v: System, h: Held, k: nat)
    requires cfg.maxRows <= 0 && k < 7 && 0 in v.reps && ScanAt(v.reps[0], h, k)
    ensures CanMove(v, Step(0, ScanEvent(v.clock, k))) && (Benign(ScanEvent(v.clock, k)) || ScanEvent(v.clock, k) == LOST)
    ensures MintedIds(ScanEvent(v.clock, k)) == {} && ScanTurn(cfg, v.reps[0], h, v.clock, k)
  {
    hide Do, Enabled, ScanAt;
    if k < 4 {
      ReadTurns(cfg, v.reps[0], h, v.clock, k);
    } else if k == 4 {
      BeginTurn(cfg, v.reps[0], h, v.clock);
    } else if k == 5 {
      LostTurn(cfg, v.reps[0], h, v.clock);
    } else {
      EndTurn(cfg, v.reps[0], h, v.clock);
    }
  }

  lemma PathStarts(cfg: Config, s: System, but: Event, r: RId)
    requires r in s.reps
    ensures Path(cfg, s, [], s, but, r)
  {
  }

  /** The session whose first row failed is still taken for its own after the scan has written one. */
  lemma LostRepersistAdmitsTwo(cfg: Config) returns (moves: seq<Move>)
    requires cfg.maxRows <= 0
    ensures IsStart(Beginning(cfg)) && TwoWin(cfg, moves, LOST, "x")
  {
    hide Way, TwoWin, Beginning, IsStart, Has;
    BeginningHas(cfg);
    var a, v := LostRepersistWay(cfg);
    moves := LoginsWay(cfg, a, v, LOST, "x", 1, 0, Committed);
  }

  lemma LostRepersistWay(cfg: Config) returns (moves: seq<Move>, u: System)
    requires cfg.maxRows <= 0
    ensures Way(cfg, moves, u, LOST) && Both(u, "x", false)
  {
    hide Path, Way, Benign, Beginning, IsStart, Blank;
    var a, v := OwnedWay(cfg, Aborted, LOST);
    var h := Held(Born(v), 0);
    var b, w := ScanPath(cfg, v, h, 7);
    WayOn(cfg, a, v, b, w, LOST, 0);
    moves, u := SharedThen(cfg, a + b, w, "x", false, LOST);
  }

  // --- a login without a marker, whose deletion is not answered ------------------------------------------

  /** As many ids as are wanted. */
  function Filler(j: nat): Id {
    seq(j + 1, _ => 'm')
  }

  function Fillers(k: nat): set<Id> {
    set j | 0 <= j < k :: Filler(j)
  }

  lemma {:induction false} FillersMany(k: nat)
    ensures |Fillers(k)| == k && "x" !in Fillers(k) && "v" !in Fillers(k) && "w" !in Fillers(k)
  {
    if k > 0 {
      FillersMany(k - 1);
      FillersNext(k - 1);
    }
  }

  lemma FillersNext(k: nat)
    ensures Fillers(k + 1) == Fillers(k) + {Filler(k)} && Filler(k) !in Fillers(k)
    ensures Filler(k) !in {"x", "v", "w"}
  {
    assert Filler(k)[0] == 'm';
  }

  /** Replica r saves k sessions. */
  lemma {:induction false} FillPath(cfg: Config, s: System, r: RId, k: nat, but: Event) returns (moves: seq<Move>, u: System)
    requires cfg.maxRows <= 0 && k <= MAX_MARKERS && r in s.reps && Blank(s.reps[r])
    requires s.table.Keys == {"x"} && s.used == {"x"}
    ensures Path(cfg, s, moves, u, but, r) && r in u.reps && u.used == {"x"} + Fillers(k) && u.table.Keys == {"x"} + Fillers(k)
    ensures u.wins == s.wins && Calm(u.reps[r], k) && u.reps[r].unpersisted == {}
    ensures u.reps[r].local.Keys == Fillers(k) && u.reps[r].generations.Keys == Fillers(k)
  {
    hide Path, Filler, Fillers, Calm;
    if k == 0 {
      FillersMany(0);
      assert Fillers(0) == {};
      PathStarts(cfg, s, but, r);
      moves, u := [], s;
    } else {
      var a, v := FillPath(cfg, s, r, k - 1, but);
      FillersNext(k - 1);
      var b;
      b, u := FillStep(cfg, v, r, Filler(k - 1), k - 1, but);
      moves := a + b;
      PathThen(cfg, s, a, v, b, u, but, r);
    }
  }

  lemma FillStep(cfg: Config, s: System, r: RId, x: Id, n: nat, but: Event) returns (moves: seq<Move>, u: System)
    requires cfg.maxRows <= 0 && r in s.reps && Calm(s.reps[r], n) && n < MAX_MARKERS && x !in s.used && x !in s.table && s.reps[r].unpersisted == {}
    ensures Path(cfg, s, moves, u, but, r) && r in u.reps && u.used == s.used + {x} && u.table.Keys == s.table.Keys + {x} && u.wins == s.wins
    ensures var p, q := s.reps[r], u.reps[r];
            && Calm(q, n + 1) && q.unpersisted == {} && q.local.Keys == p.local.Keys + {x} && q.generations.Keys == p.generations.Keys + {x}
  {
    hide Path, Calm, Holding;
    moves, u := SavePath(cfg, s, r, x, 0, Committed, n);
    FromSave(cfg, s, moves, u, Committed, but, r);
    HeldKeys(u.reps[r], s.reps[r].local, x, Held(Born(s), 0), s.reps[r].unpersisted);
  }

  lemma HeldKeys(q: Replica, local: map<Id, Held>, x: Id, h: Held, unpersisted: set<Id>)
    ensures Holding(q, local[x := h], unpersisted - {x}) && unpersisted == {} ==> q.local.Keys == local.Keys + {x} && q.unpersisted == {}
  {
  }

  lemma UnmarkedPath(cfg: Config, s: System, r: RId, reply: Reply) returns (u: System)
    requires r in s.reps && s.reps[r].admit.Swapping? && !s.reps[r].admit.marked && reply.Errored?
    requires Holds(s.reps[r], s.reps[r].admit.oldId, s.reps[r].admit.oldObj)
    ensures Path(cfg, s, [Step(r, ReplaceUnmarked(reply))], u, ReplaceUnmarked(reply), r)
    ensures u.wins == s.wins + multiset{s.reps[r].admit.oldId}
  {
    hide Path;
    u := StepPath(cfg, s, r, ReplaceUnmarked(reply), ReplaceUnmarked(reply));
  }

  /** A replica with no room for markers wins a login on the session it adopted, whatever became of the row. */
  lemma ErroredUnmarkedAdmitsTwo(cfg: Config, reply: Reply) returns (moves: seq<Move>)
    requires cfg.maxRows <= 0 && reply.Errored?
    ensures IsStart(Beginning(cfg)) && TwoWin(cfg, moves, ReplaceUnmarked(reply), "x")
  {
    hide Way, TwoWin, Path, Beginning, IsStart, Benign;
    BeginningHas(cfg);
    var but := ReplaceUnmarked(reply);
    var a, v := CrowdedWay(cfg, but);
    var b, w := LoginPath(cfg, v, 1, "x", 0, "v", Committed, 1);
    FromLogin(cfg, v, b, w, but, 1);
    WayOn(cfg, a, v, b, w, but, 1);
    var c := [Step(0, ReplaceBegin("x", 1, "w", Held(Born(w), 0)))];
    var z := ReplaceBeginPath(cfg, w, 0, "x", 1, "w", but);
    WayOn(cfg, a + b, w, c, z, but, 0);
    var d := [Step(0, but)];
    var u := UnmarkedPath(cfg, z, 0, reply);
    WayOn(cfg, a + b + c, z, d, u, but, 0);
    moves := a + b + c + d;
    WayEnds(cfg, moves, u, but, "x");
  }

  /** Replica 1 has saved x; replica 0, with every marker taken, has adopted it. */
  lemma CrowdedWay(cfg: Config, but: Event) returns (moves: seq<Move>, u: System)
    requires cfg.maxRows <= 0
    ensures Way(cfg, moves, u, but) && u.reps.Keys == {0, 1} && "x" in u.table && "v" !in u.used && "w" !in u.used && u.wins == multiset{}
    ensures Has(u, 1, "x", 0, 1) && u.reps[1].unpersisted == {}
    ensures u.reps[0].admit.Free? && Holds(u.reps[0], "x", 1) && !CanHandOff(u.reps[0], "x", "w")
  {
    hide Path, Way, Fillers, CanHandOff, Calm, Holds;
    FillersMany(MAX_MARKERS);
    var a, v := FilledWay(cfg, but);
    var b;
    b, u := AdoptPath(cfg, v, 0, "x", 1, but);
    WayOn(cfg, a, v, b, u, but, 0);
    moves := a + b;
    NoRoom(v.reps[0], u.reps[0]);
  }

  /** Replica 1 has saved x, and replica 0 as many other sessions as there are markers. */
  lemma FilledWay(cfg: Config, but: Event) returns (moves: seq<Move>, u: System)
    requires cfg.maxRows <= 0
    ensures Way(cfg, moves, u, but) && u.reps.Keys == {0, 1} && "x" in u.table && u.used == {"x"} + Fillers(MAX_MARKERS) && u.wins == multiset{}
    ensures Has(u, 1, "x", 0, 1) && u.reps[1].unpersisted == {}
    ensures u.reps[0].admit.Free? && u.reps[0].local.Keys == Fillers(MAX_MARKERS) && u.reps[0].generations.Keys == Fillers(MAX_MARKERS)
  {
    hide Path, Way, Has, Benign, Blank, Fillers;
    var a, v := SavedWay(cfg, but);
    var b;
    b, u := FillPath(cfg, v, 0, MAX_MARKERS, but);
    WayOn(cfg, a, v, b, u, but, 0);
    HasStill(v, u, 1, "x", 0, 1);
    moves := a + b;
  }

  /** Replica 1 has saved x, and replica 0 has done nothing. */
  lemma SavedWay(cfg: Config, but: Event) returns (moves: seq<Move>, u: System)
    requires cfg.maxRows <= 0
    ensures Way(cfg, moves, u, but) && u.reps.Keys == {0, 1} && u.table.Keys == {"x"} && u.used == {"x"} && u.wins == multiset{}
    ensures Has(u, 1, "x", 0, 1) && u.reps[1].unpersisted == {} && Blank(u.reps[0])
  {
    hide Path, Way, Beginning, IsStart, Benign, Born, Holding, Calm, Holds;
    WayStarts(cfg, but);
    BeginningHas(cfg);
    var s := Beginning(cfg);
    var a;
    a, u := SavePath(cfg, s, 1, "x", 0, Committed, 0);
    FromSave(cfg, s, a, u, Committed, but, 1);
    WayOn(cfg, [], s, a, u, but, 1);
    moves := [] + a;
    JustSaved(s.reps[1], u.reps[1], Held(Born(s), 0));
    assert Holding(s.reps[0], map[], {}) by { Nothing(s.reps[0]); }
  }

  lemma JustSaved(p: Replica, q: Replica, h: Held)
    requires p.unpersisted == {} && Holding(q, p.local["x" := h], p.unpersisted - {"x"}) && h.obj == 0
    ensures Holds(q, "x", 0) && q.unpersisted == {}
  {
  }

  lemma Nothing(q: Replica)
    requires q.local == map[] && q.unpersisted == {}
    ensures Holding(q, map[], {})
  {
  }

  lemma HasStill(v: System, u: System, r: RId, x: Id, obj: nat, n: nat)
    requires Has(v, r, x, obj, n) && r in u.reps && u.reps[r] == v.reps[r]
    ensures Has(u, r, x, obj, n)
  {
  }

  lemma NoRoom(p: Replica, q: Replica)
    requires p.generations.Keys == Fillers(MAX_MARKERS) && TookOver(p, q, "x", 1)
    ensures !CanHandOff(q, "x", "w")
  {
    hide Fillers, Holds;
    FillersMany(MAX_MARKERS);
    assert |p.generations.Keys| == |p.generations|;
    assert q.generations.Keys == p.generations.Keys;
    assert |q.generations.Keys| == |q.generations|;
  }
}
