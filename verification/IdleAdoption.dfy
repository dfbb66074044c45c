/** Adoption makes no allowance for the lag of a stored last_seen: what it refuses, and how far that is from a session's last use. */
module IdleAdoption {
  import opened Wrappers
  import opened Sessions
  import opened SessionSteps
  import opened SingleWinner
  import opened IdleSafety

  /** Get over a row read from the table and no local session ends in a refusal. */
  predicate Refuses(cfg: Config, t: Table, r: Replica, id: Id, row: Row, obj: nat, victim: Option<Id>, now: Time, touched: Reply) {
    DoAdopt(cfg, t, r, id, row, obj, victim, now, touched).served == None
  }

  /** Exactly the stored times decide, whatever the touch that precedes the check writes or says. */
  lemma RefusedIffLapsed(cfg: Config, t: Table, r: Replica, id: Id, row: Row, obj: nat, victim: Option<Id>, now: Time, touched: Reply)
    ensures Refuses(cfg, t, r, id, row, obj, victim, now, touched) <==>
            now - row.lastSeen > cfg.policy.idle || now - row.created > cfg.policy.absolute
  {
    hide Touch, CanReserve, Stamp;
    var l := LocalSave(if CanReserve(r, id) then Stamp(r, id) else r, id, Held(row, obj), victim);
    assert id in l.local && l.local[id].row == row;
    TouchKeepsLocal(cfg, t, l, id, now, touched);
  }

  lemma TouchKeepsLocal(cfg: Config, t: Table, r: Replica, id: Id, now: Time, reply: Reply)
    ensures Touch(cfg, t, r, id, now, reply).rep.local == r.local
  {
  }

  /** Some replica served the session within the idle timeout, and its row is inside the absolute timeout. */
  predicate Live(cfg: Config, s: System, x: Id) {
    && x in s.table && x in s.lastServed
    && s.clock - s.lastServed[x] <= cfg.policy.idle && s.clock - s.table[x].created <= cfg.policy.absolute
  }

  predicate RefusesNow(cfg: Config, s: System, r: RId, x: Id, obj: nat, victim: Option<Id>)
    requires r in s.reps && x in s.table
  {
    Refuses(cfg, s.table, s.reps[r], x, s.table[x], obj, victim, s.clock, Answered)
  }

  /** The stored last_seen is less than the throttle behind the last use. */
  lemma StoredSeen(cfg: Config, s: System, x: Id)
    requires Current(cfg, s, x) && x in s.table && x in s.lastServed
    ensures s.lastServed[x] - TouchEvery(cfg.policy.idle) < s.table[x].lastSeen
  {
    hide Okay, Past, Apart, OriginTimed, FacetOf, TimesOf;
  }

  /** In every run without storage errors, adoption refuses a live session only in the last stretch of its idle timeout,
      which is shorter than the touch interval. */
  lemma LiveRefusedLate(cfg: Config, s: System, moves: seq<Move>, r: RId, x: Id, obj: nat, victim: Option<Id>)
    requires IsQuietStart(s) && Legal(cfg, s, moves) && forall m :: m in moves ==> MoveAnswers(m)
    requires var u := Run(cfg, s, moves); r in u.reps && Live(cfg, u, x) && RefusesNow(cfg, u, r, x, obj, victim)
    ensures var u := Run(cfg, s, moves); cfg.policy.idle - TouchEvery(cfg.policy.idle) < u.clock - u.lastServed[x]
  {
    StartCurrent(cfg, s, x);
    hide IsQuietStart, Current, Legal, Refuses;
    RunCurrent(cfg, s, moves, x);
    hide Run;
    var u := Run(cfg, s, moves);
    StoredSeen(cfg, u, x);
    RefusedIffLapsed(cfg, u.table, u.reps[r], x, u.table[x], obj, victim, u.clock, Answered);
  }

  // --- a run in which it happens -------------------------------------------------------------------------

  /** A stored session and two replicas, just started. */
  function Stored(cfg: Config, x: Id): System {
    System(0, map[x := Row("", 0, 0)], map[0 := Fresh(cfg, Some(1)), 1 := Fresh(cfg, Some(1))], {x}, multiset{}, map[])
  }

  /** How long the throttle, or the session, lasts from its first use. */
  function Quick(cfg: Config): Time {
    var te := TouchEvery(cfg.policy.idle);
    if te - 1 <= cfg.policy.idle then te - 1 else cfg.policy.idle
  }

  /** The session as replica 0 has it, first used at 0 and last at used. */
  ghost predicate UsedAt(cfg: Config, s: System, x: Id, used: Time) {
    && s.reps.Keys == {0, 1} && s.reps[1] == Fresh(cfg, Some(1)) && s.table == map[x := Row("", 0, 0)]
    && s.lastServed == map[x := used] && s.clock == used
    && s.reps[0].local == map[x := Held(Row("", 0, used), 0)] && s.reps[0].touched == map[x := 0]
  }

  lemma StoredIs(cfg: Config, x: Id)
    ensures IsQuietStart(Stored(cfg, x))
  {
    var s := Stored(cfg, x);
    assert s.reps[0] == Fresh(cfg, Some(1)) && s.reps[1] == Fresh(cfg, Some(1));
  }

  /** Replica 0 looks the session up and adopts it. */
  lemma FirstUse(cfg: Config, x: Id) returns (moves: seq<Move>, u: System)
    requires cfg.policy.idle >= 1 && cfg.policy.absolute >= 0
    ensures Reaches(cfg, Stored(cfg, x), moves, u) && (forall m :: m in moves ==> MoveAnswers(m)) && UsedAt(cfg, u, x, 0)
  {
    hide Reaches, Stored, UsedAt, FoundAt, CanMove, Moved;
    var s := Stored(cfg, x);
    var a, b := Step(0, Lookup(x, Answered, Answered)), Step(0, Adopt(x, Row("", 0, 0), 0, None, Answered));
    FirstFound(cfg, x);
    var v := Moved(cfg, s, a);
    FirstAdopted(cfg, v, x);
    OneMove(cfg, s, a);
    u := Moved(cfg, v, b);
    OneMove(cfg, v, b);
    ReachesThen(cfg, s, [a], v, [b], u);
    moves := [a] + [b];
  }

  /** Replica 0 has read the row. */
  ghost predicate FoundAt(cfg: Config, s: System, x: Id) {
    && s.reps.Keys == {0, 1} && s.reps[1] == Fresh(cfg, Some(1)) && s.table == map[x := Row("", 0, 0)] && s.lastServed == map[] && s.clock == 0
    && s.reps[0] == Fresh(cfg, Some(1)).(adopting := {(x, Row("", 0, 0))})
  }

  lemma FirstFound(cfg: Config, x: Id)
    ensures var s, a := Stored(cfg, x), Step(0, Lookup(x, Answered, Answered)); CanMove(s, a) && FoundAt(cfg, Moved(cfg, s, a), x)
  {
  }

  lemma FirstAdopted(cfg: Config, s: System, x: Id)
    requires cfg.policy.idle >= 1 && cfg.policy.absolute >= 0 && FoundAt(cfg, s, x)
    ensures var b := Step(0, Adopt(x, Row("", 0, 0), 0, None, Answered)); CanMove(s, b) && UsedAt(cfg, Moved(cfg, s, b), x, 0)
  {
    hide DoAdopt;
    AdoptedFirst(cfg, s.reps[0], x);
  }

  lemma AdoptedFirst(cfg: Config, q: Replica, x: Id)
    requires cfg.policy.idle >= 1 && cfg.policy.absolute >= 0 && q == Fresh(cfg, Some(1)).(adopting := {(x, Row("", 0, 0))})
    ensures var t := map[x := Row("", 0, 0)];
            var e := DoAdopt(cfg, t, q, x, Row("", 0, 0), 0, None, 0, Answered);
            && e.table == t && e.won == None && e.served == Some(x)
            && e.rep.local == map[x := Held(Row("", 0, 0), 0)] && e.rep.touched == map[x := 0]
  {
    hide TouchEvery;
  }

  /** It serves the session again, while the throttle keeps the row as it was. */
  lemma SecondUse(cfg: Config, x: Id, s: System) returns (moves: seq<Move>, u: System)
    requires cfg.policy.idle >= 1 && cfg.policy.absolute >= Quick(cfg) && UsedAt(cfg, s, x, 0)
    ensures Reaches(cfg, s, moves, u) && (forall m :: m in moves ==> MoveAnswers(m)) && UsedAt(cfg, u, x, Quick(cfg))
  {
    hide Reaches, TouchEvery;
    var a, b := Tick(Quick(cfg)), Step(0, Lookup(x, Answered, Answered));
    var v := Moved(cfg, s, a);
    OneMove(cfg, s, a);
    u := Moved(cfg, v, b);
    OneMove(cfg, v, b);
    ReachesThen(cfg, s, [a], v, [b], u);
    moves := [a] + [b];
  }

  /** Replica 1 looks it up once its row has lapsed. */
  lemma LateLookup(cfg: Config, x: Id, s: System) returns (moves: seq<Move>, u: System)
    requires cfg.policy.idle >= 1 && cfg.policy.absolute > cfg.policy.idle && UsedAt(cfg, s, x, Quick(cfg))
    ensures Reaches(cfg, s, moves, u) && (forall m :: m in moves ==> MoveAnswers(m)) && 1 in u.reps && Live(cfg, u, x)
    ensures u.table[x] == Row("", 0, 0) && u.clock == cfg.policy.idle + 1 && CanMove(u, Step(1, Adopt(x, u.table[x], 1, None, Answered)))
  {
    hide Reaches, TouchEvery;
    var a, b := Tick(cfg.policy.idle + 1 - s.clock), Step(1, Lookup(x, Answered, Answered));
    var v := Moved(cfg, s, a);
    OneMove(cfg, s, a);
    u := Moved(cfg, v, b);
    OneMove(cfg, v, b);
    ReachesThen(cfg, s, [a], v, [b], u);
    moves := [a] + [b];
  }

  /** Under every policy whose absolute timeout is the longer one, a run without storage errors brings a live session, whose
      row the sweep would have spared, to a replica that refuses it. */
  lemma LiveRefused(cfg: Config, x: Id) returns (moves: seq<Move>)
    requires 1 <= cfg.policy.idle < cfg.policy.absolute
    ensures IsQuietStart(Stored(cfg, x)) && Legal(cfg, Stored(cfg, x), moves) && forall m :: m in moves ==> MoveAnswers(m)
    ensures var u := Run(cfg, Stored(cfg, x), moves);
            && Live(cfg, u, x) && !Abandoned(cfg, u.table[x], u.clock)
            && CanMove(u, Step(1, Adopt(x, u.table[x], 1, None, Answered))) && RefusesNow(cfg, u, 1, x, 1, None)
  {
    hide Reaches, Stored, UsedAt, CanMove, IsQuietStart, Refuses;
    StoredIs(cfg, x);
    var s := Stored(cfg, x);
    var a, v := FirstUse(cfg, x);
    var b, w := SecondUse(cfg, x, v);
    var c, u := LateLookup(cfg, x, w);
    ReachesThen(cfg, s, a, v, b, w);
    ReachesThen(cfg, s, a + b, w, c, u);
    moves := a + b + c;
    Reached(cfg, s, moves, u);
    RefusedIffLapsed(cfg, u.table, u.reps[1], x, u.table[x], 1, None, u.clock, Answered);
  }

  lemma Reached(cfg: Config, s: System, moves: seq<Move>, u: System)
    requires Reaches(cfg, s, moves, u)
    ensures Legal(cfg, s, moves) && Run(cfg, s, moves) == u
  {
  }
}
