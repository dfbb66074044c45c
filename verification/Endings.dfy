/** A session that has been ended stays ended everywhere: its row never comes back, no login wins on it, and no lookup finds it. */
module Endings {
  import opened Wrappers
  import opened Sessions
  import opened SessionSteps
  import opened SingleWinner

  /** No row is left of the id, and no process that made it could still write one. */
  ghost predicate Ended(s: System, x: Id) {
    x in s.used && x !in s.table && forall r :: r in s.reps ==> !Origin(FacetOf(s.reps[r], x))
  }

  /** What one step does about an id, at the replica that takes it and for the table. */
  lemma StepFate(cfg: Config, s: System, r0: RId, ev: Event, x: Id)
    requires Okay(s, x) && CanMove(s, Step(r0, ev)) && Benign(ev) && x in s.used
    ensures var u := Moved(cfg, s, Step(r0, ev));
            && x in u.used && u.reps.Keys == s.reps.Keys && r0 in u.reps && (forall r :: r in s.reps && r != r0 ==> u.reps[r] == s.reps[r])
            && (Origin(FacetOf(u.reps[r0], x)) ==> Origin(FacetOf(s.reps[r0], x)))
            && (x in u.table && x !in s.table ==> Origin(FacetOf(s.reps[r0], x)))
            && (u.wins[x] != s.wins[x] ==> x in s.table || Origin(FacetOf(s.reps[r0], x)))
  {
    hide FacetOf, Do, Enabled, Benign, Fine;
    NotMinted(s, r0, ev, x);
    SoundFine(s, r0, x);
    StepPass(cfg, s.table, s.reps[r0], s.clock, ev, x);
    hide Okay, Sound, Minted, MintedIds, Settled;
  }

  lemma NotMinted(s: System, r0: RId, ev: Event, x: Id)
    requires CanMove(s, Step(r0, ev)) && x in s.used
    ensures x !in MintedIds(ev)
  {
  }

  lemma StepEnded(cfg: Config, s: System, m: Move, x: Id)
    requires Okay(s, x) && Ended(s, x) && CanMove(s, m) && MoveBenign(m)
    ensures var u := Moved(cfg, s, m); Ended(u, x) && u.wins[x] == s.wins[x]
  {
    hide FacetOf, Origin, Okay, Benign, Do, Enabled, Minted;
    if m.Step? {
      StepFate(cfg, s, m.r, m.ev, x);
      hide Moved;
    }
  }

  lemma MoveOkay(cfg: Config, s: System, m: Move, x: Id)
    requires Okay(s, x) && CanMove(s, m) && MoveBenign(m)
    ensures Okay(Moved(cfg, s, m), x)
  {
    hide Okay, Moved, Benign;
    OneRun(cfg, s, m);
    RunOkay(cfg, s, [m], x);
  }

  lemma OneRun(cfg: Config, s: System, m: Move)
    requires CanMove(s, m)
    ensures Legal(cfg, s, [m]) && Run(cfg, s, [m]) == Moved(cfg, s, m)
  {
    hide Moved, CanMove;
    assert [m][1..] == [];
    assert Legal(cfg, Moved(cfg, s, m), []);
  }

  lemma {:induction false} RunEnded(cfg: Config, s: System, moves: seq<Move>, x: Id)
    requires Okay(s, x) && Ended(s, x) && Legal(cfg, s, moves) && forall m :: m in moves ==> MoveBenign(m)
    ensures var u := Run(cfg, s, moves); Ended(u, x) && u.wins[x] == s.wins[x]
    decreases |moves|
  {
    hide Okay, Ended, Moved, CanMove, MoveBenign;
    if moves != [] {
      StepEnded(cfg, s, moves[0], x);
      MoveOkay(cfg, s, moves[0], x);
      RunEnded(cfg, Moved(cfg, s, moves[0]), moves[1..], x);
    }
  }

  /** Whatever takes the row away -- a deletion, a login, a sweep -- leaves no process that could write it again. */
  lemma RemovalEnds(cfg: Config, s: System, m: Move, x: Id)
    requires Okay(s, x) && CanMove(s, m) && MoveBenign(m) && x in s.table && x !in Moved(cfg, s, m).table
    ensures Ended(Moved(cfg, s, m), x)
  {
    hide FacetOf, Okay, Benign, Do, Enabled, Minted, Origin;
    RowMeansNone(s, x);
    if m.Step? {
      StepFate(cfg, s, m.r, m.ev, x);
      hide Moved;
    }
  }

  /** While a row stands, no process takes the session for an unwritten one of its own. */
  lemma RowMeansNone(s: System, x: Id)
    requires Okay(s, x) && x in s.table
    ensures x in s.used && forall r :: r in s.reps ==> !Origin(FacetOf(s.reps[r], x))
  {
    hide FacetOf, Origin;
    forall r | r in s.reps ensures !Origin(FacetOf(s.reps[r], x)) {
      SoundFine(s, r, x);
    }
  }

  /** An answered lookup of it finds nothing, at any replica. */
  lemma EndedNotFound(cfg: Config, s: System, r: RId, x: Id, touched: Reply)
    requires Ended(s, x) && r in s.reps
    ensures DoLookup(cfg, s.table, s.reps[r], x, s.clock, Answered, touched) == Quiet(s.table, s.reps[r])
  {
    assert !Origin(FacetOf(s.reps[r], x));
    hide Names;
  }

  /** In every run of any number of replicas, with any failures but those that OneWinner excludes: once a step has taken a session's
      row away, no later step brings one back or lets a login win on it, and every answered lookup of it, anywhere, finds nothing --
      also where the session is still held, or was being adopted. */
  lemma EndedForGood(cfg: Config, s: System, before: seq<Move>, m: Move, later: seq<Move>, x: Id)
    requires IsStart(s) && Legal(cfg, s, before) && (forall k :: k in before + [m] + later ==> MoveBenign(k))
    requires var u := Run(cfg, s, before); CanMove(u, m) && x in u.table && x !in Moved(cfg, u, m).table && Legal(cfg, Moved(cfg, u, m), later)
    ensures var v := Moved(cfg, Run(cfg, s, before), m);
            var w := Run(cfg, v, later);
            && x !in w.table && w.wins[x] == v.wins[x]
            && forall r, touched :: r in w.reps ==> DoLookup(cfg, w.table, w.reps[r], x, w.clock, Answered, touched) == Quiet(w.table, w.reps[r])
  {
    hide IsStart, Legal, Run, Moved, CanMove, Okay, Ended, MoveBenign, DoLookup, Quiet;
    assert (forall k :: k in before ==> k in before + [m] + later) && m in before + [m] + later && forall k :: k in later ==> k in before + [m] + later;
    StartOkay(s, x);
    RunOkay(cfg, s, before, x);
    var u := Run(cfg, s, before);
    RemovalEnds(cfg, u, m, x);
    MoveOkay(cfg, u, m, x);
    var v := Moved(cfg, u, m);
    RunEnded(cfg, v, later, x);
    EndedFacts(cfg, Run(cfg, v, later), x);
  }

  lemma EndedFacts(cfg: Config, s: System, x: Id)
    requires Ended(s, x)
    ensures x !in s.table
    ensures forall r, touched :: r in s.reps ==> DoLookup(cfg, s.table, s.reps[r], x, s.clock, Answered, touched) == Quiet(s.table, s.reps[r])
  {
    hide DoLookup, Quiet, FacetOf, Origin;
    forall r, touched | r in s.reps ensures DoLookup(cfg, s.table, s.reps[r], x, s.clock, Answered, touched) == Quiet(s.table, s.reps[r]) {
      EndedNotFound(cfg, s, r, x, touched);
    }
  }
}
