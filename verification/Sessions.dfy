/** One server-side session: its identity, its payload, and the single-use handshake it carries. */
module Sessions {
  import opened Wrappers

  type Id = string

  /** The application payload (pools and credentials); the model never looks inside. */
  type Payload = nat

  /** Times are counted in one unit (microseconds, say). */
  type Time = int

  datatype Sso = Sso(state: string, nonce: string, verifier: string, subject: string, email: string, name: string) {
    predicate Verified() { subject != "" }
    function Identity(): Sso { Sso("", "", "", subject, email, name) }
  }

  const NO_SSO: Sso := Sso("", "", "", "", "", "")

  datatype Handshake = Handshake(state: string, nonce: string, verifier: string)

  datatype Envelope = Envelope(id: Id, csrf: string, created: Time, lastSeen: Time)

  /** The two timeouts of a manager. */
  datatype Policy = Policy(idle: Time, absolute: Time) {
    predicate Expired(lastSeen: Time, created: Time, now: Time) {
      now - lastSeen > idle || now - created > absolute
    }
  }

  class Session {
    const id: Id
    const csrf: string
    const created: Time
    var lastSeen: Time
    var app: Option<Payload>
    var closeFn: bool     // a close hook is set
    var closed: bool
    var hookRuns: nat     // how often the hook has run
    var sso: Sso

    /** A session as newSession makes it, with a payload and hook attached before it is shared. */
    constructor (id: Id, csrf: string, now: Time, app: Option<Payload>, closeFn: bool, sso: Sso)
      ensures this.id == id && this.csrf == csrf && created == now && lastSeen == now
      ensures this.app == app && this.closeFn == closeFn && this.sso == sso && !closed && hookRuns == 0
    {
      this.id, this.csrf, created, lastSeen := id, csrf, now, now;
      this.app, this.closeFn, this.sso, closed, hookRuns := app, closeFn, sso, false, 0;
    }

    /** Adopt: the envelope's identity, and no payload. */
    constructor Adopt(e: Envelope)
      ensures id == e.id && csrf == e.csrf && created == e.created && lastSeen == e.lastSeen
      ensures app == None && !closeFn && sso == NO_SSO && !closed && hookRuns == 0
    {
      id, csrf, created, lastSeen := e.id, e.csrf, e.created, e.lastSeen;
      app, closeFn, sso, closed, hookRuns := None, false, NO_SSO, false, 0;
    }

    /** The hook has run at most once, and never while it is still set. */
    predicate Valid()
      reads this
    {
      hookRuns <= 1 && (closeFn ==> hookRuns == 0 && !closed) && (hookRuns == 1 ==> closed) && (closed ==> app == None)
    }

    /** close. */
    method Close()
      requires Valid()
      modifies this
      ensures Valid() && !closeFn && sso == old(sso) && lastSeen == old(lastSeen)
      ensures hookRuns == old(hookRuns) + if old(closeFn) then 1 else 0
      ensures if old(closeFn) then closed && app == None else closed == old(closed) && app == old(app)
    {
      if closed || !closeFn {
        return;
      }
      closed, app, closeFn := true, None, false;
      hookRuns := hookRuns + 1;
    }

    method ConsumeSSOHandshake(match_: string -> bool) returns (won: Option<Handshake>)
      modifies this`sso
      ensures (sso, won.Some?) == Consumed(old(sso), match_(old(sso).state))
      ensures won.Some? ==> won.value == Handshake(old(sso).state, old(sso).nonce, old(sso).verifier)
    {
      if sso.state == "" || !match_(sso.state) {
        return None;
      }
      won := Some(Handshake(sso.state, sso.nonce, sso.verifier));
      sso := sso.(state := "", nonce := "", verifier := "");
    }
  }

  /** What one callback leaves of the stored state, and whether it won the handshake. */
  function Consumed(x: Sso, matches: bool): (Sso, bool) {
    if x.state == "" || !matches then (x, false) else (x.Identity(), true)
  }

  /** How many of a run of callbacks win; matches tells which would present the right state. */
  function Winners(x: Sso, matches: seq<bool>): nat
    decreases |matches|
  {
    if matches == [] then 0
    else
      var (y, won) := Consumed(x, matches[0]);
      Winners(y, matches[1..]) + if won then 1 else 0
  }

  /** Single use: of any run of callbacks on one handshake at most one wins, and one does exactly when a
      handshake is pending and some callback matches it. */
  lemma {:induction false} HandshakeSingleUse(x: Sso, matches: seq<bool>)
    ensures Winners(x, matches) <= 1
    ensures Winners(x, matches) == 1 <==> x.state != "" && true in matches
    decreases |matches|
  {
    if matches != [] {
      HandshakeSingleUse(Consumed(x, matches[0]).0, matches[1..]);
      assert matches == [matches[0]] + matches[1..];
    }
  }
}
