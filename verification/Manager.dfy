/** The session manager over the in-memory store.  Random ids and the clock are parameters. */
module Manager {
  import opened Wrappers
  import opened Sessions
  import opened MemStore

  class Manager {
    const store: MemStore
    const policy: Policy

    constructor (store: MemStore, policy: Policy)
      ensures this.store == store && this.policy == policy
    {
      this.store, this.policy := store, policy;
    }

    ghost predicate Valid()
      reads this, store, Members(store.sessions)
    {
      store.Valid()
    }

    /** What a request's cookie resolves to. */
    predicate Live(cookie: Id, now: Time)
      reads this, store, Members(store.sessions)
    {
      cookie in store.sessions && !policy.Expired(store.sessions[cookie].lastSeen, store.sessions[cookie].created, now)
    }

    /** Load: the live session a cookie names.  An expired one is deleted and closed. */
    method Load(cookie: Id, now: Time) returns (r: Option<Session>)
      requires Valid()
      modifies store, Members(store.sessions)
      ensures Valid() && (r.Some? <==> old(Live(cookie, now)))
      ensures r.Some? ==> r.value == old(store.sessions)[cookie] && r.value.lastSeen == now && r.value.app == old(store.sessions[cookie].app)
      ensures store.View() == if old(cookie in store.sessions && !Live(cookie, now)) then Removed(old(store.View()), cookie) else old(store.View())
      ensures store.sessions == if old(cookie in store.sessions && !Live(cookie, now)) then old(store.sessions) - {cookie} else old(store.sessions)
      ensures old(cookie in store.sessions) && r == None ==> !old(store.sessions)[cookie].closeFn
    {
      hide MemStore.Consistent, MemStore.View, Has, Removed, Placed;
      store.KeysAreOk();
      var s := store.Get(cookie);
      if s == None {
        return None;
      }
      PlacedIs(s.value, store.entries[cookie]);
      assert s.value in Members(store.sessions);
      if policy.Expired(s.value.lastSeen, s.value.created, now) {
        EndSession(s.value);
        return None;
      }
      s.value.lastSeen := now;
      PlacedIs(s.value, store.entries[cookie]);
      r := s;
    }

    /** Deletes a session and closes it. */
    method EndSession(s: Session)
      requires Valid() && s.Valid()
      modifies store, s
      ensures Valid() && store.View() == Removed(old(store.View()), s.id) && store.sessions == old(store.sessions) - {s.id}
      ensures !s.closeFn && s.hookRuns == old(s.hookRuns) + if old(s.closeFn) then 1 else 0
    {
      hide MemStore.Consistent, MemStore.View, Removed, Placed;
      store.KeysAreOk();
      store.Delete(s.id);
      assert s !in Members(store.sessions);
      s.Close();
    }

    /** Start: the session the cookie names, or a new pre-auth one -- unless admission declines it. */
    method Start(cookie: Id, now: Time, freshId: Id, freshCsrf: string, admitted: bool) returns (r: Option<Session>)
      requires Valid()
      modifies store, Members(store.sessions)
      ensures Valid() && (r == None <==> !old(Live(cookie, now)) && !admitted)
      ensures old(Live(cookie, now)) ==> r == Some(old(store.sessions)[cookie]) && store.View() == old(store.View())
      ensures !old(Live(cookie, now)) && r.Some? ==>
                && r.value.id == freshId && r.value.csrf == freshCsrf && r.value.app == None && fresh(r.value)
                && store.View() == Saved(if old(cookie in store.sessions) then Removed(old(store.View()), cookie) else old(store.View()), r.value, false)
    {
      hide MemStore.Consistent, MemStore.View, Removed, Placed, Saved, Held;
      r := Load(cookie, now);
      if r.Some? || !admitted {
        return r;
      }
      assert Members(store.sessions) <= old(Members(store.sessions));
      var s := new Session(freshId, freshCsrf, now, None, false, NO_SSO);
      var victim := store.Save(s);
      r := Some(s);
    }

    /** Authenticate: a new session with the payload takes the pre-auth session's place, or nothing
        changes. */
    method Authenticate(preAuth: Session, app: Payload, closeFn: bool, freshId: Id, freshCsrf: string, now: Time)
      returns (r: Option<Session>)
      requires Valid() && preAuth.Valid()
      modifies store, preAuth
      ensures Valid()
      ensures r.Some? <==> preAuth in old(store.View()).pre + old(store.View()).auth
      ensures r == None ==> store.View() == old(store.View()) && unchanged(preAuth)
      ensures r.Some? ==>
                && fresh(r.value) && r.value.id == freshId && r.value.csrf == freshCsrf && r.value.app == Some(app) && r.value.closeFn == closeFn
                && r.value.sso == (if old(preAuth.sso).Verified() then old(preAuth.sso).Identity() else NO_SSO)
                && store.View() == Replaced(old(store.View()), preAuth.id, r.value)
                && preAuth !in store.View().pre + store.View().auth
                && preAuth.hookRuns == old(preAuth.hookRuns) + if old(preAuth.closeFn) then 1 else 0
    {
      hide MemStore.Consistent, MemStore.View, Replaced, Placed;
      var s := new Session(freshId, freshCsrf, now, Some(app), closeFn,
                           if preAuth.sso.Verified() then preAuth.sso.Identity() else NO_SSO);
      store.KeysAreOk();
      ReplaceOnce(store.View(), preAuth, s);
      var ok := store.Replace(preAuth, s);
      if !ok {
        return None;
      }
      assert preAuth !in Members(store.sessions);
      preAuth.Close();
      r := Some(s);
    }

    /** Destroy, after the cookie has been cleared. */
    method Destroy(s: Option<Session>)
      requires Valid() && (s.Some? ==> s.value.Valid())
      modifies store, if s.Some? then {s.value} else {}
      ensures Valid()
      ensures store.View() == if s.Some? then Removed(old(store.View()), s.value.id) else old(store.View())
      ensures s.Some? ==> !s.value.closeFn && s.value.hookRuns == old(s.value.hookRuns) + if old(s.value.closeFn) then 1 else 0
    {
      if s.Some? {
        EndSession(s.value);
      }
    }
  }
}
