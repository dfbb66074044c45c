/** The in-memory session store: a map, an entry map and two FIFO lists, changed in place. */
module MemStore {
  import opened Wrappers
  import opened Sessions

  const MAX_SESSIONS: nat := 10000

  /** list.Element. */
  class Element {
    const value: Session

    constructor (s: Session)
      ensures value == s
    {
      value := s;
    }
  }

  /** Where a session's element is: in the list of authenticated sessions or in the pre-auth one. */
  datatype ListEntry = ListEntry(el: Element, inAuth: bool)

  // --- what the store's state amounts to ---------------------------------------------------------------

  /** The two lists, oldest first. */
  datatype Buckets = Buckets(pre: seq<Session>, auth: seq<Session>)

  function Values(l: seq<Element>): (r: seq<Session>)
    ensures |r| == |l|
  {
    seq(|l|, i requires 0 <= i < |l| => l[i].value)
  }

  /** list.Remove. */
  function Cut(l: seq<Element>, x: Element): seq<Element> {
    if l == [] then [] else if l[0] == x then l[1..] else [l[0]] + Cut(l[1..], x)
  }

  function Without(l: seq<Session>, id: Id): seq<Session> {
    if l == [] then [] else (if l[0].id == id then [] else [l[0]]) + Without(l[1..], id)
  }

  function Removed(b: Buckets, id: Id): Buckets {
    Buckets(Without(b.pre, id), Without(b.auth, id))
  }

  function Pushed(b: Buckets, s: Session, inAuth: bool): Buckets {
    if inAuth then b.(auth := b.auth + [s]) else b.(pre := b.pre + [s])
  }

  /** The oldest pre-auth session goes; an authenticated one only when there is no other. */
  function Evicted(b: Buckets): Buckets {
    if b.pre != [] then b.(pre := b.pre[1..]) else if b.auth != [] then b.(auth := b.auth[1..]) else b
  }

  predicate Has(b: Buckets, id: Id) {
    exists s :: s in b.pre + b.auth && s.id == id
  }

  function Roomed(b: Buckets, id: Id): Buckets {
    if Has(b, id) then Removed(b, id) else if |b.pre| + |b.auth| >= MAX_SESSIONS then Evicted(b) else b
  }

  /** Save. */
  function Saved(b: Buckets, s: Session, inAuth: bool): Buckets {
    Pushed(Roomed(b, s.id), s, inAuth)
  }

  /** Replace. */
  function Replaced(b: Buckets, oldId: Id, s: Session): Buckets {
    Pushed(Removed(Removed(b, oldId), s.id), s, true)
  }

  function Survivors(l: seq<Session>, gone: set<Id>): seq<Session> {
    if l == [] then [] else (if l[0].id in gone then [] else [l[0]]) + Survivors(l[1..], gone)
  }

  function Reaped(b: Buckets, gone: set<Id>): Buckets {
    Buckets(Survivors(b.pre, gone), Survivors(b.auth, gone))
  }

  lemma {:induction false} SurvivorsStep(l: seq<Session>, gone: set<Id>, id: Id)
    ensures Without(Survivors(l, gone), id) == Survivors(l, gone + {id})
  {
    if l != [] {
      SurvivorsStep(l[1..], gone, id);
      if l[0].id !in gone {
        assert Survivors(l, gone) == [l[0]] + Survivors(l[1..], gone);
        assert Survivors(l, gone)[1..] == Survivors(l[1..], gone);
      } else {
        assert Survivors(l, gone) == Survivors(l[1..], gone);
      }
    }
  }

  lemma {:induction false} NoneGone(l: seq<Session>)
    ensures Survivors(l, {}) == l
  {
    if l != [] {
      NoneGone(l[1..]);
    }
  }

  // --- what eviction spares ------------------------------------------------------------------------------

  lemma {:induction false} WithoutSize(l: seq<Session>, id: Id)
    ensures |Without(l, id)| <= |l|
    ensures (exists s :: s in l && s.id == id) ==> |Without(l, id)| < |l|
  {
    if l != [] {
      WithoutSize(l[1..], id);
      assert l == [l[0]] + l[1..];
    }
  }

  /** A save never takes the store over its cap, drops at most one session it was not asked to replace,
      and drops an authenticated one only when no pre-auth session is left. */
  lemma SaveKeeps(b: Buckets, s: Session, inAuth: bool)
    requires |b.pre| + |b.auth| <= MAX_SESSIONS
    ensures |Saved(b, s, inAuth).pre| + |Saved(b, s, inAuth).auth| <= MAX_SESSIONS
    ensures forall t :: t in b.auth && t.id != s.id && (b.pre != [] || |b.auth| < MAX_SESSIONS) ==> t in Saved(b, s, inAuth).auth
    ensures !Has(b, s.id) ==> |b.pre| + |b.auth| <= |Roomed(b, s.id).pre| + |Roomed(b, s.id).auth| + 1
  {
    WithoutSize(b.pre, s.id);
    WithoutSize(b.auth, s.id);
    forall t ensures t in Without(b.auth, s.id) <==> t in b.auth && t.id != s.id {
      WithoutIs(b.auth, s.id, t);
    }
  }

  /** Saving one pre-auth session after another. */
  function Flooded(b: Buckets, flood: seq<Session>): Buckets {
    if flood == [] then b else Saved(Flooded(b, flood[..|flood| - 1]), flood[|flood| - 1], false)
  }

  /** No flood of cookie-less sessions, however long, pushes out a logged-in user or reorders them. */
  lemma {:induction false} FloodSparesLogins(b: Buckets, flood: seq<Session>)
    requires |b.pre| + |b.auth| <= MAX_SESSIONS && |b.auth| < MAX_SESSIONS
    requires forall s, t :: s in flood && t in b.auth ==> s.id != t.id
    ensures Flooded(b, flood).auth == b.auth
    ensures |Flooded(b, flood).pre| + |Flooded(b, flood).auth| <= MAX_SESSIONS
  {
    if flood != [] {
      var n := |flood| - 1;
      FloodSparesLogins(b, flood[..n]);
      var before := Flooded(b, flood[..n]);
      NotThere(before.auth, flood[n].id);
      SaveKeeps(before, flood[n], false);
    }
  }

  /** The login swap has one winner: once it has replaced old_, old_ is no member any more. */
  lemma ReplaceOnce(b: Buckets, old_: Session, new_: Session)
    requires old_ != new_
    ensures var c := Replaced(b, old_.id, new_); old_ !in c.pre + c.auth
  {
    var c := Removed(b, old_.id);
    WithoutIs(b.pre, old_.id, old_);
    WithoutIs(b.auth, old_.id, old_);
    WithoutIs(c.pre, new_.id, old_);
    WithoutIs(c.auth, new_.id, old_);
  }

  // --- one list and the entry map ----------------------------------------------------------------------

  ghost predicate DistinctIds(l: seq<Element>) {
    forall i, j :: 0 <= i < j < |l| ==> l[i].value.id != l[j].value.id
  }

  /** The list holds exactly the elements filed under it, each once. */
  ghost predicate Filed(entries: map<Id, ListEntry>, l: seq<Element>, inAuth: bool) {
    && (forall e :: e in l ==> e.value.id in entries && entries[e.value.id] == ListEntry(e, inAuth))
    && (forall id :: id in entries && entries[id].inAuth == inAuth ==> entries[id].el in l && entries[id].el.value.id == id)
    && DistinctIds(l)
  }

  lemma {:induction false} CutIs(l: seq<Element>, x: Element)
    requires DistinctIds(l) && x in l
    ensures DistinctIds(Cut(l, x)) && Values(Cut(l, x)) == Without(Values(l), x.value.id)
    ensures forall i :: 0 <= i < |Cut(l, x)| ==> Cut(l, x)[i] in l && Cut(l, x)[i] != x
    ensures forall e :: e in l && e != x ==> e in Cut(l, x)
  {
    assert l == [l[0]] + l[1..];
    assert Values(l) == [l[0].value] + Values(l[1..]);
    hide Values;
    if l[0] == x {
      NotThere(Values(l[1..]), x.value.id);
    } else {
      CutIs(l[1..], x);
      assert Values(Cut(l, x)) == [l[0].value] + Values(Cut(l[1..], x));
      forall i | 0 <= i < |Cut(l[1..], x)| ensures Cut(l[1..], x)[i].value.id != l[0].value.id {
        assert Cut(l[1..], x)[i] in l[1..];
      }
    }
  }

  lemma {:induction false} NotThere(l: seq<Session>, id: Id)
    requires forall i :: 0 <= i < |l| ==> l[i].id != id
    ensures Without(l, id) == l
  {
    if l != [] {
      NotThere(l[1..], id);
    }
  }

  lemma {:induction false} WithoutIs(l: seq<Session>, id: Id, s: Session)
    ensures s in Without(l, id) <==> s in l && s.id != id
  {
    if l != [] {
      WithoutIs(l[1..], id, s);
    }
  }

  /** Taking one id out of the list that holds it, and out of the map, keeps both in step. */
  lemma FiledCut(entries: map<Id, ListEntry>, l: seq<Element>, inAuth: bool, id: Id)
    requires Filed(entries, l, inAuth) && id in entries && entries[id].inAuth == inAuth
    ensures Filed(entries - {id}, Cut(l, entries[id].el), inAuth)
    ensures Values(Cut(l, entries[id].el)) == Without(Values(l), id)
  {
    hide DistinctIds;
    assert entries[id].el in l && entries[id].el.value.id == id;
    CutIs(l, entries[id].el);
    var c, m := Cut(l, entries[id].el), entries - {id};
    forall e | e in c ensures e.value.id in m && m[e.value.id] == ListEntry(e, inAuth) {
      var i :| 0 <= i < |c| && c[i] == e;
      assert c[i] in l && c[i] != entries[id].el;
    }
    forall d | d in m && m[d].inAuth == inAuth ensures m[d].el in c && m[d].el.value.id == d {
      assert d in entries && m[d] == entries[d];
    }
  }

  /** The other list is not touched. */
  lemma FiledElsewhere(entries: map<Id, ListEntry>, l: seq<Element>, inAuth: bool, id: Id)
    requires Filed(entries, l, inAuth) && (id in entries ==> entries[id].inAuth != inAuth)
    ensures Filed(entries - {id}, l, inAuth) && Without(Values(l), id) == Values(l)
  {
    hide DistinctIds;
    forall i | 0 <= i < |l| ensures Values(l)[i].id != id { assert l[i] in l; }
    NotThere(Values(l), id);
  }

  lemma FiledPush(entries: map<Id, ListEntry>, l: seq<Element>, inAuth: bool, e: Element)
    requires Filed(entries, l, inAuth) && e.value.id !in entries
    ensures Filed(entries[e.value.id := ListEntry(e, inAuth)], l + [e], inAuth)
    ensures Filed(entries[e.value.id := ListEntry(e, !inAuth)], l, inAuth)
    ensures Values(l + [e]) == Values(l) + [e.value]
  {
    forall i | 0 <= i < |l| ensures l[i].value.id != e.value.id { assert l[i] in l; }
  }

  lemma FiledHead(entries: map<Id, ListEntry>, l: seq<Element>, inAuth: bool)
    requires Filed(entries, l, inAuth) && l != []
    ensures l[0].value.id in entries && entries[l[0].value.id] == ListEntry(l[0], inAuth)
    ensures Without(Values(l), l[0].value.id) == Values(l)[1..]
  {
    assert l[0] in l;
    assert Values(l) == [l[0].value] + Values(l)[1..];
    NotThere(Values(l)[1..], l[0].value.id);
  }

  lemma FiledMember(entries: map<Id, ListEntry>, l: seq<Element>, inAuth: bool, s: Session)
    requires Filed(entries, l, inAuth)
    ensures s in Values(l) <==> s.id in entries && entries[s.id].el.value == s && entries[s.id].inAuth == inAuth
  {
    if s in Values(l) {
      var i :| 0 <= i < |l| && Values(l)[i] == s;
      assert l[i] in l;
    }
    if s.id in entries && entries[s.id].el.value == s && entries[s.id].inAuth == inAuth {
      var i :| 0 <= i < |l| && l[i] == entries[s.id].el;
      assert Values(l)[i] == s;
    }
  }

  lemma {:induction false} IdSet(l: seq<Element>) returns (ids: set<Id>)
    requires DistinctIds(l)
    ensures |ids| == |l| && forall id :: id in ids <==> exists i :: 0 <= i < |l| && l[i].value.id == id
  {
    if l == [] {
      ids := {};
    } else {
      var n := |l| - 1;
      var rest := IdSet(l[..n]);
      ids := rest + {l[n].value.id};
      assert forall i :: 0 <= i < n ==> l[..n][i] == l[i];
    }
  }

  lemma FiledIds(entries: map<Id, ListEntry>, l: seq<Element>, inAuth: bool) returns (ids: set<Id>)
    requires Filed(entries, l, inAuth)
    ensures |ids| == |l| && forall id :: id in ids <==> id in entries && entries[id].inAuth == inAuth
  {
    ids := IdSet(l);
    forall id ensures id in ids <==> id in entries && entries[id].inAuth == inAuth {
      if id in ids {
        var i :| 0 <= i < |l| && l[i].value.id == id;
        assert l[i] in l;
      }
      if id in entries && entries[id].inAuth == inAuth {
        var i :| 0 <= i < |l| && l[i] == entries[id].el;
      }
    }
  }

  // --- the sessions the store holds --------------------------------------------------------------------

  function Members(sessions: map<Id, Session>): set<Session> {
    set id | id in sessions :: sessions[id]
  }

  ghost predicate Placed(s: Session, n: ListEntry)
    reads s
  {
    s.Valid() && (!n.inAuth ==> s.app == None)
  }

  /** The sessions are well-formed, and those filed as pre-auth carry no payload. */
  ghost predicate Held(sessions: map<Id, Session>, entries: map<Id, ListEntry>)
    reads Members(sessions)
  {
    forall id :: id in sessions && id in entries ==> Placed(sessions[id], entries[id])
  }

  lemma PlacedIs(s: Session, n: ListEntry)
    ensures Placed(s, n) <==> s.Valid() && (!n.inAuth ==> s.app == None)
  {
  }

  lemma HeldFewer(sessions: map<Id, Session>, entries: map<Id, ListEntry>, gone: set<Id>)
    requires Held(sessions, entries)
    ensures Held(sessions - gone, entries - gone)
  {
    hide Placed;
    assert forall id :: id in sessions - gone ==> id in sessions && sessions[id] in Members(sessions);
  }

  lemma HeldWith(sessions: map<Id, Session>, entries: map<Id, ListEntry>, s: Session, entries': map<Id, ListEntry>)
    requires Held(sessions, entries) && s.id in entries' && Placed(s, entries'[s.id])
    requires forall id :: id in sessions && id in entries' && id != s.id ==> id in entries && entries'[id] == entries[id]
    ensures Held(sessions[s.id := s], entries')
  {
    hide Placed;
  }

  // --- the store -----------------------------------------------------------------------------------------

  class MemStore {
    var sessions: map<Id, Session>
    var entries: map<Id, ListEntry>
    var preAuth: seq<Element>
    var auth: seq<Element>

    /** The entry map and the lists describe the same sessions, each once. */
    ghost predicate ListsOk()
      reads this`entries, this`preAuth, this`auth
    {
      Filed(entries, preAuth, false) && Filed(entries, auth, true)
    }

    /** ... and so does the session map. */
    ghost predicate Consistent()
      reads this
    {
      && ListsOk() && sessions.Keys == entries.Keys
      && forall id :: id in sessions ==> entries[id].el.value == sessions[id] && sessions[id].id == id
    }

    /** ... within the cap, and no session of the pre-auth list carries a payload. */
    ghost predicate Valid()
      reads this, Members(sessions)
    {
      Consistent() && |sessions| <= MAX_SESSIONS && Held(sessions, entries)
    }

    function View(): Buckets
      reads this`preAuth, this`auth
    {
      Buckets(Values(preAuth), Values(auth))
    }

    constructor ()
      ensures Valid() && View() == Buckets([], []) && sessions == map[]
    {
      sessions, entries, preAuth, auth := map[], map[], [], [];
    }

    /** The maps have exactly the ids of the lists. */
    lemma HasIs(id: Id)
      requires ListsOk()
      ensures Has(View(), id) <==> id in entries
    {
      hide Filed;
      forall s: Session ensures s in View().pre + View().auth <==> s.id in entries && entries[s.id].el.value == s {
        FiledMember(entries, preAuth, false, s);
        FiledMember(entries, auth, true, s);
      }
      IdOfEntry(id);
    }

    lemma IdOfEntry(id: Id)
      requires ListsOk()
      ensures id in entries ==> entries[id].el.value.id == id
    {
    }

    /** ... and as many entries as they have elements. */
    lemma SizeIs()
      requires ListsOk()
      ensures |entries| == |preAuth| + |auth|
    {
      hide Filed;
      var p := FiledIds(entries, preAuth, false);
      var a := FiledIds(entries, auth, true);
      assert p !! a && p + a == entries.Keys;
      assert |entries| == |entries.Keys|;
    }

    /** detachLocked. */
    method DetachLocked(id: Id)
      requires ListsOk()
      modifies this`entries, this`preAuth, this`auth
      ensures ListsOk() && entries == old(entries) - {id} && View() == Removed(old(View()), id)
    {
      hide Filed, Values, Without, Cut;
      if id !in entries {
        FiledElsewhere(entries, preAuth, false, id);
        FiledElsewhere(entries, auth, true, id);
        assert entries - {id} == entries;
        return;
      }
      var n := entries[id];
      if n.inAuth {
        FiledCut(entries, auth, true, id);
        FiledElsewhere(entries, preAuth, false, id);
        auth := Cut(auth, n.el);
      } else {
        FiledCut(entries, preAuth, false, id);
        FiledElsewhere(entries, auth, true, id);
        preAuth := Cut(preAuth, n.el);
      }
      entries := entries - {id};
    }

    /** The last step of Save and Replace. */
    method Insert(s: Session, inAuth: bool)
      requires ListsOk() && s.id !in entries && sessions.Keys - {s.id} == entries.Keys
      requires forall id :: id in entries ==> entries[id].el.value == sessions[id] && sessions[id].id == id
      modifies this
      ensures Consistent() && View() == Pushed(old(View()), s, inAuth)
      ensures sessions == old(sessions)[s.id := s] && entries[s.id].inAuth == inAuth && entries - {s.id} == old(entries)
    {
      hide Filed, Values;
      sessions := sessions[s.id := s];
      Push(s, inAuth);
    }

    lemma KeysAreOk()
      requires Valid()
      ensures sessions.Keys == entries.Keys && forall id :: id in sessions ==> sessions[id].id == id
    {
    }

    /** PushBack, and the entry that goes with it. */
    method Push(s: Session, inAuth: bool)
      requires ListsOk() && s.id !in entries
      modifies this`entries, this`preAuth, this`auth
      ensures ListsOk() && View() == Pushed(old(View()), s, inAuth)
      ensures s.id in entries && entries[s.id].el.value == s && entries[s.id].inAuth == inAuth
      ensures entries.Keys == old(entries).Keys + {s.id} && entries - {s.id} == old(entries)
    {
      hide Filed, Values;
      var el := new Element(s);
      FiledPush(entries, preAuth, false, el);
      FiledPush(entries, auth, true, el);
      if inAuth {
        auth := auth + [el];
      } else {
        preAuth := preAuth + [el];
      }
      entries := entries[s.id := ListEntry(el, inAuth)];
    }

    // --- the operations --------------------------------------------------------------------------------

    method Get(id: Id) returns (s: Option<Session>)
      requires Valid()
      ensures (s.Some? <==> Has(View(), id)) && (s.Some? <==> id in sessions)
      ensures s.Some? ==> s.value == sessions[id] && s.value.id == id && s.value in View().pre + View().auth
    {
      hide Filed, Values;
      HasIs(id);
      s := if id in sessions then Some(sessions[id]) else None;
      if s.Some? {
        FiledMember(entries, preAuth, false, s.value);
        FiledMember(entries, auth, true, s.value);
      }
    }

    /** Len. */
    method Len() returns (n: nat)
      requires Valid()
      ensures n == |View().pre| + |View().auth|
    {
      SizeIs();
      SameSize(sessions, entries);
      n := |sessions|;
    }

    /** evictOldestLocked. */
    method EvictOldestLocked() returns (victim: Option<Session>)
      requires Consistent()
      modifies this
      ensures Consistent() && View() == Evicted(old(View()))
      ensures victim == None ==> old(sessions) == map[]
      ensures victim.Some? ==> var v := victim.value;
                v.id in old(sessions) && old(sessions)[v.id] == v && sessions == old(sessions) - {v.id} && entries == old(entries) - {v.id}
    {
      hide Filed, Without;
      var e: Element;
      if preAuth != [] {
        e := preAuth[0];
        FiledHead(entries, preAuth, false);
        FiledElsewhere(entries, auth, true, e.value.id);
      } else if auth != [] {
        e := auth[0];
        FiledHead(entries, auth, true);
        FiledElsewhere(entries, preAuth, false, e.value.id);
      } else {
        SizeIs();
        return None;
      }
      DetachLocked(e.value.id);
      sessions := sessions - {e.value.id};
      victim := Some(e.value);
    }

    /** The room made for a session: the stale element of its own id goes, or at the cap the oldest. */
    method MakeRoom(id: Id) returns (victim: Option<Session>)
      requires Consistent() && |sessions| <= MAX_SESSIONS
      modifies this
      ensures ListsOk() && id !in entries && sessions.Keys - {id} == entries.Keys && |entries| < MAX_SESSIONS
      ensures forall d :: d in sessions ==> d in old(sessions) && sessions[d] == old(sessions)[d] && sessions[d].id == d
      ensures forall d :: d in entries ==> entries[d] == old(entries)[d] && entries[d].el.value == sessions[d]
      ensures View() == Roomed(old(View()), id)
      ensures forall d :: d in old(sessions) && d !in sessions ==> victim == Some(old(sessions)[d])
      ensures victim.Some? ==> victim.value.id !in sessions && victim.value.id != id && victim.value.id in old(sessions) && old(sessions)[victim.value.id] == victim.value
    {
      hide Filed, Values, Without, Evicted, Removed, Has;
      HasIs(id);
      SizeIs();
      SameSize(sessions, entries);
      victim := None;
      if id in sessions {
        OneLess(entries, id);
        DetachLocked(id);
      } else if |sessions| >= MAX_SESSIONS {
        victim := EvictOldestLocked();
        OneLess(old(entries), victim.value.id);
      }
    }

    /** The part of Save that runs under the store's lock. */
    method SaveLocked(s: Session) returns (victim: Option<Session>)
      requires Consistent() && |sessions| <= MAX_SESSIONS
      modifies this
      ensures Consistent() && |sessions| <= MAX_SESSIONS
      ensures View() == Saved(old(View()), s, s.app.Some?)
      ensures s.id in sessions && sessions[s.id] == s && (entries[s.id].inAuth <==> s.app.Some?)
      ensures victim.Some? ==> victim.value.id in old(sessions) && old(sessions)[victim.value.id] == victim.value
      ensures forall id :: id in sessions && id != s.id ==> id in old(sessions) && sessions[id] == old(sessions)[id] && entries[id] == old(entries)[id]
      ensures forall id :: id in old(sessions) && id !in sessions ==> victim == Some(old(sessions)[id])
      ensures victim.Some? ==> victim.value.id !in sessions
      ensures entries.Keys == sessions.Keys && forall id :: id in sessions ==> sessions[id].id == id
    {
      hide ListsOk, Pushed, Roomed;
      victim := MakeRoom(s.id);
      Insert(s, s.app.Some?);
      OneLess(entries, s.id);
      SameSize(sessions, entries);
    }

    /** Save.  The session dropped to make room, if any, is what the OnEvict hook is told of. */
    method Save(s: Session) returns (victim: Option<Session>)
      requires Valid() && s.Valid()
      modifies this, Members(sessions)
      ensures Valid() && View() == Saved(old(View()), s, old(s.app).Some?)
      ensures victim.Some? ==> victim.value.id in old(sessions) && old(sessions)[victim.value.id] == victim.value && !victim.value.closeFn
      ensures forall t :: t in old(Members(sessions)) && victim != Some(t) ==> unchanged(t)
    {
      hide Consistent, Placed, Saved;
      ghost var was, filed := sessions, entries;
      assert entries.Keys == sessions.Keys by { KeysAre(); }
      victim := SaveLocked(s);
      assert forall id :: id in was && id in filed ==> Placed(was[id], filed[id]);
      PlacedIs(s, entries[s.id]);
      assert forall id :: id in sessions ==> Placed(sessions[id], entries[id]);
      if victim.Some? {
        PlacedIs(victim.value, filed[victim.value.id]);
        victim.value.Close();
      }
      assert forall id :: id in sessions ==> Placed(sessions[id], entries[id]);
    }

    lemma KeysAre()
      requires Consistent()
      ensures sessions.Keys == entries.Keys && forall id :: id in sessions ==> sessions[id].id == id
    {
    }

    /** Takes a session out of all three places. */
    method RemoveLocked(id: Id)
      requires Consistent()
      modifies this
      ensures Consistent() && View() == Removed(old(View()), id)
      ensures sessions == old(sessions) - {id} && entries == old(entries) - {id}
    {
      hide ListsOk, Removed;
      sessions := sessions - {id};
      DetachLocked(id);
    }

    method Replace(old_: Session, new_: Session) returns (ok: bool)
      requires Valid() && new_.Valid()
      modifies this
      ensures Valid()
      ensures ok <==> old_ in old(View()).pre + old(View()).auth
      ensures View() == if ok then Replaced(old(View()), old_.id, new_) else old(View())
      ensures sessions == if ok then (old(sessions) - {old_.id})[new_.id := new_] else old(sessions)
    {
      hide ListsOk, Replaced, Placed;
      MemberIs(old_);
      if old_.id !in sessions || sessions[old_.id] != old_ {
        return false;
      }
      ghost var was, filed := sessions, entries;
      SwapIn(old_.id, new_);
      assert forall id :: id in was && id in filed ==> Placed(was[id], filed[id]);
      PlacedIs(new_, entries[new_.id]);
      HeldFewer(was, filed, {old_.id});
      HeldWith(was - {old_.id}, filed - {old_.id}, new_, entries);
      ok := true;
    }

    lemma MemberIs(s: Session)
      requires Consistent()
      ensures s in View().pre + View().auth <==> s.id in sessions && sessions[s.id] == s
    {
      hide Filed, Values;
      FiledMember(entries, preAuth, false, s);
      FiledMember(entries, auth, true, s);
    }

    method SwapIn(oldId: Id, new_: Session)
      requires Consistent() && |sessions| <= MAX_SESSIONS && oldId in sessions
      modifies this
      ensures Consistent() && |sessions| <= MAX_SESSIONS
      ensures View() == Replaced(old(View()), oldId, new_)
      ensures sessions == (old(sessions) - {oldId})[new_.id := new_] && entries[new_.id].inAuth
      ensures forall id :: id in entries && id != new_.id ==> id in old(entries) && entries[id] == old(entries)[id]
    {
      hide ListsOk, Removed, Pushed;
      OneLess(sessions, oldId);
      TakeOut(oldId, new_.id);
      GrowsByOne(sessions, new_.id, new_);
      Insert(new_, true);
    }

    method TakeOut(oldId: Id, newId: Id)
      requires Consistent()
      modifies this
      ensures ListsOk() && newId !in entries && sessions.Keys - {newId} == entries.Keys
      ensures forall id :: id in entries ==> entries[id].el.value == sessions[id] && sessions[id].id == id && id in old(entries) && entries[id] == old(entries)[id]
      ensures View() == Removed(Removed(old(View()), oldId), newId) && sessions == old(sessions) - {oldId}
    {
      hide ListsOk, Removed;
      RemoveLocked(oldId);
      DetachLocked(newId);
    }

    /** Delete. */
    method Delete(id: Id)
      requires Valid()
      modifies this
      ensures Valid() && View() == Removed(old(View()), id) && sessions == old(sessions) - {id}
    {
      hide Consistent, Removed, Placed;
      ghost var was, filed := sessions, entries;
      FewerThan(sessions, id);
      RemoveLocked(id);
      assert forall id :: id in was && id in filed ==> Placed(was[id], filed[id]);
      HeldFewer(was, filed, {id});
    }

    /** Reap: the expired sessions go, each returned once, and the others keep their order. */
    method Reap(expired: Session -> bool) returns (dead: seq<Session>)
      requires Valid()
      modifies this
      ensures Valid()
      ensures var gone := Expired(old(sessions), expired, {});
              && View() == Reaped(old(View()), gone) && sessions == old(sessions) - gone && |dead| == |gone|
              && forall id :: id in gone ==> old(sessions)[id] in dead
    {
      hide Consistent, Held, Expired, Removed, Reaped, Reaping, Values, Members;
      ghost var was, view := sessions, View();
      dead := [];
      var pending := sessions.Keys;
      NoneExpired(sessions, expired);
      NoneReaped(view);
      assert Reaping(was, view, {}, sessions, View(), dead) by { StartReaping(was, view); }
      while pending != {}
        invariant Valid() && pending <= sessions.Keys
        invariant Reaping(was, view, Expired(was, expired, pending), sessions, View(), dead)
      {
        var id :| id in pending;
        ghost var gone := Expired(was, expired, pending);
        var s := sessions[id];
        ReapingStep(was, view, gone, sessions, View(), dead, id);
        ExpiredStep(was, expired, pending, id);
        if expired(s) {
          dead := dead + [s];
          Delete(id);
        }
        pending := pending - {id};
      }
      ReapingDone(was, view, Expired(was, expired, {}), sessions, View(), dead);
    }
  }

  /** How far a sweep has come: the sessions in gone have been removed and collected. */
  ghost predicate Reaping(was: map<Id, Session>, view: Buckets, gone: set<Id>, sessions: map<Id, Session>, b: Buckets, dead: seq<Session>) {
    && |dead| == |gone| && (forall id :: id in gone ==> id in was && was[id] in dead)
    && sessions == was - gone && b == Reaped(view, gone)
  }

  lemma StartReaping(was: map<Id, Session>, view: Buckets)
    ensures Reaping(was, view, {}, was, view, [])
  {
    NoneReaped(view);
    assert was - {} == was;
  }

  lemma ReapingDone(was: map<Id, Session>, view: Buckets, gone: set<Id>, sessions: map<Id, Session>, b: Buckets, dead: seq<Session>)
    requires Reaping(was, view, gone, sessions, b, dead)
    ensures |dead| == |gone| && (forall id :: id in gone ==> was[id] in dead)
    ensures sessions == was - gone && b == Reaped(view, gone)
  {
  }

  lemma ReapingStep(was: map<Id, Session>, view: Buckets, gone: set<Id>, sessions: map<Id, Session>, b: Buckets, dead: seq<Session>, id: Id)
    requires Reaping(was, view, gone, sessions, b, dead) && id in sessions
    ensures id in was && id !in gone && sessions[id] == was[id]
    ensures Reaping(was, view, gone + {id}, sessions - {id}, Removed(b, id), dead + [sessions[id]])
  {
    hide Removed, Reaped;
    ReapedStep(view, gone, id);
    assert was - gone - {id} == was - (gone + {id});
  }

  /** The expired sessions among those not pending. */
  ghost function Expired(sessions: map<Id, Session>, expired: Session -> bool, pending: set<Id>): set<Id> {
    set id | id in sessions && id !in pending && expired(sessions[id])
  }

  lemma NoneExpired(sessions: map<Id, Session>, expired: Session -> bool)
    ensures Expired(sessions, expired, sessions.Keys) == {}
  {
  }

  lemma ExpiredStep(sessions: map<Id, Session>, expired: Session -> bool, pending: set<Id>, id: Id)
    requires id in pending && id in sessions
    ensures var gone := Expired(sessions, expired, pending);
            && id !in gone
            && Expired(sessions, expired, pending - {id}) == if expired(sessions[id]) then gone + {id} else gone
  {
  }

  lemma NoneReaped(b: Buckets)
    ensures Reaped(b, {}) == b
  {
    NoneGone(b.pre);
    NoneGone(b.auth);
  }

  lemma ReapedStep(b: Buckets, gone: set<Id>, id: Id)
    ensures Removed(Reaped(b, gone), id) == Reaped(b, gone + {id})
  {
    SurvivorsStep(b.pre, gone, id);
    SurvivorsStep(b.auth, gone, id);
  }

  lemma GrowsByOne(m: map<Id, Session>, id: Id, s: Session)
    ensures |m[id := s]| <= |m| + 1
  {
    assert m[id := s].Keys == m.Keys + {id};
    assert |m| == |m.Keys| && |m[id := s]| == |m[id := s].Keys|;
  }

  lemma FewerThan<V>(m: map<Id, V>, id: Id)
    ensures |m - {id}| <= |m|
  {
    if id in m {
      OneLess(m, id);
    } else {
      assert m - {id} == m;
    }
  }

  lemma OneLess<V>(m: map<Id, V>, id: Id)
    requires id in m
    ensures |m| == |m - {id}| + 1
  {
    assert (m - {id}).Keys == m.Keys - {id};
    assert |m| == |m.Keys| && |m - {id}| == |(m - {id}).Keys|;
  }

  lemma SameSize<V, W>(a: map<Id, V>, b: map<Id, W>)
    requires a.Keys == b.Keys
    ensures |a| == |b|
  {
    assert |a| == |a.Keys| && |b| == |b.Keys|;
  }
}
