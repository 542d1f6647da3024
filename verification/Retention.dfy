/** Retention pruning of internal/store/retention.go, and what it means regardless of how it is carried out. */
module Retention {
  import opened Domain
  import opened Tables
  import opened Protocol
  import opened Batches
  import opened Columns
  import opened StoreTransactions

  datatype Group = Group(source: string, repository: string)

  // ----- Meaning -----

  /** ORDER BY received_at DESC, id DESC. */
  predicate NewerThan(db: Db, x: Id, y: Id)
    requires x in db.events && y in db.events
  {
    || db.events[x].receivedAt > db.events[y].receivedAt
    || (db.events[x].receivedAt == db.events[y].receivedAt && x > y)
  }

  function NewerIn(db: Db, s: set<Id>, e: Id): set<Id>
    requires s <= db.events.Keys && e in db.events
  {
    set x | x in s && NewerThan(db, x, e)
  }

  /** The newest members of s; a limit of zero or less keeps all of them. */
  function Newest(db: Db, s: set<Id>, limit: int): (r: set<Id>)
    requires s <= db.events.Keys
    ensures r <= s
  {
    if limit <= 0 then s else set e | e in s && |NewerIn(db, s, e)| < limit
  }

  function GroupOf(row: EventRow): Group { Group(row.source, row.repository) }

  /** Events that are neither deferred nor have an active delivery. */
  ghost function Terminal(db: Db): (r: set<Id>)
    requires Schema(db)
    ensures r <= db.events.Keys
  {
    set e | e in db.events && Erasable(db, e)
  }

  function InGroup(db: Db, s: set<Id>, g: Group): set<Id>
    requires s <= db.events.Keys
  {
    set e | e in s && GroupOf(db.events[e]) == g
  }

  datatype Limits = Limits(repositories: map<Group, int>, other: int, total: int)

  function LimitFor(l: Limits, g: Group): int {
    if g in l.repositories then l.repositories[g] else l.other
  }

  /** The terminal events that are among the newest of their own repository. */
  ghost function WithinGroups(db: Db, l: Limits): (r: set<Id>)
    requires Schema(db)
    ensures r <= Terminal(db)
  {
    set e | e in Terminal(db) && e in Newest(db, InGroup(db, Terminal(db), GroupOf(db.events[e])), LimitFor(l, GroupOf(db.events[e])))
  }

  /** The terminal events one pruning keeps. */
  ghost function Kept(db: Db, l: Limits): set<Id>
    requires Schema(db)
  {
    Newest(db, WithinGroups(db, l), l.total)
  }

  ghost function Doomed(db: Db, l: Limits): set<Id>
    requires Schema(db)
  {
    Terminal(db) - Kept(db, l)
  }

  // ----- What the newest are -----

  lemma NewerOrders(db: Db, x: Id, y: Id, z: Id)
    requires x in db.events && y in db.events && z in db.events
    ensures !NewerThan(db, x, x) && (x == y || NewerThan(db, x, y) || NewerThan(db, y, x))
    ensures NewerThan(db, x, y) && NewerThan(db, y, z) ==> NewerThan(db, x, z)
  {
  }

  lemma {:induction false} NewestOne(db: Db, s: set<Id>) returns (m: Id)
    requires s <= db.events.Keys && s != {}
    ensures m in s && forall x | x in s && x != m :: NewerThan(db, m, x)
    decreases |s|
  {
    NonEmpty(s);
    m :| m in s;
    var rest := s - {m};
    if rest != {} {
      var n := NewestOne(db, rest);
      NewerOrders(db, m, n, m);
      forall x | x in rest ensures x == n || NewerThan(db, n, x) {}
      if NewerThan(db, n, m) {
        m := n;
      } else {
        forall x | x in s && x != m ensures NewerThan(db, m, x) { NewerOrders(db, m, n, x); }
      }
    }
  }

  /** Fewer competitors never make an event rank worse. */
  lemma NewerMonotone(db: Db, s: set<Id>, t: set<Id>, e: Id)
    requires s <= t <= db.events.Keys && e in db.events
    ensures |NewerIn(db, s, e)| <= |NewerIn(db, t, e)|
  {
    SubsetSize(NewerIn(db, s, e), NewerIn(db, t, e));
  }

  lemma {:induction false} SubsetSize(s: set<Id>, t: set<Id>)
    requires s <= t
    ensures |s| <= |t| && (|s| == |t| ==> s == t)
    decreases |s|
  {
    if s != {} {
      NonEmpty(s);
      var x :| x in s;
      SubsetSize(s - {x}, t - {x});
      if |s| == |t| { assert s == (s - {x}) + {x} && t == (t - {x}) + {x}; }
    }
  }

  /** Exactly limit events are kept, or all of them if there are fewer. */
  lemma {:induction false} NewestSize(db: Db, s: set<Id>, limit: int)
    requires s <= db.events.Keys && limit > 0
    ensures |Newest(db, s, limit)| == if |s| < limit then |s| else limit
    decreases |s|
  {
    if s == {} {
      assert Newest(db, s, limit) == {};
    } else {
      var m := NewestOne(db, s);
      var rest := s - {m};
      forall e | e in rest ensures |NewerIn(db, s, e)| == |NewerIn(db, rest, e)| + 1 {
        assert NewerIn(db, s, e) == NewerIn(db, rest, e) + {m};
      }
      forall e | e in rest ensures !NewerThan(db, e, m) { NewerOrders(db, m, e, m); }
      NewerOrders(db, m, m, m);
      assert NewerIn(db, s, m) == {};
      if limit == 1 {
        assert Newest(db, s, 1) == {m};
      } else {
        NewestSize(db, rest, limit - 1);
        assert Newest(db, s, limit) == Newest(db, rest, limit - 1) + {m};
      }
    }
  }

  /** Nothing older is kept in place of something newer. */
  lemma NewestIsClosed(db: Db, s: set<Id>, limit: int, x: Id, y: Id)
    requires s <= db.events.Keys && x in s && y in Newest(db, s, limit) && NewerThan(db, x, y)
    ensures x in Newest(db, s, limit)
  {
    forall z | z in NewerIn(db, s, x) ensures z in NewerIn(db, s, y) { NewerOrders(db, z, x, y); }
    SubsetSize(NewerIn(db, s, x), NewerIn(db, s, y));
  }

  // ----- Deleting -----

  lemma RemoveTwice(db: Db, a: set<Id>, b: set<Id>)
    requires DbOk(db) && (forall e | e in a && e in db.events :: !db.events[e].routing.Deferred?)
    ensures DbOk(Remove(db, a)) && Remove(Remove(db, a), b) == Remove(db, a + b)
  {
    RemoveOk(db, a);
    var once, both := Remove(Remove(db, a), b), Remove(db, a + b);
    assert once.events == both.events;
    assert once.deliveries == both.deliveries;
    assert once.audit == both.audit;
    RemovedAttempts(db, a, b);
  }

  lemma RemovedAttempts(db: Db, a: set<Id>, b: set<Id>)
    requires DbOk(db) && DbOk(Remove(db, a))
    ensures Remove(Remove(db, a), b).attempts == Remove(db, a + b).attempts
  {
    var db1 := Remove(db, a);
    forall x | x in db.attempts
      ensures x in Remove(db1, b).attempts <==> x in Remove(db, a + b).attempts
    {
      if x in db1.attempts { assert db1.attempts[x].delivery in db1.deliveries; }
    }
  }

  /** Deleting terminal events changes nothing about the others. */
  lemma RemoveKeepsTerminal(db: Db, a: set<Id>)
    requires DbOk(db) && a <= Terminal(db)
    ensures DbOk(Remove(db, a)) && Terminal(Remove(db, a)) == Terminal(db) - a
  {
    RemoveOk(db, a);
    var db' := Remove(db, a);
    forall e | e in db'.events ensures Erasable(db', e) <==> Erasable(db, e) {
      ErasableKept(db, a, e);
    }
  }

  lemma ErasableKept(db: Db, a: set<Id>, e: Id)
    requires DbOk(db) && DbOk(Remove(db, a)) && e in db.events && e !in a
    requires forall d | d in Remove(db, a).deliveries :: Cur(Remove(db, a), d) == Cur(db, d)
    ensures Erasable(Remove(db, a), e) <==> Erasable(db, e)
  {
    var db' := Remove(db, a);
    forall d | d in db.deliveries && db.deliveries[d].event == e
      ensures d in db'.deliveries && db'.deliveries[d] == db.deliveries[d] && (ActiveDelivery(db', d) <==> ActiveDelivery(db, d))
    {
    }
    forall d | d in db'.deliveries && db'.deliveries[d].event == e
      ensures d in db.deliveries && db'.deliveries[d] == db.deliveries[d] && (ActiveDelivery(db', d) <==> ActiveDelivery(db, d))
    {
    }
  }

  lemma RemoveKeepsNewest(db: Db, a: set<Id>, s: set<Id>, limit: int)
    requires Schema(db) && s <= db.events.Keys && s !! a
    ensures s <= Remove(db, a).events.Keys && Newest(Remove(db, a), s, limit) == Newest(db, s, limit)
  {
    var db' := Remove(db, a);
    forall e | e in s ensures NewerIn(db', s, e) == NewerIn(db, s, e) {
      assert forall x | x in s :: db'.events[x] == db.events[x] && db'.events[e] == db.events[e];
    }
  }

  // ----- Theorems about the meaning -----

  /** A second pruning with the same limits deletes nothing. */
  lemma PruningIsIdempotent(db: Db, l: Limits)
    requires DbOk(db)
    ensures Doomed(db, l) <= Terminal(db) && DbOk(Remove(db, Doomed(db, l)))
    ensures Doomed(Remove(db, Doomed(db, l)), l) == {}
  {
    var db' := Remove(db, Doomed(db, l));
    var kept := Kept(db, l);
    RemoveKeepsTerminal(db, Doomed(db, l));
    assert Terminal(db') == kept;
    forall e | e in kept ensures e in WithinGroups(db', l) { StillWithinGroup(db, l, e); }
    assert WithinGroups(db', l) == kept;
    forall e | e in kept ensures e in Kept(db', l) {
      if l.total > 0 { StillNewest(db, l, e); }
    }
  }

  lemma StillWithinGroup(db: Db, l: Limits, e: Id)
    requires DbOk(db) && e in Kept(db, l)
    requires var db' := Remove(db, Doomed(db, l)); DbOk(db') && Terminal(db') == Kept(db, l)
    ensures e in WithinGroups(Remove(db, Doomed(db, l)), l)
  {
    var db' := Remove(db, Doomed(db, l));
    var kept := Kept(db, l);
    var g := GroupOf(db.events[e]);
    assert db'.events[e] == db.events[e];
    assert InGroup(db', kept, g) <= InGroup(db, Terminal(db), g);
    NewerMonotone(db, InGroup(db', kept, g), InGroup(db, Terminal(db), g), e);
    RemoveKeepsNewest(db, Doomed(db, l), InGroup(db', kept, g), LimitFor(l, g));
  }

  lemma StillNewest(db: Db, l: Limits, e: Id)
    requires DbOk(db) && e in Kept(db, l) && l.total > 0
    requires var db' := Remove(db, Doomed(db, l)); DbOk(db') && WithinGroups(db', l) == Kept(db, l)
    ensures e in Kept(Remove(db, Doomed(db, l)), l)
  {
    NewerMonotone(db, Kept(db, l), WithinGroups(db, l), e);
    RemoveKeepsNewest(db, Doomed(db, l), Kept(db, l), l.total);
  }

  /** What survives: everything active or deferred, and never more terminal events than the limits allow. */
  lemma PruningRespectsLimits(db: Db, l: Limits, g: Group)
    requires DbOk(db)
    ensures forall e | e in db.events && !Erasable(db, e) :: e !in Doomed(db, l)
    ensures l.total > 0 ==> |Kept(db, l)| <= l.total
    ensures LimitFor(l, g) > 0 ==> |InGroup(db, Kept(db, l), g)| <= LimitFor(l, g)
    ensures l.total <= 0 && (forall h: Group :: LimitFor(l, h) <= 0) ==> Doomed(db, l) == {}
  {
    if l.total > 0 { NewestSize(db, WithinGroups(db, l), l.total); }
    if LimitFor(l, g) > 0 {
      NewestSize(db, InGroup(db, Terminal(db), g), LimitFor(l, g));
      SubsetSize(InGroup(db, Kept(db, l), g), Newest(db, InGroup(db, Terminal(db), g), LimitFor(l, g)));
    }
  }

  // ----- Carrying it out -----

  /** The rows of a set, newest first. */
  ghost predicate NewestFirst(db: Db, s: set<Id>, rows: seq<Id>)
    requires s <= db.events.Keys
  {
    && (forall e :: e in rows <==> e in s)
    && forall i, j | 0 <= i < j < |rows| :: rows[i] in s && rows[j] in s && NewerThan(db, rows[i], rows[j])
  }

  /** The k-th row has exactly k newer ones. */
  lemma {:induction false} RankIsIndex(db: Db, s: set<Id>, rows: seq<Id>, k: nat)
    requires s <= db.events.Keys && NewestFirst(db, s, rows) && k < |rows|
    ensures rows[k] in s && |NewerIn(db, s, rows[k])| == k
  {
    var before := rows[..k];
    assert rows[k] in rows;
    forall x | x in NewerIn(db, s, rows[k]) ensures x in before {
      assert x in rows;
      var i :| 0 <= i < |rows| && rows[i] == x;
      NewerOrders(db, x, rows[k], x);
      assert i < k;
      assert before[i] == x;
    }
    forall x | x in before ensures x in NewerIn(db, s, rows[k]) {
      var i :| 0 <= i < k && before[i] == x;
      assert rows[i] == x;
    }
    forall i, j | 0 <= i < j < |before| ensures before[i] != before[j] { NewerOrders(db, rows[i], rows[j], rows[i]); }
    DistinctSize(before);
    assert NewerIn(db, s, rows[k]) == SetOf(before);
  }

  lemma {:induction false} DistinctSize(rows: seq<Id>)
    requires Distinct(rows)
    ensures |SetOf(rows)| == |rows|
    decreases |rows|
  {
    if rows != [] {
      var last := rows[|rows| - 1];
      var rest := rows[..|rows| - 1];
      DistinctSize(rest);
      assert rows == rest + [last];
      assert SetOf(rows) == SetOf(rest) + {last};
      assert last !in rest;
    }
  }

  function SetOf(rows: seq<Id>): set<Id> { set e | e in rows }

  /** SELECT ... ORDER BY ... LIMIT -1 OFFSET: the rows come newest first, the first ones are skipped. */
  method SelectAfter(store: Store, scope: set<Id>, offset: nat) returns (ids: seq<Id>)
    requires scope <= store.events.Keys
    ensures Distinct(ids)
    ensures forall e :: e in ids <==> e in scope && |NewerIn(store.View(), scope, e)| >= offset
  {
    ghost var db := store.View();
    var rows: seq<Id> := [];
    var rest := scope;
    while rest != {}
      invariant rest <= scope && NewestFirst(db, scope - rest, rows)
      invariant forall x, y | x in rest && y in rows :: y in scope && NewerThan(db, y, x)
      decreases |rest|
    {
      ghost var m := NewestOne(db, rest);
      assert exists e :: e in rest && forall x | x in rest && x != e :: NewerThan(db, e, x);
      var e :| e in rest && forall x | x in rest && x != e :: NewerThan(store.View(), e, x);
      rows, rest := rows + [e], rest - {e};
    }
    assert scope - rest == scope;
    forall i, j | 0 <= i < j < |rows| ensures rows[i] != rows[j] { NewerOrders(db, rows[i], rows[j], rows[i]); }
    ids := if offset <= |rows| then rows[offset..] else [];
    SkippedRows(db, scope, rows, offset, ids);
  }

  lemma SkippedRows(db: Db, s: set<Id>, rows: seq<Id>, offset: nat, ids: seq<Id>)
    requires s <= db.events.Keys && NewestFirst(db, s, rows) && ids == if offset <= |rows| then rows[offset..] else []
    ensures forall e :: e in ids <==> e in s && |NewerIn(db, s, e)| >= offset
  {
    forall e | e in ids ensures e in s && |NewerIn(db, s, e)| >= offset {
      var i :| 0 <= i < |ids| && ids[i] == e;
      RankIsIndex(db, s, rows, offset + i);
    }
    forall e | e in s && |NewerIn(db, s, e)| >= offset ensures e in ids {
      assert e in rows;
      var k :| 0 <= k < |rows| && rows[k] == e;
      RankIsIndex(db, s, rows, k);
      assert ids[k - offset] == e;
    }
  }

  /** DELETE FROM events WHERE id = ?, with the cascades of the schema. */
  method DeleteEvent(store: Store, e: Id) returns (count: nat)
    requires store.Valid() && (e in store.events ==> !store.events[e].routing.Deferred?)
    modifies store
    ensures store.Valid() && store.View() == Remove(old(store.View()), {e}) && Gone(old(store.View()), {e}, store.View())
    ensures count == if e in old(store.events) then 1 else 0
  {
    RemoveOk(store.View(), {e});
    RemoveIsGone(store.View(), {e});
    count := if e in store.events then 1 else 0;
    var gone := Remove(store.View(), {e});
    store.events := gone.events;
    store.deliveries := gone.deliveries;
    store.attempts := gone.attempts;
    store.audit := gone.audit;
  }

  /** deleteRetentionEvents: one DELETE per id, each counted when it removed a row. */
  method DeleteEvents(store: Store, ids: seq<Id>) returns (count: nat)
    requires store.Valid() && Distinct(ids)
    requires forall e | e in ids :: e in store.events && !store.events[e].routing.Deferred?
    modifies store
    ensures store.Valid() && store.View() == Remove(old(store.View()), SetOf(ids))
    ensures count == |ids|
  {
    ghost var db := store.View();
    count := 0;
    RemoveNothing(db);
    assert SetOf(ids[..0]) == {};
    for i := 0 to |ids|
      invariant store.Valid() && store.View() == Remove(db, SetOf(ids[..i])) && count == i
    {
      DeleteNext(db, ids, i);
      var n := DeleteEvent(store, ids[i]);
      count := count + n;
    }
    assert ids[..|ids|] == ids;
  }

  lemma RemoveNothing(db: Db)
    requires DbOk(db)
    ensures Remove(db, {}) == db
  {
    var db' := Remove(db, {});
    assert db'.events == db.events && db'.deliveries == db.deliveries && db'.attempts == db.attempts;
    assert db'.audit == db.audit;
  }

  lemma DeleteNext(db: Db, ids: seq<Id>, i: nat)
    requires DbOk(db) && Distinct(ids) && i < |ids| && forall e | e in ids :: e in db.events && !db.events[e].routing.Deferred?
    ensures var db1 := Remove(db, SetOf(ids[..i]));
            && ids[i] in db1.events && !db1.events[ids[i]].routing.Deferred? && DbOk(db1)
            && Remove(db1, {ids[i]}) == Remove(db, SetOf(ids[..i + 1]))
  {
    assert ids[i] in ids && ids[i] !in ids[..i];
    assert ids[i] !in SetOf(ids[..i]);
    assert forall e | e in SetOf(ids[..i]) :: e in ids;
    RemoveTwice(db, SetOf(ids[..i]), {ids[i]});
    assert SetOf(ids[..i]) + {ids[i]} == SetOf(ids[..i + 1]);
  }

  /** The WHERE clause shared by both passes. */
  method TerminalEvents(store: Store) returns (s: set<Id>)
    requires store.Valid()
    ensures s == Terminal(store.View())
  {
    s := set e | e in store.events && !store.events[e].routing.Deferred?
                 && forall d | d in store.deliveries && store.deliveries[d].event == e ::
                      !Active(store.attempts[store.deliveries[d].current].status);
    ghost var db := store.View();
    forall e | e in db.events ensures e in s <==> Erasable(db, e) {
    }
  }

  /** What the passes over the first i groups delete. */
  ghost function Beyond(db: Db, l: Limits, groups: seq<Group>, i: nat): (r: set<Id>)
    requires Schema(db) && i <= |groups|
    ensures r <= Terminal(db)
  {
    set e | e in Terminal(db) && GroupOf(db.events[e]) in groups[..i] && e !in WithinGroups(db, l)
  }

  ghost predicate DistinctGroups(groups: seq<Group>) {
    forall i, j | 0 <= i < j < |groups| :: groups[i] != groups[j]
  }

  lemma GroupScope(db: Db, l: Limits, groups: seq<Group>, i: nat)
    requires DbOk(db) && DistinctGroups(groups) && i < |groups|
    ensures var db1 := Remove(db, Beyond(db, l, groups, i));
            && DbOk(db1) && Terminal(db1) <= Terminal(db)
            && InGroup(db1, Terminal(db1), groups[i]) == InGroup(db, Terminal(db), groups[i])
  {
    RemoveKeepsTerminal(db, Beyond(db, l, groups, i));
    assert groups[i] !in groups[..i];
  }

  /** Deleting what exceeds the limit of one more group. */
  lemma GroupPass(db: Db, l: Limits, groups: seq<Group>, i: nat, gone: set<Id>)
    requires DbOk(db) && DistinctGroups(groups) && i < |groups|
    requires var s := InGroup(db, Terminal(db), groups[i]); gone == s - Newest(db, s, LimitFor(l, groups[i]))
    ensures Beyond(db, l, groups, i + 1) == Beyond(db, l, groups, i) + gone && Beyond(db, l, groups, i) !! gone
    ensures Remove(Remove(db, Beyond(db, l, groups, i)), gone) == Remove(db, Beyond(db, l, groups, i + 1))
  {
    var g := groups[i];
    assert groups[..i + 1] == groups[..i] + [g] && g !in groups[..i];
    assert Beyond(db, l, groups, i + 1) == Beyond(db, l, groups, i) + gone;
    RemoveTwice(db, Beyond(db, l, groups, i), gone);
  }

  /** What terminalEventIDsAfter selects, said without ranks. */
  lemma SelectedIsRest(db: Db, s: set<Id>, limit: int, gone: set<Id>)
    requires s <= db.events.Keys && limit > 0 && forall e :: e in gone <==> e in s && |NewerIn(db, s, e)| >= limit
    ensures gone == s - Newest(db, s, limit)
  {
    var newest := Newest(db, s, limit);
    forall e ensures e in gone <==> e in s - newest {
      if e in s { assert e in newest <==> |NewerIn(db, s, e)| < limit; }
    }
  }

  /** One group of the first pass. */
  method PruneGroup(store: Store, g: Group, limit: int) returns (ids: seq<Id>)
    requires store.Valid()
    modifies store
    ensures store.Valid() && Distinct(ids)
    ensures var db := old(store.View()); var s := InGroup(db, Terminal(db), g);
            && (forall e :: e in ids <==> e in s - Newest(db, s, limit))
            && store.View() == Remove(db, s - Newest(db, s, limit))
  {
    ids := [];
    ghost var db := store.View();
    if limit <= 0 {
      RemoveNothing(db);
      assert forall s: set<Id> :: s - s == {};
      return;
    }
    var terminal := TerminalEvents(store);
    var scope := set e | e in terminal && GroupOf(store.events[e]) == g;
    assert scope == InGroup(db, Terminal(db), g);
    ids := PruneScope(store, scope, limit);
  }

  /** Deletes all but the newest of a set of terminal events. */
  method PruneScope(store: Store, scope: set<Id>, limit: int) returns (ids: seq<Id>)
    requires store.Valid() && scope <= Terminal(store.View()) && limit > 0
    modifies store
    ensures store.Valid() && Distinct(ids)
    ensures var db := old(store.View());
            && (forall e :: e in ids <==> e in scope - Newest(db, scope, limit))
            && store.View() == Remove(db, scope - Newest(db, scope, limit))
  {
    ghost var db := store.View();
    ids := SelectAfter(store, scope, limit);
    SelectedIsRest(db, scope, limit, SetOf(ids));
    forall e | e in ids ensures e in store.events && !store.events[e].routing.Deferred? { assert Erasable(db, e); }
    var count := DeleteEvents(store, ids);
  }

  /** The passes over the groups, in whatever order they come, and the global pass leave exactly the declared set. */
  method PruneInOrder(store: Store, groups: seq<Group>, l: Limits) returns (deleted: nat, ids: seq<Id>)
    requires store.Valid() && DistinctGroups(groups)
    requires forall e | e in store.events :: GroupOf(store.events[e]) in groups
    modifies store
    ensures store.Valid() && store.View() == Remove(old(store.View()), Doomed(old(store.View()), l))
    ensures Distinct(ids) && (forall e :: e in ids <==> e in Doomed(old(store.View()), l))
    ensures deleted == |ids| == |Doomed(old(store.View()), l)|
  {
    ghost var db := store.View();
    ids := PruneGroups(store, groups, l);
    AfterGroups(db, l, groups);
    if l.total > 0 {
      var more := PruneAll(store, l.total, db, l, groups);
      AppendDistinct(ids, more, Beyond(db, l, groups, |groups|), WithinGroups(db, l) - Kept(db, l));
      ids := ids + more;
    }
    deleted := |ids|;
    ListedSize(ids, Doomed(db, l));
  }

  lemma ListedSize(ids: seq<Id>, s: set<Id>)
    requires Distinct(ids) && forall e :: e in ids <==> e in s
    ensures |ids| == |s|
  {
    DistinctSize(ids);
    assert SetOf(ids) == s;
  }

  /** The global pass, on what the group passes left of db. */
  method PruneAll(store: Store, limit: int, ghost db: Db, ghost l: Limits, ghost groups: seq<Group>) returns (ids: seq<Id>)
    requires store.Valid() && DbOk(db) && limit == l.total > 0
    requires store.View() == Remove(db, Beyond(db, l, groups, |groups|)) && Terminal(store.View()) == WithinGroups(db, l)
    requires Beyond(db, l, groups, |groups|) == Terminal(db) - WithinGroups(db, l)
    modifies store
    ensures store.Valid() && store.View() == Remove(db, Doomed(db, l))
    ensures Distinct(ids) && forall e :: e in ids <==> e in WithinGroups(db, l) - Kept(db, l)
    ensures Doomed(db, l) == Beyond(db, l, groups, |groups|) + (WithinGroups(db, l) - Kept(db, l))
  {
    var terminal := TerminalEvents(store);
    AfterGlobal(db, l, groups, store.View());
    ids := PruneScope(store, terminal, limit);
  }

  method PruneGroups(store: Store, groups: seq<Group>, l: Limits) returns (ids: seq<Id>)
    requires store.Valid() && DistinctGroups(groups)
    modifies store
    ensures store.Valid() && store.View() == Remove(old(store.View()), Beyond(old(store.View()), l, groups, |groups|))
    ensures Distinct(ids) && forall e :: e in ids <==> e in Beyond(old(store.View()), l, groups, |groups|)
  {
    ghost var db := store.View();
    ids := [];
    RemoveNothing(db);
    assert Beyond(db, l, groups, 0) == {};
    for i := 0 to |groups|
      invariant store.Valid() && store.View() == Remove(db, Beyond(db, l, groups, i))
      invariant Distinct(ids) && forall e :: e in ids <==> e in Beyond(db, l, groups, i)
    {
      GroupScope(db, l, groups, i);
      ghost var s := InGroup(db, Terminal(db), groups[i]);
      RemoveKeepsNewest(db, Beyond(db, l, groups, i), s, LimitFor(l, groups[i]));
      GroupPass(db, l, groups, i, s - Newest(db, s, LimitFor(l, groups[i])));
      var more := PruneGroup(store, groups[i], LimitFor(l, groups[i]));
      AppendDistinct(ids, more, Beyond(db, l, groups, i), s - Newest(db, s, LimitFor(l, groups[i])));
      ids := ids + more;
    }
  }

  lemma AppendDistinct(xs: seq<Id>, ys: seq<Id>, s: set<Id>, t: set<Id>)
    requires Distinct(xs) && Distinct(ys) && s !! t && (forall e :: e in xs <==> e in s) && (forall e :: e in ys <==> e in t)
    ensures Distinct(xs + ys) && forall e :: e in xs + ys <==> e in s + t
  {
    forall i, j | 0 <= i < j < |xs + ys| ensures (xs + ys)[i] != (xs + ys)[j] {
      if i < |xs| <= j {
        assert xs[i] in xs && ys[j - |xs|] in ys;
        assert xs[i] in s && ys[j - |xs|] in t;
      }
    }
  }

  /** After the group passes exactly the events within their groups' limits are left. */
  lemma AfterGroups(db: Db, l: Limits, groups: seq<Group>)
    requires DbOk(db) && forall e | e in db.events :: GroupOf(db.events[e]) in groups
    ensures Beyond(db, l, groups, |groups|) == Terminal(db) - WithinGroups(db, l)
    ensures DbOk(Remove(db, Beyond(db, l, groups, |groups|)))
    ensures Terminal(Remove(db, Beyond(db, l, groups, |groups|))) == WithinGroups(db, l)
    ensures l.total <= 0 ==> Doomed(db, l) == Beyond(db, l, groups, |groups|)
  {
    assert groups[..|groups|] == groups;
    RemoveKeepsTerminal(db, Beyond(db, l, groups, |groups|));
  }

  lemma AfterGlobal(db: Db, l: Limits, groups: seq<Group>, db1: Db)
    requires DbOk(db) && l.total > 0 && db1 == Remove(db, Beyond(db, l, groups, |groups|)) && Schema(db1)
    requires Beyond(db, l, groups, |groups|) == Terminal(db) - WithinGroups(db, l)
    ensures WithinGroups(db, l) <= db1.events.Keys
    ensures Newest(db1, WithinGroups(db, l), l.total) == Kept(db, l)
    ensures Remove(db1, WithinGroups(db, l) - Kept(db, l)) == Remove(db, Doomed(db, l))
    ensures Doomed(db, l) == Beyond(db, l, groups, |groups|) + (WithinGroups(db, l) - Kept(db, l))
  {
    RemoveKeepsNewest(db, Beyond(db, l, groups, |groups|), WithinGroups(db, l), l.total);
    assert Doomed(db, l) == Beyond(db, l, groups, |groups|) + (WithinGroups(db, l) - Kept(db, l));
    RemoveTwice(db, Beyond(db, l, groups, |groups|), WithinGroups(db, l) - Kept(db, l));
  }

  /** SELECT DISTINCT source_id, repository_id FROM events. */
  method RetentionGroups(store: Store) returns (groups: seq<Group>)
    ensures DistinctGroups(groups)
    ensures forall e | e in store.events :: GroupOf(store.events[e]) in groups
    ensures forall g | g in groups :: exists e :: e in store.events && GroupOf(store.events[e]) == g
  {
    groups := [];
    var rows := Enumerate(store.events.Keys);
    for i := 0 to |rows|
      invariant DistinctGroups(groups)
      invariant forall k | 0 <= k < i :: rows[k] in store.events && GroupOf(store.events[rows[k]]) in groups
      invariant forall g | g in groups :: exists e :: e in store.events && GroupOf(store.events[e]) == g
    {
      assert rows[i] in rows;
      var g := GroupOf(store.events[rows[i]]);
      if g !in groups { groups := groups + [g]; }
    }
    forall e | e in store.events ensures GroupOf(store.events[e]) in groups { assert e in rows; }
  }

  // ----- What a maintainer sees -----

  /** Routed, and nothing of it is still going on. */
  ghost predicate Finished(db: Db, e: Id)
    requires Schema(db)
  {
    && e in db.events && db.events[e].routing != Deferred
    && forall d | d in db.deliveries && db.deliveries[d].event == e :: !Unfinished(Cur(db, d))
  }

  /** x came in after y; of two that came in together the one with the greater id counts as later. */
  predicate Later(db: Db, x: Id, y: Id)
    requires x in db.events && y in db.events
  {
    db.events[x].receivedAt > db.events[y].receivedAt || (db.events[x].receivedAt == db.events[y].receivedAt && x > y)
  }

  /** The finished events of e's repository that came in after e. */
  ghost function LaterInGroup(db: Db, e: Id): set<Id>
    requires Schema(db) && e in db.events
  {
    set x | x in db.events && Finished(db, x) && db.events[x].source == db.events[e].source
            && db.events[x].repository == db.events[e].repository && Later(db, x, e)
  }

  /** Enough later events of its own repository push e out. */
  ghost predicate OverGroupLimit(db: Db, l: Limits, e: Id)
    requires Schema(db) && e in db.events
  {
    var g := Group(db.events[e].source, db.events[e].repository);
    var limit := if g in l.repositories then l.repositories[g] else l.other;
    limit > 0 && |LaterInGroup(db, e)| >= limit
  }

  /** The later events that their own repositories keep. */
  ghost function LaterKept(db: Db, l: Limits, e: Id): set<Id>
    requires Schema(db) && e in db.events
  {
    set x | x in db.events && Finished(db, x) && !OverGroupLimit(db, l, x) && Later(db, x, e)
  }

  ghost predicate OverTotalLimit(db: Db, l: Limits, e: Id)
    requires Schema(db) && e in db.events
  {
    l.total > 0 && |LaterKept(db, l, e)| >= l.total
  }

  /** es are gone with everything that hangs off them; all other rows are as they were. */
  ghost predicate Gone(db: Db, es: set<Id>, db': Db)
    requires Schema(db)
  {
    && (forall e :: e in db'.events <==> e in db.events && e !in es) && (forall e | e in db'.events :: db'.events[e] == db.events[e])
    && (forall d :: d in db'.deliveries <==> d in db.deliveries && db.deliveries[d].event !in es)
    && (forall d | d in db'.deliveries :: db'.deliveries[d] == db.deliveries[d] && d in db'.audit && db'.audit[d] == db.audit[d])
    && (forall a :: a in db'.attempts <==> a in db.attempts && db.deliveries[db.attempts[a].delivery].event !in es)
    && (forall a | a in db'.attempts :: db'.attempts[a] == db.attempts[a])
    && db'.queue == db.queue && db'.nextSeq == db.nextSeq
  }

  lemma RemoveIsGone(db: Db, es: set<Id>)
    requires Schema(db)
    ensures Gone(db, es, Remove(db, es))
  {
  }

  lemma TerminalIsFinished(db: Db, e: Id)
    requires Schema(db)
    ensures e in Terminal(db) <==> Finished(db, e)
  {
    forall d | d in db.deliveries ensures ActiveDelivery(db, d) <==> Unfinished(Cur(db, d)) {}
  }

  lemma WithinIsNotOver(db: Db, l: Limits, e: Id)
    requires Schema(db) && e in Terminal(db)
    ensures e in WithinGroups(db, l) <==> !OverGroupLimit(db, l, e)
  {
    forall x ensures x in Terminal(db) <==> Finished(db, x) { TerminalIsFinished(db, x); }
    var s := InGroup(db, Terminal(db), GroupOf(db.events[e]));
    assert NewerIn(db, s, e) == LaterInGroup(db, e);
  }

  lemma DoomedIsOver(db: Db, l: Limits, e: Id)
    requires Schema(db)
    ensures e in Doomed(db, l) <==> e in db.events && Finished(db, e) && (OverGroupLimit(db, l, e) || OverTotalLimit(db, l, e))
  {
    TerminalIsFinished(db, e);
    if e in Terminal(db) {
      WithinIsNotOver(db, l, e);
      forall x | x in db.events ensures x in WithinGroups(db, l) <==> Finished(db, x) && !OverGroupLimit(db, l, x) {
        TerminalIsFinished(db, x);
        if x in Terminal(db) { WithinIsNotOver(db, l, x); }
      }
      assert NewerIn(db, WithinGroups(db, l), e) == LaterKept(db, l, e);
    }
  }

  /** Exactly the finished events that a limit pushes out are gone and listed. */
  ghost predicate PrunePass(db: Db, l: Limits, ids: seq<Id>, db': Db)
    requires Schema(db)
  {
    && Gone(db, SetOf(ids), db')
    && forall e :: e in ids <==> e in db.events && Finished(db, e) && (OverGroupLimit(db, l, e) || OverTotalLimit(db, l, e))
  }

  lemma PrunedIsPass(db: Db, l: Limits, ids: seq<Id>)
    requires Schema(db) && forall e :: e in ids <==> e in Doomed(db, l)
    ensures PrunePass(db, l, ids, Remove(db, Doomed(db, l)))
  {
    var doomed := Doomed(db, l);
    forall e ensures e in SetOf(ids) <==> e in doomed { assert e in ids <==> e in doomed; }
    assert SetOf(ids) == doomed;
    RemoveIsGone(db, doomed);
    forall e ensures e in Doomed(db, l) <==>
                     e in db.events && Finished(db, e) && (OverGroupLimit(db, l, e) || OverTotalLimit(db, l, e))
    {
      DoomedIsOver(db, l, e);
    }
  }

  /** Prune; the result lists exactly the deleted events. */
  method Prune(store: Store, l: Limits) returns (deleted: nat, ids: seq<Id>)
    requires store.Valid()
    modifies store
    ensures store.Valid() && store.View() == Remove(old(store.View()), Doomed(old(store.View()), l))
    ensures Distinct(ids) && (forall e :: e in ids <==> e in Doomed(old(store.View()), l))
    ensures deleted == |ids| == |Doomed(old(store.View()), l)|
    ensures PrunePass(old(store.View()), l, ids, store.View())
  {
    ghost var db := store.View();
    var groups := RetentionGroups(store);
    deleted, ids := PruneInOrder(store, groups, l);
    PrunedIsPass(db, l, ids);
  }
}
