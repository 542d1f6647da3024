/**
 * Route validation and route selection: internal/config/validate.go, internal/matcher/matcher.go and the
 * Route operation of internal/runtimecfg/generation.go.
 */
module Routing {
  import opened Domain
  import opened Tables
  import opened Polling
  import opened Intake

  /** The fields of a canonical event that routes look at. */
  datatype CanonicalEvent = CanonicalEvent(
    source: string, repository: string, event: string,
    ref: string, status: string, revision: string, externalId: string, trigger: string)

  datatype RouteMatch = RouteMatch(
    source: string, repository: string, event: string,
    ref: Option<string>, status: Option<string>, revision: Option<string>, externalId: Option<string>, trigger: Option<string>)

  datatype RouteAction = RouteAction(kind: string, targets: seq<TargetId>)

  datatype Route = Route(id: string, priority: Option<int>, match_: RouteMatch, action: RouteAction)

  // ----- Matching and overlap -----

  predicate MatchesScalar(p: Option<string>, value: string) { p.None? || p.value == value }

  predicate RouteMatches(m: RouteMatch, e: CanonicalEvent) {
    && m.source == e.source && m.repository == e.repository && m.event == e.event
    && MatchesScalar(m.ref, e.ref) && MatchesScalar(m.status, e.status) && MatchesScalar(m.revision, e.revision)
    && MatchesScalar(m.externalId, e.externalId) && MatchesScalar(m.trigger, e.trigger)
  }

  predicate DomainsOverlap(l: Option<string>, r: Option<string>) { l.None? || r.None? || l.value == r.value }

  predicate Overlaps(l: RouteMatch, r: RouteMatch) {
    && l.source == r.source && l.repository == r.repository && l.event == r.event
    && DomainsOverlap(l.ref, r.ref) && DomainsOverlap(l.status, r.status) && DomainsOverlap(l.revision, r.revision)
    && DomainsOverlap(l.externalId, r.externalId) && DomainsOverlap(l.trigger, r.trigger)
  }

  function Pick(l: Option<string>, r: Option<string>): string {
    if l.Some? then l.value else if r.Some? then r.value else ""
  }

  /** The overlap test is exact: it holds precisely when some event matches both predicates. */
  lemma OverlapMeansCommonEvent(l: RouteMatch, r: RouteMatch)
    ensures Overlaps(l, r) <==> exists e :: RouteMatches(l, e) && RouteMatches(r, e)
  {
    if Overlaps(l, r) {
      var e := CanonicalEvent(l.source, l.repository, l.event, Pick(l.ref, r.ref), Pick(l.status, r.status),
                              Pick(l.revision, r.revision), Pick(l.externalId, r.externalId), Pick(l.trigger, r.trigger));
      assert RouteMatches(l, e) && RouteMatches(r, e);
    }
  }

  // ----- Validation -----

  predicate AlphaNumeric(c: char) { 'a' <= c <= 'z' || 'A' <= c <= 'Z' || '0' <= c <= '9' }

  /** identifierPattern: a letter or digit, then up to 127 letters, digits, dots, underscores or dashes. */
  predicate Identifier(id: string) {
    && 1 <= |id| <= 128 && AlphaNumeric(id[0])
    && forall i | 0 <= i < |id| :: AlphaNumeric(id[i]) || id[i] == '.' || id[i] == '_' || id[i] == '-'
  }

  predicate DistinctIds(ts: seq<TargetId>) { forall i, j | 0 <= i < j < |ts| :: ts[i] != ts[j] }

  predicate ActionOk(a: RouteAction, targets: set<TargetId>) {
    || (a.kind == "record_only" && a.targets == [])
    || (a.kind == "deploy" && a.targets != [] && DistinctIds(a.targets) && forall i | 0 <= i < |a.targets| :: a.targets[i] in targets)
  }

  predicate MatchOk(m: RouteMatch, repositories: map<string, set<string>>, events: set<string>) {
    && Identifier(m.source) && m.source in repositories
    && Identifier(m.repository) && m.repository in repositories[m.source] && m.event in events
  }

  predicate RouteOk(r: Route, repositories: map<string, set<string>>, events: set<string>, targets: set<TargetId>) {
    Identifier(r.id) && r.priority.Some? && MatchOk(r.match_, repositories, events) && ActionOk(r.action, targets)
  }

  /** What an accepted configuration guarantees: sound routes, distinct ids, and no tie any event could run into. */
  ghost predicate Accepted(rs: seq<Route>, repositories: map<string, set<string>>, events: set<string>, targets: set<TargetId>) {
    EachSound(rs, repositories, events, targets) && NoTies(rs)
  }

  ghost predicate NoTies(rs: seq<Route>) {
    forall i, j, e | 0 <= i < j < |rs| && RouteMatches(rs[i].match_, e) && RouteMatches(rs[j].match_, e) ::
      rs[i].priority != rs[j].priority
  }

  method ValidateAction(a: RouteAction, targets: set<TargetId>) returns (ok: bool)
    ensures ok <==> ActionOk(a, targets)
  {
    if a.kind == "record_only" { return |a.targets| == 0; }
    if a.kind != "deploy" || |a.targets| == 0 { return false; }
    var seen: set<TargetId> := {};
    for i := 0 to |a.targets|
      invariant seen == set k | 0 <= k < i :: a.targets[k]
      invariant DistinctIds(a.targets[..i]) && forall k | 0 <= k < i :: a.targets[k] in targets
    {
      if a.targets[i] in seen || a.targets[i] !in targets { return false; }
      seen := seen + {a.targets[i]};
    }
    assert a.targets[..|a.targets|] == a.targets;
    return true;
  }

  ghost predicate PairOk(l: Route, r: Route) { l.priority == r.priority ==> !Overlaps(l.match_, r.match_) }

  lemma PairsAreTies(rs: seq<Route>)
    ensures NoTies(rs) <==> forall i, j | 0 <= i < j < |rs| :: PairOk(rs[i], rs[j])
  {
    forall i, j | 0 <= i < j < |rs|
      ensures PairOk(rs[i], rs[j]) <==>
              forall e | RouteMatches(rs[i].match_, e) && RouteMatches(rs[j].match_, e) :: rs[i].priority != rs[j].priority
    {
      OverlapMeansCommonEvent(rs[i].match_, rs[j].match_);
    }
  }

  ghost predicate EachSound(rs: seq<Route>, repositories: map<string, set<string>>, events: set<string>, targets: set<TargetId>) {
    && (forall i | 0 <= i < |rs| :: RouteOk(rs[i], repositories, events, targets))
    && (forall i, j | 0 <= i < j < |rs| :: rs[i].id != rs[j].id)
  }

  method ValidateEach(rs: seq<Route>, repositories: map<string, set<string>>, events: set<string>, targets: set<TargetId>)
    returns (ok: bool)
    ensures ok <==> EachSound(rs, repositories, events, targets)
  {
    var locations: set<string> := {};
    for i := 0 to |rs|
      invariant locations == set k | 0 <= k < i :: rs[k].id
      invariant forall k | 0 <= k < i :: RouteOk(rs[k], repositories, events, targets)
      invariant forall k, l | 0 <= k < l < i :: rs[k].id != rs[l].id
    {
      if !Identifier(rs[i].id) || rs[i].id in locations { return false; }
      locations := locations + {rs[i].id};
      if rs[i].priority.None? || !MatchOk(rs[i].match_, repositories, events) { return false; }
      var sound := ValidateAction(rs[i].action, targets);
      if !sound { return false; }
    }
    return true;
  }

  /** The loop over all pairs finds a tie exactly when some event could run into one. */
  method ValidatePairs(rs: seq<Route>) returns (ok: bool)
    ensures ok <==> NoTies(rs)
  {
    PairsAreTies(rs);
    for left := 0 to |rs|
      invariant forall i, j | 0 <= i < left && i < j < |rs| :: PairOk(rs[i], rs[j])
    {
      for right := left + 1 to |rs|
        invariant forall j | left < j < right :: PairOk(rs[left], rs[j])
      {
        if rs[left].priority == rs[right].priority && Overlaps(rs[left].match_, rs[right].match_) {
          assert !PairOk(rs[left], rs[right]);
          return false;
        }
      }
    }
    return true;
  }

  /** At most 128 letters, digits, dots, underscores and dashes, the first a letter or digit. */
  predicate WellNamed(id: string) {
    && 0 < |id| <= 128 && id[0] !in {'.', '_', '-'}
    && forall i | 0 <= i < |id| ::
         id[i] in {'.', '_', '-'} || 'a' <= id[i] <= 'z' || 'A' <= id[i] <= 'Z' || '0' <= id[i] <= '9'
  }

  /** Source, repository and event agree, and every further field the route names has the event's value. */
  predicate Fits(r: Route, e: CanonicalEvent) {
    && r.match_.source == e.source && r.match_.repository == e.repository && r.match_.event == e.event
    && (r.match_.ref.Some? ==> r.match_.ref.value == e.ref)
    && (r.match_.status.Some? ==> r.match_.status.value == e.status)
    && (r.match_.revision.Some? ==> r.match_.revision.value == e.revision)
    && (r.match_.externalId.Some? ==> r.match_.externalId.value == e.externalId)
    && (r.match_.trigger.Some? ==> r.match_.trigger.value == e.trigger)
  }

  lemma MatchingIsFitting(r: Route, e: CanonicalEvent)
    ensures RouteMatches(r.match_, e) <==> Fits(r, e)
  {
  }

  /** What a maintainer may configure: everything named exists, ids differ, and no event fits two routes of one priority. */
  ghost predicate SoundConfiguration(rs: seq<Route>, repositories: map<string, set<string>>, events: set<string>, targets: set<TargetId>) {
    && (forall i | 0 <= i < |rs| ::
          && WellNamed(rs[i].id) && rs[i].priority.Some? && WellNamed(rs[i].match_.source) && WellNamed(rs[i].match_.repository)
          && rs[i].match_.source in repositories && rs[i].match_.repository in repositories[rs[i].match_.source]
          && rs[i].match_.event in events && SoundAction(rs[i].action, targets))
    && (forall i, j | 0 <= i < j < |rs| :: rs[i].id != rs[j].id)
    && (forall i, j, e | 0 <= i < j < |rs| && Fits(rs[i], e) && Fits(rs[j], e) :: rs[i].priority != rs[j].priority)
  }

  /** record_only has no targets, deploy at least one, all known and no two the same; there is nothing else. */
  predicate SoundAction(a: RouteAction, targets: set<TargetId>) {
    a.kind in {"record_only", "deploy"} && (a.kind == "record_only" <==> a.targets == [])
    && (forall i | 0 <= i < |a.targets| :: a.targets[i] in targets)
    && (forall i, j | 0 <= i < j < |a.targets| :: a.targets[i] != a.targets[j])
  }

  lemma RouteIsSound(r: Route, repositories: map<string, set<string>>, events: set<string>, targets: set<TargetId>)
    ensures RouteOk(r, repositories, events, targets) <==>
              && WellNamed(r.id) && r.priority.Some? && WellNamed(r.match_.source) && WellNamed(r.match_.repository)
              && r.match_.source in repositories && r.match_.repository in repositories[r.match_.source]
              && r.match_.event in events && SoundAction(r.action, targets)
  {
    NamesAgree(r.id);
    NamesAgree(r.match_.source);
    NamesAgree(r.match_.repository);
    if ActionOk(r.action, targets) { assert SoundAction(r.action, targets); }
  }

  lemma NamesAgree(id: string)
    ensures Identifier(id) <==> WellNamed(id)
  {
    if |id| > 0 {
      assert Identifier(id) ==> AlphaNumeric(id[0]);
      if WellNamed(id) { assert AlphaNumeric(id[0]); }
    }
  }

  lemma AcceptedIsSound(rs: seq<Route>, repositories: map<string, set<string>>, events: set<string>, targets: set<TargetId>)
    ensures Accepted(rs, repositories, events, targets) <==> SoundConfiguration(rs, repositories, events, targets)
  {
    forall i | 0 <= i < |rs|
      ensures RouteOk(rs[i], repositories, events, targets) <==>
              && WellNamed(rs[i].id) && rs[i].priority.Some? && WellNamed(rs[i].match_.source) && WellNamed(rs[i].match_.repository)
              && rs[i].match_.source in repositories && rs[i].match_.repository in repositories[rs[i].match_.source]
              && rs[i].match_.event in events && SoundAction(rs[i].action, targets)
    {
      RouteIsSound(rs[i], repositories, events, targets);
    }
    TiesAreFits(rs);
  }

  lemma TiesAreFits(rs: seq<Route>)
    ensures NoTies(rs) <==> forall i, j, e | 0 <= i < j < |rs| && Fits(rs[i], e) && Fits(rs[j], e) :: rs[i].priority != rs[j].priority
  {
    forall i, e | 0 <= i < |rs| ensures RouteMatches(rs[i].match_, e) <==> Fits(rs[i], e) { MatchingIsFitting(rs[i], e); }
  }

  /** validateRoutes accepts exactly the configurations in which routing cannot be ambiguous. */
  method ValidateRoutes(rs: seq<Route>, repositories: map<string, set<string>>, events: set<string>, targets: set<TargetId>)
    returns (ok: bool)
    ensures ok <==> Accepted(rs, repositories, events, targets)
    ensures ok <==> SoundConfiguration(rs, repositories, events, targets)
  {
    AcceptedIsSound(rs, repositories, events, targets);
    ok := ValidateEach(rs, repositories, events, targets);
    if ok { ok := ValidatePairs(rs); }
  }

  // ----- Canonical order -----

  /** Go's order on strings. */
  predicate Less(a: string, b: string)
    decreases |a|
  {
    b != "" && (a == "" || a[0] < b[0] || (a[0] == b[0] && Less(a[1..], b[1..])))
  }

  lemma {:induction false} LessOrders(a: string, b: string, c: string)
    ensures !Less(a, a) && (a == b || Less(a, b) || Less(b, a))
    ensures Less(a, b) && Less(b, c) ==> Less(a, c)
    decreases |a|
  {
    if a != "" {
      LessOrders(a[1..], if b == "" then "" else b[1..], if c == "" then "" else c[1..]);
      if b != "" && a[0] == b[0] && a[1..] == b[1..] { assert a == [a[0]] + a[1..] && b == [b[0]] + b[1..]; }
    } else if b != "" {
      assert Less(a, b);
    }
  }

  function PriorityOf(r: Route): int { if r.priority.Some? then r.priority.value else 0 }

  predicate Precedes(l: Route, r: Route) {
    PriorityOf(l) < PriorityOf(r) || (PriorityOf(l) == PriorityOf(r) && Less(l.id, r.id))
  }

  lemma PrecedesOrders(x: Route, y: Route, z: Route)
    ensures !Precedes(x, x) && (x.id == y.id || Precedes(x, y) || Precedes(y, x))
    ensures Precedes(x, y) && Precedes(y, z) ==> Precedes(x, z)
  {
    LessOrders(x.id, y.id, z.id);
    LessOrders(x.id, x.id, x.id);
  }

  function InsertRoute(r: Route, rs: seq<Route>): seq<Route> {
    if rs == [] || Precedes(r, rs[0]) then [r] + rs else [rs[0]] + InsertRoute(r, rs[1..])
  }

  /** The routes sorted by priority, then id: what sort.Slice leaves. */
  function Canonical(rs: seq<Route>): seq<Route> {
    if rs == [] then [] else InsertRoute(rs[0], Canonical(rs[1..]))
  }

  ghost predicate Ordered(rs: seq<Route>) { forall i, j | 0 <= i < j < |rs| :: !Precedes(rs[j], rs[i]) }

  lemma {:induction false} InsertMembers(r: Route, rs: seq<Route>)
    ensures multiset(InsertRoute(r, rs)) == multiset(rs) + multiset{r}
  {
    if rs != [] && !Precedes(r, rs[0]) {
      InsertMembers(r, rs[1..]);
      assert rs == [rs[0]] + rs[1..];
    }
  }

  lemma {:induction false} CanonicalMembers(rs: seq<Route>)
    ensures multiset(Canonical(rs)) == multiset(rs)
  {
    if rs != [] {
      CanonicalMembers(rs[1..]);
      InsertMembers(rs[0], Canonical(rs[1..]));
      assert rs == [rs[0]] + rs[1..];
    }
  }

  lemma {:induction false} InsertOrdered(r: Route, rs: seq<Route>)
    requires Ordered(rs)
    ensures Ordered(InsertRoute(r, rs))
  {
    if rs != [] {
      if Precedes(r, rs[0]) {
        forall j | 0 <= j < |rs| ensures !Precedes(rs[j], r) {
          PrecedesOrders(rs[j], r, rs[0]);
          PrecedesOrders(rs[0], rs[0], rs[0]);
        }
      } else {
        InsertOrdered(r, rs[1..]);
        InsertMembers(r, rs[1..]);
        var tail := InsertRoute(r, rs[1..]);
        forall j | 0 <= j < |tail| ensures !Precedes(tail[j], rs[0]) {
          assert tail[j] in multiset(tail);
          if tail[j] != r {
            assert tail[j] in rs[1..];
          }
        }
      }
    }
  }

  lemma {:induction false} CanonicalOrdered(rs: seq<Route>)
    ensures Ordered(Canonical(rs))
  {
    if rs != [] {
      CanonicalOrdered(rs[1..]);
      InsertOrdered(rs[0], Canonical(rs[1..]));
    }
  }

  // ----- Selection -----

  function First(rs: seq<Route>, e: CanonicalEvent): Option<Route> {
    if rs == [] then None
    else if RouteMatches(rs[0].match_, e) then Some(rs[0])
    else First(rs[1..], e)
  }

  method FirstCanonical(rs: seq<Route>, e: CanonicalEvent) returns (r: Option<Route>)
    ensures r == First(rs, e)
  {
    for i := 0 to |rs|
      invariant First(rs, e) == First(rs[i..], e)
    {
      assert rs[i..][0] == rs[i] && rs[i..][1..] == rs[i + 1..];
      if RouteMatches(rs[i].match_, e) { return Some(rs[i]); }
    }
    return None;
  }

  lemma {:induction false} FirstIs(rs: seq<Route>, e: CanonicalEvent)
    ensures First(rs, e).None? ==> forall r | r in rs :: !RouteMatches(r.match_, e)
    ensures First(rs, e).Some? ==>
              exists i :: 0 <= i < |rs| && rs[i] == First(rs, e).value && RouteMatches(rs[i].match_, e)
                && forall k | 0 <= k < i :: !RouteMatches(rs[k].match_, e)
  {
    if rs != [] && !RouteMatches(rs[0].match_, e) {
      FirstIs(rs[1..], e);
      if First(rs[1..], e).Some? {
        var i :| 0 <= i < |rs[1..]| && rs[1..][i] == First(rs, e).value && RouteMatches(rs[1..][i].match_, e)
                 && forall k | 0 <= k < i :: !RouteMatches(rs[1..][k].match_, e);
        assert rs[i + 1] == First(rs, e).value;
        forall k | 0 <= k < i + 1 ensures !RouteMatches(rs[k].match_, e) { if k > 0 { assert rs[k] == rs[1..][k - 1]; } }
      }
      assert rs == [rs[0]] + rs[1..];
    } else if rs != [] {
      assert rs[0] == First(rs, e).value;
    }
  }

  /** r is the one matching route of lowest priority number. */
  ghost predicate Winner(rs: seq<Route>, e: CanonicalEvent, r: Route) {
    && r in rs && Fits(r, e) && r.priority.Some?
    && forall o | o in rs && Fits(o, e) && o != r :: o.priority.Some? && r.priority.value < o.priority.value
  }

  lemma WinnerIsUnique(rs: seq<Route>, e: CanonicalEvent, x: Route, y: Route)
    requires Winner(rs, e, x) && Winner(rs, e, y)
    ensures x == y
  {
  }

  lemma CanonicalSame(rs: seq<Route>, r: Route)
    ensures r in Canonical(rs) <==> r in rs
  {
    CanonicalMembers(rs);
    assert r in multiset(rs) <==> r in multiset(Canonical(rs));
  }

  /** The first match in canonical order wins. */
  lemma FirstWins(rs: seq<Route>, repositories: map<string, set<string>>, events: set<string>, targets: set<TargetId>, e: CanonicalEvent)
    requires Accepted(rs, repositories, events, targets) && First(Canonical(rs), e).Some?
    ensures Winner(rs, e, First(Canonical(rs), e).value)
  {
    var cs := Canonical(rs);
    CanonicalOrdered(rs);
    FirstIs(cs, e);
    var i :| 0 <= i < |cs| && cs[i] == First(cs, e).value && RouteMatches(cs[i].match_, e)
             && forall k | 0 <= k < i :: !RouteMatches(cs[k].match_, e);
    CanonicalSame(rs, cs[i]);
    forall o | o in rs && RouteMatches(o.match_, e) && o != cs[i] ensures PriorityOf(cs[i]) < PriorityOf(o) {
      CanonicalSame(rs, o);
      var k :| 0 <= k < |cs| && cs[k] == o;
      assert i < k && !Precedes(o, cs[i]);
      NoTie(rs, repositories, events, targets, e, cs[i], o);
    }
  }

  /** In an accepted configuration the first match is the unique matching route of lowest priority number. */
  lemma FirstIsWinner(rs: seq<Route>, repositories: map<string, set<string>>, events: set<string>, targets: set<TargetId>, e: CanonicalEvent)
    requires Accepted(rs, repositories, events, targets)
    ensures First(Canonical(rs), e).None? <==> forall r | r in rs :: !RouteMatches(r.match_, e)
    ensures forall r :: First(Canonical(rs), e) == Some(r) <==> Winner(rs, e, r)
  {
    if First(Canonical(rs), e).Some? {
      FirstWins(rs, repositories, events, targets, e);
      forall r | Winner(rs, e, r) ensures First(Canonical(rs), e) == Some(r) {
        WinnerIsUnique(rs, e, r, First(Canonical(rs), e).value);
      }
    } else {
      FirstIs(Canonical(rs), e);
      forall r | r in rs ensures !RouteMatches(r.match_, e) { CanonicalSame(rs, r); }
    }
  }

  lemma NoTie(rs: seq<Route>, repositories: map<string, set<string>>, events: set<string>, targets: set<TargetId>, e: CanonicalEvent, x: Route, y: Route)
    requires Accepted(rs, repositories, events, targets) && x in rs && y in rs && x != y && RouteMatches(x.match_, e) && RouteMatches(y.match_, e)
    ensures PriorityOf(x) != PriorityOf(y)
  {
    var i :| 0 <= i < |rs| && rs[i] == x;
    var j :| 0 <= j < |rs| && rs[j] == y;
    assert RouteOk(rs[i], repositories, events, targets) && RouteOk(rs[j], repositories, events, targets);
    if i < j { assert rs[i].priority != rs[j].priority; } else { assert rs[j].priority != rs[i].priority; }
  }

  /** The order in which routes are configured does not matter. */
  lemma RoutingIgnoresConfiguredOrder(rs: seq<Route>, qs: seq<Route>, repositories: map<string, set<string>>, events: set<string>,
                                      targets: set<TargetId>, e: CanonicalEvent)
    requires Accepted(rs, repositories, events, targets) && Accepted(qs, repositories, events, targets)
    requires multiset(rs) == multiset(qs)
    ensures First(Canonical(rs), e) == First(Canonical(qs), e)
  {
    FirstIsWinner(rs, repositories, events, targets, e);
    FirstIsWinner(qs, repositories, events, targets, e);
    forall r ensures r in rs <==> r in qs { assert r in multiset(rs) <==> r in multiset(qs); }
    if First(Canonical(rs), e).Some? {
      var w := First(Canonical(rs), e).value;
      assert Winner(qs, e, w);
    }
  }

  /** Acceptance itself does not depend on the order either. */
  lemma AcceptanceIgnoresConfiguredOrder(rs: seq<Route>, qs: seq<Route>, repositories: map<string, set<string>>, events: set<string>,
                                         targets: set<TargetId>)
    requires Accepted(rs, repositories, events, targets) && multiset(rs) == multiset(qs)
    ensures Accepted(qs, repositories, events, targets)
  {
    forall i | 0 <= i < |qs| ensures RouteOk(qs[i], repositories, events, targets) && qs[i] in rs {
      assert qs[i] in multiset(qs);
      assert qs[i] in multiset(rs);
    }
    forall i, j | 0 <= i < j < |qs| ensures qs[i].id != qs[j].id && qs[i] != qs[j] {
      TwiceInOneTwiceInOther(rs, qs, i, j);
      assert qs[i] in rs && qs[j] in rs;
    }
    forall i, j, e | 0 <= i < j < |qs| && RouteMatches(qs[i].match_, e) && RouteMatches(qs[j].match_, e)
      ensures qs[i].priority != qs[j].priority
    {
      NoTie(rs, repositories, events, targets, e, qs[i], qs[j]);
    }
  }

  /** Distinct ids mean every route occurs once, in any order. */
  lemma TwiceInOneTwiceInOther(rs: seq<Route>, qs: seq<Route>, i: nat, j: nat)
    requires i < j < |qs| && multiset(rs) == multiset(qs) && forall k, l | 0 <= k < l < |rs| :: rs[k].id != rs[l].id
    ensures qs[i] != qs[j]
  {
    if qs[i] == qs[j] {
      var r := qs[i];
      assert qs == qs[..i] + [r] + qs[i + 1..j] + [r] + qs[j + 1..];
      assert multiset(qs)[r] >= 2;
      OccursOnce(rs, r);
    }
  }

  lemma {:induction false} OccursOnce(rs: seq<Route>, r: Route)
    requires forall k, l | 0 <= k < l < |rs| :: rs[k].id != rs[l].id
    ensures multiset(rs)[r] <= 1
  {
    if rs != [] {
      OccursOnce(rs[1..], r);
      assert rs == [rs[0]] + rs[1..];
      if rs[0] == r {
        assert r !in rs[1..];
        assert r !in multiset(rs[1..]);
      }
    }
  }

  // ----- The decision -----

  datatype Routed = Decided(decision: Decision) | Unroutable

  /** The deliveries of a deploy route; None when a target is missing. */
  function Deliveries(ts: seq<TargetId>, targets: map<TargetId, Target>): Option<seq<NewDelivery>> {
    if ts == [] then Some([])
    else
      var rest := Deliveries(ts[1..], targets);
      if ts[0] !in targets || rest.None? then None else Some([NewDelivery(ts[0], targets[ts[0]].binding)] + rest.value)
  }

  function RouteEvent(rs: seq<Route>, targets: map<TargetId, Target>, e: CanonicalEvent): Routed {
    var rule := First(rs, e);
    if rule.None? then Decided(Decision(Unmatched, []))
    else
      var a := rule.value.action;
      if a.kind == "record_only" then (if a.targets != [] then Unroutable else Decided(Decision(RecordOnly, [])))
      else if a.kind == "deploy" then
        var ds := Deliveries(a.targets, targets);
        if a.targets == [] || ds.None? then Unroutable else Decided(Decision(Deploy, ds.value))
      else Unroutable
  }

  lemma {:induction false} DeliveriesOfKnown(ts: seq<TargetId>, targets: map<TargetId, Target>)
    requires forall i | 0 <= i < |ts| :: ts[i] in targets
    ensures var ds := Deliveries(ts, targets);
            ds.Some? && |ds.value| == |ts| && forall i | 0 <= i < |ts| :: ds.value[i] == NewDelivery(ts[i], targets[ts[i]].binding)
  {
    if ts != [] {
      DeliveriesOfKnown(ts[1..], targets);
      forall i | 0 <= i < |ts| ensures Deliveries(ts, targets).value[i] == NewDelivery(ts[i], targets[ts[i]].binding) {
        if i > 0 { assert ts[i] == ts[1..][i - 1]; }
      }
    }
  }

  /**
   * Routing is total on accepted configurations, and every decision is one the delivery engine expects:
   * deliveries only for deploy, to distinct targets of the generation, bound as the generation binds them.
   */
  lemma RoutingIsTotal(rs: seq<Route>, g: Generation, repositories: map<string, set<string>>, events: set<string>, e: CanonicalEvent)
    requires Accepted(rs, repositories, events, g.targets.Keys)
    ensures RouteEvent(Canonical(rs), g.targets, e).Decided?
    ensures Routes(g, RouteEvent(Canonical(rs), g.targets, e).decision)
  {
    FirstIsWinner(rs, repositories, events, g.targets.Keys, e);
    var rule := First(Canonical(rs), e);
    if rule.Some? {
      assert Winner(rs, e, rule.value);
      var i :| 0 <= i < |rs| && rs[i] == rule.value;
      assert RouteOk(rs[i], repositories, events, g.targets.Keys);
      if rule.value.action.kind == "deploy" { DeliveriesOfKnown(rule.value.action.targets, g.targets); }
    }
  }

  /** What an action says is to be done: nothing, one delivery per target in the order given, or that it cannot be done. */
  ghost predicate Does(a: RouteAction, targets: map<TargetId, Target>, r: Routed) {
    if a.kind == "record_only" && a.targets == [] then r == Decided(Decision(RecordOnly, []))
    else if a.kind == "deploy" && a.targets != [] && forall i | 0 <= i < |a.targets| :: a.targets[i] in targets then
      && r.Decided? && r.decision.result == Deploy && |r.decision.deliveries| == |a.targets|
      && forall i | 0 <= i < |a.targets| ::
           && r.decision.deliveries[i].target == a.targets[i]
           && r.decision.deliveries[i].binding == targets[a.targets[i]].binding
    else r == Unroutable
  }

  /** The i-th route is the first that fits. */
  predicate FirstFit(rs: seq<Route>, e: CanonicalEvent, i: nat) {
    i < |rs| && Fits(rs[i], e) && forall k | 0 <= k < i :: !Fits(rs[k], e)
  }

  lemma {:induction false} DeliveriesOfUnknown(ts: seq<TargetId>, targets: map<TargetId, Target>, i: nat)
    requires i < |ts| && ts[i] !in targets
    ensures Deliveries(ts, targets).None?
  {
    if i > 0 { DeliveriesOfUnknown(ts[1..], targets, i - 1); }
  }

  lemma ActionIsDone(rs: seq<Route>, targets: map<TargetId, Target>, e: CanonicalEvent)
    requires First(rs, e).Some?
    ensures Does(First(rs, e).value.action, targets, RouteEvent(rs, targets, e))
  {
    var a := First(rs, e).value.action;
    if a.kind == "deploy" && a.targets != [] {
      if forall i | 0 <= i < |a.targets| :: a.targets[i] in targets {
        DeliveriesOfKnown(a.targets, targets);
      } else {
        var i :| 0 <= i < |a.targets| && a.targets[i] !in targets;
        DeliveriesOfUnknown(a.targets, targets, i);
      }
    }
  }

  lemma FirstIsFirstFit(rs: seq<Route>, e: CanonicalEvent)
    ensures First(rs, e).None? <==> forall i | 0 <= i < |rs| :: !Fits(rs[i], e)
    ensures forall i: nat | FirstFit(rs, e, i) :: First(rs, e) == Some(rs[i])
  {
    FirstIs(rs, e);
    forall i | 0 <= i < |rs| ensures RouteMatches(rs[i].match_, e) <==> Fits(rs[i], e) { MatchingIsFitting(rs[i], e); }
    if First(rs, e).None? {
      forall i | 0 <= i < |rs| ensures !Fits(rs[i], e) { assert rs[i] in rs; }
    } else {
      var i :| 0 <= i < |rs| && rs[i] == First(rs, e).value && RouteMatches(rs[i].match_, e)
               && forall k | 0 <= k < i :: !RouteMatches(rs[k].match_, e);
      assert FirstFit(rs, e, i);
    }
  }

  /** Route: scan for the rule, then build one delivery per target. */
  method RouteOnce(rs: seq<Route>, targets: map<TargetId, Target>, e: CanonicalEvent) returns (r: Routed)
    ensures r == RouteEvent(rs, targets, e)
    ensures (forall i | 0 <= i < |rs| :: !Fits(rs[i], e)) ==> r == Decided(Decision(Unmatched, []))
    ensures forall i: nat | FirstFit(rs, e, i) :: Does(rs[i].action, targets, r)
  {
    FirstIsFirstFit(rs, e);
    if First(rs, e).Some? { ActionIsDone(rs, targets, e); }
    var rule := FirstCanonical(rs, e);
    if rule.None? { return Decided(Decision(Unmatched, [])); }
    var a := rule.value.action;
    if a.kind == "record_only" {
      if |a.targets| != 0 { return Unroutable; }
      return Decided(Decision(RecordOnly, []));
    }
    if a.kind != "deploy" || |a.targets| == 0 { return Unroutable; }
    var deliveries: seq<NewDelivery> := [];
    assert a.targets[0..] == a.targets;
    assert Deliveries(a.targets, targets).Some? ==> [] + Deliveries(a.targets, targets).value == Deliveries(a.targets, targets).value;
    for i := 0 to |a.targets|
      invariant Deliveries(a.targets, targets) ==
                var rest := Deliveries(a.targets[i..], targets); if rest.None? then None else Some(deliveries + rest.value)
    {
      assert a.targets[i..][0] == a.targets[i] && a.targets[i..][1..] == a.targets[i + 1..];
      if a.targets[i] !in targets { return Unroutable; }
      ghost var rest := Deliveries(a.targets[i + 1..], targets);
      ghost var item := NewDelivery(a.targets[i], targets[a.targets[i]].binding);
      if rest.Some? { assert deliveries + ([item] + rest.value) == (deliveries + [item]) + rest.value; }
      deliveries := deliveries + [NewDelivery(a.targets[i], targets[a.targets[i]].binding)];
    }
    assert deliveries + [] == deliveries;
    return Decided(Decision(Deploy, deliveries));
  }

  /**
   * Route on an accepted configuration, whose routes are kept in canonical order: the winning rule's action is carried
   * out in full, and an event no rule fits is recorded as unmatched.
   */
  method RouteConfigured(rs: seq<Route>, g: Generation, e: CanonicalEvent,
                         ghost repositories: map<string, set<string>>, ghost events: set<string>) returns (d: Decision)
    requires Accepted(rs, repositories, events, g.targets.Keys)
    ensures Routes(g, d)
    ensures (forall r | r in rs :: !Fits(r, e)) ==> d == Decision(Unmatched, [])
    ensures forall r | Winner(rs, e, r) && r.action.kind == "record_only" :: d == Decision(RecordOnly, [])
    ensures forall r | Winner(rs, e, r) && r.action.kind == "deploy" ::
              && d.result == Deploy && |d.deliveries| == |r.action.targets|
              && forall i | 0 <= i < |r.action.targets| ::
                   && r.action.targets[i] in g.targets && d.deliveries[i].target == r.action.targets[i]
                   && d.deliveries[i].binding == g.targets[r.action.targets[i]].binding
  {
    RoutingIsTotal(rs, g, repositories, events, e);
    FirstIsWinner(rs, repositories, events, g.targets.Keys, e);
    if forall r | r in rs :: !Fits(r, e) {
      forall r | r in rs ensures !RouteMatches(r.match_, e) { MatchingIsFitting(r, e); }
    }
    var routed := RouteOnce(Canonical(rs), g.targets, e);
    d := routed.decision;
    forall r | Winner(rs, e, r) ensures Does(r.action, g.targets, routed) && ActionOk(r.action, g.targets.Keys) {
      ActionIsDone(Canonical(rs), g.targets, e);
      var i :| 0 <= i < |rs| && rs[i] == r;
      assert RouteOk(rs[i], repositories, events, g.targets.Keys);
    }
  }
}
