/**
 * Correlation with the remote deployment history of internal/dokploy/client.go.
 * A history is a newest-first sequence of entries; the HTTP exchange that delivers it is not modelled.
 */
module Correlation {
  import opened Domain
  import opened Tables

  /** One whitespace-separated field of a deployment description. */
  datatype Word = AttemptToken(attempt: Id) | Text(text: string)

  datatype Entry = Entry(id: DeploymentId, description: Option<seq<Word>>, status: Option<string>)

  type History = seq<Entry>

  datatype Lookup = LookupFailed | NotFound | Found(entry: Entry) | Ambiguous | CursorMissing

  predicate MatchesAttempt(e: Entry, a: Id) {
    e.description.Some? && AttemptToken(a) in e.description.value
  }

  /** By deployment id once one is bound, by attempt token before. */
  predicate Matches(e: Entry, a: Id, bound: Option<DeploymentId>) {
    if bound.Some? then e.id == bound.value else MatchesAttempt(e, a)
  }

  /** An entry without an id makes the walk fail as soon as it is reached. */
  predicate Readable(h: History) {
    forall i | 0 <= i < |h| :: h[i].id != ""
  }

  // ----- Specification -----

  /** The exclusive boundary a send records: the newest id, or the empty string. */
  function LatestId(h: History): DeploymentId { if h == [] then "" else h[0].id }

  /** The boundary can be read off the history. */
  predicate TopReadable(h: History) { h == [] || h[0].id != "" }

  /** How many entries are newer than the cursor; all of them when the cursor is not there. */
  function Stop(h: History, c: DeploymentId): nat
    ensures Stop(h, c) <= |h|
    ensures forall i | 0 <= i < Stop(h, c) :: c == "" || h[i].id != c
    ensures Stop(h, c) < |h| ==> c != "" && h[Stop(h, c)].id == c
  {
    if h == [] || (c != "" && h[0].id == c) then 0 else 1 + Stop(h[1..], c)
  }

  predicate Reaches(h: History, c: DeploymentId) { c == "" || Stop(h, c) < |h| }

  function Tokened(h: History, a: Id): seq<Entry> {
    if h == [] then []
    else (if MatchesAttempt(h[0], a) then [h[0]] else []) + Tokened(h[1..], a)
  }

  /** FindDeploymentAfter: one newer entry is taken as it is, several only by a unique token. */
  function FindAfter(h: History, a: Id, c: DeploymentId): Lookup {
    var newer := h[..Stop(h, c)];
    if !Readable(newer) then LookupFailed
    else if !Reaches(h, c) then CursorMissing
    else if |newer| == 0 then NotFound
    else if |newer| == 1 then Found(newer[0])
    else if |Tokened(newer, a)| == 1 then Found(Tokened(newer, a)[0])
    else Ambiguous
  }

  /** FindDeployment: the newest matching entry. */
  function Find(h: History, a: Id, bound: Option<DeploymentId>): Lookup {
    if h == [] then NotFound
    else if h[0].id == "" then LookupFailed
    else if Matches(h[0], a, bound) then Found(h[0])
    else Find(h[1..], a, bound)
  }

  // ----- What each answer says about the history -----

  /** Exactly the first n entries are newer than the cursor, and all of them can be read. */
  ghost predicate Boundary(h: History, c: DeploymentId, n: nat) {
    && n <= |h| && (forall i | 0 <= i < n :: h[i].id != "" && (c == "" || h[i].id != c))
    && (if c == "" then n == |h| else n < |h| && h[n].id == c)
  }

  /** Of the first n entries the i-th alone carries the token of a. */
  ghost predicate OnlyToken(h: History, a: Id, n: nat, i: nat)
    requires i < n <= |h|
  {
    MatchesAttempt(h[i], a) && forall j | 0 <= j < n && MatchesAttempt(h[j], a) :: j == i
  }

  /** The cursor is the newest entry, or there was none and still is none. */
  predicate NothingNewer(h: History, c: DeploymentId) {
    if c == "" then h == [] else h != [] && h[0].id == c
  }

  /** The cursor has been dropped from a history that can be read to its end. */
  predicate CursorGone(h: History, c: DeploymentId) {
    c != "" && forall i | 0 <= i < |h| :: h[i].id != "" && h[i].id != c
  }

  /** An entry without an id comes before the cursor. */
  predicate UnreadableFirst(h: History, c: DeploymentId) {
    exists i | 0 <= i < |h| :: h[i].id == "" && forall k | 0 <= k < i :: c == "" || h[k].id != c
  }

  /** At least two entries are newer, and not exactly one of them carries the token. */
  ghost predicate Undecided(h: History, a: Id, c: DeploymentId) {
    exists n: nat :: 2 <= n && Boundary(h, c, n) && forall i: nat | i < n :: !OnlyToken(h, a, n, i)
  }

  /** e is the only newer entry, or one of several and the only one with the token. */
  ghost predicate Decided(h: History, a: Id, c: DeploymentId, e: Entry) {
    exists n: nat, i: nat :: i < n && Boundary(h, c, n) && h[i] == e && (n == 1 || OnlyToken(h, a, n, i))
  }

  /** What the cursor lookup answers, and when. */
  ghost predicate AnswersAfter(h: History, a: Id, c: DeploymentId, r: Lookup) {
    && (r.NotFound? <==> NothingNewer(h, c)) && (r.CursorMissing? <==> CursorGone(h, c))
    && (r.LookupFailed? <==> UnreadableFirst(h, c)) && (r.Ambiguous? <==> Undecided(h, a, c))
    && (forall e :: r == Found(e) ==> Decided(h, a, c, e)) && (r.Found? <==> exists e :: Decided(h, a, c, e))
  }

  /** The i-th entry is the newest that matches, and everything before it can be read. */
  ghost predicate NewestMatch(h: History, a: Id, bound: Option<DeploymentId>, i: nat)
    requires i < |h|
  {
    && h[i].id != "" && (if bound.Some? then h[i].id == bound.value else MatchesAttempt(h[i], a))
    && forall k | 0 <= k < i :: h[k].id != "" && !(if bound.Some? then h[k].id == bound.value else MatchesAttempt(h[k], a))
  }

  /** What the lookup by id or token answers, and when. */
  ghost predicate AnswersBy(h: History, a: Id, bound: Option<DeploymentId>, r: Lookup) {
    && (forall e :: r == Found(e) <==> exists i: nat :: i < |h| && h[i] == e && NewestMatch(h, a, bound, i))
    && (r.NotFound? <==> forall i | 0 <= i < |h| ::
          h[i].id != "" && !(if bound.Some? then h[i].id == bound.value else MatchesAttempt(h[i], a)))
    && !r.Ambiguous? && !r.CursorMissing?
  }

  lemma BoundaryIsStop(h: History, c: DeploymentId, n: nat)
    ensures Boundary(h, c, n) <==> n == Stop(h, c) && Reaches(h, c) && Readable(h[..Stop(h, c)])
  {
    var s := Stop(h, c);
    if Boundary(h, c, n) {
      StopIs(h, c, n);
      forall i | 0 <= i < n ensures h[..n][i].id != "" { assert h[i].id != ""; }
    }
    if Reaches(h, c) && Readable(h[..s]) {
      if c == "" { StopIsEnd(h); }
      forall i | 0 <= i < s ensures h[i].id != "" { assert h[..s][i].id != ""; }
    }
  }

  lemma {:induction false} StopIsEnd(h: History)
    ensures Stop(h, "") == |h|
  {
    if h != [] { StopIsEnd(h[1..]); }
  }

  lemma {:induction false} StopIs(h: History, c: DeploymentId, n: nat)
    requires n <= |h| && (forall i | 0 <= i < n :: c == "" || h[i].id != c) && (if c == "" then n == |h| else n < |h| && h[n].id == c)
    ensures Stop(h, c) == n
  {
    if n > 0 {
      assert c == "" || h[0].id != c;
      StopIs(h[1..], c, n - 1);
    }
  }

  /** One token among the newer entries, said by counting and said by index. */
  lemma OneToken(h: History, a: Id, n: nat)
    requires n <= |h|
    ensures |Tokened(h[..n], a)| == 1 <==> exists i: nat :: i < n && OnlyToken(h, a, n, i)
    ensures forall i: nat | i < n && OnlyToken(h, a, n, i) :: Tokened(h[..n], a) == [h[i]]
  {
    var newer := h[..n];
    TokenedMembers(newer, a);
    if |Tokened(newer, a)| == 1 {
      assert Tokened(newer, a)[0] in newer;
      var i: nat :| i < |newer| && newer[i] == Tokened(newer, a)[0];
      forall j | 0 <= j < n && MatchesAttempt(h[j], a) ensures j == i {
        assert newer[j] == h[j] && newer[i] == h[i];
        if j < i { TwoTokens(newer, a, j, i); } else if i < j { TwoTokens(newer, a, i, j); }
      }
      assert OnlyToken(h, a, n, i);
    }
    forall i: nat | i < n && OnlyToken(h, a, n, i) ensures Tokened(newer, a) == [h[i]] {
      forall j | 0 <= j < |newer| ensures MatchesAttempt(newer[j], a) <==> j == i { assert newer[j] == h[j]; }
      SoleToken(newer, a, i);
    }
  }

  lemma {:induction false} SoleToken(h: History, a: Id, i: nat)
    requires i < |h| && forall j | 0 <= j < |h| :: MatchesAttempt(h[j], a) <==> j == i
    ensures Tokened(h, a) == [h[i]]
  {
    if i == 0 {
      assert MatchesAttempt(h[0], a);
      NoToken(h[1..], a);
    } else {
      assert !MatchesAttempt(h[0], a);
      forall j | 0 <= j < |h[1..]| ensures MatchesAttempt(h[1..][j], a) <==> j == i - 1 { assert h[1..][j] == h[j + 1]; }
      SoleToken(h[1..], a, i - 1);
    }
  }

  lemma {:induction false} NoToken(h: History, a: Id)
    requires forall j | 0 <= j < |h| :: !MatchesAttempt(h[j], a)
    ensures Tokened(h, a) == []
  {
    if h != [] {
      assert !MatchesAttempt(h[0], a);
      NoToken(h[1..], a);
    }
  }

  /** An unreadable entry before the boundary, said both ways. */
  lemma UnreadableIs(h: History, c: DeploymentId)
    ensures UnreadableFirst(h, c) <==> !Readable(h[..Stop(h, c)])
  {
    var s := Stop(h, c);
    if UnreadableFirst(h, c) {
      var i :| 0 <= i < |h| && h[i].id == "" && forall k | 0 <= k < i :: c == "" || h[k].id != c;
      StopIsBeyond(h, c, i);
      assert h[..s][i].id == "";
    }
    if !Readable(h[..s]) {
      var i :| 0 <= i < s && h[..s][i].id == "";
      assert h[i].id == "";
    }
  }

  lemma {:induction false} StopIsBeyond(h: History, c: DeploymentId, i: nat)
    requires i < |h| && forall k | 0 <= k <= i :: c == "" || h[k].id != c
    ensures i < Stop(h, c)
  {
    assert c == "" || h[0].id != c;
    if i > 0 { StopIsBeyond(h[1..], c, i - 1); }
  }

  lemma FindAfterAnswers(h: History, a: Id, c: DeploymentId)
    ensures AnswersAfter(h, a, c, FindAfter(h, a, c))
  {
    var s := Stop(h, c);
    UnreadableIs(h, c);
    OneToken(h, a, s);
    forall n: nat ensures Boundary(h, c, n) <==> n == s && Reaches(h, c) && Readable(h[..s]) { BoundaryIsStop(h, c, n); }
    FindAfterMisses(h, a, c);
    FindAfterHits(h, a, c);
  }

  lemma FindAfterMisses(h: History, a: Id, c: DeploymentId)
    requires UnreadableFirst(h, c) <==> !Readable(h[..Stop(h, c)])
    ensures FindAfter(h, a, c).NotFound? <==> NothingNewer(h, c)
    ensures FindAfter(h, a, c).CursorMissing? <==> CursorGone(h, c)
  {
    var s := Stop(h, c);
    if c == "" { StopIsEnd(h); }
    assert s == |h| ==> h[..s] == h;
    if CursorGone(h, c) {
      forall i | 0 <= i < s ensures h[..s][i].id != "" { assert h[i].id != ""; }
    }
    if FindAfter(h, a, c).CursorMissing? {
      forall i | 0 <= i < |h| ensures h[i].id != "" && h[i].id != c { assert h[..s][i].id != ""; }
    }
  }

  lemma FindAfterHits(h: History, a: Id, c: DeploymentId)
    requires var s := Stop(h, c);
             && (forall n: nat :: Boundary(h, c, n) <==> n == s && Reaches(h, c) && Readable(h[..s]))
             && (|Tokened(h[..s], a)| == 1 <==> exists i: nat :: i < s && OnlyToken(h, a, s, i))
             && forall i: nat | i < s && OnlyToken(h, a, s, i) :: Tokened(h[..s], a) == [h[i]]
    ensures FindAfter(h, a, c).Ambiguous? <==> Undecided(h, a, c)
    ensures forall e :: FindAfter(h, a, c) == Found(e) ==> Decided(h, a, c, e)
    ensures forall e :: Decided(h, a, c, e) ==> FindAfter(h, a, c) == Found(e)
  {
    var s := Stop(h, c);
    if Reaches(h, c) && Readable(h[..s]) {
      assert Boundary(h, c, s);
      if s == 1 { assert h[..s][0] == h[0]; }
      forall e | FindAfter(h, a, c) == Found(e) ensures Decided(h, a, c, e) {
        if s == 1 {
          assert h[0] == e;
        } else {
          var i: nat :| i < s && OnlyToken(h, a, s, i);
          assert h[i] == e;
        }
      }
      forall e | Decided(h, a, c, e) ensures FindAfter(h, a, c) == Found(e) {
        var n: nat, i: nat :| i < n && Boundary(h, c, n) && h[i] == e && (n == 1 || OnlyToken(h, a, n, i));
      }
    }
  }

  lemma {:induction false} FindAnswers(h: History, a: Id, bound: Option<DeploymentId>)
    ensures AnswersBy(h, a, bound, Find(h, a, bound))
  {
    if h != [] && h[0].id != "" && !Matches(h[0], a, bound) {
      FindAnswers(h[1..], a, bound);
      forall e ensures Find(h, a, bound) == Found(e) <==> exists i: nat :: i < |h| && h[i] == e && NewestMatch(h, a, bound, i) {
        LaterMatch(h, a, bound, e);
      }
      assert h == [h[0]] + h[1..];
    } else if h != [] && h[0].id != "" {
      assert NewestMatch(h, a, bound, 0);
    }
  }

  /** Behind an entry that does not match, the newest match is that of the rest. */
  lemma LaterMatch(h: History, a: Id, bound: Option<DeploymentId>, e: Entry)
    requires h != [] && h[0].id != "" && !Matches(h[0], a, bound)
    ensures (exists i: nat :: i < |h| && h[i] == e && NewestMatch(h, a, bound, i)) <==>
            (exists i: nat :: i < |h[1..]| && h[1..][i] == e && NewestMatch(h[1..], a, bound, i))
  {
    if exists i: nat :: i < |h| && h[i] == e && NewestMatch(h, a, bound, i) {
      var i: nat :| i < |h| && h[i] == e && NewestMatch(h, a, bound, i);
      assert i > 0 && h[1..][i - 1] == e;
      assert NewestMatch(h[1..], a, bound, i - 1);
    }
    if exists i: nat :: i < |h[1..]| && h[1..][i] == e && NewestMatch(h[1..], a, bound, i) {
      var i: nat :| i < |h[1..]| && h[1..][i] == e && NewestMatch(h[1..], a, bound, i);
      forall k | 0 <= k < i + 1 ensures h[k].id != "" && !Matches(h[k], a, bound) {
        if k > 0 { assert h[k] == h[1..][k - 1]; }
      }
      assert h[i + 1] == e && NewestMatch(h, a, bound, i + 1);
    }
  }

  // ----- The visiting loops -----

  method DeploymentMatchesAttempt(e: Entry, a: Id) returns (r: bool)
    ensures r <==> MatchesAttempt(e, a)
    ensures r <==> e.description.Some? && exists k :: 0 <= k < |e.description.value| && e.description.value[k] == AttemptToken(a)
  {
    if e.description.None? { return false; }
    var fields := e.description.value;
    for i := 0 to |fields|
      invariant AttemptToken(a) !in fields[..i]
    {
      if fields[i] == AttemptToken(a) { return true; }
    }
    assert fields[..|fields|] == fields;
    return false;
  }

  /** The walk that stops at the first entry; None when that entry cannot be read. */
  method LatestDeploymentID(h: History) returns (r: Option<DeploymentId>)
    ensures r == if TopReadable(h) then Some(LatestId(h)) else None
    ensures h == [] ==> r == Some("")
    ensures h != [] && h[0].id != "" ==> r == Some(h[0].id)
    ensures h != [] && h[0].id == "" ==> r == None
  {
    for i := 0 to |h|
      invariant i == 0
    {
      if h[i].id == "" { return None; }
      return Some(h[i].id);
    }
    return Some("");
  }

  method FindDeployment(h: History, a: Id, bound: Option<DeploymentId>) returns (r: Lookup)
    ensures r == Find(h, a, bound) && AnswersBy(h, a, bound, r)
  {
    FindAnswers(h, a, bound);
    for i := 0 to |h|
      invariant Find(h, a, bound) == Find(h[i..], a, bound)
    {
      assert h[i..][0] == h[i] && h[i..][1..] == h[i + 1..];
      if h[i].id == "" { return LookupFailed; }
      var hit: bool;
      if bound.Some? { hit := h[i].id == bound.value; } else { hit := DeploymentMatchesAttempt(h[i], a); }
      if hit { return Found(h[i]); }
    }
    return NotFound;
  }

  /** The walk of FindDeploymentAfter: everything newer than the cursor. */
  method Newer(h: History, c: DeploymentId) returns (readable: bool, cursorFound: bool, candidates: seq<Entry>)
    ensures readable <==> Readable(h[..Stop(h, c)])
    ensures readable ==> candidates == h[..Stop(h, c)] && (cursorFound <==> Reaches(h, c))
  {
    candidates, cursorFound := [], c == "";
    var i := 0;
    while i < |h|
      invariant 0 <= i <= Stop(h, c)
      invariant candidates == h[..i] && Readable(candidates)
      invariant cursorFound <==> c == ""
    {
      StopAt(h, c, i);
      if h[i].id == "" {
        assert h[..Stop(h, c)][i].id == "";
        return false, false, [];
      }
      if c != "" && h[i].id == c {
        return true, true, candidates;
      }
      candidates := candidates + [h[i]];
      i := i + 1;
    }
    readable := true;
  }

  method FindDeploymentAfter(h: History, a: Id, c: DeploymentId) returns (r: Lookup)
    ensures r == FindAfter(h, a, c) && AnswersAfter(h, a, c, r)
  {
    FindAfterAnswers(h, a, c);
    var readable, cursorFound, candidates := Newer(h, c);
    if !readable { return LookupFailed; }
    if !cursorFound { return CursorMissing; }
    if |candidates| == 0 { return NotFound; }
    if |candidates| == 1 { return Found(candidates[0]); }
    var exact := candidates[0];
    var exactCount := 0;
    for k := 0 to |candidates|
      invariant exactCount == |Tokened(candidates[..k], a)|
      invariant exactCount > 0 ==> exact == Tokened(candidates[..k], a)[exactCount - 1]
    {
      var hit := DeploymentMatchesAttempt(candidates[k], a);
      TokenedSnoc(candidates[..k], candidates[k], a);
      assert candidates[..k + 1] == candidates[..k] + [candidates[k]];
      if hit {
        exact := candidates[k];
        exactCount := exactCount + 1;
      }
    }
    assert candidates[..|candidates|] == candidates;
    if exactCount == 1 { return Found(exact); }
    return Ambiguous;
  }

  lemma StopAt(h: History, c: DeploymentId, i: nat)
    requires i < |h| && i <= Stop(h, c)
    ensures i == Stop(h, c) <==> (c != "" && h[i].id == c)
    ensures h[i].id == "" ==> i < Stop(h, c)
  {
  }

  lemma {:induction false} TokenedSnoc(h: History, e: Entry, a: Id)
    ensures Tokened(h + [e], a) == Tokened(h, a) + (if MatchesAttempt(e, a) then [e] else [])
  {
    if h == [] {
      assert [] + [e] == [e] && [e][1..] == [];
    } else {
      assert (h + [e])[0] == h[0] && (h + [e])[1..] == h[1..] + [e];
      TokenedSnoc(h[1..], e, a);
      var head := if MatchesAttempt(h[0], a) then [h[0]] else [];
      var last := if MatchesAttempt(e, a) then [e] else [];
      assert Tokened(h + [e], a) == head + (Tokened(h[1..], a) + last);
      assert head + (Tokened(h[1..], a) + last) == (head + Tokened(h[1..], a)) + last;
    }
  }

  // ----- What a hit means -----

  lemma {:induction false} TokenedMembers(h: History, a: Id)
    ensures forall e :: e in Tokened(h, a) <==> e in h && MatchesAttempt(e, a)
  {
    if h != [] {
      TokenedMembers(h[1..], a);
      assert h == [h[0]] + h[1..];
    }
  }

  /** A unique token hit really is unique: two matching entries never yield one candidate. */
  lemma {:induction false} TwoTokens(h: History, a: Id, i: nat, j: nat)
    requires i < j < |h| && MatchesAttempt(h[i], a) && MatchesAttempt(h[j], a)
    ensures |Tokened(h, a)| >= 2
  {
    if i == 0 {
      TokenedMembers(h[1..], a);
      assert h[1..][j - 1] == h[j];
      assert h[j] in Tokened(h[1..], a);
    } else {
      TwoTokens(h[1..], a, i - 1, j - 1);
    }
  }

  /** A cursor lookup that binds has seen the cursor, and binds the only newer entry or the only tokened one. */
  lemma FindAfterBindsOnlyUnambiguousEntries(h: History, a: Id, c: DeploymentId, e: Entry)
    requires Readable(h)
    ensures FindAfter(h, a, c) == Found(e) <==>
            && Reaches(h, c)
            && (h[..Stop(h, c)] == [e]
                || (Stop(h, c) >= 2 && Tokened(h[..Stop(h, c)], a) == [e]))
  {
    var newer := h[..Stop(h, c)];
    assert Readable(newer) by { forall i | 0 <= i < |newer| ensures newer[i].id != "" { assert newer[i] == h[i]; } }
    if |Tokened(newer, a)| == 1 { assert Tokened(newer, a) == [Tokened(newer, a)[0]]; }
    if |newer| == 1 { assert newer == [newer[0]]; }
  }

  lemma FoundIsNewer(h: History, a: Id, c: DeploymentId)
    requires FindAfter(h, a, c).Found?
    ensures Reaches(h, c)
    ensures exists i :: 0 <= i < Stop(h, c) && h[i] == FindAfter(h, a, c).entry
    ensures FindAfter(h, a, c).entry.id != ""
  {
    var newer := h[..Stop(h, c)];
    var e := FindAfter(h, a, c).entry;
    TokenedMembers(newer, a);
    assert e in newer;
    var i :| 0 <= i < |newer| && newer[i] == e;
    assert h[i] == e;
  }

  lemma {:induction false} FoundMatches(h: History, a: Id, bound: Option<DeploymentId>)
    requires Find(h, a, bound).Found?
    ensures Find(h, a, bound).entry in h
    ensures Matches(Find(h, a, bound).entry, a, bound)
    ensures Find(h, a, bound).entry.id != ""
  {
    if h[0].id != "" && !Matches(h[0], a, bound) {
      FoundMatches(h[1..], a, bound);
    }
  }

  // ----- How the boundary moves with the history -----

  lemma StopPrepend(h: History, x: Entry, c: DeploymentId)
    requires c == "" || x.id != c
    ensures Stop([x] + h, c) == 1 + Stop(h, c)
    ensures Reaches([x] + h, c) <==> Reaches(h, c)
  {
    assert ([x] + h)[1..] == h;
  }

  /** Two histories that agree on their ids up to the shorter one have the same boundary there. */
  lemma StopPrefix(h: History, g: History, c: DeploymentId)
    requires |g| <= |h| && forall i | 0 <= i < |g| :: g[i].id == h[i].id
    ensures Stop(g, c) <= Stop(h, c)
    ensures Reaches(g, c) ==> Reaches(h, c)
  {
  }
}
