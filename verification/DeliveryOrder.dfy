/** Which listings of delivery targets can fail although the files could cover them: exactly the unsafe ones. */
module DeliveryOrder {
  import opened Text
  import opened Delivery

  predicate IsPath(target: string) { target != "" && !IsDirectory(target) }

  predicate SafeTargets(ts: seq<string>) { forall i, j :: 0 <= i < j < |ts| ==> !Wider(ts[i], ts[j]) }

  /** One exact path is asked for twice, which no files can cover. */
  predicate RepeatsAPath(ts: seq<string>) { exists i, j | 0 <= i < j < |ts| :: ts[i] == ts[j] && IsPath(ts[i]) }

  /** Requirements for these targets, each for at least one file. */
  predicate AsksFor(rs: seq<Requirement>, ts: seq<string>) {
    |rs| == |ts| && forall i :: 0 <= i < |rs| ==> rs[i].target == ts[i] && rs[i].quantity >= 1
  }

  ghost predicate DeliveredIfCoverable(rs: seq<Requirement>, files: seq<FileEvidence>, verified: set<string>) {
    var available := AvailablePaths(files, verified);
    Feasible(Elements(available), rs) ==> Delivered(Assign(available, rs), rs)
  }

  /** Whatever the quantities and the files, the greedy order delivers all that can be delivered. */
  ghost predicate NeverFails(ts: seq<string>) {
    forall rs, files, verified :: AsksFor(rs, ts) ==> DeliveredIfCoverable(rs, files, verified)
  }

  lemma PathIsServed(files: set<string>, r: Requirement, share: set<string>)
    requires Serves(files, r, share) && IsPath(r.target) && r.quantity >= 1
    ensures r.target in share
  {
    var x :| x in share;
  }

  lemma RepeatedPathIsUncoverable(files: set<string>, rs: seq<Requirement>, ts: seq<string>)
    requires AsksFor(rs, ts) && RepeatsAPath(ts)
    ensures !Feasible(files, rs)
  {
    var i, j :| 0 <= i < j < |ts| && ts[i] == ts[j] && IsPath(ts[i]);
    forall a ensures !Satisfies(files, rs, a) {
      if |a| == |rs| && Serves(files, rs[i], a[i]) && Serves(files, rs[j], a[j]) {
        PathIsServed(files, rs[i], a[i]);
        PathIsServed(files, rs[j], a[j]);
      }
    }
  }

  // Files on which an unsafe listing fails.

  function Longest(ts: seq<string>): nat {
    if ts == [] then 0
    else
      var before, last := Longest(ts[..|ts| - 1]), |ts[|ts| - 1]|;
      if before < last then last else before
  }

  lemma {:induction false} LongestMeaning(ts: seq<string>, k: nat)
    requires k < |ts|
    ensures |ts[k]| <= Longest(ts)
  {
    if k < |ts| - 1 { LongestMeaning(ts[..|ts| - 1], k); }
  }

  function Tag(n: nat): string { seq(n, _ => 'x') }

  function Root(target: string): string { if target == "" then "" else DirectoryPrefix(target) }

  /** A file for the k-th target alone: the path itself, or a new name in the directory. */
  function FileFor(ts: seq<string>, k: nat): string
    requires k < |ts|
  {
    if IsPath(ts[k]) then ts[k] else Root(ts[k]) + Tag(Longest(ts) + 1 + k)
  }

  lemma {:induction false} StripTrailingShrinks(s: string, c: char)
    ensures |StripTrailing(s, c)| <= |s|
    ensures s != "" && s[|s| - 1] == c ==> |StripTrailing(s, c)| < |s|
  {
    if s != "" && s[|s| - 1] == c { StripTrailingShrinks(s[..|s| - 1], c); }
  }

  lemma RootMeaning(target: string)
    requires !IsPath(target)
    ensures |Root(target)| <= |target|
    ensures Root(target) == "" || Root(target)[|Root(target)| - 1] == '/'
  {
    StripTrailingShrinks(target, '/');
  }

  lemma FileMatches(ts: seq<string>, k: nat)
    requires k < |ts|
    ensures Matches(ts[k], FileFor(ts, k))
  {
    if IsDirectory(ts[k]) {
      var root, tag := Root(ts[k]), Tag(Longest(ts) + 1 + k);
      assert (root + tag)[..|root|] == root;
    }
  }

  /** Different tags end in runs of different length, after a slash or nothing. */
  lemma TaggedDiffer(a: string, n: nat, b: string, m: nat)
    requires (a == "" || a[|a| - 1] == '/') && n < m
    ensures a + Tag(n) != b + Tag(m)
  {
    var f, g := a + Tag(n), b + Tag(m);
    if |f| == |g| && a != "" {
      assert f[|a| - 1] == '/' && g[|a| - 1] == Tag(m)[|a| - 1 - |b|];
    }
  }

  lemma FilesDiffer(ts: seq<string>, k: nat, m: nat)
    requires k < m < |ts| && !RepeatsAPath(ts)
    ensures FileFor(ts, k) != FileFor(ts, m)
  {
    LongestMeaning(ts, k);
    LongestMeaning(ts, m);
    if !IsPath(ts[k]) && !IsPath(ts[m]) {
      RootMeaning(ts[k]);
      TaggedDiffer(Root(ts[k]), Longest(ts) + 1 + k, Root(ts[m]), Longest(ts) + 1 + m);
    }
  }

  /** Everything that fits `inner` fits `outer`. */
  predicate Inside(inner: string, outer: string) {
    if outer == "" then true
    else if inner == "" then false
    else if IsDirectory(outer) then StartsWith(if IsDirectory(inner) then DirectoryPrefix(inner) else inner, DirectoryPrefix(outer))
    else inner == outer
  }

  lemma InsideFits(inner: string, outer: string, p: string)
    requires Inside(inner, outer) && Matches(inner, p)
    ensures Matches(outer, p)
  {
    if outer != "" && IsDirectory(outer) && IsDirectory(inner) {
      PrefixOfPrefix(p, DirectoryPrefix(outer), DirectoryPrefix(inner));
    }
  }

  /** A tagged name lies in no directory but those its root lies in. */
  lemma TagLeavesDirectory(root: string, n: nat, prefix: string)
    requires prefix != "" && prefix[|prefix| - 1] == '/' && !StartsWith(root, prefix) && n >= |prefix|
    ensures !StartsWith(root + Tag(n), prefix)
  {
    var f := root + Tag(n);
    if |prefix| <= |root| {
      assert f[..|prefix|] == root[..|prefix|];
    } else {
      assert f[..|prefix|][|prefix| - 1] == Tag(n)[|prefix| - 1 - |root|];
    }
  }

  /** The file of a target that does not lie inside `outer` does not fit `outer`. */
  lemma FileStaysOutside(ts: seq<string>, k: nat, j: nat)
    requires k < |ts| && j < |ts| && k != j && !Inside(ts[k], ts[j]) && !RepeatsAPath(ts)
    ensures !Matches(ts[j], FileFor(ts, k))
  {
    LongestMeaning(ts, k);
    LongestMeaning(ts, j);
    if IsDirectory(ts[j]) {
      RootMeaning(ts[j]);
      if !IsPath(ts[k]) { TagLeavesDirectory(Root(ts[k]), Longest(ts) + 1 + k, DirectoryPrefix(ts[j])); }
    } else if j < k {
      FilesDiffer(ts, j, k);
    } else {
      FilesDiffer(ts, k, j);
    }
  }

  /** The files of the first `n` targets that lie inside the j-th, or of those that do not. */
  function Group(ts: seq<string>, j: nat, n: nat, inside: bool): seq<string>
    requires j < |ts| && n <= |ts|
  {
    if n == 0 then []
    else Group(ts, j, n - 1, inside) + if Inside(ts[n - 1], ts[j]) == inside then [FileFor(ts, n - 1)] else []
  }

  function Members(ts: seq<string>, j: nat, n: nat): set<nat>
    requires j < |ts| && n <= |ts|
  {
    set k | 0 <= k < n && Inside(ts[k], ts[j])
  }

  lemma NoDuplicatesSnoc(s: seq<string>, x: string)
    requires NoDuplicates(s) && x !in s
    ensures NoDuplicates(s + [x])
  {
  }

  lemma NoDuplicatesAppend(a: seq<string>, b: seq<string>)
    requires NoDuplicates(a) && NoDuplicates(b) && forall x :: x in a ==> x !in b
    ensures NoDuplicates(a + b)
  {
    forall i, j | 0 <= i < j < |a + b| ensures (a + b)[i] != (a + b)[j] {
      if i < |a| <= j { assert a[i] in a && b[j - |a|] in b; }
    }
  }

  ghost predicate IsGroupFile(ts: seq<string>, j: nat, n: nat, inside: bool, x: string)
    requires j < |ts| && n <= |ts|
  {
    exists k :: 0 <= k < n && Inside(ts[k], ts[j]) == inside && x == FileFor(ts, k)
  }

  lemma {:induction false} GroupMeaning(ts: seq<string>, j: nat, n: nat, inside: bool)
    requires j < |ts| && n <= |ts|
    ensures forall x :: x in Group(ts, j, n, inside) <==> IsGroupFile(ts, j, n, inside, x)
  {
    if n > 0 {
      GroupMeaning(ts, j, n - 1, inside);
      hide FileFor, Inside;
    }
  }

  lemma NextFileIsNew(ts: seq<string>, j: nat, n: nat, inside: bool)
    requires j < |ts| && n < |ts| && !RepeatsAPath(ts)
    ensures FileFor(ts, n) !in Group(ts, j, n, inside)
  {
    GroupMeaning(ts, j, n, inside);
    hide FileFor, Inside, Group, RepeatsAPath;
    forall k | 0 <= k < n ensures FileFor(ts, k) != FileFor(ts, n) {
      FilesDiffer(ts, k, n);
    }
  }

  lemma {:induction false} GroupIsDistinct(ts: seq<string>, j: nat, n: nat, inside: bool)
    requires j < |ts| && n <= |ts| && !RepeatsAPath(ts)
    ensures NoDuplicates(Group(ts, j, n, inside))
  {
    if n > 0 {
      hide FileFor, Inside, NoDuplicates, RepeatsAPath;
      var front := Group(ts, j, n - 1, inside);
      GroupIsDistinct(ts, j, n - 1, inside);
      NextFileIsNew(ts, j, n - 1, inside);
      NoDuplicatesSnoc(front, FileFor(ts, n - 1));
      assert front + [] == front;
    }
  }

  lemma MembersGrow(ts: seq<string>, j: nat, n: nat)
    requires j < |ts| && 0 < n <= |ts|
    ensures Members(ts, j, n) == Members(ts, j, n - 1) + if Inside(ts[n - 1], ts[j]) then {n - 1} else {}
    ensures n - 1 !in Members(ts, j, n - 1)
  {
    hide Inside;
  }

  lemma NoMembers(ts: seq<string>, j: nat)
    requires j < |ts|
    ensures Members(ts, j, 0) == {}
  {
  }

  lemma {:induction false} GroupSize(ts: seq<string>, j: nat, n: nat)
    requires j < |ts| && n <= |ts|
    ensures |Group(ts, j, n, true)| == |Members(ts, j, n)|
  {
    hide FileFor, Inside, Members;
    if n > 0 {
      GroupSize(ts, j, n - 1);
      MembersGrow(ts, j, n);
    } else {
      NoMembers(ts, j);
    }
  }

  /** The files inside fit the j-th target and the others do not. */
  lemma GroupFits(ts: seq<string>, j: nat, x: string)
    requires j < |ts| && !RepeatsAPath(ts)
    ensures x in Group(ts, j, |ts|, true) ==> Matches(ts[j], x)
    ensures x in Group(ts, j, |ts|, false) ==> !Matches(ts[j], x)
  {
    GroupMeaning(ts, j, |ts|, true);
    GroupMeaning(ts, j, |ts|, false);
    hide Group, Matches, FileFor, Inside;
    if IsGroupFile(ts, j, |ts|, true, x) {
      var k :| 0 <= k < |ts| && Inside(ts[k], ts[j]) == true && x == FileFor(ts, k);
      FileMatches(ts, k);
      InsideFits(ts[k], ts[j], x);
    }
    if IsGroupFile(ts, j, |ts|, false, x) {
      var k :| 0 <= k < |ts| && Inside(ts[k], ts[j]) == false && x == FileFor(ts, k);
      InsideItself(ts[j]);
      FileStaysOutside(ts, k, j);
    }
  }

  /** The files inside first, then the others. */
  function Pool(ts: seq<string>, j: nat): seq<string>
    requires j < |ts|
  {
    Group(ts, j, |ts|, true) + Group(ts, j, |ts|, false)
  }

  lemma PoolMeaning(ts: seq<string>, j: nat)
    requires j < |ts| && !RepeatsAPath(ts)
    ensures NoDuplicates(Pool(ts, j))
    ensures forall x :: x in Group(ts, j, |ts|, true) <==> x in Pool(ts, j) && Matches(ts[j], x)
  {
    hide Group, Matches, NoDuplicates, RepeatsAPath;
    GroupIsDistinct(ts, j, |ts|, true);
    GroupIsDistinct(ts, j, |ts|, false);
    forall x
      ensures x in Group(ts, j, |ts|, true) ==> Matches(ts[j], x)
      ensures x in Group(ts, j, |ts|, false) ==> !Matches(ts[j], x)
    {
      GroupFits(ts, j, x);
    }
    NoDuplicatesAppend(Group(ts, j, |ts|, true), Group(ts, j, |ts|, false));
  }

  lemma PoolHolds(ts: seq<string>, j: nat, k: nat)
    requires j < |ts| && k < |ts|
    ensures FileFor(ts, k) in Pool(ts, j)
  {
    GroupMeaning(ts, j, |ts|, Inside(ts[k], ts[j]));
    hide Group, FileFor, Inside;
    assert IsGroupFile(ts, j, |ts|, Inside(ts[k], ts[j]), FileFor(ts, k));
  }

  lemma InsideItself(target: string)
    ensures Inside(target, target)
  {
    assert IsDirectory(target) ==> DirectoryPrefix(target)[..|DirectoryPrefix(target)|] == DirectoryPrefix(target);
  }

  // The greedy order gives one of those files away.

  /** Whatever is in `first` precedes whatever is not. */
  ghost predicate Leads(first: set<string>, available: seq<string>) {
    forall a, b :: 0 <= a < b < |available| && available[b] in first ==> available[a] in first
  }

  lemma LeadsTail(first: set<string>, available: seq<string>)
    requires Leads(first, available) && available != []
    ensures Leads(first, available[1..])
    ensures (exists x :: x in available && x in first) ==> available[0] in first
  {
    forall a, b | 0 <= a < b < |available[1..]| && available[1..][b] in first ensures available[1..][a] in first {
      assert available[b + 1] in first;
    }
  }

  lemma {:induction false} LeadsWithout(first: set<string>, available: seq<string>, taken: seq<string>)
    requires Leads(first, available)
    ensures Leads(first, Without(available, taken))
    ensures forall x :: x in Without(available, taken) ==> x in available
  {
    if available != [] {
      var rest := Without(available[1..], taken);
      LeadsTail(first, available);
      LeadsWithout(first, available[1..], taken);
      assert forall x :: x in available[1..] ==> x in available;
      if available[0] !in taken {
        forall a, b | 0 <= a < b < |[available[0]] + rest| && ([available[0]] + rest)[b] in first
          ensures ([available[0]] + rest)[a] in first
        {
          assert rest[b - 1] in first && rest[b - 1] in available[1..];
        }
      } else {
        assert [] + rest == rest;
      }
    }
  }

  /** When requirement i's turn comes: it selects from what is left, and later requirements do too. */
  lemma {:induction false} Turn(available: seq<string>, rs: seq<Requirement>, i: nat, first: set<string>) returns (left: seq<string>)
    requires i < |rs| && Leads(first, available) && NoDuplicates(available)
    ensures |Assign(available, rs)| == |rs| && Assign(available, rs)[i] == Selected(left, rs[i])
    ensures Leads(first, left) && NoDuplicates(left)
    ensures forall m, x :: i <= m < |rs| && x in Assign(available, rs)[m] ==> x in left
    decreases i
  {
    AssignLength(available, rs);
    if i == 0 {
      left := available;
      forall m, x | 0 <= m < |rs| && x in Assign(available, rs)[m] ensures x in available {
        ShareIsAvailable(available, rs, m, x);
      }
    } else {
      var chosen := Selected(available, rs[0]);
      var next := Without(available, chosen);
      LeadsWithout(first, available, chosen);
      WithoutMeaning(available, chosen);
      AssignLength(next, rs[1..]);
      left := Turn(next, rs[1..], i - 1, first);
      forall m, x | i <= m < |rs| && x in Assign(available, rs)[m] ensures x in left {
        assert Assign(available, rs)[m] == Assign(next, rs[1..])[m - 1];
      }
    }
  }

  lemma {:induction false} ShareIsAvailable(available: seq<string>, rs: seq<Requirement>, m: nat, x: string)
    requires m < |rs| && NoDuplicates(available) && |Assign(available, rs)| == |rs| && x in Assign(available, rs)[m]
    ensures x in available
    decreases m
  {
    var chosen := Selected(available, rs[0]);
    if m == 0 {
      CandidatesMeaning(available, rs[0].target);
      assert x in Candidates(available, rs[0].target);
    } else {
      var next := Without(available, chosen);
      WithoutMeaning(available, chosen);
      AssignLength(next, rs[1..]);
      assert Assign(available, rs)[m] == Assign(next, rs[1..])[m - 1];
      ShareIsAvailable(next, rs[1..], m - 1, x);
    }
  }

  /** A requirement whose target takes all of `first` selects one of them while any is left. */
  lemma SelectsFirst(left: seq<string>, r: Requirement, first: set<string>)
    requires Leads(first, left) && r.quantity == 1 && (exists x :: x in left && x in first)
    requires forall x :: x in first ==> Matches(r.target, x)
    ensures Selected(left, r) != [] && Selected(left, r)[0] in first
  {
    LeadsTail(first, left);
    hide Matches;
    assert Candidates(left, r.target) == [left[0]] + Candidates(left[1..], r.target);
  }

  lemma ShareShrinks(space: set<string>, share: set<string>)
    requires share != {} && share <= space
    ensures |space - share| < |space|
  {
    var x :| x in share;
    assert space - share <= space - {x};
    SubsetSize(space - share, space - {x});
  }

  ghost predicate Uses(g: seq<set<string>>, members: set<nat>, x: string) {
    exists k :: k in members && k < |g| && x in g[k]
  }

  /** As many non-empty, disjoint shares of a set as it has members use it up. */
  lemma {:induction false} SharesFill(g: seq<set<string>>, members: set<nat>, space: set<string>)
    requires forall k :: k in members ==> k < |g| && g[k] != {} && g[k] <= space
    requires forall k, m :: 0 <= k < |g| && 0 <= m < |g| && k != m ==> g[k] !! g[m]
    requires |space| <= |members|
    ensures forall x :: x in space ==> Uses(g, members, x)
  {
    if members != {} {
      var k :| k in members;
      var rest, left := members - {k}, space - g[k];
      ShareShrinks(space, g[k]);
      forall m | m in rest ensures g[m] <= left {
        assert g[k] !! g[m];
      }
      SharesFill(g, rest, left);
      forall x | x in space ensures Uses(g, members, x) {
        if x !in g[k] {
          assert Uses(g, rest, x);
        }
      }
    }
  }

  /** One requirement for each target. */
  function Asking(ts: seq<string>): seq<Requirement> {
    seq(|ts|, k requires 0 <= k < |ts| => Requirement(Tag(k + 1), 1, ts[k], []))
  }

  function Singles(ts: seq<string>): seq<set<string>> {
    seq(|ts|, k requires 0 <= k < |ts| => {FileFor(ts, k)})
  }

  lemma PoolCovers(ts: seq<string>, j: nat)
    requires j < |ts| && !RepeatsAPath(ts)
    ensures Feasible(Elements(Pool(ts, j)), Asking(ts))
  {
    var files, rs, a := Elements(Pool(ts, j)), Asking(ts), Singles(ts);
    hide Pool, Matches, FileFor;
    forall k | 0 <= k < |a| ensures Serves(files, rs[k], a[k]) {
      FileMatches(ts, k);
      PoolHolds(ts, j, k);
    }
    forall k, m | 0 <= k < m < |a| ensures a[k] !! a[m] {
      FilesDiffer(ts, k, m);
    }
    assert Satisfies(files, rs, a);
  }

  lemma WiderIsNotInside(wide: string, narrow: string)
    requires Wider(wide, narrow)
    ensures !Inside(wide, narrow)
  {
    var b := DirectoryPrefix(narrow);
    assert b[..|b|] == b;
  }

  lemma GroupLeads(ts: seq<string>, j: nat)
    requires j < |ts| && !RepeatsAPath(ts)
    ensures Leads(Elements(Group(ts, j, |ts|, true)), Pool(ts, j))
    ensures |Elements(Group(ts, j, |ts|, true))| == |Members(ts, j, |ts|)|
  {
    var within, outside := Group(ts, j, |ts|, true), Group(ts, j, |ts|, false);
    GroupIsDistinct(ts, j, |ts|, true);
    GroupSize(ts, j, |ts|);
    DistinctSize(within);
    PoolMeaning(ts, j);
    hide Group, Matches, RepeatsAPath;
    forall x | x in outside ensures x !in within {
      GroupFits(ts, j, x);
    }
    FrontLeads(within, outside);
  }

  lemma FrontLeads(front: seq<string>, back: seq<string>)
    requires forall x :: x in back ==> x !in front
    ensures Leads(Elements(front), front + back)
  {
    var all := front + back;
    assert forall k :: 0 <= k < |all| ==> (all[k] in front <==> k < |front|) by {
      assert forall k :: 0 <= k < |front| ==> all[k] == front[k];
      assert forall k :: |front| <= k < |all| ==> all[k] == back[k - |front|] && back[k - |front|] in back;
    }
  }

  /** Disjoint shares of one fitting file each. */
  ghost predicate OneEach(files: set<string>, ts: seq<string>, g: seq<set<string>>) {
    && |g| == |ts|
    && (forall k :: 0 <= k < |g| ==> g[k] <= Fitting(files, ts[k]) && |g[k]| == 1)
    && (forall k, m :: 0 <= k < |g| && 0 <= m < |g| && k != m ==> g[k] !! g[m])
  }

  lemma DeliveredGivesOneEach(pool: seq<string>, ts: seq<string>)
    requires NoDuplicates(pool) && Delivered(Assign(pool, Asking(ts)), Asking(ts))
    ensures OneEach(Elements(pool), ts, Sets(Assign(pool, Asking(ts))))
  {
    hide Assign, NoDuplicates, Greedy, Matches;
    var shares, g := Assign(pool, Asking(ts)), Sets(Assign(pool, Asking(ts)));
    AssignIsGreedy(pool, Asking(ts));
    GreedyIsDisjoint(Elements(pool), Asking(ts), g);
    forall k, m | 0 <= k < |g| && 0 <= m < |g| && k != m ensures g[k] !! g[m] {
      if m < k { assert g[m] !! g[k]; }
    }
  }

  /** Were all delivered, the requirements inside the j-th target would use up its files, so no other requirement has one. */
  lemma SpaceIsUsedUp(ts: seq<string>, j: nat, i: nat, g: seq<set<string>>)
    requires i < |ts| && j < |ts| && !RepeatsAPath(ts) && !Inside(ts[i], ts[j]) && OneEach(Elements(Pool(ts, j)), ts, g)
    ensures forall x :: x in g[i] ==> x !in Group(ts, j, |ts|, true)
    ensures forall x :: x in g[j] ==> x in Group(ts, j, |ts|, true)
  {
    hide Group, Pool, Inside, FileFor, Matches, RepeatsAPath, Fitting, Leads, Uses;
    var space := Elements(Group(ts, j, |ts|, true));
    GroupLeads(ts, j);
    MembersStayInside(ts, j, Pool(ts, j), g);
    SharesFill(g, Members(ts, j, |ts|), space);
    InsideItself(ts[j]);
    assert j in Members(ts, j, |ts|);
    OthersGetNone(g, Members(ts, j, |ts|), space, i);
  }

  lemma OthersGetNone(g: seq<set<string>>, members: set<nat>, space: set<string>, i: nat)
    requires i < |g| && i !in members && forall x :: x in space ==> Uses(g, members, x)
    requires forall k, m :: 0 <= k < |g| && 0 <= m < |g| && k != m ==> g[k] !! g[m]
    ensures forall x :: x in g[i] ==> x !in space
  {
    forall x | x in space ensures x !in g[i] {
      var k :| k in members && k < |g| && x in g[k];
      assert g[k] !! g[i];
    }
  }

  /** But at its turn the wider requirement takes one of them. */
  lemma WiderTakesOne(ts: seq<string>, i: nat, j: nat)
    requires i < j < |ts| && Wider(ts[i], ts[j]) && !RepeatsAPath(ts)
    requires |Assign(Pool(ts, j), Asking(ts))| == |ts|
    requires exists x :: x in Assign(Pool(ts, j), Asking(ts))[j] && x in Group(ts, j, |ts|, true)
    ensures exists x :: x in Assign(Pool(ts, j), Asking(ts))[i] && x in Group(ts, j, |ts|, true)
  {
    hide Group, Pool, Inside, FileFor, Matches, Wider, Selected, Assign, RepeatsAPath, NoDuplicates;
    var pool, rs, space := Pool(ts, j), Asking(ts), Elements(Group(ts, j, |ts|, true));
    PoolMeaning(ts, j);
    GroupLeads(ts, j);
    var left := Turn(pool, rs, i, space);
    hide Leads;
    var x :| x in Assign(pool, rs)[j] && x in Group(ts, j, |ts|, true);
    assert x in left && x in space;
    WiderTakesAll(ts[i], ts[j]);
    SelectsFirst(left, rs[i], space);
    assert Assign(pool, rs)[i][0] in Assign(pool, rs)[i];
  }

  lemma UnsafePairFails(ts: seq<string>, i: nat, j: nat)
    requires i < j < |ts| && Wider(ts[i], ts[j]) && !RepeatsAPath(ts)
    ensures !Delivered(Assign(Pool(ts, j), Asking(ts)), Asking(ts))
  {
    WiderIsNotInside(ts[i], ts[j]);
    hide Group, Pool, Inside, Wider, Assign, RepeatsAPath;
    var shares := Assign(Pool(ts, j), Asking(ts));
    if Delivered(shares, Asking(ts)) {
      PoolMeaning(ts, j);
      DeliveredGivesOneEach(Pool(ts, j), ts);
      SpaceIsUsedUp(ts, j, i, Sets(shares));
      assert shares[j][0] in Sets(shares)[j];
      WiderTakesOne(ts, i, j);
    }
  }

  lemma MembersStayInside(ts: seq<string>, j: nat, pool: seq<string>, g: seq<set<string>>)
    requires j < |ts| && !RepeatsAPath(ts) && pool == Pool(ts, j) && |g| == |ts|
    requires forall k :: 0 <= k < |g| ==> g[k] <= Fitting(Elements(pool), ts[k]) && |g[k]| == 1
    ensures forall k :: k in Members(ts, j, |ts|) ==> g[k] != {} && g[k] <= Elements(Group(ts, j, |ts|, true))
  {
    PoolMeaning(ts, j);
    hide Group, Pool, Matches, Inside;
    forall k | k in Members(ts, j, |ts|) ensures g[k] != {} && g[k] <= Elements(Group(ts, j, |ts|, true)) {
      forall x | x in g[k] ensures x in Group(ts, j, |ts|, true) {
        InsideFits(ts[k], ts[j], x);
      }
    }
  }

  // From paths to verified files.

  function Evidence(paths: seq<string>): seq<FileEvidence> {
    seq(|paths|, k requires 0 <= k < |paths| => FileEvidence(paths[k], "d", ""))
  }

  lemma {:induction false} EvidenceIsEligible(paths: seq<string>, verified: set<string>)
    requires forall p :: p in paths ==> p in verified
    ensures EligiblePaths(Evidence(paths), verified) == paths
  {
    if paths != [] {
      var front := paths[..|paths| - 1];
      EvidenceIsEligible(front, verified);
      assert Evidence(paths)[..|paths| - 1] == Evidence(front);
      assert paths == front + [paths[|paths| - 1]];
    }
  }

  lemma CounterexampleFails(ts: seq<string>, rs: seq<Requirement>, files: seq<FileEvidence>, verified: set<string>)
    requires AsksFor(rs, ts) && !DeliveredIfCoverable(rs, files, verified)
    ensures !NeverFails(ts)
  {
    hide AsksFor, DeliveredIfCoverable;
  }

  lemma AllOffered(paths: seq<string>)
    requires NoDuplicates(paths)
    ensures AvailablePaths(Evidence(paths), Elements(paths)) == paths
  {
    hide EligiblePaths, Distinct;
    EvidenceIsEligible(paths, Elements(paths));
    DistinctOfDistinct(paths);
  }

  lemma UnsafePairIsACounterexample(ts: seq<string>, i: nat, j: nat)
    requires i < j < |ts| && Wider(ts[i], ts[j]) && !RepeatsAPath(ts)
    ensures !DeliveredIfCoverable(Asking(ts), Evidence(Pool(ts, j)), Elements(Pool(ts, j)))
  {
    hide Pool, Wider, Assign, Feasible, Delivered, Group, Matches, RepeatsAPath, AvailablePaths, Evidence, NoDuplicates;
    PoolMeaning(ts, j);
    AllOffered(Pool(ts, j));
    PoolCovers(ts, j);
    UnsafePairFails(ts, i, j);
  }

  lemma UnsafeListingFails(ts: seq<string>)
    requires !SafeTargets(ts) && !RepeatsAPath(ts)
    ensures !NeverFails(ts)
  {
    hide Wider, RepeatsAPath, NeverFails, DeliveredIfCoverable, Pool, Evidence;
    var i, j :| 0 <= i < j < |ts| && Wider(ts[i], ts[j]);
    UnsafePairIsACounterexample(ts, i, j);
    CounterexampleFails(ts, Asking(ts), Evidence(Pool(ts, j)), Elements(Pool(ts, j)));
  }

  /**
   * For requirements of at least one file each, the greedy order delivers whatever can be delivered, for all
   * quantities and files, exactly when no target is listed before one it is wider than, or one exact path is
   * asked for twice so that nothing can be delivered at all.
   */
  lemma NeverFailsExactly(ts: seq<string>)
    ensures NeverFails(ts) <==> SafeTargets(ts) || RepeatsAPath(ts)
  {
    if RepeatsAPath(ts) {
      forall rs, files, verified | AsksFor(rs, ts) ensures DeliveredIfCoverable(rs, files, verified) {
        RepeatedPathIsUncoverable(Elements(AvailablePaths(files, verified)), rs, ts);
      }
    } else if SafeTargets(ts) {
      forall rs, files, verified | AsksFor(rs, ts) ensures DeliveredIfCoverable(rs, files, verified) {
        DeliveredIffFeasible(rs, files, verified);
      }
    } else {
      UnsafeListingFails(ts);
    }
  }

  /** Listed the other way round it can fail: the general requirement takes the only file the specific one could use. */
  lemma GeneralFirstCanFail()
    ensures var rs := [Requirement("any", 1, "", []), Requirement("one", 1, "a", [])];
            Feasible({"a", "b"}, rs) && !Delivered(Assign(["a", "b"], rs), rs)
  {
    var rs := [Requirement("any", 1, "", []), Requirement("one", 1, "a", [])];
    var a := [{"b"}, {"a"}];
    assert "a" != "b";
    assert Serves({"a", "b"}, rs[0], a[0]) && Serves({"a", "b"}, rs[1], a[1]);
    assert Satisfies({"a", "b"}, rs, a);
    assert Selected(["a", "b"], rs[0]) == ["a"] by {
      assert ["a", "b"][1..] == ["b"] && ["b"][1..] == [];
    }
    assert Without(["a", "b"], ["a"]) == ["b"] by {
      assert ["a", "b"][1..] == ["b"] && ["b"][1..] == [];
    }
    assert Candidates(["b"], "a") == [] by { assert ["b"][1..] == []; }
    assert rs[1..] == [rs[1]];
    assert Assign(["a", "b"], rs)[1] == Selected(["b"], rs[1]);
  }
}
