/** Assigning verified files to delivery requirements, and when the greedy order is optimal. */
module Delivery {
  import opened Text

  datatype FileEvidence = FileEvidence(path: string, digest: string, producerTaskId: string)

  /** A required kind of evidence about one deliverable, or about the whole goal. */
  datatype Criterion = Criterion(kind: string, text: string, description: string)

  datatype Requirement = Requirement(id: string, quantity: nat, target: string, criteria: seq<Criterion>)

  predicate StartsWith(s: string, prefix: string) {
    |prefix| <= |s| && s[..|prefix|] == prefix
  }

  predicate IsDirectory(target: string) {
    target != "" && target[|target| - 1] == '/'
  }

  /** The prefix a directory target stands for. */
  function DirectoryPrefix(target: string): string {
    StripTrailing(target, '/') + "/"
  }

  /** No target takes any file, a directory target its contents, a path target that path. */
  predicate Matches(target: string, path: string) {
    if target == "" then true
    else if IsDirectory(target) then StartsWith(path, DirectoryPrefix(target))
    else path == target
  }

  // The assignment, as a function of the available paths.

  function Candidates(available: seq<string>, target: string): seq<string> {
    if available == [] then []
    else (if Matches(target, available[0]) then [available[0]] else []) + Candidates(available[1..], target)
  }

  function Selected(available: seq<string>, r: Requirement): seq<string> {
    var candidates := Candidates(available, r.target);
    if r.quantity < |candidates| then candidates[..r.quantity] else candidates
  }

  function Without(available: seq<string>, taken: seq<string>): seq<string> {
    if available == [] then []
    else (if available[0] in taken then [] else [available[0]]) + Without(available[1..], taken)
  }

  function Assign(available: seq<string>, rs: seq<Requirement>): seq<seq<string>>
    decreases |rs|
  {
    if rs == [] then []
    else [Selected(available, rs[0])] + Assign(Without(available, Selected(available, rs[0])), rs[1..])
  }

  lemma AssignStep(available: seq<string>, rs: seq<Requirement>, i: nat)
    requires i < |rs|
    ensures var selected := Selected(available, rs[i]);
            Assign(available, rs[i..]) == [selected] + Assign(Without(available, selected), rs[i + 1..])
  {
    assert rs[i..][0] == rs[i] && rs[i..][1..] == rs[i + 1..];
  }

  lemma NothingToAssign(available: seq<string>)
    ensures Assign(available, []) == []
  {
  }

  /** The verified, digested paths, in first-seen order. */
  function AvailablePaths(files: seq<FileEvidence>, verified: set<string>): seq<string> {
    Distinct(EligiblePaths(files, verified))
  }

  function EligiblePaths(files: seq<FileEvidence>, verified: set<string>): seq<string> {
    if files == [] then []
    else
      EligiblePaths(files[..|files| - 1], verified)
      + if files[|files| - 1].path in verified && files[|files| - 1].digest != "" then [files[|files| - 1].path] else []
  }

  /** A path is on offer exactly when it is verified and some record of it has a digest. */
  lemma {:induction false} EligibleExactly(files: seq<FileEvidence>, verified: set<string>, p: string)
    ensures p in EligiblePaths(files, verified) <==> p in verified && exists f :: f in files && f.path == p && f.digest != ""
  {
    if files != [] {
      var front, last := files[..|files| - 1], files[|files| - 1];
      EligibleExactly(front, verified, p);
      assert files == front + [last];
    }
  }

  lemma OnOfferExactly(files: seq<FileEvidence>, verified: set<string>, p: string)
    ensures p in AvailablePaths(files, verified) <==> p in verified && exists f :: f in files && f.path == p && f.digest != ""
  {
    EligibleExactly(files, verified, p);
    DistinctMeaning(EligiblePaths(files, verified));
    hide EligiblePaths, Distinct;
  }

  /** The files on offer, in first-seen order, with the latest receipt of each. */
  method CollectReceipts(files: seq<FileEvidence>, verified: set<string>)
    returns (available: seq<string>, receipts: map<string, FileEvidence>)
    ensures available == AvailablePaths(files, verified)
    ensures forall p :: p in receipts <==> p in available
    ensures forall p :: p in receipts ==> receipts[p].path == p && receipts[p] in files && p in verified && receipts[p].digest != ""
  {
    available, receipts := [], map[];
    for i := 0 to |files|
      invariant available == AvailablePaths(files[..i], verified)
      invariant forall p :: p in receipts <==> p in available
      invariant forall p :: p in receipts ==> receipts[p].path == p && receipts[p] in files && p in verified && receipts[p].digest != ""
    {
      var item := files[i];
      assert files[..i + 1][..i] == files[..i];
      ghost var eligible := EligiblePaths(files[..i], verified);
      if item.path in verified && item.digest != "" {
        DistinctSnoc(eligible, item.path);
        assert EligiblePaths(files[..i + 1], verified) == eligible + [item.path];
        if item.path !in available {
          available := available + [item.path];
        }
        receipts := receipts[item.path := item];
      } else {
        assert EligiblePaths(files[..i + 1], verified) == eligible;
      }
    }
    assert files[..|files|] == files;
  }

  /** `delivery_paths`: takes files away from `available` as it assigns them. */
  method DeliveryPaths(rs: seq<Requirement>, files: seq<FileEvidence>, verified: set<string>)
    returns (assignments: seq<seq<string>>, receipts: map<string, FileEvidence>)
    ensures assignments == Assign(AvailablePaths(files, verified), rs)
    ensures forall p :: p in receipts ==> receipts[p].path == p && receipts[p] in files && p in verified && receipts[p].digest != ""
    ensures forall p :: p in receipts <==> p in AvailablePaths(files, verified)
  {
    var available, kept := CollectReceipts(files, verified);
    receipts := kept;
    assignments := [];
    ghost var all := Assign(available, rs);
    hide Candidates, Without, Distinct, EligiblePaths, Assign;
    assert rs[0..] == rs;
    for i := 0 to |rs|
      invariant |assignments| == i
      invariant assignments + Assign(available, rs[i..]) == all
    {
      var candidates := Candidates(available, rs[i].target);
      var selected := if rs[i].quantity < |candidates| then candidates[..rs[i].quantity] else candidates;
      AssignStep(available, rs, i);
      assert assignments + ([selected] + Assign(Without(available, selected), rs[i + 1..]))
          == assignments + [selected] + Assign(Without(available, selected), rs[i + 1..]);
      assignments := assignments + [selected];
      available := Without(available, selected);
    }
    NothingToAssign(available);
    assert rs[|rs|..] == [] && assignments + [] == assignments;
  }

  // The same assignment on sets of files.

  function Elements(s: seq<string>): set<string> {
    set x | x in s
  }

  function Fitting(files: set<string>, target: string): set<string> {
    set p | p in files && Matches(target, p)
  }

  function Union(g: seq<set<string>>): set<string> {
    if g == [] then {} else Union(g[..|g| - 1]) + g[|g| - 1]
  }

  function Min(a: nat, b: nat): nat { if a < b then a else b }

  /** Requirement i receives as many still unassigned fitting files as it may. */
  ghost predicate Greedy(files: set<string>, rs: seq<Requirement>, g: seq<set<string>>) {
    |g| == |rs| && forall i :: 0 <= i < |g| ==> GreedyAt(files, rs, g, i)
  }

  ghost predicate GreedyAt(files: set<string>, rs: seq<Requirement>, g: seq<set<string>>, i: nat)
    requires i < |g| == |rs|
  {
    var left := Fitting(files, rs[i].target) - Union(g[..i]);
    g[i] <= left && |g[i]| == Min(rs[i].quantity, |left|)
  }

  /** Some way of giving every requirement its files, no file twice. */
  ghost predicate Feasible(files: set<string>, rs: seq<Requirement>) {
    exists a: seq<set<string>> :: Satisfies(files, rs, a)
  }

  ghost predicate Satisfies(files: set<string>, rs: seq<Requirement>, a: seq<set<string>>) {
    && |a| == |rs|
    && (forall i :: 0 <= i < |a| ==> Serves(files, rs[i], a[i]))
    && (forall i, j :: 0 <= i < j < |a| ==> a[i] !! a[j])
  }

  ghost predicate Serves(files: set<string>, r: Requirement, share: set<string>) {
    share <= Fitting(files, r.target) && |share| >= r.quantity
  }

  lemma {:induction false} CandidatesMeaning(available: seq<string>, target: string)
    requires NoDuplicates(available)
    ensures forall x :: x in Candidates(available, target) <==> x in available && Matches(target, x)
    ensures NoDuplicates(Candidates(available, target))
  {
    if available != [] {
      NoDuplicatesTail(available);
      CandidatesMeaning(available[1..], target);
      NoDuplicatesCons(available[0], Candidates(available[1..], target));
      assert [] + Candidates(available[1..], target) == Candidates(available[1..], target);
    }
  }

  lemma {:induction false} WithoutMeaning(available: seq<string>, taken: seq<string>)
    requires NoDuplicates(available)
    ensures forall x :: x in Without(available, taken) <==> x in available && x !in taken
    ensures NoDuplicates(Without(available, taken))
  {
    if available != [] {
      NoDuplicatesTail(available);
      WithoutMeaning(available[1..], taken);
      NoDuplicatesCons(available[0], Without(available[1..], taken));
      assert [] + Without(available[1..], taken) == Without(available[1..], taken);
    }
  }

  lemma {:induction false} DistinctSize(s: seq<string>)
    requires NoDuplicates(s)
    ensures |Elements(s)| == |s|
  {
    if s != [] {
      DistinctSize(s[..|s| - 1]);
      assert s == s[..|s| - 1] + [s[|s| - 1]];
      assert Elements(s) == Elements(s[..|s| - 1]) + {s[|s| - 1]};
    }
  }

  function Sets(g: seq<seq<string>>): seq<set<string>> {
    seq(|g|, i requires 0 <= i < |g| => Elements(g[i]))
  }

  lemma SelectedMeaning(available: seq<string>, r: Requirement)
    requires NoDuplicates(available)
    ensures NoDuplicates(Selected(available, r))
    ensures Elements(Selected(available, r)) <= Fitting(Elements(available), r.target)
    ensures |Elements(Selected(available, r))| == |Selected(available, r)| == Min(r.quantity, |Fitting(Elements(available), r.target)|)
  {
    var candidates := Candidates(available, r.target);
    CandidatesMeaning(available, r.target);
    assert Elements(candidates) == Fitting(Elements(available), r.target);
    DistinctSize(candidates);
    DistinctSize(Selected(available, r));
    assert forall x :: x in Selected(available, r) ==> x in candidates;
  }

  lemma {:induction false} UnionOfFirst(first: set<string>, rest: seq<set<string>>)
    ensures Union([first] + rest) == first + Union(rest)
  {
    if rest != [] {
      UnionOfFirst(first, rest[..|rest| - 1]);
      assert ([first] + rest)[..|rest|] == [first] + rest[..|rest| - 1];
    } else {
      assert [first] + rest == [first] && [first][..0] == [];
    }
  }

  /** Serving one requirement and then the rest from what is left is serving them all. */
  lemma FittingWithout(files: set<string>, first: set<string>, target: string)
    ensures Fitting(files - first, target) == Fitting(files, target) - first
  {
  }

  lemma GreedyCons(files: set<string>, r: Requirement, rs: seq<Requirement>, first: set<string>, rest: seq<set<string>>)
    requires first <= Fitting(files, r.target) && |first| == Min(r.quantity, |Fitting(files, r.target)|)
    requires Greedy(files - first, rs, rest)
    ensures Greedy(files, [r] + rs, [first] + rest)
  {
    hide Matches, Fitting;
    var g, all := [first] + rest, [r] + rs;
    forall i | 0 <= i < |g| ensures GreedyAt(files, all, g, i) {
      if i == 0 {
        assert Fitting(files, r.target) - Union(g[..0]) == Fitting(files, r.target);
      } else {
        assert GreedyAt(files - first, rs, rest, i - 1);
        UnionOfFirst(first, rest[..i - 1]);
        FittingWithout(files, first, rs[i - 1].target);
        assert all[i] == rs[i - 1] && g[..i] == [first] + rest[..i - 1];
        assert Fitting(files, all[i].target) - Union(g[..i]) == Fitting(files - first, rs[i - 1].target) - Union(rest[..i - 1]);
        assert rest[i - 1] == g[i];
      }
    }
  }

  /** The recursive assignment is greedy in the order the requirements are listed. */
  lemma {:induction false} AssignIsGreedy(available: seq<string>, rs: seq<Requirement>)
    requires NoDuplicates(available)
    ensures Greedy(Elements(available), rs, Sets(Assign(available, rs)))
    ensures forall i :: 0 <= i < |Assign(available, rs)| ==> |Assign(available, rs)[i]| == |Sets(Assign(available, rs))[i]|
    decreases |rs|
  {
    if rs != [] {
      var chosen := Selected(available, rs[0]);
      var left := Without(available, chosen);
      SelectedMeaning(available, rs[0]);
      WithoutMeaning(available, chosen);
      assert Elements(left) == Elements(available) - Elements(chosen);
      AssignIsGreedy(left, rs[1..]);
      var rest := Assign(left, rs[1..]);
      GreedyCons(Elements(available), rs[0], rs[1..], Elements(chosen), Sets(rest));
      assert [rs[0]] + rs[1..] == rs;
      assert Sets(Assign(available, rs)) == [Elements(chosen)] + Sets(rest);
    }
  }

  lemma {:induction false} InUnion(g: seq<set<string>>, k: nat, i: nat)
    requires i < k <= |g|
    ensures g[i] <= Union(g[..k])
  {
    assert g[..k][..k - 1] == g[..k - 1];
    if i < k - 1 { InUnion(g, k - 1, i); }
  }

  /** No file is delivered twice, and every file delivered fits its requirement. */
  lemma GreedyIsDisjoint(files: set<string>, rs: seq<Requirement>, g: seq<set<string>>)
    requires Greedy(files, rs, g)
    ensures forall i, j :: 0 <= i < j < |g| ==> g[i] !! g[j]
    ensures forall i :: 0 <= i < |g| ==> g[i] <= Fitting(files, rs[i].target) && |g[i]| <= rs[i].quantity
  {
    forall j | 0 <= j < |g| ensures g[j] <= Fitting(files, rs[j].target) && |g[j]| <= rs[j].quantity && g[j] !! Union(g[..j]) {
      assert GreedyAt(files, rs, g, j);
    }
    forall i, j | 0 <= i < j < |g| ensures g[i] !! g[j] {
      InUnion(g, j, i);
    }
  }

  // Optimality.

  /** Earlier requirements fit either inside a later one or clear of it. */
  ghost predicate SpecificFirst(files: set<string>, rs: seq<Requirement>) {
    forall i, j :: 0 <= i < j < |rs| ==> NestedOrApart(files, rs[i].target, rs[j].target)
  }

  ghost predicate NestedOrApart(files: set<string>, inner: string, outer: string) {
    Fitting(files, inner) <= Fitting(files, outer) || Fitting(files, inner) !! Fitting(files, outer)
  }

  /** Everything assignment `a` gives to those of the first `k` requirements that lie inside `space`. */
  ghost function Inside(files: set<string>, rs: seq<Requirement>, a: seq<set<string>>, space: set<string>, k: nat): set<string>
    requires k <= |rs| == |a|
  {
    if k == 0 then {}
    else Inside(files, rs, a, space, k - 1) + if Fitting(files, rs[k - 1].target) <= space then a[k - 1] else {}
  }

  lemma {:induction false} InsideMeaning(files: set<string>, rs: seq<Requirement>, a: seq<set<string>>, space: set<string>, k: nat, i: nat)
    requires Satisfies(files, rs, a) && k <= i <= |rs|
    ensures Inside(files, rs, a, space, k) <= space
    ensures i < |rs| ==> Inside(files, rs, a, space, k) !! a[i]
  {
    if k > 0 {
      InsideMeaning(files, rs, a, space, k - 1, i);
      assert Serves(files, rs[k - 1], a[k - 1]);
    }
  }

  /** One requirement inside the space adds to the greedy use no more than to the satisfying assignment's. */
  lemma UseGrowsLess(before: set<string>, mine: set<string>, inside: set<string>, theirs: set<string>, space: set<string>)
    requires |before| <= |inside| && |mine| <= |theirs| && inside !! theirs
    ensures |before + mine * space| <= |inside + theirs|
  {
    SizeOfUnion(before, mine * space);
    SubsetSize(mine * space, mine);
    DisjointSize(inside, theirs);
  }

  /** Of any space nested with the earlier requirements, the greedy order uses no more than any satisfying assignment. */
  lemma {:induction false} GreedyUsesNoMore(
    files: set<string>, rs: seq<Requirement>, g: seq<set<string>>, a: seq<set<string>>, i: nat, k: nat)
    requires Greedy(files, rs, g) && Satisfies(files, rs, a) && SpecificFirst(files, rs)
    requires k <= i < |rs|
    ensures |Union(g[..k]) * Fitting(files, rs[i].target)| <= |Inside(files, rs, a, Fitting(files, rs[i].target), k)|
    decreases k
  {
    var space := Fitting(files, rs[i].target);
    if k == 0 {
      assert Union(g[..0]) * space == {};
    } else {
      var last := k - 1;
      GreedyUsesNoMore(files, rs, g, a, i, last);
      assert g[..k][..last] == g[..last];
      assert Union(g[..k]) * space == Union(g[..last]) * space + g[last] * space;
      assert GreedyAt(files, rs, g, last) && Serves(files, rs[last], a[last]);
      assert NestedOrApart(files, rs[last].target, rs[i].target);
      if Fitting(files, rs[last].target) <= space {
        InsideMeaning(files, rs, a, space, last, last);
        UseGrowsLess(Union(g[..last]) * space, g[last], Inside(files, rs, a, space, last), a[last], space);
      } else {
        assert g[last] * space == {};
        assert Union(g[..k]) * space == Union(g[..last]) * space;
      }
    }
  }

  lemma {:induction false} SubsetSize(a: set<string>, b: set<string>)
    requires a <= b
    ensures |a| <= |b|
  {
    if a != {} {
      var x :| x in a;
      SubsetSize(a - {x}, b - {x});
    }
  }

  lemma DisjointSize(a: set<string>, b: set<string>)
    requires a !! b
    ensures |a + b| == |a| + |b|
  {
  }

  lemma SizeOfUnion(a: set<string>, b: set<string>)
    ensures |a + b| <= |a| + |b|
  {
    assert a + b == a + (b - a);
    SubsetSize(b - a, b);
  }

  lemma DifferenceSize(a: set<string>, b: set<string>)
    ensures |a - b| == |a| - |b * a|
  {
    assert a == (a - b) + b * a;
  }

  /** Listed most specific first, the greedy order satisfies every requirement whenever any assignment does. */
  lemma GreedyIsOptimal(files: set<string>, rs: seq<Requirement>, g: seq<set<string>>)
    requires Greedy(files, rs, g) && SpecificFirst(files, rs)
    ensures (forall i :: 0 <= i < |rs| ==> |g[i]| == rs[i].quantity) <==> Feasible(files, rs)
  {
    GreedyIsDisjoint(files, rs, g);
    if forall i :: 0 <= i < |rs| ==> |g[i]| == rs[i].quantity {
      forall i | 0 <= i < |rs| ensures Serves(files, rs[i], g[i]) {
      }
      assert Satisfies(files, rs, g);
    }
    if Feasible(files, rs) {
      var a :| Satisfies(files, rs, a);
      forall i | 0 <= i < |rs| ensures |g[i]| == rs[i].quantity {
        EnoughIsLeft(files, rs, g, a, i);
      }
    }
  }

  /** When its turn comes, enough of a requirement's own space is still free. */
  lemma EnoughIsLeft(files: set<string>, rs: seq<Requirement>, g: seq<set<string>>, a: seq<set<string>>, i: nat)
    requires Greedy(files, rs, g) && Satisfies(files, rs, a) && SpecificFirst(files, rs) && i < |rs|
    ensures |g[i]| == rs[i].quantity
  {
    var space := Fitting(files, rs[i].target);
    var inside := Inside(files, rs, a, space, i);
    GreedyUsesNoMore(files, rs, g, a, i, i);
    InsideMeaning(files, rs, a, space, i, i);
    assert Serves(files, rs[i], a[i]) && GreedyAt(files, rs, g, i);
    DisjointSize(inside, a[i]);
    SubsetSize(inside + a[i], space);
    DifferenceSize(space, Union(g[..i]));
  }

  // Which listings are safe, from the targets alone.

  /** How specific a target is: a path beats its directories, an inner directory beats an outer one. */
  function Rank(target: string): nat {
    if target == "" then 0
    else if IsDirectory(target) then |DirectoryPrefix(target)|
    else |target| + 1
  }

  /** `wide` takes every file `narrow` could use, and others besides. */
  predicate Wider(wide: string, narrow: string) {
    if narrow == "" then false
    else if wide == "" then true
    else if !IsDirectory(wide) then false
    else if IsDirectory(narrow) then
      StartsWith(DirectoryPrefix(narrow), DirectoryPrefix(wide)) && DirectoryPrefix(narrow) != DirectoryPrefix(wide)
    else StartsWith(narrow, DirectoryPrefix(wide))
  }

  /** No target is listed before one it is wider than. */
  predicate SafeOrder(rs: seq<Requirement>) {
    forall i, j :: 0 <= i < j < |rs| ==> !Wider(rs[i].target, rs[j].target)
  }

  ghost predicate Within(inner: string, outer: string) { forall p :: Matches(inner, p) ==> Matches(outer, p) }

  ghost predicate Apart(a: string, b: string) { forall p :: Matches(a, p) ==> !Matches(b, p) }

  lemma PrefixOfPrefix(path: string, short: string, long: string)
    requires StartsWith(path, long) && |short| <= |long|
    ensures StartsWith(path, short) <==> StartsWith(long, short)
  {
    assert path[..|long|][..|short|] == path[..|short|];
  }

  lemma DirectoriesNest(inner: string, outer: string)
    requires IsDirectory(inner) && IsDirectory(outer) && !Wider(inner, outer)
    ensures Within(inner, outer) || Apart(inner, outer)
  {
    var a, b := DirectoryPrefix(inner), DirectoryPrefix(outer);
    if !Apart(inner, outer) {
      var p :| Matches(inner, p) && Matches(outer, p);
      hide DirectoryPrefix;
      if |b| <= |a| {
        PrefixOfPrefix(p, b, a);
        forall q | Matches(inner, q) ensures Matches(outer, q) { PrefixOfPrefix(q, b, a); }
      } else {
        PrefixOfPrefix(p, a, b);
      }
    }
  }

  /** A target that is not wider than a later one fits inside it or shares no path with it, over all files there could be. */
  lemma NotWiderNests(inner: string, outer: string)
    requires !Wider(inner, outer)
    ensures Within(inner, outer) || Apart(inner, outer)
  {
    if outer != "" && inner != "" && IsDirectory(inner) {
      if IsDirectory(outer) { DirectoriesNest(inner, outer); }
    }
  }

  /** A wider target really takes all the narrow one's files, and a narrow target fits inside a wide one only. */
  lemma WiderTakesAll(wide: string, narrow: string)
    requires Wider(wide, narrow)
    ensures Within(narrow, wide)
  {
    if wide != "" && IsDirectory(narrow) {
      var a, b := DirectoryPrefix(narrow), DirectoryPrefix(wide);
      hide DirectoryPrefix;
      forall p | Matches(narrow, p) ensures Matches(wide, p) { PrefixOfPrefix(p, b, a); }
    }
  }

  /** A target at least as specific as another is not wider. */
  lemma RankNests(inner: string, outer: string)
    requires Rank(inner) >= Rank(outer)
    ensures !Wider(inner, outer)
  {
  }

  /** So requirements listed by falling rank are in a safe order. */
  lemma FallingRankIsSafe(rs: seq<Requirement>)
    requires forall i, j :: 0 <= i < j < |rs| ==> Rank(rs[i].target) >= Rank(rs[j].target)
    ensures SafeOrder(rs)
  {
    forall i, j | 0 <= i < j < |rs| ensures !Wider(rs[i].target, rs[j].target) {
      RankNests(rs[i].target, rs[j].target);
    }
  }

  lemma SafeOrderIsSpecificFirst(files: set<string>, rs: seq<Requirement>)
    requires SafeOrder(rs)
    ensures SpecificFirst(files, rs)
  {
    forall i, j | 0 <= i < j < |rs| ensures NestedOrApart(files, rs[i].target, rs[j].target) {
      NotWiderNests(rs[i].target, rs[j].target);
    }
  }

  /** Every requirement got all its files. */
  ghost predicate Delivered(assignments: seq<seq<string>>, rs: seq<Requirement>) {
    |assignments| == |rs| && forall i :: 0 <= i < |rs| ==> |assignments[i]| == rs[i].quantity
  }

  lemma {:induction false} AssignLength(available: seq<string>, rs: seq<Requirement>)
    ensures |Assign(available, rs)| == |rs|
    decreases |rs|
  {
    if rs != [] { AssignLength(Without(available, Selected(available, rs[0])), rs[1..]); }
  }

  /** In a safe order, the requirements are all delivered exactly when the files can cover them at all. */
  lemma AssignIffFeasible(available: seq<string>, rs: seq<Requirement>)
    requires SafeOrder(rs) && NoDuplicates(available)
    ensures Delivered(Assign(available, rs), rs) <==> Feasible(Elements(available), rs)
  {
    AssignIsGreedy(available, rs);
    AssignLength(available, rs);
    SafeOrderIsSpecificFirst(Elements(available), rs);
    GreedyIsOptimal(Elements(available), rs, Sets(Assign(available, rs)));
  }

  lemma DeliveredIffFeasible(rs: seq<Requirement>, files: seq<FileEvidence>, verified: set<string>)
    requires SafeOrder(rs)
    ensures Delivered(Assign(AvailablePaths(files, verified), rs), rs) <==>
            Feasible(Elements(AvailablePaths(files, verified)), rs)
  {
    DistinctMeaning(EligiblePaths(files, verified));
    AssignIffFeasible(AvailablePaths(files, verified), rs);
  }
}
