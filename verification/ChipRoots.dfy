// Which attachment chips of a page are kept: one per root, none inside another, in document order.
module ChipRoots {

  type Path = seq<int>

  /** A candidate chip; `filename` is normalised, "" when it has none. */
  datatype Chip = Chip(root: Path, seed: Path, filename: string)

  // ------------------------------------------------------------------ paths

  predicate PathPrefix(prefix: Path, value: Path) {
    |prefix| <= |value| && forall i :: 0 <= i < |prefix| ==> prefix[i] == value[i]
  }

  function ComparePath(left: Path, right: Path): int {
    if left == [] || right == [] then |left| - |right|
    else if left[0] != right[0] then left[0] - right[0]
    else ComparePath(left[1..], right[1..])
  }

  /** The loop of the comparison. */
  method ComparePathLoop(left: Path, right: Path) returns (order: int)
    ensures order == ComparePath(left, right)
  {
    var length := if |left| <= |right| then |left| else |right|;
    for index := 0 to length
      invariant ComparePath(left, right) == ComparePath(left[index..], right[index..])
    {
      if left[index] != right[index] {
        return left[index] - right[index];
      }
      assert left[index..][1..] == left[index + 1..] && right[index..][1..] == right[index + 1..];
    }
    return |left| - |right|;
  }

  lemma {:induction false} CompareIsTotalOrder(a: Path, b: Path, c: Path)
    ensures ComparePath(a, b) == 0 <==> a == b
    ensures ComparePath(a, b) < 0 <==> ComparePath(b, a) > 0
    ensures ComparePath(a, b) < 0 && ComparePath(b, c) < 0 ==> ComparePath(a, c) < 0
    ensures PathPrefix(a, b) && a != b ==> ComparePath(a, b) < 0
    decreases |a|
  {
    if a != [] && b != [] && a[0] == b[0] {
      CompareIsTotalOrder(a[1..], b[1..], if c != [] then c[1..] else []);
      assert a == [a[0]] + a[1..] && b == [b[0]] + b[1..];
      if PathPrefix(a, b) {
        assert PathPrefix(a[1..], b[1..]) by {
          forall i | 0 <= i < |a[1..]| ensures a[1..][i] == b[1..][i] {
            assert a[i + 1] == b[i + 1];
          }
        }
      }
    }
  }

  /** Paths are compared at the first component in which they differ. */
  lemma {:induction false} CompareAtDifference(common: Path, x: int, left: Path, y: int, right: Path)
    ensures ComparePath(common + [x] + left, common + [y] + right) < 0 <==> x < y || (x == y && ComparePath(left, right) < 0)
  {
    var a, b := common + [x] + left, common + [y] + right;
    if common == [] {
      assert a == [x] + left && b == [y] + right && a[1..] == left && b[1..] == right;
    } else {
      CompareAtDifference(common[1..], x, left, y, right);
      assert a[1..] == common[1..] + [x] + left && b[1..] == common[1..] + [y] + right;
    }
  }

  lemma PrefixTransitive(a: Path, b: Path, c: Path)
    requires PathPrefix(a, b) && PathPrefix(b, c)
    ensures PathPrefix(a, c)
  {
  }

  // ------------------------------------------------------------------ what the result has to be

  predicate Anchored(chip: Chip) {
    PathPrefix(chip.root, chip.seed)
  }

  /** A root whose anchored chips all carry one and the same name. */
  predicate Unambiguous(chips: seq<Chip>, root: Path) {
    && (exists i :: 0 <= i < |chips| && Anchored(chips[i]) && chips[i].root == root)
    && (forall i :: 0 <= i < |chips| && Anchored(chips[i]) && chips[i].root == root ==> chips[i].filename != "")
    && (forall i, j ::
          (0 <= i < |chips| && Anchored(chips[i]) && chips[i].root == root
           && 0 <= j < |chips| && Anchored(chips[j]) && chips[j].root == root) ==> chips[i].filename == chips[j].filename)
  }

  /** The deepest seed of the group, the first in document order among equals. */
  predicate Preferred(left: Chip, right: Chip) {
    |left.seed| > |right.seed| || (|left.seed| == |right.seed| && ComparePath(left.seed, right.seed) <= 0)
  }

  predicate Represents(chips: seq<Chip>, chip: Chip) {
    && chip in chips && Anchored(chip) && Unambiguous(chips, chip.root)
    && forall i :: 0 <= i < |chips| && Anchored(chips[i]) && chips[i].root == chip.root ==> Preferred(chip, chips[i])
  }

  /** A chip that represents its root is of the group, which shares its name, and of its deepest seeds the first. */
  lemma RepresentsIff(chips: seq<Chip>, chip: Chip)
    ensures Represents(chips, chip) <==>
              && chip in chips && PathPrefix(chip.root, chip.seed) && chip.filename != ""
              && forall other :: other in chips && other.root == chip.root && PathPrefix(other.root, other.seed) ==>
                   && other.filename == chip.filename
                   && (|other.seed| < |chip.seed| || (|other.seed| == |chip.seed| && ComparePath(chip.seed, other.seed) <= 0))
  {
  }

  /** A root is unambiguous when there is such a chip at all: one name, not empty, in the whole group. */
  lemma UnambiguousIff(chips: seq<Chip>, root: Path)
    ensures Unambiguous(chips, root) <==>
              exists chip :: chip in chips && chip.root == root && PathPrefix(root, chip.seed) && chip.filename != ""
                && forall other :: other in chips && other.root == root && PathPrefix(root, other.seed) ==> other.filename == chip.filename
  {
    if Unambiguous(chips, root) {
      var i :| 0 <= i < |chips| && Anchored(chips[i]) && chips[i].root == root;
      assert chips[i] in chips;
    }
  }

  // ------------------------------------------------------------------ groups

  function Group(chips: seq<Chip>, root: Path): seq<Chip> {
    if chips == [] then []
    else
      var n := |chips| - 1;
      Group(chips[..n], root) + (if Anchored(chips[n]) && chips[n].root == root then [chips[n]] else [])
  }

  lemma {:induction false} GroupMeaning(chips: seq<Chip>, root: Path)
    ensures forall chip :: chip in Group(chips, root) <==> chip in chips && Anchored(chip) && chip.root == root
  {
    if chips != [] {
      var n := |chips| - 1;
      GroupMeaning(chips[..n], root);
      assert chips == chips[..n] + [chips[n]];
    }
  }

  /** The groups, keyed by root, and their keys in the order they first appear. */
  method GroupByRoot(chips: seq<Chip>) returns (groups: map<Path, seq<Chip>>, order: seq<Path>)
    ensures forall root :: root in groups <==> root in order
    ensures forall root :: root in groups ==> groups[root] == Group(chips, root) && groups[root] != []
    ensures forall root :: Group(chips, root) != [] ==> root in groups
    ensures forall i, j :: 0 <= i < j < |order| ==> order[i] != order[j]
  {
    groups, order := map[], [];
    for n := 0 to |chips|
      invariant forall root :: root in groups <==> root in order
      invariant forall root :: root in groups ==> groups[root] == Group(chips[..n], root) && groups[root] != []
      invariant forall root :: Group(chips[..n], root) != [] ==> root in groups
      invariant forall i, j :: 0 <= i < j < |order| ==> order[i] != order[j]
    {
      assert chips[..n + 1][..n] == chips[..n];
      var candidate := chips[n];
      if !Anchored(candidate) {
        continue;
      }
      var key := candidate.root;
      if key !in groups {
        order := order + [key];
      }
      groups := groups[key := (if key in groups then groups[key] else []) + [candidate]];
    }
    assert chips[..|chips|] == chips;
  }

  /** Whether all names of a group are one nonempty name. */
  method OneLabel(group: seq<Chip>) returns (one: bool)
    requires group != []
    ensures one <==> group[0].filename != "" && forall i :: 0 <= i < |group| ==> group[i].filename == group[0].filename
  {
    var labels: set<string> := {};
    for i := 0 to |group|
      invariant forall name :: name in labels <==> exists j :: 0 <= j < i && group[j].filename == name
    {
      labels := labels + {group[i].filename};
    }
    assert group[0].filename in labels;
    if labels == {group[0].filename} {
      assert forall i :: 0 <= i < |group| ==> group[i].filename in labels;
    }
    one := labels == {group[0].filename} && "" !in labels;
  }

  /** The first of the group when sorted. */
  method BestSeed(group: seq<Chip>) returns (best: Chip)
    requires group != []
    ensures best in group && forall i :: 0 <= i < |group| ==> Preferred(best, group[i])
  {
    best := group[0];
    CompareIsTotalOrder(best.seed, best.seed, best.seed);
    for i := 1 to |group|
      invariant best in group && forall j :: 0 <= j < i ==> Preferred(best, group[j])
    {
      if !Preferred(best, group[i]) {
        var next := group[i];
        forall j | 0 <= j < i ensures Preferred(next, group[j]) {
          CompareIsTotalOrder(next.seed, best.seed, group[j].seed);
          CompareIsTotalOrder(best.seed, next.seed, group[j].seed);
          CompareIsTotalOrder(best.seed, group[j].seed, next.seed);
        }
        CompareIsTotalOrder(next.seed, next.seed, next.seed);
        best := next;
      }
    }
  }

  lemma GroupDecides(chips: seq<Chip>, root: Path, group: seq<Chip>)
    requires group == Group(chips, root) && group != []
    ensures Unambiguous(chips, root) <==> group[0].filename != "" && forall i :: 0 <= i < |group| ==> group[i].filename == group[0].filename
  {
    GroupMeaning(chips, root);
    forall i | 0 <= i < |chips| && Anchored(chips[i]) && chips[i].root == root ensures chips[i] in group {
    }
    forall i | 0 <= i < |group| ensures group[i] in chips && Anchored(group[i]) && group[i].root == root {
      assert group[i] in group;
    }
    if Unambiguous(chips, root) {
      forall i | 0 <= i < |group| ensures group[i].filename == group[0].filename && group[i].filename != "" {
        var a :| 0 <= a < |chips| && chips[a] == group[i];
        var b :| 0 <= b < |chips| && chips[b] == group[0];
      }
    }
  }

  lemma BestRepresents(chips: seq<Chip>, group: seq<Chip>, best: Chip, root: Path)
    requires group == Group(chips, root) && best in group && Unambiguous(chips, root)
    requires forall i :: 0 <= i < |group| ==> Preferred(best, group[i])
    ensures Represents(chips, best) && best.root == root
  {
    hide Preferred, Unambiguous;
    GroupMeaning(chips, root);
    forall i | 0 <= i < |chips| && Anchored(chips[i]) && chips[i].root == best.root ensures Preferred(best, chips[i]) {
      assert chips[i] in group;
    }
  }

  /** What the loop over one group adds. */
  method Representative(chips: seq<Chip>, root: Path, group: seq<Chip>) returns (found: bool, best: Chip)
    requires group == Group(chips, root) && group != []
    ensures found <==> Unambiguous(chips, root)
    ensures found ==> Represents(chips, best) && best.root == root
  {
    hide Unambiguous, Represents, Preferred;
    GroupDecides(chips, root, group);
    best := group[0];
    found := OneLabel(group);
    if found {
      best := BestSeed(group);
      BestRepresents(chips, group, best, root);
    }
  }

  predicate HasRoot(roots: seq<Chip>, root: Path) {
    exists k :: 0 <= k < |roots| && roots[k].root == root
  }

  lemma UnambiguousHasGroup(chips: seq<Chip>, root: Path)
    requires Unambiguous(chips, root)
    ensures Group(chips, root) != []
  {
    GroupMeaning(chips, root);
    var i :| 0 <= i < |chips| && Anchored(chips[i]) && chips[i].root == root;
    assert chips[i] in Group(chips, root);
  }

  /** One representative for every unambiguous root. */
  method Roots(chips: seq<Chip>) returns (roots: seq<Chip>)
    ensures forall i :: 0 <= i < |roots| ==> Represents(chips, roots[i])
    ensures forall root :: Unambiguous(chips, root) ==> HasRoot(roots, root)
    ensures forall i, j :: 0 <= i < j < |roots| ==> roots[i].root != roots[j].root
  {
    hide Unambiguous, Represents;
    var groups, order := GroupByRoot(chips);
    roots := [];
    for n := 0 to |order|
      invariant forall i :: 0 <= i < |roots| ==> Represents(chips, roots[i]) && roots[i].root in order[..n]
      invariant forall i :: 0 <= i < n && Unambiguous(chips, order[i]) ==> HasRoot(roots, order[i])
      invariant forall i, j :: 0 <= i < j < |roots| ==> roots[i].root != roots[j].root
    {
      var found, best := Representative(chips, order[n], groups[order[n]]);
      if found {
        assert order[n] !in order[..n];
        assert forall root :: HasRoot(roots, root) ==> HasRoot(roots + [best], root) by {
          forall root | HasRoot(roots, root) ensures HasRoot(roots + [best], root) {
            var k :| 0 <= k < |roots| && roots[k].root == root;
            assert (roots + [best])[k].root == root;
          }
        }
        roots := roots + [best];
        assert roots[|roots| - 1].root == order[n];
      }
    }
    forall root | Unambiguous(chips, root) ensures HasRoot(roots, root) {
      UnambiguousHasGroup(chips, root);
      assert root in order;
    }
  }

  // ------------------------------------------------------------------ innermost roots, in order

  /** Some other root lies strictly below this one. */
  predicate Covers(chip: Chip, other: Chip) {
    |chip.root| < |other.root| && PathPrefix(chip.root, other.root)
  }

  predicate Kept(roots: seq<Chip>, chip: Chip) {
    forall i :: 0 <= i < |roots| ==> !Covers(chip, roots[i])
  }

  function KeptOf(roots: seq<Chip>, from: seq<Chip>): seq<Chip> {
    if from == [] then []
    else KeptOf(roots, from[..|from| - 1]) + (if Kept(roots, from[|from| - 1]) then [from[|from| - 1]] else [])
  }

  lemma {:induction false} KeptOfMeaning(roots: seq<Chip>, from: seq<Chip>)
    requires forall i, j :: 0 <= i < j < |from| ==> from[i].root != from[j].root
    ensures forall chip :: chip in KeptOf(roots, from) <==> chip in from && Kept(roots, chip)
    ensures forall i, j :: 0 <= i < j < |KeptOf(roots, from)| ==> KeptOf(roots, from)[i].root != KeptOf(roots, from)[j].root
  {
    hide Kept;
    if from != [] {
      var n := |from| - 1;
      KeptOfMeaning(roots, from[..n]);
      assert from == from[..n] + [from[n]];
      var rest := KeptOf(roots, from[..n]);
      forall i | 0 <= i < |rest| ensures rest[i].root != from[n].root {
        assert rest[i] in rest;
        var k :| 0 <= k < n && from[k] == rest[i];
      }
    }
  }

  predicate Ascending(chips: seq<Chip>) {
    forall i, j :: 0 <= i < j < |chips| ==> ComparePath(chips[i].root, chips[j].root) < 0
  }

  /** Sorting by root, as a specification: insertion keeps an ascending list ascending. */
  method SortByRoot(chips: seq<Chip>) returns (sorted: seq<Chip>)
    requires forall i, j :: 0 <= i < j < |chips| ==> chips[i].root != chips[j].root
    ensures Ascending(sorted) && multiset(sorted) == multiset(chips)
  {
    sorted := [];
    for n := 0 to |chips|
      invariant Ascending(sorted) && multiset(sorted) == multiset(chips[..n])
    {
      forall i | 0 <= i < |sorted| ensures sorted[i].root != chips[n].root {
        assert sorted[i] in multiset(chips[..n]);
        var k :| 0 <= k < n && chips[k] == sorted[i];
      }
      sorted := InsertByRoot(sorted, chips[n]);
      assert chips[..n + 1] == chips[..n] + [chips[n]];
    }
    assert chips[..|chips|] == chips;
  }

  method InsertByRoot(chips: seq<Chip>, chip: Chip) returns (sorted: seq<Chip>)
    requires Ascending(chips) && forall i :: 0 <= i < |chips| ==> chips[i].root != chip.root
    ensures Ascending(sorted) && multiset(sorted) == multiset(chips) + multiset{chip}
  {
    var at := 0;
    while at < |chips| && ComparePath(chips[at].root, chip.root) < 0
      invariant 0 <= at <= |chips|
      invariant forall i :: 0 <= i < at ==> ComparePath(chips[i].root, chip.root) < 0
    {
      at := at + 1;
    }
    sorted := chips[..at] + [chip] + chips[at..];
    assert chips == chips[..at] + chips[at..];
    if at < |chips| {
      CompareIsTotalOrder(chip.root, chips[at].root, chip.root);
      CompareIsTotalOrder(chips[at].root, chip.root, chip.root);
    }
    InsertionAscends(chips, at, chip);
  }

  lemma InsertionAscends(chips: seq<Chip>, at: nat, chip: Chip)
    requires Ascending(chips) && at <= |chips|
    requires forall i :: 0 <= i < at ==> ComparePath(chips[i].root, chip.root) < 0
    requires at < |chips| ==> ComparePath(chip.root, chips[at].root) < 0
    ensures Ascending(chips[..at] + [chip] + chips[at..])
  {
    hide ComparePath;
    forall i | at <= i < |chips| ensures ComparePath(chip.root, chips[i].root) < 0 {
      CompareIsTotalOrder(chip.root, chips[at].root, chips[i].root);
    }
    var sorted := chips[..at] + [chip] + chips[at..];
    forall i, j | 0 <= i < j < |sorted| ensures ComparePath(sorted[i].root, sorted[j].root) < 0 {
      assert sorted[i] == if i < at then chips[i] else if i == at then chip else chips[i - 1];
      assert sorted[j] == if j < at then chips[j] else if j == at then chip else chips[j - 1];
    }
  }

  /** Every root is a prefix of a kept one: follow the roots below it as long as there are any. */
  lemma {:induction false} EveryRootIsCovered(roots: seq<Chip>, kept: seq<Chip>, i: nat, bound: nat) returns (k: nat)
    requires i < |roots| && |roots[i].root| <= bound
    requires forall j :: 0 <= j < |roots| ==> |roots[j].root| <= bound
    requires forall chip :: chip in kept <==> chip in roots && Kept(roots, chip)
    ensures k < |kept| && PathPrefix(roots[i].root, kept[k].root)
    decreases bound - |roots[i].root|
  {
    if Kept(roots, roots[i]) {
      assert roots[i] in kept;
      k :| 0 <= k < |kept| && kept[k] == roots[i];
    } else {
      var j :| 0 <= j < |roots| && Covers(roots[i], roots[j]);
      k := EveryRootIsCovered(roots, kept, j, bound);
      PrefixTransitive(roots[i].root, roots[j].root, kept[k].root);
    }
  }

  function MaxLength(roots: seq<Chip>): nat {
    if roots == [] then 0
    else
      var rest := MaxLength(roots[..|roots| - 1]);
      if |roots[|roots| - 1].root| > rest then |roots[|roots| - 1].root| else rest
  }

  lemma {:induction false} MaxLengthBounds(roots: seq<Chip>)
    ensures forall j :: 0 <= j < |roots| ==> |roots[j].root| <= MaxLength(roots)
  {
    if roots != [] {
      MaxLengthBounds(roots[..|roots| - 1]);
    }
  }

  predicate Covered(kept: seq<Chip>, root: Path) {
    exists k :: 0 <= k < |kept| && PathPrefix(root, kept[k].root)
  }

  /** For any chips: the kept roots ascend, none is a prefix of another, and every unambiguous root is a prefix of a kept one. */
  method ObserveAttachmentChips(candidates: seq<Chip>) returns (kept: seq<Chip>)
    ensures Ascending(kept)
    ensures forall i, j :: 0 <= i < |kept| && 0 <= j < |kept| && i != j ==> !PathPrefix(kept[i].root, kept[j].root)
    ensures forall i :: 0 <= i < |kept| ==> Represents(candidates, kept[i])
    ensures forall root :: Unambiguous(candidates, root) ==> Covered(kept, root)
  {
    hide Represents, Unambiguous, PathPrefix;
    var roots := Roots(candidates);
    var filtered := KeptOf(roots, roots);
    KeptOfMeaning(roots, roots);
    kept := SortByRoot(filtered);
    assert forall chip :: chip in kept <==> chip in multiset(kept);
    assert forall chip :: chip in kept <==> chip in filtered;
    forall i | 0 <= i < |kept| ensures Represents(candidates, kept[i]) {
      assert kept[i] in kept;
      var k :| 0 <= k < |roots| && roots[k] == kept[i];
    }
    KeptIsAntichain(roots, kept);
    forall root | Unambiguous(candidates, root) ensures Covered(kept, root) {
      var i :| 0 <= i < |roots| && roots[i].root == root;
      MaxLengthBounds(roots);
      var k := EveryRootIsCovered(roots, kept, i, MaxLength(roots));
    }
  }

  lemma KeptIsAntichain(roots: seq<Chip>, kept: seq<Chip>)
    requires Ascending(kept) && forall chip :: chip in kept <==> chip in roots && Kept(roots, chip)
    ensures forall i, j :: 0 <= i < |kept| && 0 <= j < |kept| && i != j ==> !PathPrefix(kept[i].root, kept[j].root)
  {
    forall i, j | 0 <= i < |kept| && 0 <= j < |kept| && i != j ensures !PathPrefix(kept[i].root, kept[j].root) {
      assert kept[i] in kept && kept[j] in kept;
      var b :| 0 <= b < |roots| && roots[b] == kept[j];
      assert !Covers(kept[i], roots[b]);
      CompareIsTotalOrder(kept[i].root, kept[j].root, kept[i].root);
      if PathPrefix(kept[i].root, kept[j].root) {
        SameLengthPrefix(kept[i].root, kept[j].root);
        assert false;
      }
    }
  }

  lemma SameLengthPrefix(a: Path, b: Path)
    requires PathPrefix(a, b) && |a| >= |b|
    ensures a == b
  {
  }
}
