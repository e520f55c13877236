// Which paths the design output may name for writing, as the fix stage reads them.
module WritePaths {
  import opened Rows

  type Path = string

  // ------------------------------------------------------------------ components

  /** `text.split("/")` */
  function Split(text: string): (parts: seq<string>)
    ensures |parts| >= 1
  {
    if text == "" then [""]
    else
      var rest := Split(text[1..]);
      if text[0] == '/' then [""] + rest else [[text[0]] + rest[0]] + rest[1..]
  }

  function Join(parts: seq<string>): string
    requires |parts| >= 1
  {
    if |parts| == 1 then parts[0] else parts[0] + "/" + Join(parts[1..])
  }

  predicate Plain(part: string) {
    part != "" && part != "." && part != ".." && '/' !in part
  }

  predicate AllPlain(parts: seq<string>) {
    forall i :: 0 <= i < |parts| ==> Plain(parts[i])
  }

  lemma {:induction false} SplitHasNoSlash(text: string)
    ensures forall i :: 0 <= i < |Split(text)| ==> '/' !in Split(text)[i]
  {
    if text != "" {
      SplitHasNoSlash(text[1..]);
    }
  }

  lemma {:induction false} SplitFirst(part: string, rest: string)
    requires '/' !in part
    ensures Split(part + "/" + rest) == [part] + Split(rest)
  {
    var text := part + "/" + rest;
    if part == "" {
      assert text[1..] == rest;
    } else {
      SplitFirst(part[1..], rest);
      assert text[1..] == part[1..] + "/" + rest && [part[0]] + part[1..] == part;
    }
  }

  lemma {:induction false} SplitWhole(part: string)
    requires '/' !in part
    ensures Split(part) == [part]
  {
    if part != "" {
      SplitWhole(part[1..]);
      assert [part[0]] + part[1..] == part;
    }
  }

  lemma {:induction false} SplitJoined(parts: seq<string>)
    requires |parts| >= 1 && forall i :: 0 <= i < |parts| ==> '/' !in parts[i]
    ensures Split(Join(parts)) == parts
  {
    if |parts| == 1 {
      SplitWhole(parts[0]);
    } else {
      SplitFirst(parts[0], Join(parts[1..]));
      SplitJoined(parts[1..]);
    }
  }

  // ------------------------------------------------------------------ normalising

  /** The component loop of `posixpath.normpath` on a relative path. */
  function Resolve(parts: seq<string>, done: seq<string>): seq<string>
    decreases |parts|
  {
    if parts == [] then done
    else
      var part := parts[0];
      var next :=
        if part == "" || part == "." then done
        else if part != ".." || done == [] || done[|done| - 1] == ".." then done + [part]
        else done[..|done| - 1];
      Resolve(parts[1..], next)
  }

  predicate PlainOrUp(part: string) {
    part != "" && part != "." && '/' !in part
  }

  predicate AllPlainOrUp(parts: seq<string>) {
    forall i :: 0 <= i < |parts| ==> PlainOrUp(parts[i])
  }

  lemma PlainUnlessUp(part: string)
    requires PlainOrUp(part)
    ensures part == ".." || Plain(part)
  {
  }

  lemma {:induction false} ResolvedParts(parts: seq<string>, done: seq<string>)
    requires forall i :: 0 <= i < |parts| ==> '/' !in parts[i]
    requires AllPlainOrUp(done)
    ensures AllPlainOrUp(Resolve(parts, done))
    decreases |parts|
  {
    if parts != [] {
      var part := parts[0];
      if part == "" || part == "." {
        ResolvedParts(parts[1..], done);
        assert Resolve(parts, done) == Resolve(parts[1..], done);
      } else if part != ".." || done == [] || done[|done| - 1] == ".." {
        ResolvedParts(parts[1..], done + [part]);
        assert Resolve(parts, done) == Resolve(parts[1..], done + [part]);
      } else {
        ResolvedParts(parts[1..], done[..|done| - 1]);
        assert Resolve(parts, done) == Resolve(parts[1..], done[..|done| - 1]);
      }
    }
  }

  lemma {:induction false} PlainPartsStay(parts: seq<string>, done: seq<string>)
    requires AllPlain(parts)
    ensures Resolve(parts, done) == done + parts
    decreases |parts|
  {
    if parts != [] {
      PlainPartsStay(parts[1..], done + [parts[0]]);
      assert done + [parts[0]] + parts[1..] == done + parts;
    } else {
      assert done + parts == done;
    }
  }

  lemma {:induction false} ResolveAppend(a: seq<string>, b: seq<string>, done: seq<string>)
    ensures Resolve(a + b, done) == Resolve(b, Resolve(a, done))
    decreases |a|
  {
    if a == [] {
      assert a + b == b;
    } else {
      var part := a[0];
      assert (a + b)[0] == part && (a + b)[1..] == a[1..] + b;
      if part == "" || part == "." {
        ResolveAppend(a[1..], b, done);
      } else if part != ".." || done == [] || done[|done| - 1] == ".." {
        ResolveAppend(a[1..], b, done + [part]);
      } else {
        ResolveAppend(a[1..], b, done[..|done| - 1]);
      }
    }
  }

  lemma ResolveFirst(part: string, rest: seq<string>, done: seq<string>)
    ensures part == "" || part == "." ==> Resolve([part] + rest, done) == Resolve(rest, done)
    ensures Plain(part) ==> Resolve([part] + rest, done) == Resolve(rest, done + [part])
    ensures part == ".." && done != [] && done[|done| - 1] != ".." ==>
              Resolve([part] + rest, done) == Resolve(rest, done[..|done| - 1])
  {
    assert ([part] + rest)[1..] == rest;
  }

  /** Anywhere in a path: empty parts and dots mean nothing, and a component followed by `..` means nothing. */
  lemma ResolveLaws(front: seq<string>, part: string, rest: seq<string>)
    ensures part == "" || part == "." ==> Resolve(front + [part] + rest, []) == Resolve(front + rest, [])
    ensures Plain(part) ==> Resolve(front + [part, ".."] + rest, []) == Resolve(front + rest, [])
  {
    hide Resolve;
    var done := Resolve(front, []);
    ResolveAppend(front, rest, []);
    ResolveAppend(front, [part] + rest, []);
    ResolveFirst(part, rest, done);
    assert front + [part] + rest == front + ([part] + rest);
    if Plain(part) {
      ResolveAppend(front, [part] + ([".."] + rest), []);
      ResolveFirst(part, [".."] + rest, done);
      ResolveFirst("..", rest, done + [part]);
      assert front + [part, ".."] + rest == front + ([part] + ([".."] + rest));
      assert (done + [part])[..|done|] == done;
    }
  }

  /** How far a path has come down from where it starts. */
  function Depth(parts: seq<string>): int {
    if parts == [] then 0
    else (if parts[0] == "" || parts[0] == "." then 0 else if parts[0] == ".." then -1 else 1) + Depth(parts[1..])
  }

  lemma {:induction false} UpStays(parts: seq<string>, done: seq<string>)
    requires done != [] && done[0] == ".."
    ensures ".." in Resolve(parts, done)
    decreases |parts|
  {
    if parts != [] {
      var part := parts[0];
      if part == "" || part == "." {
        UpStays(parts[1..], done);
      } else if part != ".." || done[|done| - 1] == ".." {
        UpStays(parts[1..], done + [part]);
      } else {
        UpStays(parts[1..], done[..|done| - 1]);
      }
    }
  }

  /** The first k parts lead out of the workspace, from a place this deep in it. */
  predicate OutAfter(parts: seq<string>, depth: nat, k: nat) {
    k <= |parts| && depth + Depth(parts[..k]) < 0
  }

  lemma OutAfterOneMore(parts: seq<string>, depth: nat, k: nat)
    requires parts != [] && k > 0 && depth + Depth(parts[..1]) >= 0
    ensures OutAfter(parts, depth, k) <==> OutAfter(parts[1..], depth + Depth(parts[..1]), k - 1)
  {
    if k <= |parts| {
      assert parts[..k][1..] == parts[1..][..k - 1];
      assert parts[..1][1..] == [];
    }
  }

  lemma {:induction false} ResolvedUpIff(parts: seq<string>, done: seq<string>)
    requires ".." !in done
    ensures ".." in Resolve(parts, done) <==> exists k: nat :: OutAfter(parts, |done|, k)
    decreases |parts|
  {
    if parts == [] {
      assert forall k: nat :: !OutAfter(parts, |done|, k);
    } else {
      var part := parts[0];
      assert parts[..1][1..] == [];
      if part == ".." && done == [] {
        UpStays(parts[1..], [".."]);
        assert [] + [part] == [".."];
        assert OutAfter(parts, 0, 1);
      } else {
        var next := if part == "" || part == "." then done else if part == ".." then done[..|done| - 1] else done + [part];
        assert Resolve(parts, done) == Resolve(parts[1..], next) && |next| == |done| + Depth(parts[..1]);
        ResolvedUpIff(parts[1..], next);
        assert !OutAfter(parts, |done|, 0);
        forall k: nat | k > 0 ensures OutAfter(parts, |done|, k) <==> OutAfter(parts[1..], |next|, k - 1) {
          OutAfterOneMore(parts, |done|, k);
        }
        if k: nat :| OutAfter(parts[1..], |next|, k) {
          assert OutAfter(parts, |done|, k + 1);
        }
      }
    }
  }

  /** `str.isspace` */
  predicate IsSpace(c: char) {
    var code := c as int;
    || 9 <= code <= 13 || 28 <= code <= 32 || code == 0x85 || code == 0xa0 || code == 0x1680 || 0x2000 <= code <= 0x200a
    || code == 0x2028 || code == 0x2029 || code == 0x202f || code == 0x205f || code == 0x3000
  }

  /** The blanks, by code point. */
  lemma IsSpaceIff(c: char)
    ensures IsSpace(c) <==>
              c as int in {9, 10, 11, 12, 13, 28, 29, 30, 31, 32, 133, 160, 5760, 8192, 8193, 8194, 8195, 8196, 8197, 8198, 8199,
                           8200, 8201, 8202, 8232, 8233, 8239, 8287, 12288}
  {
  }

  function LStrip(text: string): string {
    if text != "" && IsSpace(text[0]) then LStrip(text[1..]) else text
  }

  function RStrip(text: string): string {
    if text != "" && IsSpace(text[|text| - 1]) then RStrip(text[..|text| - 1]) else text
  }

  function Strip(text: string): string {
    RStrip(LStrip(text))
  }

  function ForwardSlashes(text: string): (t: string)
    ensures |t| == |text| && '\\' !in t
    ensures forall i :: 0 <= i < |text| ==> t[i] == if text[i] == '\\' then '/' else text[i]
  {
    seq(|text|, i requires 0 <= i < |text| => if text[i] == '\\' then '/' else text[i])
  }

  function DropDotSlash(text: string): string {
    if "./" <= text then DropDotSlash(text[2..]) else text
  }

  /** The components of a text that are left when its dots are resolved. */
  function Survivors(raw: string): seq<string> {
    Resolve(Split(DropDotSlash(ForwardSlashes(Strip(raw)))), [])
  }

  /** None for a path that leaves the workspace, "" for one that names nothing. */
  function Normalize(raw: string): Option<Path> {
    var text := DropDotSlash(ForwardSlashes(Strip(raw)));
    if text == "" then Some("")
    else if text[0] == '/' then None
    else
      var parts := Survivors(raw);
      if parts == [] then Some("")
      else if ".." in parts then None
      else Some(Join(parts))
  }

  /** What is stripped are the blanks at both ends, and what is left has none there. */
  lemma StripMeans(text: string) returns (from: nat, to: nat)
    ensures from <= to <= |text| && Strip(text) == text[from..to]
    ensures forall i :: 0 <= i < from || to <= i < |text| ==> IsSpace(text[i])
    ensures from < to ==> !IsSpace(text[from]) && !IsSpace(text[to - 1])
  {
    from := LStripMeans(text);
    var rest := text[from..];
    var kept := RStripMeans(rest);
    to := from + kept;
    assert forall i :: to <= i < |text| ==> text[i] == rest[i - from];
  }

  lemma {:induction false} LStripMeans(text: string) returns (from: nat)
    ensures from <= |text| && LStrip(text) == text[from..]
    ensures forall i :: 0 <= i < from ==> IsSpace(text[i])
    ensures from < |text| ==> !IsSpace(text[from])
  {
    from := 0;
    if text != "" && IsSpace(text[0]) {
      var more := LStripMeans(text[1..]);
      from := more + 1;
      assert forall i :: 1 <= i < |text| ==> text[i] == text[1..][i - 1];
    }
  }

  lemma {:induction false} RStripMeans(text: string) returns (to: nat)
    ensures to <= |text| && RStrip(text) == text[..to]
    ensures forall i :: to <= i < |text| ==> IsSpace(text[i])
    ensures 0 < to ==> !IsSpace(text[to - 1])
  {
    to := |text|;
    if text != "" && IsSpace(text[|text| - 1]) {
      to := RStripMeans(text[..|text| - 1]);
    }
  }

  /** The leading `./` go, all of them. */
  lemma {:induction false} DropDotSlashMeans(text: string) returns (n: nat)
    ensures 2 * n <= |text| && DropDotSlash(text) == text[2 * n..] && !("./" <= DropDotSlash(text))
    ensures forall i :: 0 <= i < n ==> text[2 * i] == '.' && text[2 * i + 1] == '/'
  {
    n := 0;
    if "./" <= text {
      var more := DropDotSlashMeans(text[2..]);
      n := more + 1;
      forall i | 0 <= i < n ensures text[2 * i] == '.' && text[2 * i + 1] == '/' {
        if i > 0 {
          assert text[2..][2 * (i - 1)] == '.';
        }
      }
    }
  }

  /**
   * A path is refused exactly when, without its outer blanks and its leading `./`, it is absolute or some of its
   * parts lead out of the workspace.
   */
  lemma RefusedIff(raw: string)
    ensures var text := DropDotSlash(ForwardSlashes(Strip(raw)));
            Normalize(raw) == None <==>
              text != "" && (text[0] == '/' || exists k: nat :: k <= |Split(text)| && Depth(Split(text)[..k]) < 0)
  {
    hide Resolve, Split, Depth;
    var text := DropDotSlash(ForwardSlashes(Strip(raw)));
    ResolvedUpIff(Split(text), []);
    assert (exists k: nat :: OutAfter(Split(text), 0, k)) <==> exists k: nat :: k <= |Split(text)| && Depth(Split(text)[..k]) < 0 by {
      if k: nat :| OutAfter(Split(text), 0, k) {
        assert k <= |Split(text)| && Depth(Split(text)[..k]) < 0;
      }
      if k: nat :| k <= |Split(text)| && Depth(Split(text)[..k]) < 0 {
        assert OutAfter(Split(text), 0, k);
      }
    }
  }

  /** A doubled slash after the leading dot makes a path absolute that stays inside the workspace. */
  lemma DotDoubleSlashIsRefused()
    ensures Normalize(".//a") == None && Normalize("./a") == Some("a")
  {
    assert Strip(".//a") == ".//a" && ForwardSlashes(".//a") == ".//a";
    assert DropDotSlash(".//a") == DropDotSlash("/a") == "/a";
    assert Strip("./a") == "./a" && ForwardSlashes("./a") == "./a" && DropDotSlash("./a") == DropDotSlash("a") == "a";
    SplitWhole("a");
    assert Resolve(["a"], []) == Resolve([], ["a"]) == ["a"];
  }

  /** A relative path inside the workspace: plain components only. */
  ghost predicate Inside(path: Path) {
    exists parts: seq<string> :: parts != [] && AllPlain(parts) && path == Join(parts)
  }

  /** Whatever the design output says, what is left of a path is inside the workspace. */
  lemma NormalizedIsInside(raw: string)
    ensures var path := Normalize(raw); path.Some? && path.value != "" ==> Inside(path.value)
  {
    var text := DropDotSlash(ForwardSlashes(Strip(raw)));
    SplitHasNoSlash(text);
    ResolvedParts(Split(text), []);
    var parts := Resolve(Split(text), []);
    if text != "" && text[0] != '/' && parts != [] && ".." !in parts {
      forall i | 0 <= i < |parts| ensures Plain(parts[i]) {
        assert parts[i] in parts;
        PlainUnlessUp(parts[i]);
      }
    }
  }

  lemma InsideMeans(path: Path)
    requires Inside(path)
    ensures path != "" && path[0] != '/' && ".." !in Split(path) && !("./" <= path)
    ensures AllPlain(Split(path)) && Join(Split(path)) == path
  {
    var parts: seq<string> :| parts != [] && AllPlain(parts) && path == Join(parts);
    SplitJoined(parts);
    assert parts[0] != "" && path[0] == parts[0][0];
  }

  /** One character in front of a text that is split already. */
  function Attached(c: char, parts: seq<string>): seq<string>
    requires |parts| >= 1
  {
    if c == '/' then [""] + parts else [[c] + parts[0]] + parts[1..]
  }

  lemma SplitIsAttached(text: string)
    requires text != ""
    ensures Split(text) == Attached(text[0], Split(text[1..]))
  {
  }

  lemma AttachedInFront(c: char, a: seq<string>, b: seq<string>)
    requires |a| >= 1
    ensures Attached(c, a + b) == Attached(c, a) + b
  {
  }

  lemma {:induction false} SplitAtSlash(text: string, rest: string)
    ensures Split(text + "/" + rest) == Split(text) + Split(rest)
  {
    var whole := text + "/" + rest;
    if text == "" {
      assert whole[1..] == rest;
    } else {
      hide Split, Attached;
      SplitAtSlash(text[1..], rest);
      SplitIsAttached(whole);
      SplitIsAttached(text);
      AttachedInFront(text[0], Split(text[1..]), Split(rest));
      assert whole[1..] == text[1..] + "/" + rest && whole[0] == text[0];
    }
  }

  lemma {:induction false} JoinOfSplit(text: string)
    ensures Join(Split(text)) == text
  {
    if text != "" {
      JoinOfSplit(text[1..]);
      var rest := Split(text[1..]);
      if text[0] == '/' {
        assert ([""] + rest)[1..] == rest;
      } else if |rest| > 1 {
        assert ([[text[0]] + rest[0]] + rest[1..])[1..] == rest[1..];
      }
    }
  }

  /** A slash at the end adds an empty part, which is dropped. */
  lemma {:induction false} PlainThenEmpty(parts: seq<string>, done: seq<string>)
    requires AllPlain(parts)
    ensures Resolve(parts + [""], done) == done + parts
    decreases |parts|
  {
    if parts == [] {
      assert (parts + [""])[1..] == [];
      assert Resolve([""], done) == Resolve([], done) == done;
    } else {
      assert (parts + [""])[1..] == parts[1..] + [""];
      PlainThenEmpty(parts[1..], done + [parts[0]]);
      assert done + [parts[0]] + parts[1..] == done + parts;
    }
  }

  lemma {:induction false} SplitChars(text: string, c: char)
    requires c !in text
    ensures forall i :: 0 <= i < |Split(text)| ==> c !in Split(text)[i]
  {
    if text != "" {
      SplitChars(text[1..], c);
    }
  }

  lemma {:induction false} ResolvedAmong(parts: seq<string>, done: seq<string>)
    ensures forall part :: part in Resolve(parts, done) ==> part in parts || part in done
    decreases |parts|
  {
    if parts != [] {
      var part := parts[0];
      if part == "" || part == "." {
        ResolvedAmong(parts[1..], done);
      } else if part != ".." || done == [] || done[|done| - 1] == ".." {
        ResolvedAmong(parts[1..], done + [part]);
      } else {
        ResolvedAmong(parts[1..], done[..|done| - 1]);
      }
    }
  }

  lemma {:induction false} JoinChars(parts: seq<string>, c: char)
    requires |parts| >= 1 && c != '/' && forall i :: 0 <= i < |parts| ==> c !in parts[i]
    ensures c !in Join(parts)
  {
    if |parts| > 1 {
      JoinChars(parts[1..], c);
    }
  }

  lemma {:induction false} SuffixHasNo(text: string, c: char)
    requires c !in text
    ensures c !in DropDotSlash(text)
  {
    if "./" <= text {
      SuffixHasNo(text[2..], c);
    }
  }

  lemma NoBackslash(raw: string)
    requires Normalize(raw).Some?
    ensures '\\' !in Normalize(raw).value
  {
    var slashed := ForwardSlashes(Strip(raw));
    var text := DropDotSlash(slashed);
    SuffixHasNo(slashed, '\\');
    SplitChars(text, '\\');
    ResolvedAmong(Split(text), []);
    var parts := Resolve(Split(text), []);
    if text != "" && text[0] != '/' && parts != [] && ".." !in parts {
      forall i | 0 <= i < |parts| ensures '\\' !in parts[i] {
        assert parts[i] in parts;
      }
      JoinChars(parts, '\\');
    }
  }

  /** Lengths, with one separator for each part. */
  function Total(parts: seq<string>): nat {
    if parts == [] then 0 else Total(parts[..|parts| - 1]) + |parts[|parts| - 1]| + 1
  }

  lemma {:induction false} TotalSplits(a: seq<string>, b: seq<string>)
    ensures Total(a + b) == Total(a) + Total(b)
  {
    if b == [] {
      assert a + b == a;
    } else {
      TotalSplits(a, b[..|b| - 1]);
      assert (a + b)[..|a + b| - 1] == a + b[..|b| - 1];
    }
  }

  lemma {:induction false} ResolveShrinks(parts: seq<string>, done: seq<string>)
    ensures Total(Resolve(parts, done)) <= Total(done) + Total(parts)
    decreases |parts|
  {
    if parts != [] {
      var part := parts[0];
      TotalSplits([part], parts[1..]);
      assert [part] + parts[1..] == parts;
      if part == "" || part == "." {
        ResolveShrinks(parts[1..], done);
      } else if part != ".." || done == [] || done[|done| - 1] == ".." {
        TotalSplits(done, [part]);
        ResolveShrinks(parts[1..], done + [part]);
      } else {
        ResolveShrinks(parts[1..], done[..|done| - 1]);
      }
    }
  }

  lemma {:induction false} JoinLength(parts: seq<string>)
    requires |parts| >= 1
    ensures |Join(parts)| + 1 == Total(parts)
  {
    if |parts| > 1 {
      JoinLength(parts[1..]);
      TotalSplits([parts[0]], parts[1..]);
      assert [parts[0]] + parts[1..] == parts;
    }
  }

  lemma {:induction false} SplitLength(text: string)
    ensures Total(Split(text)) == |text| + 1
  {
    if text != "" {
      var rest := Split(text[1..]);
      SplitLength(text[1..]);
      TotalSplits([rest[0]], rest[1..]);
      assert [rest[0]] + rest[1..] == rest;
      TotalSplits([""], rest);
      TotalSplits([[text[0]] + rest[0]], rest[1..]);
    }
  }

  lemma {:induction false} DropShrinks(text: string)
    ensures |DropDotSlash(text)| <= |text|
  {
    if "./" <= text {
      DropShrinks(text[2..]);
    }
  }

  lemma {:induction false} LStripShrinks(text: string)
    ensures |LStrip(text)| <= |text| && (|LStrip(text)| == |text| ==> LStrip(text) == text)
  {
    if text != "" && IsSpace(text[0]) {
      LStripShrinks(text[1..]);
    }
  }

  lemma {:induction false} RStripShrinks(text: string)
    ensures |RStrip(text)| <= |text| && (|RStrip(text)| == |text| ==> RStrip(text) == text)
  {
    if text != "" && IsSpace(text[|text| - 1]) {
      RStripShrinks(text[..|text| - 1]);
    }
  }

  /** Normalising never makes a text longer than it is without its outer blanks. */
  lemma NormalizeShrinks(raw: string)
    requires Normalize(raw).Some?
    ensures |Normalize(raw).value| <= |Strip(raw)| <= |raw|
    ensures Strip(raw) != raw ==> |Strip(raw)| < |raw|
  {
    LStripShrinks(raw);
    RStripShrinks(LStrip(raw));
    var text := DropDotSlash(ForwardSlashes(Strip(raw)));
    DropShrinks(ForwardSlashes(Strip(raw)));
    SplitLength(text);
    ResolveShrinks(Split(text), []);
    var parts := Resolve(Split(text), []);
    if parts != [] {
      JoinLength(parts);
    }
  }

  predicate BlankInFront(part: string) {
    part != "" && IsSpace(part[0])
  }

  predicate BlankBehind(part: string) {
    part != "" && IsSpace(part[|part| - 1])
  }

  /** Stripping leaves a text exactly when it has no blank at an end. */
  lemma StripIsSame(text: string)
    requires text != ""
    ensures Strip(text) == text <==> !IsSpace(text[0]) && !IsSpace(text[|text| - 1])
  {
    LStripShrinks(text);
    RStripShrinks(LStrip(text));
    if IsSpace(text[0]) {
      LStripShrinks(text[1..]);
    } else if IsSpace(text[|text| - 1]) {
      RStripShrinks(text[..|text| - 1]);
    }
  }

  lemma {:induction false} JoinEnds(parts: seq<string>)
    requires parts != [] && AllPlain(parts)
    ensures var path := Join(parts);
            path != "" && path[0] == parts[0][0] && path[|path| - 1] == parts[|parts| - 1][|parts[|parts| - 1]| - 1]
  {
    assert Plain(parts[0]);
    if |parts| > 1 {
      JoinEnds(parts[1..]);
    }
  }

  lemma SurvivorsArePlain(raw: string)
    requires Normalize(raw).Some? && Normalize(raw).value != ""
    ensures Survivors(raw) != [] && AllPlain(Survivors(raw)) && Normalize(raw).value == Join(Survivors(raw))
  {
    var text := DropDotSlash(ForwardSlashes(Strip(raw)));
    SplitHasNoSlash(text);
    ResolvedParts(Split(text), []);
    var parts := Survivors(raw);
    forall i | 0 <= i < |parts| ensures Plain(parts[i]) {
      assert parts[i] in parts;
      PlainUnlessUp(parts[i]);
    }
  }

  lemma NormalTwiceIff(raw: string)
    requires Normalize(raw).Some? && Normalize(raw).value != ""
    ensures Normalize(Normalize(raw).value) == Normalize(raw) <==> Strip(Normalize(raw).value) == Normalize(raw).value
  {
    hide Survivors;
    var path := Normalize(raw).value;
    NormalizedIsInside(raw);
    InsideMeans(path);
    NoBackslash(raw);
    if Strip(path) == path {
      InsideIsNormal(path);
    } else if Normalize(path).Some? {
      NormalizeShrinks(path);
    }
  }

  lemma InsideIsNormal(path: Path)
    requires Inside(path) && Strip(path) == path && '\\' !in path
    ensures Normalize(path) == Some(path)
  {
    InsideMeans(path);
    assert ForwardSlashes(path) == path;
    PlainPartsStay(Split(path), []);
    assert Resolve(Split(path), []) == Split(path);
    assert ".." !in Split(path);
  }

  /**
   * Normalising again changes a path exactly when the first component that survives has a blank in front of it, or the
   * last one a blank behind it: what stood before or after them had kept these blanks from being stripped.
   */
  lemma NormalizeTwice(raw: string)
    requires Normalize(raw).Some? && Normalize(raw).value != ""
    ensures Survivors(raw) != []
    ensures Normalize(Normalize(raw).value) == Normalize(raw) <==>
              !BlankInFront(Survivors(raw)[0]) && !BlankBehind(Survivors(raw)[|Survivors(raw)| - 1])
  {
    hide Normalize, Survivors, Strip;
    var path, parts := Normalize(raw).value, Survivors(raw);
    SurvivorsArePlain(raw);
    JoinEnds(parts);
    StripIsSame(path);
    NormalTwiceIff(raw);
    assert Plain(parts[0]) && Plain(parts[|parts| - 1]);
  }

  /** Such a path: the blank that the leading `./` protected is stripped the second time. */
  lemma NormalizeTwiceDiffers()
    ensures Normalize("./ a") == Some(" a") && Normalize(" a") == Some("a")
  {
    assert Strip("./ a") == "./ a" && ForwardSlashes("./ a") == "./ a" && DropDotSlash("./ a") == DropDotSlash(" a") == " a";
    SplitWhole(" a");
    assert Resolve([" a"], []) == Resolve([], [" a"]) == [" a"];
    assert LStrip(" a") == LStrip("a") == "a" && ForwardSlashes("a") == "a";
    SplitWhole("a");
    assert Resolve(["a"], []) == Resolve([], ["a"]) == ["a"];
  }

  // ------------------------------------------------------------------ what may be written

  predicate StartsWithAny(path: Path, prefixes: seq<string>) {
    exists i :: 0 <= i < |prefixes| && prefixes[i] <= path
  }

  predicate EndsWith(text: string, suffix: string) {
    |suffix| <= |text| && text[|text| - |suffix|..] == suffix
  }

  const EXTRA_PREFIXES: seq<string> := ["tests/", "docs/", "openspec/", "spec/", "schemas/"]
  const EXTRA_SUFFIXES: seq<string> := ["_test.py", "_test.rs", ".test.ts", ".test.tsx", ".spec.ts", ".spec.tsx"]

  function Name(path: Path): string {
    Split(path)[|Split(path)| - 1]
  }

  predicate DirectExtraAllowed(path: Path) {
    StartsWithAny(path, EXTRA_PREFIXES) || exists i :: 0 <= i < |EXTRA_SUFFIXES| && EndsWith(Name(path), EXTRA_SUFFIXES[i])
  }

  lemma EndsIff(text: string, suffix: string)
    ensures EndsWith(text, suffix) <==> exists stem :: text == stem + suffix
  {
    if EndsWith(text, suffix) {
      assert text == text[..|text| - |suffix|] + suffix;
    }
  }

  /** The name is what follows the last slash. */
  lemma NameIs(dir: string, name: string)
    requires '/' !in name
    ensures Name(dir + "/" + name) == name && Name(name) == name
  {
    SplitAtSlash(dir, name);
    SplitWhole(name);
  }

  /** The kinds of paths that may be written: below five directories, or named like a test. */
  lemma DirectExtraIff(path: Path)
    ensures DirectExtraAllowed(path) <==>
              || "tests/" <= path || "docs/" <= path || "openspec/" <= path || "spec/" <= path || "schemas/" <= path
              || EndsWith(Name(path), "_test.py") || EndsWith(Name(path), "_test.rs")
              || EndsWith(Name(path), ".test.ts") || EndsWith(Name(path), ".test.tsx")
              || EndsWith(Name(path), ".spec.ts") || EndsWith(Name(path), ".spec.tsx")
  {
    hide Name, EndsWith;
    assert EXTRA_PREFIXES[0] == "tests/" && EXTRA_PREFIXES[1] == "docs/" && EXTRA_PREFIXES[2] == "openspec/"
           && EXTRA_PREFIXES[3] == "spec/" && EXTRA_PREFIXES[4] == "schemas/";
    assert EXTRA_SUFFIXES[0] == "_test.py" && EXTRA_SUFFIXES[1] == "_test.rs" && EXTRA_SUFFIXES[2] == ".test.ts"
           && EXTRA_SUFFIXES[3] == ".test.tsx" && EXTRA_SUFFIXES[4] == ".spec.ts" && EXTRA_SUFFIXES[5] == ".spec.tsx";
  }

  predicate Writable(raw: string) {
    var path := Normalize(Strip(raw));
    path.Some? && path.value != "" && DirectExtraAllowed(path.value)
  }

  // ------------------------------------------------------------------ the values of the design output

  datatype Json = Text(text: string) | Items(items: seq<Json>) | Fields(fields: map<string, Json>) | Scalar(truthy: bool)

  predicate Truthy(value: Json) {
    match value
    case Text(text) => text != ""
    case Items(items) => items != []
    case Fields(fields) => fields != map[]
    case Scalar(truthy) => truthy
  }

  /** `str(value or "")`; what Python shows for anything but text is a parameter. */
  function Raw(value: Json, shown: Json -> string): string {
    if !Truthy(value) then "" else if value.Text? then value.text else shown(value)
  }

  /** An empty value is no text, a text is itself, and anything else is what Python shows for it. */
  lemma RawIs(value: Json, shown: Json -> string)
    ensures Raw(value, shown) == match value
                                 case Text(text) => text
                                 case Items(items) => if items == [] then "" else shown(value)
                                 case Fields(fields) => if fields == map[] then "" else shown(value)
                                 case Scalar(truthy) => if truthy then shown(value) else ""
  {
  }

  function ItemsAt(fields: map<string, Json>, key: string): seq<Json> {
    if key in fields && fields[key].Items? then fields[key].items else []
  }

  const BINDING_KEYS: seq<string> :=
    ["allowed_write_path", "allowed_write_paths", "target_path", "target_paths", "allowed_path", "allowed_paths"]

  /** A list stands for its items, and anything else but an empty value for itself. */
  function ValuesAt(fields: map<string, Json>, key: string): seq<Json> {
    if key !in fields then []
    else if fields[key].Items? then fields[key].items
    else if Truthy(fields[key]) then [fields[key]]
    else []
  }

  ghost predicate ProposedBy(binding: Json, value: Json) {
    binding.Fields? && exists k :: 0 <= k < |BINDING_KEYS| && value in ValuesAt(binding.fields, BINDING_KEYS[k])
  }

  /** Named for writing at the top level of the design output or by one of its bindings. */
  ghost predicate Proposed(spec: map<string, Json>, value: Json) {
    || value in ItemsAt(spec, "allowed_write_paths")
    || value in ItemsAt(spec, "target_paths")
    || exists binding :: binding in ItemsAt(spec, "bindings") && ProposedBy(binding, value)
  }

  /** A value under a key: an item of the list there, or what is there itself unless it is empty. */
  predicate IsAt(fields: map<string, Json>, key: string, value: Json) {
    key in fields && match fields[key]
                     case Items(items) => value in items
                     case Text(text) => value == Text(text) && text != ""
                     case Fields(inner) => value == Fields(inner) && inner != map[]
                     case Scalar(truthy) => value == Scalar(truthy) && truthy
  }

  /** Where the values come from: two lists at the top, and six keys of each binding. */
  lemma ProposedIff(spec: map<string, Json>, value: Json)
    ensures Proposed(spec, value) <==>
              || ("allowed_write_paths" in spec && spec["allowed_write_paths"].Items? && value in spec["allowed_write_paths"].items)
              || ("target_paths" in spec && spec["target_paths"].Items? && value in spec["target_paths"].items)
              || ("bindings" in spec && spec["bindings"].Items?
                  && exists fields :: Fields(fields) in spec["bindings"].items
                       && (IsAt(fields, "allowed_write_path", value) || IsAt(fields, "allowed_write_paths", value)
                           || IsAt(fields, "target_path", value) || IsAt(fields, "target_paths", value)
                           || IsAt(fields, "allowed_path", value) || IsAt(fields, "allowed_paths", value)))
  {
    hide IsAt, ValuesAt;
    forall fields: map<string, Json>
      ensures ProposedBy(Fields(fields), value) <==>
                IsAt(fields, "allowed_write_path", value) || IsAt(fields, "allowed_write_paths", value)
                || IsAt(fields, "target_path", value) || IsAt(fields, "target_paths", value)
                || IsAt(fields, "allowed_path", value) || IsAt(fields, "allowed_paths", value)
    {
      BindingIff(fields, value);
    }
    hide ProposedBy;
    if binding :| binding in ItemsAt(spec, "bindings") && ProposedBy(binding, value) {
      OnlyFieldsPropose(binding, value);
      assert binding == Fields(binding.fields);
    }
  }

  lemma OnlyFieldsPropose(binding: Json, value: Json)
    requires ProposedBy(binding, value)
    ensures binding.Fields?
  {
  }

  lemma BindingIff(fields: map<string, Json>, value: Json)
    ensures ProposedBy(Fields(fields), value) <==>
              IsAt(fields, "allowed_write_path", value) || IsAt(fields, "allowed_write_paths", value)
              || IsAt(fields, "target_path", value) || IsAt(fields, "target_paths", value)
              || IsAt(fields, "allowed_path", value) || IsAt(fields, "allowed_paths", value)
  {
    assert BINDING_KEYS[0] == "allowed_write_path" && BINDING_KEYS[1] == "allowed_write_paths" && BINDING_KEYS[2] == "target_path"
           && BINDING_KEYS[3] == "target_paths" && BINDING_KEYS[4] == "allowed_path" && BINDING_KEYS[5] == "allowed_paths";
    forall key ensures value in ValuesAt(fields, key) <==> IsAt(fields, key, value) {
    }
    hide IsAt, ValuesAt;
  }

  method BindingValues(binding: Json) returns (values: seq<Json>)
    ensures forall value :: value in values <==> ProposedBy(binding, value)
  {
    values := [];
    if !binding.Fields? {
      return;
    }
    for n := 0 to |BINDING_KEYS|
      invariant forall value :: value in values <==> exists k :: 0 <= k < n && value in ValuesAt(binding.fields, BINDING_KEYS[k])
    {
      values := values + ValuesAt(binding.fields, BINDING_KEYS[n]);
    }
  }

  method CollectValues(spec: map<string, Json>) returns (values: seq<Json>)
    ensures forall value :: value in values <==> Proposed(spec, value)
  {
    hide ItemsAt, ProposedBy;
    values := ItemsAt(spec, "allowed_write_paths") + ItemsAt(spec, "target_paths");
    ghost var top := values;
    var bindings := ItemsAt(spec, "bindings");
    for n := 0 to |bindings|
      invariant forall value :: value in values <==> value in top || exists i :: 0 <= i < n && ProposedBy(bindings[i], value)
    {
      var more := BindingValues(bindings[n]);
      values := values + more;
    }
  }

  /** The path is what some proposed value normalises to, and of an admitted kind. */
  ghost predicate Admitted(spec: map<string, Json>, shown: Json -> string, path: Path) {
    exists value :: Proposed(spec, value) && AdmittedAs(Raw(value, shown), path)
  }

  predicate AdmittedAs(raw: string, path: Path) {
    Writable(raw) && Normalize(Strip(raw)) == Some(path)
  }

  ghost predicate Rejected(spec: map<string, Json>, shown: Json -> string, raw: string) {
    exists value :: Proposed(spec, value) && RejectedAs(Raw(value, shown), raw)
  }

  predicate RejectedAs(value: string, raw: string) {
    !Writable(value) && Strip(value) == raw && raw != ""
  }

  /** The write set: every admissible value normalised, once; every other value but a blank one is invalid. */
  method AllowedWritePaths(spec: map<string, Json>, shown: Json -> string) returns (paths: seq<Path>, invalid: set<string>)
    ensures forall path :: path in paths <==> Admitted(spec, shown, path)
    ensures forall path :: path in paths ==> Inside(path) && DirectExtraAllowed(path)
    ensures forall i, j :: 0 <= i < j < |paths| ==> paths[i] != paths[j]
    ensures forall raw :: raw in invalid <==> Rejected(spec, shown, raw)
  {
    hide Proposed, Normalize, Strip, Inside, DirectExtraAllowed;
    var values := CollectValues(spec);
    paths, invalid := [], {};
    var seen: set<Path> := {};
    for n := 0 to |values|
      invariant forall path :: path in paths <==> exists i :: 0 <= i < n && AdmittedAs(Raw(values[i], shown), path)
      invariant forall path :: path in paths ==> Inside(path) && DirectExtraAllowed(path)
      invariant forall path :: path in seen <==> path in paths
      invariant forall i, j :: 0 <= i < j < |paths| ==> paths[i] != paths[j]
      invariant forall raw :: raw in invalid <==> exists i :: 0 <= i < n && RejectedAs(Raw(values[i], shown), raw)
    {
      var value := Raw(values[n], shown);
      var raw := Strip(value);
      var normalized := Normalize(raw);
      NormalizedIsInside(raw);
      if normalized.None? || normalized.value == "" || !DirectExtraAllowed(normalized.value) {
        assert !Writable(value);
        if raw != "" {
          invalid := invalid + {raw};
        }
      } else {
        assert Writable(value) && AdmittedAs(value, normalized.value);
        if normalized.value !in seen {
          paths := paths + [normalized.value];
          seen := seen + {normalized.value};
        }
      }
    }
  }
}
