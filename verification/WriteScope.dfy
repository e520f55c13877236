// From the design output to the pushed commit: fix, verify, decide and push, over a git
// checkout that nobody touches after the fix.
//
// Two listings of the checkout are compared: one collapses a directory without tracked files
// into a single entry, the other names every file. A commit takes the whole index, so what a
// listing hides is committed all the same.
module WriteScope {
  import opened Rows
  import opened WritePaths

  type Content = nat

  type Tree = map<Path, Content>

  /** Last commit, index and working tree; `renames` are the staged renames git reports, new name to old. */
  datatype Repo = Repo(head: Tree, index: Tree, work: Tree, renames: map<Path, Path>)

  function At(tree: Tree, path: Path): Option<Content> {
    if path in tree then Some(tree[path]) else None
  }

  predicate Under(dir: Path, path: Path) {
    dir + "/" <= path
  }

  /** No file is a directory that holds another. */
  ghost predicate FilesApart(tree: Tree) {
    forall a, b :: a in tree && b in tree ==> !Under(a, b)
  }

  ghost predicate RepoOk(g: Repo) {
    && FilesApart(g.head) && FilesApart(g.index) && FilesApart(g.work)
    && (forall path :: path in g.head.Keys + g.index.Keys + g.work.Keys ==> Inside(path))
    && (forall path :: path in g.renames ==>
          path in g.index && path !in g.head && g.renames[path] in g.head && g.renames[path] !in g.index)
  }

  predicate Staged(g: Repo, path: Path) {
    At(g.head, path) != At(g.index, path)
  }

  predicate Unstaged(g: Repo, path: Path) {
    path in g.index && At(g.index, path) != At(g.work, path)
  }

  predicate Untracked(g: Repo, path: Path) {
    path in g.work && path !in g.index
  }

  predicate RenamedAway(g: Repo, path: Path) {
    path in g.renames.Values
  }

  // ------------------------------------------------------------------ git status

  /** A directory without tracked files that holds the untracked path; git names the topmost one. */
  predicate Collapses(g: Repo, dir: Path, path: Path) {
    Under(dir, path) && forall tracked :: tracked in g.index ==> !Under(dir, tracked)
  }

  /** What the line of the path names: the path, or the directory it is collapsed into. */
  ghost predicate Names(g: Repo, collapsed: bool, path: Path, name: Path) {
    if collapsed && Untracked(g, path) && exists dir :: Collapses(g, dir, path)
    then Collapses(g, name, path)
    else name == path
  }

  predicate Changed(g: Repo, path: Path) {
    || (Staged(g, path) && !RenamedAway(g, path))
    || Unstaged(g, path)
    || Untracked(g, path)
  }

  /** Which paths have a line: by what is committed, staged and in the working tree. */
  lemma ChangedIff(g: Repo, path: Path)
    requires RepoOk(g)
    ensures path !in g.index ==>
              (Changed(g, path) <==> path in g.work || (path in g.head && path !in g.renames.Values))
    ensures path in g.index ==>
              (Changed(g, path) <==>
                 || path !in g.head || g.head[path] != g.index[path]
                 || path !in g.work || g.work[path] != g.index[path])
  {
    if path in g.renames.Values {
      var name :| name in g.renames && g.renames[name] == path;
    }
  }

  /** What the line names: a directory only for an untracked path below one without tracked files, in the collapsed listing. */
  lemma NamesIff(g: Repo, collapsed: bool, path: Path, name: Path)
    ensures Names(g, collapsed, path, name) <==>
              var below := (dir: Path) => dir + "/" <= path && forall tracked :: tracked in g.index ==> !(dir + "/" <= tracked);
              if collapsed && path in g.work && path !in g.index && exists dir :: below(dir) then below(name) else name == path
  {
    var below := (dir: Path) => dir + "/" <= path && forall tracked :: tracked in g.index ==> !(dir + "/" <= tracked);
    assert forall dir :: below(dir) <==> Collapses(g, dir, path);
  }

  predicate Ordinary(c: char) {
    '!' <= c <= '~' && c != '"' && c != '\\'
  }

  predicate Clean(name: string) {
    forall i :: 0 <= i < |name| ==> Ordinary(name[i])
  }

  function Octal(code: nat): string {
    ['\\', ('0' as int + code / 64 % 8) as char, ('0' as int + code / 8 % 8) as char, ('0' as int + code % 8) as char]
  }

  function Escape(c: char): string {
    if Ordinary(c) || c == ' ' then [c]
    else if c == '"' || c == '\\' then ['\\', c]
    else if 7 <= c as int <= 13 then ['\\', "abtnvfr"[c as int - 7]]
    else Octal(c as int)
  }

  /** How git writes each byte of a quoted name: itself, after a backslash, by its letter, or in three octal digits. */
  lemma EscapeIs(c: char)
    requires c as int < 256
    ensures var code, e := c as int, Escape(c);
            if c == '"' || c == '\\' then e == ['\\', c]
            else if 32 <= code <= 126 then e == [c]
            else if 7 <= code <= 13 then
              e == ['\\', match code case 7 => 'a' case 8 => 'b' case 9 => 't' case 10 => 'n' case 11 => 'v' case 12 => 'f' case _ => 'r']
            else
              && |e| == 4 && e[0] == '\\' && (forall k :: 1 <= k <= 3 ==> '0' <= e[k] <= '7')
              && code == 64 * (e[1] as int - 48) + 8 * (e[2] as int - 48) + (e[3] as int - 48)
  {
    OctalIs(c as int);
    hide Octal;
  }

  lemma OctalIs(code: nat)
    requires code < 256
    ensures var e := Octal(code);
            && |e| == 4 && e[0] == '\\' && (forall k :: 1 <= k <= 3 ==> '0' <= e[k] <= '7')
            && code == 64 * (e[1] as int - 48) + 8 * (e[2] as int - 48) + (e[3] as int - 48)
  {
    var high, middle, low := code / 64 % 8, code / 8 % 8, code % 8;
    assert code == 64 * high + 8 * middle + low;
  }

  function Escaped(name: string): string {
    if name == "" then "" else Escape(name[0]) + Escaped(name[1..])
  }

  /** git puts a name with blanks, quotation marks, backslashes, control or non-ASCII bytes between quotation marks. */
  function Quote(name: string): string {
    if Clean(name) then name else "\"" + Escaped(name) + "\""
  }

  /** A line of `git status --porcelain` after its two letters: a path, a directory with a slash, or `old -> new`. */
  function LineText(g: Repo, path: Path, name: Path): string {
    (if path in g.renames then Quote(g.renames[path]) + " -> " else "") + Quote(if name == path then name else name + "/")
  }

  /** Every line stands for a changed path, and every changed path has a line. */
  ghost predicate Lists(g: Repo, collapsed: bool, lines: seq<string>) {
    && (forall i :: 0 <= i < |lines| ==> StandsFor(g, collapsed, lines[i]))
    && (forall path :: Changed(g, path) ==> exists i, name :: 0 <= i < |lines| && Prints(g, collapsed, path, name, lines[i]))
  }

  ghost predicate Prints(g: Repo, collapsed: bool, path: Path, name: Path, line: string) {
    Names(g, collapsed, path, name) && line == LineText(g, path, name)
  }

  ghost predicate StandsFor(g: Repo, collapsed: bool, line: string) {
    exists path, name :: Changed(g, path) && Prints(g, collapsed, path, name, line)
  }

  // ------------------------------------------------------------------ what the stages read

  predicate Runtime(path: Path) {
    path == ".omo" || ".omo/" <= path
  }

  const ARROW := " -> "

  /** What follows the first arrow. */
  function AfterArrow(text: string): Option<string> {
    if |text| < 4 then None else if text[..4] == ARROW then Some(text[4..]) else AfterArrow(text[1..])
  }

  /** `rstrip("/")` */
  function DropSlashes(text: string): string {
    if text != "" && text[|text| - 1] == '/' then DropSlashes(text[..|text| - 1]) else text
  }

  /** The path a stage reads off a line. */
  function Listed(line: string): Path {
    var text := Strip(line);
    var arrow := AfterArrow(text);
    DropSlashes(ForwardSlashes(if arrow.Some? then arrow.value else text))
  }

  predicate OnLine(lines: seq<string>, path: Path) {
    exists i :: 0 <= i < |lines| && Listed(lines[i]) == path
  }

  /** The names on the lines, without the run's own artifacts. */
  ghost predicate AreNamesOf(lines: seq<string>, paths: seq<Path>) {
    forall path :: path in paths <==> path != "" && !Runtime(path) && OnLine(lines, path)
  }

  /** The loop of the three stages over the status lines. */
  method ChangedPaths(lines: seq<string>) returns (paths: seq<Path>)
    ensures AreNamesOf(lines, paths)
    ensures forall path :: path in paths <==>
              path != "" && path != ".omo" && !(".omo/" <= path) && exists i :: 0 <= i < |lines| && Listed(lines[i]) == path
    ensures forall i, j :: 0 <= i < j < |paths| ==> paths[i] != paths[j]
  {
    hide Listed;
    assert forall path :: Runtime(path) <==> path == ".omo" || ".omo/" <= path;
    hide Runtime;
    paths := [];
    var seen: set<Path> := {};
    for n := 0 to |lines|
      invariant AreNamesOf(lines[..n], paths)
      invariant forall path :: path in seen <==> path in paths
      invariant forall i, j :: 0 <= i < j < |paths| ==> paths[i] != paths[j]
    {
      var path := Listed(lines[n]);
      assert forall p :: OnLine(lines[..n + 1], p) <==> OnLine(lines[..n], p) || p == path by {
        assert lines[..n + 1] == lines[..n] + [lines[n]];
        OneLineMore(lines[..n], lines[n]);
      }
      if path != "" && !Runtime(path) && path !in seen {
        paths := paths + [path];
        seen := seen + {path};
      }
    }
    assert lines[..|lines|] == lines;
  }

  lemma OneLineMore(lines: seq<string>, line: string)
    ensures forall p :: OnLine(lines + [line], p) <==> OnLine(lines, p) || p == Listed(line)
  {
    hide Listed;
    forall p | OnLine(lines, p) || p == Listed(line) ensures OnLine(lines + [line], p) {
      if OnLine(lines, p) {
        var i :| 0 <= i < |lines| && Listed(lines[i]) == p;
        assert Listed((lines + [line])[i]) == p;
      } else {
        assert Listed((lines + [line])[|lines|]) == p;
      }
    }
  }

  // ------------------------------------------------------------------ what a line without quotation marks says

  lemma {:induction false} NoArrowInClean(text: string)
    requires Clean(text)
    ensures AfterArrow(text) == None
  {
    if |text| >= 4 {
      assert Ordinary(text[0]) && text[..4][0] != ARROW[0];
      NoArrowInClean(text[1..]);
    }
  }

  lemma {:induction false} ArrowAfterClean(former: string, rest: string)
    requires Clean(former)
    ensures AfterArrow(former + ARROW + rest) == Some(rest)
  {
    var text := former + ARROW + rest;
    if former == "" {
      assert text[..4] == ARROW && text[4..] == rest;
    } else {
      assert Ordinary(former[0]) && text[..4][0] != ARROW[0];
      assert text[1..] == former[1..] + ARROW + rest;
      ArrowAfterClean(former[1..], rest);
    }
  }

  lemma QuotedShows(name: string)
    requires '"' !in Quote(name)
    ensures Clean(name) && Quote(name) == name
  {
  }

  lemma CleanIsUnchanged(text: string)
    requires Clean(text) && text != ""
    ensures Strip(text) == text && ForwardSlashes(text) == text
  {
    assert Ordinary(text[0]) && Ordinary(text[|text| - 1]);
  }

  lemma {:induction false} JoinHasNoEmptyPart(parts: seq<string>)
    requires parts != [] && AllPlain(parts)
    ensures var path := Join(parts);
            && path != "" && path[0] != '/' && path[|path| - 1] != '/'
            && forall i :: 0 <= i < |path| - 1 ==> path[i] != '/' || path[i + 1] != '/'
  {
    assert Plain(parts[0]);
    if |parts| > 1 {
      JoinHasNoEmptyPart(parts[1..]);
    }
  }

  /** Neither a path inside the workspace nor a directory that holds it ends in a slash. */
  lemma NameEnds(path: Path, name: Path)
    requires Inside(path) && (name == path || Under(name, path))
    ensures name != "" && name[|name| - 1] != '/'
  {
    var parts: seq<string> :| parts != [] && AllPlain(parts) && path == Join(parts);
    JoinHasNoEmptyPart(parts);
    if name != path {
      assert (name + "/")[|name|] == '/' && path[|name|] == '/';
      if name != "" {
        assert path[|name| - 1] == name[|name| - 1];
      }
    }
  }

  /** A line without quotation marks is read as the name git printed. */
  lemma LineIsRead(g: Repo, collapsed: bool, path: Path, name: Path, line: string)
    requires RepoOk(g) && Changed(g, path) && Prints(g, collapsed, path, name, line) && '"' !in line
    ensures Listed(line) == name
  {
    hide Changed, RepoOk, Inside, Clean, Strip, AfterArrow;
    var shown := if name == path then name else name + "/";
    NamedIsInside(g, collapsed, path, name);
    NameEnds(path, name);
    QuotedShows(shown);
    SlashDropped(name, shown);
    CleanIsUnchanged(shown);
    if path in g.renames {
      QuotedShows(g.renames[path]);
      ArrowLine(g.renames[path], shown);
    } else {
      NoArrowInClean(shown);
      assert line == shown;
    }
  }

  lemma NamedIsInside(g: Repo, collapsed: bool, path: Path, name: Path)
    requires RepoOk(g) && Changed(g, path) && Names(g, collapsed, path, name)
    ensures Inside(path) && (name == path || Under(name, path))
    ensures path in g.renames ==> g.renames[path] != ""
  {
    assert path in g.head.Keys + g.index.Keys + g.work.Keys;
    if path in g.renames {
      assert g.renames[path] in g.head.Keys + g.index.Keys + g.work.Keys;
      InsideMeans(g.renames[path]);
    }
  }

  lemma SlashDropped(name: Path, shown: string)
    requires name != "" && name[|name| - 1] != '/' && (shown == name || shown == name + "/")
    ensures DropSlashes(shown) == name && shown != ""
  {
    if shown == name + "/" {
      assert shown[..|shown| - 1] == name;
    }
  }

  lemma ArrowLine(former: string, shown: string)
    requires Clean(former) && Clean(shown) && shown != "" && former != ""
    ensures var line := former + ARROW + shown; Strip(line) == line && AfterArrow(line) == Some(shown)
  {
    var line := former + ARROW + shown;
    assert line[0] == former[0] && Ordinary(former[0]);
    assert line[|line| - 1] == shown[|shown| - 1] && Ordinary(shown[|shown| - 1]);
    ArrowAfterClean(former, shown);
  }

  ghost predicate AreChangedPaths(g: Repo, collapsed: bool, paths: seq<Path>) {
    && (forall name :: name in paths ==>
          name != "" && !Runtime(name) && exists path :: Changed(g, path) && Names(g, collapsed, path, name))
    && (forall path :: Changed(g, path) ==>
          exists name :: Names(g, collapsed, path, name) && (name in paths || Runtime(name) || name == ""))
  }

  predicate NothingQuoted(lines: seq<string>) {
    forall i :: 0 <= i < |lines| ==> '"' !in lines[i]
  }

  /** What a stage knows of the checkout: the status lines git printed, and what its loop made of them. */
  ghost predicate Listing(g: Repo, collapsed: bool, lines: seq<string>, paths: seq<Path>) {
    Lists(g, collapsed, lines) && AreNamesOf(lines, paths)
  }

  lemma PartIsClean(dir: Path, path: Path)
    requires Clean(path) && Under(dir, path)
    ensures Clean(dir + "/")
  {
    var prefix := dir + "/";
    forall i | 0 <= i < |prefix| ensures Ordinary(prefix[i]) {
      assert path[i] == prefix[i];
    }
  }

  lemma CleanTextIsNotQuoted(g: Repo, path: Path, name: Path)
    requires '"' !in LineText(g, path, path) && (name == path || Under(name, path))
    ensures '"' !in LineText(g, path, name)
  {
    hide Clean, Escaped;
    var former := if path in g.renames then Quote(g.renames[path]) + ARROW else "";
    assert LineText(g, path, path) == former + Quote(path);
    QuotedShows(path);
    if name != path {
      PartIsClean(name, path);
      CleanHasNoMark(name + "/");
      assert LineText(g, path, name) == former + (name + "/");
    }
  }

  lemma CleanHasNoMark(text: string)
    requires Clean(text)
    ensures '"' !in text
  {
  }

  /** The changed path and the name behind a line. */
  lemma StoodFor(g: Repo, collapsed: bool, lines: seq<string>, i: nat) returns (path: Path, name: Path)
    requires Lists(g, collapsed, lines) && i < |lines|
    ensures Changed(g, path) && Names(g, collapsed, path, name) && lines[i] == LineText(g, path, name)
  {
    hide Changed, Names, LineText;
    assert StandsFor(g, collapsed, lines[i]);
    hide Lists;
    path, name :| Changed(g, path) && Prints(g, collapsed, path, name, lines[i]);
  }

  lemma CollapsedLineIsNotQuoted(g: Repo, full: seq<string>, path: Path, name: Path)
    requires RepoOk(g) && Lists(g, false, full) && NothingQuoted(full) && Changed(g, path) && Names(g, true, path, name)
    ensures '"' !in LineText(g, path, name)
  {
    hide RepoOk, Changed, Names, LineText;
    var i, same :| 0 <= i < |full| && Prints(g, false, path, same, full[i]);
    FullNameIsThePath(g, path, same);
    NamedIsInside(g, true, path, name);
    CleanTextIsNotQuoted(g, path, name);
  }

  /** When the full listing has no quotation marks, neither has the collapsed one. */
  lemma CollapsedIsNotQuoted(g: Repo, full: seq<string>, collapsed: seq<string>)
    requires RepoOk(g) && Lists(g, false, full) && NothingQuoted(full) && Lists(g, true, collapsed)
    ensures NothingQuoted(collapsed)
  {
    hide RepoOk, Changed, Names, LineText, Lists;
    forall i | 0 <= i < |collapsed| ensures '"' !in collapsed[i] {
      var path, name := StoodFor(g, true, collapsed, i);
      CollapsedLineIsNotQuoted(g, full, path, name);
    }
  }

  lemma FullNameIsThePath(g: Repo, path: Path, name: Path)
    requires Names(g, false, path, name)
    ensures name == path
  {
  }

  /** What the loop makes of a listing in which nothing is quoted are the changed paths. */
  lemma ListingIsChangedPaths(g: Repo, collapsed: bool, lines: seq<string>, paths: seq<Path>)
    requires RepoOk(g) && Listing(g, collapsed, lines, paths) && NothingQuoted(lines)
    ensures AreChangedPaths(g, collapsed, paths)
  {
    hide RepoOk, Changed, Names, Runtime, Lists, Listed, OnLine;
    forall name | name in paths ensures exists path :: Changed(g, path) && Names(g, collapsed, path, name) {
      NamedLine(g, collapsed, lines, name);
    }
    forall path | Changed(g, path)
      ensures exists name :: Names(g, collapsed, path, name) && (name in paths || Runtime(name) || name == "")
    {
      var name := LineOf(g, collapsed, lines, path);
    }
  }

  lemma NamedLine(g: Repo, collapsed: bool, lines: seq<string>, name: Path)
    requires RepoOk(g) && Lists(g, collapsed, lines) && NothingQuoted(lines) && OnLine(lines, name)
    ensures exists path :: Changed(g, path) && Names(g, collapsed, path, name)
  {
    hide RepoOk, Changed, Names, Listed, LineText, Lists;
    var i: nat :| i < |lines| && Listed(lines[i]) == name;
    var path, printed := StoodFor(g, collapsed, lines, i);
    LineIsRead(g, collapsed, path, printed, lines[i]);
    assert Names(g, collapsed, path, name);
  }

  lemma LineOf(g: Repo, collapsed: bool, lines: seq<string>, path: Path) returns (name: Path)
    requires RepoOk(g) && Lists(g, collapsed, lines) && NothingQuoted(lines) && Changed(g, path)
    ensures Names(g, collapsed, path, name) && OnLine(lines, name)
  {
    hide RepoOk, Changed, Names, Listed, LineText;
    var i, printed :| 0 <= i < |lines| && Prints(g, collapsed, path, printed, lines[i]);
    LineIsRead(g, collapsed, path, printed, lines[i]);
    name := printed;
  }

  // ------------------------------------------------------------------ the stages

  datatype FixStatus = ClearNoop | Fixed | ScopeViolation

  datatype Fix = Fix(status: FixStatus, scopeOk: bool, changed: seq<Path>, allowed: seq<Path>, writes: seq<Path>, violations: set<Path>)

  /** The scope computation at the end of the fix. */
  function FixResult(changed: seq<Path>, allowed: seq<Path>, writes: seq<Path>, inputsOk: bool): Fix {
    var violations := set path | path in changed && path !in allowed;
    var scopeOk := inputsOk && violations == {};
    Fix(if changed == [] && scopeOk then ClearNoop else if scopeOk then Fixed else ScopeViolation,
        scopeOk, changed, allowed, writes, violations)
  }

  /** A fix that changed nothing, one whose changes are all allowed, or a violation; any input at fault is one too. */
  lemma FixResultIs(changed: seq<Path>, allowed: seq<Path>, writes: seq<Path>, inputsOk: bool)
    ensures var fix := FixResult(changed, allowed, writes, inputsOk);
            && fix.changed == changed && fix.allowed == allowed && fix.writes == writes
            && (forall path :: path in fix.violations <==> path in changed && path !in allowed)
            && (fix.scopeOk <==> inputsOk && forall path :: path in changed ==> path in allowed)
            && (fix.status == ClearNoop <==> inputsOk && changed == [])
            && (fix.status == Fixed <==> inputsOk && changed != [] && forall path :: path in changed ==> path in allowed)
  {
  }

  datatype Verdict = Verdict(f1: bool, f2: bool, f3: bool, f4: bool, approved: bool)

  const FORBIDDEN_PATH_PREFIXES: seq<string> := [".github/", ".opencode/", "src/"]
  const FORBIDDEN_PATHS: set<Path> := {"Cargo.toml", "Cargo.lock", "opencode.json"}

  predicate Forbidden(path: Path) {
    path in FORBIDDEN_PATHS || StartsWithAny(path, FORBIDDEN_PATH_PREFIXES)
  }

  function ForbiddenAmong(changed: seq<Path>): set<Path> {
    set path | path in changed && Forbidden(path)
  }

  function Verify(specSufficient: bool, gapHalts: bool, fix: Fix, changed: seq<Path>, work: Tree, markerOk: bool): Verdict {
    var prereqOk := specSufficient && !gapHalts && fix.scopeOk && fix.status in {ClearNoop, Fixed};
    var changedMatch := multiset(changed) == multiset(fix.changed);
    var allowedExact := forall path :: path in changed ==> path in fix.allowed;
    var forbidden := ForbiddenAmong(changed);
    var authorized := fix.status == ClearNoop || (changed != [] && forall path :: path in changed ==> path in fix.writes);
    var f1 := prereqOk && changedMatch;
    var f2 := markerOk && (fix.status == ClearNoop || changed != []);
    var f3 := changedMatch && forall path :: path in changed ==> Exists(work, path);
    var f4 := allowedExact && authorized && forbidden == {} && fix.violations == {};
    Verdict(f1, f2, f3, f4, f1 && f2 && f3 && f4)
  }

  /** A file, or a directory with a file in it. */
  predicate Exists(work: Tree, path: Path) {
    path in work || exists file :: file in work && Under(path, file)
  }

  datatype Decision = Fizzled | SpecGapHalt | NoActionableWork | ClearNoopTerminal | ScopedPush

  datatype Design = Design(shouldHalt: bool, specSufficient: bool, noActionableWork: bool)

  function Decide(
    blocked: bool, design: Design, gapHalts: bool, fixSucceeded: bool, fix: Fix, boulderCompleted: bool,
    verifySucceeded: bool, verdict: Verdict): Decision
  {
    if blocked then Fizzled
    else if design.shouldHalt || !design.specSufficient then if gapHalts then SpecGapHalt else Fizzled
    else if design.noActionableWork then NoActionableWork
    else if !fixSucceeded || !fix.scopeOk || fix.status == ScopeViolation then Fizzled
    else if fix.status == Fixed && !boulderCompleted then Fizzled
    else if !verifySucceeded
            || !(verdict.f1 && verdict.f2 && verdict.f3 && verdict.f4 && verdict.approved) then Fizzled
    else if fix.status == ClearNoop then ClearNoopTerminal
    else ScopedPush
  }

  /** What the four lenses look at, condition by condition. */
  lemma LensesAre(specSufficient: bool, gapHalts: bool, fix: Fix, changed: seq<Path>, work: Tree, markerOk: bool)
    ensures var verdict, same := Verify(specSufficient, gapHalts, fix, changed, work, markerOk), multiset(changed) == multiset(fix.changed);
            && (verdict.f1 <==> specSufficient && !gapHalts && fix.scopeOk && fix.status != ScopeViolation && same)
            && (verdict.f2 <==> markerOk && (fix.status == ClearNoop || changed != []))
            && (verdict.f3 <==> same && forall path :: path in changed ==> path in work || exists file :: file in work && path + "/" <= file)
            && (verdict.f4 <==>
                  && (forall path :: path in changed ==>
                        && path in fix.allowed && (path in fix.writes || fix.status == ClearNoop)
                        && path != "Cargo.toml" && path != "Cargo.lock" && path != "opencode.json"
                        && !(".github/" <= path) && !(".opencode/" <= path) && !("src/" <= path))
                  && (changed != [] || fix.status == ClearNoop) && fix.violations == {})
            && (verdict.approved <==> verdict.f1 && verdict.f2 && verdict.f3 && verdict.f4)
  {
    forall path ensures Forbidden(path) <==>
        path in {"Cargo.toml", "Cargo.lock", "opencode.json"} || ".github/" <= path || ".opencode/" <= path || "src/" <= path
    {
      ForbiddenIff(path);
    }
    hide Forbidden;
    assert ForbiddenAmong(changed) == {} <==> forall path :: path in changed ==> !Forbidden(path) by {
      assert forall path :: path in changed && Forbidden(path) ==> path in ForbiddenAmong(changed);
    }
  }

  lemma ForbiddenIff(path: Path)
    ensures Forbidden(path) <==>
              path in {"Cargo.toml", "Cargo.lock", "opencode.json"} || ".github/" <= path || ".opencode/" <= path || "src/" <= path
  {
    assert FORBIDDEN_PATH_PREFIXES[0] == ".github/" && FORBIDDEN_PATH_PREFIXES[1] == ".opencode/" && FORBIDDEN_PATH_PREFIXES[2] == "src/";
  }

  /** When each decision is taken; in every other case the cast fizzles. */
  lemma DecisionIff(
    blocked: bool, design: Design, gapHalts: bool, fixSucceeded: bool, fix: Fix, boulderCompleted: bool,
    verifySucceeded: bool, verdict: Verdict)
    ensures var decision := Decide(blocked, design, gapHalts, fixSucceeded, fix, boulderCompleted, verifySucceeded, verdict);
            var verified := verifySucceeded && verdict == Verdict(true, true, true, true, true);
            var open := !blocked && !design.shouldHalt && design.specSufficient;
            && (decision == SpecGapHalt <==> !blocked && gapHalts && (design.shouldHalt || !design.specSufficient))
            && (decision == NoActionableWork <==> open && design.noActionableWork)
            && (decision == ClearNoopTerminal <==>
                  open && !design.noActionableWork && fixSucceeded && fix.scopeOk && fix.status == ClearNoop && verified)
            && (decision == ScopedPush <==>
                  open && !design.noActionableWork && fixSucceeded && fix.scopeOk && fix.status == Fixed && boulderCompleted && verified)
  {
  }

  // ------------------------------------------------------------------ the commit

  /** `git add -- paths` takes a path and everything below it as it is in the working tree. */
  predicate Added(paths: seq<Path>, path: Path) {
    exists name :: name in paths && (path == name || Under(name, path))
  }

  function IndexAfterAdd(g: Repo, paths: seq<Path>, path: Path): Option<Content> {
    if Added(paths, path) then At(g.work, path) else At(g.index, path)
  }

  /** The commit takes the index as it is, listed or not. */
  predicate Committed(g: Repo, paths: seq<Path>, path: Path) {
    IndexAfterAdd(g, paths, path) != At(g.head, path)
  }

  /** A staged change that no listing shows: the old name of a staged rename, or an artifact of the run. */
  predicate Hidden(g: Repo, path: Path) {
    Staged(g, path) && (Runtime(path) || !Changed(g, path))
  }

  lemma RuntimeBelow(name: Path, path: Path)
    requires Under(name, path) && Runtime(path) && name != ""
    ensures Runtime(name)
  {
    var slash := |name|;
    assert (name + "/")[slash] == '/' && path[slash] == '/';
    if path != ".omo" && slash >= 5 {
      assert name == path[..slash] && ".omo/" <= name;
    } else if path != ".omo" {
      var prefix := ".omo/";
      assert prefix[slash] == path[slash];
      assert prefix[0] == '.' && prefix[1] == 'o' && prefix[2] == 'm' && prefix[3] == 'o';
      assert slash == 4;
      assert name == path[..4] == ".omo";
    }
  }

  /** A changed path whose line in the full listing is read as another one. */
  predicate Misread(g: Repo, path: Path) {
    Changed(g, path) && Listed(LineText(g, path, path)) != path
  }

  /**
   * Whatever the push adds: hidden changes are committed, and what is committed was listed in full, is hidden, or
   * stood on a line that is misread.
   */
  lemma CommittedIs(g: Repo, fullLines: seq<string>, full: seq<Path>, pushedLines: seq<string>, pushed: seq<Path>, path: Path)
    requires RepoOk(g) && Listing(g, false, fullLines, full) && AreNamesOf(pushedLines, pushed)
    ensures Hidden(g, path) ==> Committed(g, pushed, path)
    ensures Committed(g, pushed, path) ==> path in full || Hidden(g, path) || Misread(g, path)
  {
    hide Listing, RepoOk, Names, LineText, Listed;
    if Added(pushed, path) {
      AddedIsNotRuntime(pushedLines, pushed, path);
    }
    if Changed(g, path) && !Misread(g, path) {
      ReadIsListed(g, fullLines, full, path);
    }
  }

  lemma AddedIsNotRuntime(lines: seq<string>, pushed: seq<Path>, path: Path)
    requires AreNamesOf(lines, pushed) && Added(pushed, path)
    ensures !Runtime(path)
  {
    hide OnLine;
    var name :| name in pushed && (path == name || Under(name, path));
    assert name != "" && !Runtime(name);
    if path != name && Runtime(path) {
      RuntimeBelow(name, path);
    }
  }

  /** A changed path that is not misread is read off the full listing. */
  lemma ReadIsListed(g: Repo, lines: seq<string>, full: seq<Path>, path: Path)
    requires RepoOk(g) && Listing(g, false, lines, full) && Changed(g, path) && !Misread(g, path)
    ensures path in full || Runtime(path)
  {
    hide RepoOk, Changed, Names, Listed, LineText, Runtime;
    var i, name :| 0 <= i < |lines| && Prints(g, false, path, name, lines[i]);
    FullNameIsThePath(g, path, name);
    ChangedIsNamed(g, path);
    assert OnLine(lines, path);
  }

  lemma ChangedIsNamed(g: Repo, path: Path)
    requires RepoOk(g) && Changed(g, path)
    ensures path != ""
  {
    assert path in g.head.Keys + g.index.Keys + g.work.Keys;
    InsideMeans(path);
  }

  /** When git quoted nothing, the commit is what was verified, as far as it differs from the last commit, and what is hidden. */
  lemma CommittedIff(g: Repo, fullLines: seq<string>, full: seq<Path>, pushedLines: seq<string>, pushed: seq<Path>, path: Path)
    requires RepoOk(g) && Listing(g, false, fullLines, full) && Listing(g, true, pushedLines, pushed) && NothingQuoted(fullLines)
    ensures Committed(g, pushed, path) <==> Hidden(g, path) || (path in full && At(g.work, path) != At(g.head, path))
  {
    hide RepoOk, Lists, AreNamesOf, NothingQuoted, Committed, Hidden, Misread, AreChangedPaths;
    ListingsAreChangedPaths(g, fullLines, full, pushedLines, pushed);
    if path in full {
      FullIsAdded(g, full, pushed, path);
      AddedIsCommitted(g, pushed, path);
      FullIsOpen(g, full, path);
    } else {
      NothingMisread(g, fullLines, path);
      CommittedIs(g, fullLines, full, pushedLines, pushed, path);
    }
  }

  lemma AddedIsCommitted(g: Repo, pushed: seq<Path>, path: Path)
    requires Added(pushed, path)
    ensures Committed(g, pushed, path) <==> At(g.work, path) != At(g.head, path)
  {
  }

  lemma FullIsOpen(g: Repo, full: seq<Path>, path: Path)
    requires AreChangedPaths(g, false, full) && path in full
    ensures !Hidden(g, path)
  {
    hide Changed, Runtime;
    var changed :| Changed(g, changed) && Names(g, false, changed, path);
    FullNameIsThePath(g, changed, path);
  }

  lemma ListingHasNames(g: Repo, collapsed: bool, lines: seq<string>, paths: seq<Path>)
    requires Listing(g, collapsed, lines, paths)
    ensures Lists(g, collapsed, lines) && AreNamesOf(lines, paths)
  {
  }

  lemma NothingMisread(g: Repo, lines: seq<string>, path: Path)
    requires RepoOk(g) && Lists(g, false, lines) && NothingQuoted(lines)
    ensures !Misread(g, path)
  {
    hide RepoOk, Changed, Names, LineText, Listed;
    if Changed(g, path) {
      var i, name :| 0 <= i < |lines| && Prints(g, false, path, name, lines[i]);
      FullNameIsThePath(g, path, name);
      LineIsRead(g, false, path, path, lines[i]);
    }
  }

  /** The push adds every path that was listed in full, by its own name or that of a directory that holds it. */
  lemma FullIsAdded(g: Repo, full: seq<Path>, pushed: seq<Path>, path: Path)
    requires RepoOk(g) && AreChangedPaths(g, false, full) && AreChangedPaths(g, true, pushed) && path in full
    ensures Added(pushed, path)
  {
    hide RepoOk, Changed, Runtime;
    var changed :| Changed(g, changed) && Names(g, false, changed, path);
    FullNameIsThePath(g, changed, path);
    var name :| Names(g, true, path, name) && (name in pushed || Runtime(name) || name == "");
    NamedIsInside(g, true, path, name);
    NameEnds(path, name);
    if name != path && Runtime(name) {
      RuntimeAbove(name, path);
    }
  }

  lemma RuntimeAbove(name: Path, path: Path)
    requires Under(name, path) && Runtime(name)
    ensures Runtime(path)
  {
    if name == ".omo" {
      assert name + "/" == ".omo/";
    } else {
      assert path[..5] == name[..5] == ".omo/";
    }
  }

  // ------------------------------------------------------------------ the chain

  /** How the stages ended apart from what they say about paths. */
  datatype Flags = Flags(
    blocked: bool, gapHalts: bool, fixSucceeded: bool, boulderCompleted: bool, verifySucceeded: bool, markerOk: bool)

  ghost predicate WithinWrites(g: Repo, pushed: seq<Path>, writes: seq<Path>) {
    forall path :: Committed(g, pushed, path) ==> path in writes
  }

  /** What approval by the four lenses says about a checkout that the fix changed. */
  lemma ApprovedMeans(specSufficient: bool, gapHalts: bool, fix: Fix, changed: seq<Path>, work: Tree, markerOk: bool)
    requires Verify(specSufficient, gapHalts, fix, changed, work, markerOk).approved && fix.status == Fixed
    ensures changed != [] && multiset(changed) == multiset(fix.changed)
    ensures forall path :: path in changed ==> path in fix.writes && path in fix.allowed && !Forbidden(path) && Exists(work, path)
  {
    hide Forbidden, Exists;
    forall path | path in changed ensures !Forbidden(path) && Exists(work, path) {
      assert path !in ForbiddenAmong(changed);
    }
  }

  /** The push is decided from what verify listed in full; `pushed` is what the push lists, directories collapsed. */
  ghost predicate PushDecided(
    g: Repo, fix: Fix, fullLines: seq<string>, full: seq<Path>, pushedLines: seq<string>, pushed: seq<Path>,
    design: Design, run: Flags)
  {
    && RepoOk(g) && Listing(g, false, fullLines, full) && Listing(g, true, pushedLines, pushed)
    && var verdict := Verify(design.specSufficient, run.gapHalts, fix, full, g.work, run.markerOk);
    Decide(run.blocked, design, run.gapHalts, run.fixSucceeded, fix, run.boulderCompleted, run.verifySucceeded, verdict) == ScopedPush
  }

  lemma ListingsAreChangedPaths(g: Repo, fullLines: seq<string>, full: seq<Path>, pushedLines: seq<string>, pushed: seq<Path>)
    requires RepoOk(g) && Listing(g, false, fullLines, full) && Listing(g, true, pushedLines, pushed)
    requires NothingQuoted(fullLines)
    ensures AreChangedPaths(g, false, full) && AreChangedPaths(g, true, pushed)
  {
    CollapsedIsNotQuoted(g, fullLines, pushedLines);
    ListingIsChangedPaths(g, false, fullLines, full);
    ListingIsChangedPaths(g, true, pushedLines, pushed);
  }

  /** The name takes the path in: it is the path, or a directory above it. */
  predicate TakesIn(name: Path, path: Path) {
    name != "" && !Runtime(name) && (path == name || Under(name, path))
  }

  predicate TakenIn(lines: seq<string>, path: Path) {
    exists i :: 0 <= i < |lines| && TakesIn(Listed(lines[i]), path)
  }

  /** What the lines of the push say of a path before anything is added: taken in as it is in the working tree, or left as it is staged. */
  predicate Goes(g: Repo, pushedLines: seq<string>, path: Path) {
    if TakenIn(pushedLines, path) then At(g.work, path) != At(g.head, path) else Staged(g, path)
  }

  lemma CommittedIffGoes(g: Repo, lines: seq<string>, pushed: seq<Path>, path: Path)
    requires AreNamesOf(lines, pushed)
    ensures Committed(g, pushed, path) <==> Goes(g, lines, path)
  {
    hide Listed, Runtime, Under;
    if TakenIn(lines, path) {
      var i :| 0 <= i < |lines| && TakesIn(Listed(lines[i]), path);
      assert OnLine(lines, Listed(lines[i])) && Listed(lines[i]) in pushed;
    }
    if Added(pushed, path) {
      var name :| name in pushed && (path == name || Under(name, path));
      assert OnLine(lines, name);
    }
  }

  /** A way out of the write set: a staged change that no listing shows, or one that goes although its line is misread. */
  predicate Escapes(g: Repo, pushedLines: seq<string>, path: Path) {
    Hidden(g, path) || (Misread(g, path) && Goes(g, pushedLines, path))
  }

  /**
   * When a push is decided, the commit stays inside the write set exactly when every change is in it that is staged
   * but hidden from the listings, or that goes although its line is misread.
   */
  lemma CommitStaysInScopeIff(
    g: Repo, fix: Fix, fullLines: seq<string>, full: seq<Path>, pushedLines: seq<string>, pushed: seq<Path>,
    design: Design, run: Flags)
    requires PushDecided(g, fix, fullLines, full, pushedLines, pushed, design, run)
    ensures WithinWrites(g, pushed, fix.writes) <==> forall path :: Escapes(g, pushedLines, path) ==> path in fix.writes
  {
    hide Listing, RepoOk, Hidden, Misread, Committed, Goes;
    ApprovedMeans(design.specSufficient, run.gapHalts, fix, full, g.work, run.markerOk);
    ListingHasNames(g, true, pushedLines, pushed);
    forall path ensures Escapes(g, pushedLines, path) ==> Committed(g, pushed, path)
      ensures Committed(g, pushed, path) ==> path in full || Escapes(g, pushedLines, path)
    {
      CommittedIs(g, fullLines, full, pushedLines, pushed, path);
      CommittedIffGoes(g, pushedLines, pushed, path);
    }
  }

  /** So when git quoted no name, it is the hidden changes alone that decide. */
  lemma UnquotedStaysInScopeIff(
    g: Repo, fix: Fix, fullLines: seq<string>, full: seq<Path>, pushedLines: seq<string>, pushed: seq<Path>,
    design: Design, run: Flags)
    requires PushDecided(g, fix, fullLines, full, pushedLines, pushed, design, run) && NothingQuoted(fullLines)
    ensures WithinWrites(g, pushed, fix.writes) <==> forall path :: Hidden(g, path) ==> path in fix.writes
  {
    hide Lists, RepoOk, Hidden, Misread, Goes, Committed, NothingQuoted, WithinWrites;
    CommitStaysInScopeIff(g, fix, fullLines, full, pushedLines, pushed, design, run);
    forall path ensures !Misread(g, path) {
      NothingMisread(g, fullLines, path);
    }
    assert forall path :: Escapes(g, pushedLines, path) <==> Hidden(g, path);
  }

  /** The write set is what the design output admitted. */
  ghost predicate FromDesign(spec: map<string, Json>, shown: Json -> string, writes: seq<Path>) {
    forall path :: path in writes ==> Admitted(spec, shown, path)
  }

  /** Relative, inside the workspace, of an admitted kind, outside the forbidden places, and there. */
  ghost predicate SoundPath(g: Repo, path: Path) {
    && Inside(path) && path != "" && path[0] != '/' && ".." !in Split(path)
    && DirectExtraAllowed(path) && !Forbidden(path) && Exists(g.work, path)
  }

  ghost predicate Sound(g: Repo, writes: seq<Path>, path: Path) {
    path in writes && SoundPath(g, path)
  }

  /** Every other committed path is one the design output admitted, outside the forbidden places, and is there. */
  lemma ListedCommitIsSound(
    g: Repo, spec: map<string, Json>, shown: Json -> string, fix: Fix, fullLines: seq<string>, full: seq<Path>, pushedLines: seq<string>,
    pushed: seq<Path>, design: Design, run: Flags, path: Path)
    requires PushDecided(g, fix, fullLines, full, pushedLines, pushed, design, run)
    requires FromDesign(spec, shown, fix.writes) && Committed(g, pushed, path) && !Hidden(g, path) && !Misread(g, path)
    ensures Sound(g, fix.writes, path)
  {
    hide Listing, RepoOk, Hidden, Misread, Committed, Forbidden, Exists;
    ApprovedMeans(design.specSufficient, run.gapHalts, fix, full, g.work, run.markerOk);
    ListingHasNames(g, true, pushedLines, pushed);
    CommittedIs(g, fullLines, full, pushedLines, pushed, path);
    AdmittedMeans(spec, shown, path);
  }

  lemma AdmittedMeans(spec: map<string, Json>, shown: Json -> string, path: Path)
    requires Admitted(spec, shown, path)
    ensures Inside(path) && ".." !in Split(path) && path != "" && path[0] != '/' && DirectExtraAllowed(path)
  {
    var value :| Proposed(spec, value) && AdmittedAs(Raw(value, shown), path);
    NormalizedIsInside(Strip(Raw(value, shown)));
    InsideMeans(path);
  }

  /** With nothing staged before the push and no name quoted nothing is hidden or misread, so the whole commit is sound. */
  lemma CleanIndexCommitsSound(
    g: Repo, spec: map<string, Json>, shown: Json -> string, fix: Fix, fullLines: seq<string>, full: seq<Path>, pushedLines: seq<string>,
    pushed: seq<Path>, design: Design, run: Flags, path: Path)
    requires PushDecided(g, fix, fullLines, full, pushedLines, pushed, design, run)
    requires NothingQuoted(fullLines) && FromDesign(spec, shown, fix.writes) && g.index == g.head && Committed(g, pushed, path)
    ensures Sound(g, fix.writes, path)
  {
    hide Verify, Decide, RepoOk, Lists, AreNamesOf, NothingQuoted, Misread, FromDesign, Committed, Sound;
    NothingMisread(g, fullLines, path);
    ListedCommitIsSound(g, spec, shown, fix, fullLines, full, pushedLines, pushed, design, run, path);
  }

  /** Committed, and neither hidden from the listings nor misread. */
  predicate InTheOpen(g: Repo, pushed: seq<Path>, path: Path) {
    Committed(g, pushed, path) && !Hidden(g, path) && !Misread(g, path)
  }

  /** Verify, decide and push over what git prints for them; None when nothing is pushed. */
  method VerifyDecidePush(g: Repo, fix: Fix, fullLines: seq<string>, pushedLines: seq<string>, design: Design, run: Flags)
    returns (full: seq<Path>, pushed: Option<seq<Path>>)
    requires RepoOk(g) && Lists(g, false, fullLines) && Lists(g, true, pushedLines)
    ensures pushed.Some? ==> pushed.value != [] && PushDecided(g, fix, fullLines, full, pushedLines, pushed.value, design, run)
    ensures pushed.Some? ==>
              (WithinWrites(g, pushed.value, fix.writes) <==> forall path :: Escapes(g, pushedLines, path) ==> path in fix.writes)
  {
    hide RepoOk, Lists, WithinWrites, Escapes;
    full := ChangedPaths(fullLines);
    var verdict := Verify(design.specSufficient, run.gapHalts, fix, full, g.work, run.markerOk);
    if Decide(run.blocked, design, run.gapHalts, run.fixSucceeded, fix, run.boulderCompleted, run.verifySucceeded, verdict) != ScopedPush {
      return full, None;
    }
    var paths := ChangedPaths(pushedLines);
    if paths == [] {
      // an empty commit is refused
      return full, None;
    }
    pushed := Some(paths);
    CommitStaysInScopeIff(g, fix, fullLines, full, pushedLines, paths, design, run);
  }

  // ------------------------------------------------------------------ the fix's own listing

  /** The path the fix reads off a line of its collapsed listing. */
  function FixListed(line: string): Option<Path> {
    var text := Strip(line);
    var arrow := AfterArrow(text);
    Normalize(if arrow.Some? then arrow.value else text)
  }

  ghost predicate AreFixNamesOf(lines: seq<string>, paths: seq<Path>) {
    forall path :: path in paths <==> path != "" && !Runtime(path) && exists i :: 0 <= i < |lines| && FixListed(lines[i]) == Some(path)
  }

  method FixChangedPaths(lines: seq<string>) returns (paths: seq<Path>)
    ensures AreFixNamesOf(lines, paths)
    ensures forall path :: path in paths <==>
              path != "" && path != ".omo" && !(".omo/" <= path) && exists i :: 0 <= i < |lines| && FixListed(lines[i]) == Some(path)
    ensures forall i, j :: 0 <= i < j < |paths| ==> paths[i] != paths[j]
  {
    hide FixListed;
    assert forall path :: Runtime(path) <==> path == ".omo" || ".omo/" <= path;
    hide Runtime;
    paths := [];
    var seen: set<Path> := {};
    for n := 0 to |lines|
      invariant forall path :: path in paths <==> path != "" && !Runtime(path) && exists i :: 0 <= i < n && FixListed(lines[i]) == Some(path)
      invariant forall path :: path in seen <==> path in paths
      invariant forall i, j :: 0 <= i < j < |paths| ==> paths[i] != paths[j]
    {
      var path := FixListed(lines[n]);
      if path.Some? && path.value != "" && !Runtime(path.value) && path.value !in seen {
        paths := paths + [path.value];
        seen := seen + {path.value};
      }
    }
  }

  /** The directory of a collapsed line, with its slash, normalises to its name. */
  lemma DirIsNormal(dir: Path, path: Path)
    requires Inside(path) && Under(dir, path) && Clean(dir + "/")
    ensures Normalize(dir + "/") == Some(dir)
  {
    var shown := dir + "/";
    InsideMeans(path);
    CleanIsUnchanged(shown);
    assert path == dir + "/" + path[|shown|..] && shown == dir + "/" + "";
    SplitAtSlash(dir, path[|shown|..]);
    SplitAtSlash(dir, "");
    var parts := Split(dir);
    assert AllPlain(parts) by {
      assert forall i :: 0 <= i < |parts| ==> Split(path)[i] == parts[i];
    }
    PlainThenEmpty(parts, []);
    JoinOfSplit(dir);
    assert shown[0] == path[0] && !("./" <= shown);
    assert Survivors(shown) == parts && ".." !in parts;
  }

  /** A line without quotation marks is read by the fix as the name git printed. */
  lemma FixReads(g: Repo, path: Path, name: Path, line: string)
    requires RepoOk(g) && Changed(g, path) && Prints(g, true, path, name, line) && '"' !in line
    ensures FixListed(line) == Some(name)
  {
    hide Changed, RepoOk, Inside, Clean, Strip, AfterArrow, Normalize;
    var shown := if name == path then name else name + "/";
    NamedIsInside(g, true, path, name);
    NameEnds(path, name);
    QuotedShows(shown);
    CleanIsUnchanged(shown);
    ShownIsNormal(path, name, shown);
    if path in g.renames {
      QuotedShows(g.renames[path]);
      ArrowLine(g.renames[path], shown);
    } else {
      NoArrowInClean(shown);
      assert line == shown;
    }
  }

  lemma ShownIsNormal(path: Path, name: Path, shown: string)
    requires Inside(path) && Clean(shown) && (name == path || Under(name, path)) && shown == if name == path then name else name + "/"
    ensures Normalize(shown) == Some(name)
  {
    if name == path {
      InsideMeans(path);
      CleanIsUnchanged(path);
      CleanHasNoBackslash(path);
      InsideIsNormal(path);
    } else {
      DirIsNormal(name, path);
    }
  }

  lemma CleanHasNoBackslash(text: string)
    requires Clean(text)
    ensures '\\' !in text
  {
  }

  ghost predicate SameNames(a: seq<Path>, b: seq<Path>) {
    forall path :: path in a <==> path in b
  }

  /** No untracked path but an artifact of the run stands in a directory without tracked files. */
  ghost predicate NothingCollapsed(g: Repo) {
    forall path, dir :: Untracked(g, path) && !Runtime(path) ==> !Collapses(g, dir, path)
  }

  /** The fix reads the collapsed listing and verify the full one: when both name the same paths, nothing was collapsed. */
  lemma SameNamesCollapseNothing(g: Repo, fixLines: seq<string>, changed: seq<Path>, fullLines: seq<string>, full: seq<Path>)
    requires RepoOk(g) && Lists(g, true, fixLines) && AreFixNamesOf(fixLines, changed)
    requires Listing(g, false, fullLines, full) && NothingQuoted(fullLines) && SameNames(changed, full)
    ensures NothingCollapsed(g)
  {
    hide RepoOk, Lists, AreNamesOf, AreFixNamesOf, NothingQuoted, Runtime, Collapses;
    CollapsedIsNotQuoted(g, fullLines, fixLines);
    forall path, dir | Untracked(g, path) && !Runtime(path) ensures !Collapses(g, dir, path) {
      NothingMisread(g, fullLines, path);
      ReadIsListed(g, fullLines, full, path);
      if Collapses(g, dir, path) {
        CollapsedIsNotRead(g, fixLines, changed, path, dir);
      }
    }
  }

  /** A file in a directory that is collapsed has no line of its own. */
  lemma CollapsedIsNotRead(g: Repo, lines: seq<string>, changed: seq<Path>, path: Path, dir: Path)
    requires RepoOk(g) && Lists(g, true, lines) && NothingQuoted(lines) && AreFixNamesOf(lines, changed)
    requires Untracked(g, path) && Collapses(g, dir, path)
    ensures path !in changed
  {
    hide RepoOk, Lists, NothingQuoted, Runtime, Collapses, LineText, FixListed, Names;
    forall i: nat | i < |lines| ensures FixListed(lines[i]) != Some(path) {
      var p, name := StoodFor(g, true, lines, i);
      UnquotedAt(lines, i);
      FixReads(g, p, name, lines[i]);
      OnlyDirectoriesCollapse(g, p, name, path, dir);
    }
  }

  lemma UnquotedAt(lines: seq<string>, i: nat)
    requires NothingQuoted(lines) && i < |lines|
    ensures '"' !in lines[i]
  {
  }

  lemma OnlyDirectoriesCollapse(g: Repo, p: Path, name: Path, path: Path, dir: Path)
    requires RepoOk(g) && Changed(g, p) && Names(g, true, p, name) && Untracked(g, path) && Collapses(g, dir, path)
    ensures name != path
  {
    hide RepoOk, Changed;
    if p == path {
      assert Under(name, path) && |name + "/"| <= |path|;
    } else if Untracked(g, p) {
      WorkFilesApart(g, path, p);
    }
  }

  lemma WorkFilesApart(g: Repo, a: Path, b: Path)
    requires RepoOk(g) && a in g.work && b in g.work
    ensures !Under(a, b)
  {
  }

  lemma SameMultisets(a: seq<Path>, b: seq<Path>)
    requires multiset(a) == multiset(b)
    ensures SameNames(a, b)
  {
    forall path ensures path in a <==> path in b {
      assert path in a <==> path in multiset(a);
      assert path in b <==> path in multiset(b);
    }
  }

  /**
   * When a push is decided on a fix that read the collapsed listing, no untracked directory was collapsed: a fix that
   * creates a file in a directory without tracked files is always refused.
   */
  lemma NewDirectoriesAreRefused(
    g: Repo, fix: Fix, fixLines: seq<string>, fullLines: seq<string>, full: seq<Path>, pushedLines: seq<string>,
    pushed: seq<Path>, design: Design, run: Flags)
    requires PushDecided(g, fix, fullLines, full, pushedLines, pushed, design, run) && NothingQuoted(fullLines)
    requires Lists(g, true, fixLines) && AreFixNamesOf(fixLines, fix.changed)
    ensures NothingCollapsed(g) && SameNames(pushed, full)
  {
    hide RepoOk, Lists, AreFixNamesOf, AreNamesOf, NothingQuoted, NothingCollapsed, SameNames;
    ApprovedMeans(design.specSufficient, run.gapHalts, fix, full, g.work, run.markerOk);
    SameMultisets(fix.changed, full);
    SameNamesCollapseNothing(g, fixLines, fix.changed, fullLines, full);
    ListingsAreChangedPaths(g, fullLines, full, pushedLines, pushed);
    UncollapsedAreSame(g, full, pushed);
  }

  lemma UncollapsedAreSame(g: Repo, full: seq<Path>, pushed: seq<Path>)
    requires RepoOk(g) && NothingCollapsed(g) && AreChangedPaths(g, false, full) && AreChangedPaths(g, true, pushed)
    ensures SameNames(pushed, full)
  {
    hide RepoOk, Changed, Runtime, Collapses;
    forall path ensures path in pushed <==> path in full {
      if path in pushed {
        var p :| Changed(g, p) && Names(g, true, p, path);
        NamedIsInside(g, true, p, path);
        NamedUncollapsed(g, p, path);
        var name :| Names(g, false, p, name) && (name in full || Runtime(name) || name == "");
      }
      if path in full {
        var p :| Changed(g, p) && Names(g, false, p, path);
        FullNameIsThePath(g, p, path);
        var name :| Names(g, true, path, name) && (name in pushed || Runtime(name) || name == "");
        assert name == path;
      }
    }
  }

  lemma NamedUncollapsed(g: Repo, p: Path, name: Path)
    requires NothingCollapsed(g) && Names(g, true, p, name) && name != "" && !Runtime(name)
    ensures name == p
  {
    hide Runtime;
    if name != p {
      assert Collapses(g, name, p) && Runtime(p);
      RuntimeBelow(name, p);
    }
  }

  // ------------------------------------------------------------------ all stages

  /** Nothing goes but what the design output admitted. */
  ghost predicate WithinDesign(g: Repo, pushed: seq<Path>, spec: map<string, Json>, shown: Json -> string) {
    forall path :: Committed(g, pushed, path) ==> Admitted(spec, shown, path)
  }

  /**
   * Fix, verify, decide and push over the design output and what git prints for each of them, on a tree that stays as
   * the fix left it. `others` are the paths that may be touched besides the write set.
   */
  method RunStages(
    spec: map<string, Json>, shown: Json -> string, others: seq<Path>, inputsOk: bool, g: Repo,
    fixLines: seq<string>, fullLines: seq<string>, pushedLines: seq<string>, design: Design, run: Flags)
    returns (pushed: Option<seq<Path>>)
    requires RepoOk(g) && Lists(g, true, fixLines) && Lists(g, false, fullLines) && Lists(g, true, pushedLines)
    ensures pushed.Some? ==>
              (WithinDesign(g, pushed.value, spec, shown) <==>
                 forall path :: Escapes(g, pushedLines, path) ==> Admitted(spec, shown, path))
    ensures pushed.Some? ==>
              forall path :: InTheOpen(g, pushed.value, path) ==> Admitted(spec, shown, path) && SoundPath(g, path)
    ensures pushed.Some? && NothingQuoted(fullLines) ==> NothingCollapsed(g) && AreNamesOf(fullLines, pushed.value)
  {
    hide RepoOk, Lists, Admitted, Escapes, InTheOpen, SoundPath, NothingQuoted, NothingCollapsed, AreFixNamesOf, Verify, Decide, FromDesign;
    var writes, invalid := AllowedWritePaths(spec, shown);
    var changed := FixChangedPaths(fixLines);
    var fix := FixResult(changed, others + writes, writes, inputsOk && invalid == {});
    var full;
    full, pushed := VerifyDecidePush(g, fix, fullLines, pushedLines, design, run);
    if pushed.Some? {
      assert FromDesign(spec, shown, fix.writes) by {
        AllFromDesign(spec, shown, writes);
      }
      forall path | InTheOpen(g, pushed.value, path) ensures Admitted(spec, shown, path) && SoundPath(g, path) {
        OpenIsSound(g, spec, shown, fix, fullLines, full, pushedLines, pushed.value, design, run, path);
      }
      if NothingQuoted(fullLines) {
        NewDirectoriesAreRefused(g, fix, fixLines, fullLines, full, pushedLines, pushed.value, design, run);
        SameNamesAreNames(fullLines, full, pushed.value);
      }
    }
  }

  lemma AllFromDesign(spec: map<string, Json>, shown: Json -> string, writes: seq<Path>)
    requires forall path :: path in writes <==> Admitted(spec, shown, path)
    ensures FromDesign(spec, shown, writes)
  {
  }

  lemma OpenIsSound(
    g: Repo, spec: map<string, Json>, shown: Json -> string, fix: Fix, fullLines: seq<string>, full: seq<Path>, pushedLines: seq<string>,
    pushed: seq<Path>, design: Design, run: Flags, path: Path)
    requires PushDecided(g, fix, fullLines, full, pushedLines, pushed, design, run)
    requires FromDesign(spec, shown, fix.writes) && InTheOpen(g, pushed, path)
    ensures Admitted(spec, shown, path) && SoundPath(g, path)
  {
    hide PushDecided, Committed, Hidden, Misread, Admitted, SoundPath;
    ListedCommitIsSound(g, spec, shown, fix, fullLines, full, pushedLines, pushed, design, run, path);
  }

  lemma SameNamesAreNames(lines: seq<string>, full: seq<Path>, pushed: seq<Path>)
    requires AreNamesOf(lines, full) && SameNames(pushed, full)
    ensures AreNamesOf(lines, pushed)
  {
    hide OnLine, Runtime;
  }

  const SOURCE: Path := "src/a"
  const TEST: Path := "spec/a"

  lemma TwoParts(dir: string, file: string)
    requires Plain(dir) && Plain(file)
    ensures Inside(dir + "/" + file) && Split(dir + "/" + file) == [dir, file] && Join([dir, file]) == dir + "/" + file
  {
    var parts := [dir, file];
    assert parts[1..] == [file] && AllPlain(parts);
    SplitJoined(parts);
  }

  lemma SourceIsInside()
    ensures Inside(SOURCE)
  {
    TwoParts("src", "a");
    assert SOURCE == "src" + "/" + "a";
  }

  lemma TestIsInside()
    ensures Inside(TEST) && Split(TEST) == ["spec", "a"] && Join(["spec", "a"]) == TEST
  {
    TwoParts("spec", "a");
    assert TEST == "spec" + "/" + "a";
  }

  /** A path inside the workspace without blanks at its ends and without backslashes is its own normal form. */
  lemma CleanIsNormal(path: Path)
    requires Inside(path) && !IsSpace(path[0]) && !IsSpace(path[|path| - 1]) && '\\' !in path
    ensures Strip(path) == path && Normalize(path) == Some(path)
  {
    InsideIsNormal(path);
  }

  lemma TestIsWritable()
    ensures Writable(TEST) && Normalize(Strip(TEST)) == Some(TEST)
  {
    hide Normalize, Strip, Split, Join;
    TestIsInside();
    CleanIsNormal(TEST);
    assert EXTRA_PREFIXES[3] <= TEST;
  }

  function Renamed(): Repo {
    Repo(map[SOURCE := 1], map[TEST := 1], map[TEST := 1], map[TEST := SOURCE])
  }

  const RENAME_LINE := "src/a -> spec/a"

  lemma OnlyTheTestIsChanged(path: Path)
    ensures Changed(Renamed(), path) <==> path == TEST
  {
    assert SOURCE in Renamed().renames.Values by {
      assert Renamed().renames[TEST] == SOURCE;
    }
    assert SOURCE[1] != TEST[1];
  }

  lemma RenamedIsOk()
    ensures RepoOk(Renamed())
  {
    SourceIsInside();
    TestIsInside();
    assert |SOURCE| != |TEST|;
  }

  lemma RenameIsPrinted(collapsed: bool)
    ensures Prints(Renamed(), collapsed, TEST, TEST, RENAME_LINE) && '"' !in RENAME_LINE
    ensures Listed(RENAME_LINE) == TEST && !Runtime(TEST)
  {
    hide Listed, RepoOk, Changed, Escaped;
    OnlyTheTestIsChanged(TEST);
    RenamedIsOk();
    assert TEST[0] != '.' && Quote(TEST) == TEST && Quote(SOURCE) == SOURCE;
    hide Quote;
    assert RENAME_LINE == SOURCE + ARROW + TEST;
    LineIsRead(Renamed(), collapsed, TEST, TEST, RENAME_LINE);
  }

  lemma RenameIsListed(collapsed: bool)
    ensures Listing(Renamed(), collapsed, [RENAME_LINE], [TEST])
  {
    hide Changed, Listed, Runtime, LineText, Names;
    var g, lines := Renamed(), [RENAME_LINE];
    forall path ensures Changed(g, path) <==> path == TEST {
      OnlyTheTestIsChanged(path);
    }
    RenameIsPrinted(collapsed);
    assert Prints(g, collapsed, TEST, TEST, lines[0]) && Listed(lines[0]) == TEST;
  }

  const TESTED: Fix := FixResult([TEST], [TEST], [TEST], true)

  const SUFFICIENT := Design(false, true, false)

  const GREEN := Flags(false, false, true, true, true, true)

  /** Every stage is content when the test file alone is listed. */
  lemma TestIsDecided(work: Tree)
    requires TEST in work
    ensures TESTED.writes == [TEST]
    ensures Decide(false, SUFFICIENT, false, true, TESTED, true, true, Verify(true, false, TESTED, [TEST], work, true)) == ScopedPush
  {
    NothingForbiddenListed();
    assert forall path :: path in [TEST] ==> path == TEST;
  }

  /** A design output that names the test file for writing. */
  const DESIGNED: map<string, Json> := map["allowed_write_paths" := Items([Json.Text(TEST)])]

  const SHOWN: Json -> string := (value: Json) => ""

  lemma TestIsFromDesign()
    ensures FromDesign(DESIGNED, SHOWN, [TEST])
  {
    hide Writable, Normalize, Strip;
    TestIsWritable();
    assert Json.Text(TEST) in ItemsAt(DESIGNED, "allowed_write_paths") && Raw(Json.Text(TEST), SHOWN) == TEST;
    assert Proposed(DESIGNED, Json.Text(TEST)) && AdmittedAs(TEST, TEST);
  }

  lemma SourceIsCommitted()
    ensures Committed(Renamed(), [TEST], SOURCE) && SOURCE !in [TEST] && Forbidden(SOURCE)
  {
    assert SOURCE[1] != TEST[1];
    assert FORBIDDEN_PATH_PREFIXES[2] <= SOURCE;
    assert !Under(TEST, SOURCE) by {
      assert |TEST + "/"| > |SOURCE|;
    }
    assert forall name :: name in [TEST] ==> name == TEST;
  }

  /** A staged rename out of `src/` passes every stage, and the commit deletes the forbidden source file. */
  lemma StagedRenameEscapes()
    ensures PushDecided(Renamed(), TESTED, [RENAME_LINE], [TEST], [RENAME_LINE], [TEST], SUFFICIENT, GREEN)
    ensures NothingQuoted([RENAME_LINE]) && FromDesign(DESIGNED, SHOWN, TESTED.writes)
    ensures Committed(Renamed(), [TEST], SOURCE) && SOURCE !in TESTED.writes && Forbidden(SOURCE)
  {
    hide RepoOk, Listing, FromDesign, Decide, Committed, Forbidden, Verify, FixResult;
    RenamedIsOk();
    TestIsFromDesign();
    RenameIsListed(false);
    RenameIsListed(true);
    TestIsDecided(Renamed().work);
    SourceIsCommitted();
  }

  lemma NothingForbiddenListed()
    ensures !Forbidden(TEST)
  {
    assert FORBIDDEN_PATH_PREFIXES[0][0] == '.' && FORBIDDEN_PATH_PREFIXES[1][0] == '.' && FORBIDDEN_PATH_PREFIXES[2][1] == 'r';
    assert TEST[0] == 's' && TEST[1] == 'p';
    assert "Cargo.toml"[0] == 'C' && "Cargo.lock"[0] == 'C' && "opencode.json"[0] == 'o';
  }

  // ------------------------------------------------------------------ a quoted name

  const ARROWED: Path := "x -> .omo/y"
  const ARROWED_LINE := "\"x -> .omo/y\""

  /** A new test file, and a new file whose name git has to quote. */
  const QUOTED := Repo(map[], map[TEST := 1, ARROWED := 1], map[TEST := 1, ARROWED := 1], map[])

  lemma QuotedIsOk()
    ensures RepoOk(QUOTED)
  {
    hide Split, Join, Inside;
    TestIsInside();
    TwoParts("x -> .omo", "y");
    assert ARROWED == "x -> .omo" + "/" + "y";
    assert TEST[0] == 's' && ARROWED[0] == 'x';
    BelowMeans(TEST, ARROWED);
    BelowMeans(ARROWED, TEST);
    BelowMeans(TEST, TEST);
    BelowMeans(ARROWED, ARROWED);
  }

  lemma BelowMeans(a: Path, b: Path)
    requires a != ""
    ensures Under(a, b) ==> |a| < |b| && a[0] == b[0]
  {
    assert (a + "/")[0] == a[0];
  }

  lemma ArrowedIsPrinted(collapsed: bool)
    ensures Prints(QUOTED, collapsed, ARROWED, ARROWED, ARROWED_LINE) && Prints(QUOTED, collapsed, TEST, TEST, TEST)
  {
    hide Escaped;
    assert !Ordinary(ARROWED[1]);
    EscapedIsSame(ARROWED);
  }

  lemma {:induction false} EscapedIsSame(name: string)
    requires forall i :: 0 <= i < |name| ==> Ordinary(name[i]) || name[i] == ' '
    ensures Escaped(name) == name
  {
    if name != "" {
      EscapedIsSame(name[1..]);
      assert [name[0]] + name[1..] == name;
    }
  }

  /** The arrow inside the name is taken for a rename, and what follows it for an artifact of the run. */
  lemma ArrowedIsMisread()
    ensures Listed(ARROWED_LINE) == ".omo/y\"" && Runtime(".omo/y\"")
  {
    var line := ARROWED_LINE;
    assert Strip(line) == line;
    assert line[..4][0] == '"' && line[1..][..4][0] == 'x' && line[1..][1..] == line[2..];
    assert line[2..][..4] == ARROW && line[2..][4..] == ".omo/y\"";
    assert AfterArrow(line) == AfterArrow(line[1..]) == AfterArrow(line[2..]) == Some(".omo/y\"");
    assert ForwardSlashes(".omo/y\"") == ".omo/y\"";
  }

  lemma QuotedIsListed(collapsed: bool)
    ensures Listing(QUOTED, collapsed, [ARROWED_LINE, TEST], [TEST])
  {
    hide Listed, RepoOk, Prints;
    QuotedIsOk();
    ArrowedIsPrinted(collapsed);
    ArrowedIsMisread();
    assert forall path :: Changed(QUOTED, path) <==> path == TEST || path == ARROWED;
    hide Changed;
    LineIsRead(QUOTED, collapsed, TEST, TEST, TEST);
    var lines := [ARROWED_LINE, TEST];
    assert StandsFor(QUOTED, collapsed, lines[0]) && StandsFor(QUOTED, collapsed, lines[1]);
    assert Listed(lines[0]) == ".omo/y\"" && Listed(lines[1]) == TEST && TEST[0] != '.';
    assert OnLine(lines, TEST);
  }

  lemma ArrowedGoesMisread()
    ensures Misread(QUOTED, ARROWED) && !Hidden(QUOTED, ARROWED)
  {
    hide Quote, Listed, LineText, Names;
    ArrowedIsPrinted(false);
    ArrowedIsMisread();
    assert ARROWED[0] == 'x' && ".omo/y\""[0] == '.';
  }

  lemma ArrowedIsCommitted()
    ensures Committed(QUOTED, [TEST], ARROWED) && ARROWED !in [TEST]
  {
    assert ARROWED[0] != TEST[0];
    assert !Under(TEST, ARROWED) by {
      assert (TEST + "/")[0] != ARROWED[0];
    }
    assert forall name :: name in [TEST] ==> name == TEST;
  }

  /** A staged file whose name holds an arrow passes every stage, is hidden by its quoted line alone, and is committed. */
  lemma QuotedNameEscapes()
    ensures PushDecided(QUOTED, TESTED, [ARROWED_LINE, TEST], [TEST], [ARROWED_LINE, TEST], [TEST], SUFFICIENT, GREEN)
    ensures FromDesign(DESIGNED, SHOWN, TESTED.writes)
    ensures Committed(QUOTED, [TEST], ARROWED) && Misread(QUOTED, ARROWED) && !Hidden(QUOTED, ARROWED) && ARROWED !in TESTED.writes
  {
    hide RepoOk, Listing, FromDesign, Decide, Forbidden, Verify, FixResult, Committed, Misread, Hidden;
    QuotedIsOk();
    TestIsFromDesign();
    QuotedIsListed(false);
    QuotedIsListed(true);
    TestIsDecided(QUOTED.work);
    ArrowedGoesMisread();
    ArrowedIsCommitted();
  }
}
