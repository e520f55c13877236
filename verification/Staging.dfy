// The names under which attachments are staged.
module Staging {
  import opened Rows

  datatype File = File(basename: string, regular: bool)

  // ------------------------------------------------------------------ decimal ordinals

  const DIGITS: string := "0123456789"

  function Decimal(n: nat): (text: string)
    ensures |text| >= 1 && forall i :: 0 <= i < |text| ==> text[i] in DIGITS
  {
    if n < 10 then [DIGITS[n]] else Decimal(n / 10) + [DIGITS[n % 10]]
  }

  function DigitValue(c: char): nat {
    (c as int - '0' as int) % 10
  }

  function Value(text: string): nat {
    if text == "" then 0 else Value(text[..|text| - 1]) * 10 + DigitValue(text[|text| - 1])
  }

  lemma DigitRoundTrip(d: nat)
    requires d < 10
    ensures DigitValue(DIGITS[d]) == d
  {
  }

  lemma {:induction false} DecimalRoundTrip(n: nat)
    ensures Value(Decimal(n)) == n
  {
    DigitRoundTrip(n % 10);
    if n < 10 {
      assert Decimal(n)[..0] == "";
    } else {
      DecimalRoundTrip(n / 10);
      assert Decimal(n)[..|Decimal(n)| - 1] == Decimal(n / 10);
    }
  }

  // ------------------------------------------------------------------ suffixed names

  /** The index of the first dot, or the length. */
  function FirstDot(filename: string): (i: nat)
    ensures i <= |filename|
    ensures forall k :: 0 <= k < i ==> filename[k] != '.'
    ensures i < |filename| ==> filename[i] == '.'
  {
    if filename == "" then 0 else if filename[0] == '.' then 0 else 1 + FirstDot(filename[1..])
  }

  /** A leading dot does not count. */
  function SuffixBeforeFirstDot(filename: string, ordinal: nat): string {
    var dot := FirstDot(filename);
    if 0 < dot < |filename| then filename[..dot] + "-" + Decimal(ordinal) + filename[dot..]
    else filename + "-" + Decimal(ordinal)
  }

  lemma {:induction false} FirstDotAt(stem: string, rest: string)
    requires '.' !in stem
    ensures FirstDot(stem + "." + rest) == |stem| && FirstDot(stem) == |stem|
  {
    if stem != "" {
      FirstDotAt(stem[1..], rest);
      assert (stem + "." + rest)[1..] == stem[1..] + "." + rest;
    }
  }

  /** The ordinal goes before the first dot, unless that dot comes first or there is none. */
  lemma SuffixMeans(stem: string, rest: string, ordinal: nat)
    requires '.' !in stem && stem != ""
    ensures SuffixBeforeFirstDot(stem + "." + rest, ordinal) == stem + "-" + Decimal(ordinal) + "." + rest
    ensures SuffixBeforeFirstDot(stem, ordinal) == stem + "-" + Decimal(ordinal)
    ensures SuffixBeforeFirstDot("." + rest, ordinal) == "." + rest + "-" + Decimal(ordinal)
    ensures ordinal < 10 ==> Decimal(ordinal) == ["0123456789"[ordinal]]
    ensures ordinal >= 10 ==> Decimal(ordinal) == Decimal(ordinal / 10) + ["0123456789"[ordinal % 10]]
  {
    hide FirstDot;
    FirstDotAt(stem, rest);
    FirstDotAt("", rest);
    var whole := stem + "." + rest;
    assert whole[..|stem|] == stem && whole[|stem|..] == "." + rest;
    assert "" + "." + rest == "." + rest;
  }

  lemma MiddleIsUnique(a: string, x: string, y: string, b: string)
    requires a + x + b == a + y + b
    ensures x == y
  {
    assert |x| == |y|;
    assert x == (a + x + b)[|a|..|a| + |x|];
    assert y == (a + y + b)[|a|..|a| + |y|];
  }

  /** Different ordinals give different names. */
  lemma SuffixIsInjective(filename: string, m: nat, n: nat)
    requires SuffixBeforeFirstDot(filename, m) == SuffixBeforeFirstDot(filename, n)
    ensures m == n
  {
    var dot := FirstDot(filename);
    if 0 < dot < |filename| {
      MiddleIsUnique(filename[..dot] + "-", Decimal(m), Decimal(n), filename[dot..]);
    } else {
      assert filename + "-" + Decimal(m) + "" == filename + "-" + Decimal(n) + "";
      MiddleIsUnique(filename + "-", Decimal(m), Decimal(n), "");
    }
    DecimalRoundTrip(m);
    DecimalRoundTrip(n);
  }

  // ------------------------------------------------------------------ the names of a list of files

  /** How many of the first n files have this basename. */
  function Uses(files: seq<File>, n: nat, basename: string): nat
    requires n <= |files|
  {
    if n == 0 then 0 else Uses(files, n - 1, basename) + (if files[n - 1].basename == basename then 1 else 0)
  }

  /** The first ordinal from 2 and `use` on whose name is free. */
  ghost predicate FirstFree(basename: string, use: nat, taken: seq<string>, name: string, ordinal: nat) {
    && 2 <= ordinal && use <= ordinal && name == SuffixBeforeFirstDot(basename, ordinal) && name !in taken
    && forall k: nat {:trigger SuffixBeforeFirstDot(basename, k)} ::
         2 <= k && use <= k < ordinal ==> SuffixBeforeFirstDot(basename, k) in taken
  }

  /**
   * The name of the `use`-th file with this basename, exactly: the basename when it is the first and the name is free,
   * and otherwise the basename with the first ordinal that is free, counting from `use`.
   */
  ghost predicate NameIs(basename: string, use: nat, taken: seq<string>, name: string) {
    if use == 1 && basename !in taken then name == basename
    else exists ordinal: nat :: FirstFree(basename, use, taken, name, ordinal)
  }

  ghost predicate Named(files: seq<File>, names: seq<string>, i: nat)
    requires i < |files| && i < |names|
  {
    NameIs(files[i].basename, Uses(files, i, files[i].basename) + 1, names[..i], names[i])
  }

  lemma NameFound(basename: string, use: nat, taken: seq<string>, used: set<string>, name: string, ordinal: nat)
    requires use >= 1 && name !in used && forall x :: x in used <==> x in taken
    requires var first := if use == 1 then basename else SuffixBeforeFirstDot(basename, use);
             if first !in used then name == first
             else ordinal > use && name == SuffixBeforeFirstDot(basename, ordinal) && AllUsed(basename, use, ordinal, used)
    ensures NameIs(basename, use, taken, name)
  {
    hide SuffixBeforeFirstDot;
    if use > 1 && SuffixBeforeFirstDot(basename, use) !in used {
      assert FirstFree(basename, use, taken, name, use);
    } else if use > 1 || basename in used {
      assert FirstFree(basename, use, taken, name, ordinal);
    }
  }

  lemma NamesStay(files: seq<File>, names: seq<string>, name: string)
    requires |names| < |files| && forall i :: 0 <= i < |names| ==> Named(files, names, i)
    requires NameIs(files[|names|].basename, Uses(files, |names|, files[|names|].basename) + 1, names, name)
    ensures forall i :: 0 <= i <= |names| ==> Named(files, names + [name], i)
  {
    hide NameIs, Uses;
    forall i | 0 <= i <= |names| ensures Named(files, names + [name], i) {
      assert (names + [name])[..i] == names[..i];
      if i < |names| {
        assert Named(files, names, i);
      } else {
        assert names[..i] == names;
      }
    }
  }

  /** Every name between two ordinals is used. */
  ghost predicate AllUsed(basename: string, start: nat, ordinal: nat, used: set<string>) {
    forall k: nat {:trigger SuffixBeforeFirstDot(basename, k)} :: start < k < ordinal ==> SuffixBeforeFirstDot(basename, k) in used
  }

  /** The names between two ordinals. */
  function Between(basename: string, start: nat, ordinal: nat): set<string>
    decreases ordinal
  {
    if ordinal <= start + 1 then {} else Between(basename, start, ordinal - 1) + {SuffixBeforeFirstDot(basename, ordinal - 1)}
  }

  lemma {:induction false} BetweenMeaning(basename: string, start: nat, ordinal: nat, used: set<string>)
    requires AllUsed(basename, start, ordinal, used) && ordinal >= start
    ensures Between(basename, start, ordinal) <= used
    ensures ordinal > start ==> SuffixBeforeFirstDot(basename, ordinal) !in Between(basename, start, ordinal)
    decreases ordinal
  {
    hide SuffixBeforeFirstDot;
    if ordinal > start {
      NotBetween(basename, start, ordinal, ordinal);
    }
    if ordinal > start + 1 {
      assert SuffixBeforeFirstDot(basename, ordinal - 1) in used;
      BetweenMeaning(basename, start, ordinal - 1, used);
    }
  }

  lemma {:induction false} NotBetween(basename: string, start: nat, ordinal: nat, n: nat)
    requires start <= ordinal <= n
    ensures SuffixBeforeFirstDot(basename, n) !in Between(basename, start, ordinal)
    decreases ordinal
  {
    hide SuffixBeforeFirstDot;
    if ordinal > start + 1 {
      NotBetween(basename, start, ordinal - 1, n);
      if SuffixBeforeFirstDot(basename, ordinal - 1) == SuffixBeforeFirstDot(basename, n) {
        SuffixIsInjective(basename, ordinal - 1, n);
      }
    }
  }

  /** One more used name leaves fewer to run into. */
  lemma FewerLeft(basename: string, start: nat, ordinal: nat, used: set<string>)
    requires AllUsed(basename, start, ordinal, used) && ordinal > start && SuffixBeforeFirstDot(basename, ordinal) in used
    ensures AllUsed(basename, start, ordinal + 1, used)
    ensures |used - Between(basename, start, ordinal + 1)| < |used - Between(basename, start, ordinal)|
  {
    hide SuffixBeforeFirstDot;
    BetweenMeaning(basename, start, ordinal, used);
    var name := SuffixBeforeFirstDot(basename, ordinal);
    assert used - Between(basename, start, ordinal + 1) == (used - Between(basename, start, ordinal)) - {name};
  }

  /** The collision loop: the first free name from an ordinal on. */
  method FreeName(basename: string, start: nat, first: string, used: set<string>) returns (name: string, ghost ordinal: nat)
    requires start >= 1 && first == (if start == 1 then basename else SuffixBeforeFirstDot(basename, start))
    ensures name !in used
    ensures if first !in used then name == first
            else ordinal > start && name == SuffixBeforeFirstDot(basename, ordinal) && AllUsed(basename, start, ordinal, used)
  {
    hide SuffixBeforeFirstDot;
    var next := start;
    name := first;
    while name in used
      invariant next >= start && name == (if next == start then first else SuffixBeforeFirstDot(basename, next))
      invariant next > start ==> first in used
      invariant AllUsed(basename, start, next, used)
      decreases |used - Between(basename, start, next)| + (if next == start then 1 else 0)
    {
      if next > start {
        FewerLeft(basename, start, next, used);
      }
      next := next + 1;
      name := SuffixBeforeFirstDot(basename, next);
    }
    ordinal := next;
  }

  /** Staged names keep the order of the files, are pairwise distinct, and each is exactly the one that is its turn. */
  method ValidateFiles(files: seq<File>) returns (names: Option<seq<string>>)
    ensures names.Some? <==> forall i :: 0 <= i < |files| ==> files[i].regular
    ensures names.Some? ==>
              && |names.value| == |files|
              && (forall i, j :: 0 <= i < j < |files| ==> names.value[i] != names.value[j])
              && (forall i :: 0 <= i < |files| ==> Named(files, names.value, i))
  {
    hide SuffixBeforeFirstDot, NameIs, AllUsed, Named;
    var result: seq<string> := [];
    var sourceCounts: map<string, nat> := map[];
    var stagedNames: set<string> := {};
    for n := 0 to |files|
      invariant |result| == n && forall i :: 0 <= i < n ==> files[i].regular
      invariant forall i, j :: 0 <= i < j < n ==> result[i] != result[j]
      invariant forall name :: name in stagedNames <==> name in result
      invariant forall base :: Uses(files, n, base) == if base in sourceCounts then sourceCounts[base] else 0
      invariant forall i :: 0 <= i < n ==> Named(files, result, i)
    {
      if !files[n].regular {
        return None;
      }
      var basename := files[n].basename;
      var ordinal := (if basename in sourceCounts then sourceCounts[basename] else 0) + 1;
      sourceCounts := sourceCounts[basename := ordinal];
      var first := if ordinal == 1 then basename else SuffixBeforeFirstDot(basename, ordinal);
      var name, free := FreeName(basename, ordinal, first, stagedNames);
      NameFound(basename, ordinal, result, stagedNames, name, free);
      NamesStay(files, result, name);
      stagedNames := stagedNames + {name};
      result := result + [name];
    }
    return Some(result);
  }
}
