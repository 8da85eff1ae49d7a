/**
 * What the generator's regular expressions find in one source file.
 *
 * Two patterns are scanned concretely: `public\s+class\s+(\w+)` (the class
 * name, first match) and `^\s*package\s+(.*?)\s*;` with DOTALL (the package).
 * Each scanner comes with a lemma saying that its result is exactly the
 * capture group of the regex, stated through the positions a match passes through.  The
 * other patterns (constructors, parameters, fields, setters) are taken as
 * given sequences of matches in scan order.
 */
module SourceScan {
  import opened Wrappers
  import opened JavaText

  /** A capture group of a `+` pattern: never empty. */
  type Token = s: string | |s| > 0 witness "_"

  /** One match of `([a-zA-Z_0-9<>\.]+)\s+(\w+)` inside a constructor's parameter list. */
  datatype Parameter = Parameter(typeName: Token, name: Token)

  /**
   * One match of `public\s+<Class>\s*\(\s*(.*?)\s*\)`: the captured parameter
   * list text, and the parameter matches found inside that text, in order.
   */
  datatype ConstructorMatch = ConstructorMatch(parameterList: string, parameters: seq<Parameter>)

  /** One match of `public\s+([a-zA-Z_0-9\.]+)\s+(\w+)(\s*=\s*(.*?))?;`: type, name and the raw group 4, if it took part. */
  datatype FieldMatch = FieldMatch(typeName: Token, name: Token, initializer: Option<string>)

  /** One match of `public\s+\w+\s+set(\w+)\s*\(\s*([a-zA-Z_0-9\.]+)\s+\w+\s*\)`: the name after `set` and the parameter type. */
  datatype SetterMatch = SetterMatch(suffix: Token, typeName: Token)

  /** The matches of the constructor, field and setter patterns over one file, each in scan order. */
  datatype Matches = Matches(constructors: seq<ConstructorMatch>, fields: seq<FieldMatch>, setters: seq<SetterMatch>)

  predicate StartsWithAt(s: string, i: nat, lit: string) {
    i + |lit| <= |s| && s[i..i + |lit|] == lit
  }

  /** The length of the longest run of `\s` starting at `i` (what a greedy `\s*` takes). */
  function SpaceRun(s: string, i: nat): (n: nat)
    requires i <= |s|
    ensures i + n <= |s|
    ensures forall k :: i <= k < i + n ==> IsSpace(s[k])
    ensures i + n == |s| || !IsSpace(s[i + n])
    decreases |s| - i
  {
    if i < |s| && IsSpace(s[i]) then 1 + SpaceRun(s, i + 1) else 0
  }

  /** The length of the longest run of `\w` starting at `i` (what a greedy `\w+` takes, if not zero). */
  function WordRun(s: string, i: nat): (n: nat)
    requires i <= |s|
    ensures i + n <= |s|
    ensures forall k :: i <= k < i + n ==> IsWordChar(s[k])
    ensures i + n == |s| || !IsWordChar(s[i + n])
    decreases |s| - i
  {
    if i < |s| && IsWordChar(s[i]) then 1 + WordRun(s, i + 1) else 0
  }

  // ---------------------------------------------------------------------
  // public\s+class\s+(\w+)

  /**
   * The capture of `public\s+class\s+(\w+)` when a match starts at `i`.
   * Neither `c` nor a word character is a space, so each greedy run is the
   * maximal one and no backtracking can produce another match.
   */
  function ClassMatchAt(s: string, i: nat): (r: Option<string>)
    requires i <= |s|
    ensures r.Some? ==> |r.value| > 0
  {
    if !StartsWithAt(s, i, "public") then None
    else
      var b := i + 6 + SpaceRun(s, i + 6);
      if b == i + 6 || !StartsWithAt(s, b, "class") then None
      else
        var d := b + 5 + SpaceRun(s, b + 5);
        var e := d + WordRun(s, d);
        if d == b + 5 || e == d then None else Some(s[d..e])
  }

  /**
   * The positions a match of the pattern starting at `i` passes through:
   * `public` at `i`, spaces up to `b`, `class` at `b`, spaces up to `d`, and
   * the word `s[d..e]`, which the greedy `\w+` takes to its end.  The
   * spaces need no maximality condition: `c` and word characters are not
   * spaces, so no other split of the text matches.
   */
  ghost predicate ClassMatchShape(s: string, i: nat, b: nat, d: nat, e: nat) {
    i + 6 < b && b + 5 < d < e <= |s| &&
    s[i..i + 6] == "public" && (forall k :: i + 6 <= k < b ==> IsSpace(s[k])) &&
    s[b..b + 5] == "class" && (forall k :: b + 5 <= k < d ==> IsSpace(s[k])) &&
    (forall k :: d <= k < e ==> IsWordChar(s[k])) && (e == |s| || !IsWordChar(s[e]))
  }

  /** The pattern matches at `i` with group 1 equal to `name`. */
  ghost predicate IsClassMatch(s: string, i: nat, name: string) {
    exists b: nat, d: nat, e: nat :: ClassMatchShape(s, i, b, d, e) && s[d..e] == name
  }

  /** A run of spaces that cannot be extended is the greedy run. */
  lemma SpaceRunIs(s: string, i: nat, n: nat)
    requires i + n <= |s|
    requires forall k :: i <= k < i + n ==> IsSpace(s[k])
    requires i + n == |s| || !IsSpace(s[i + n])
    ensures SpaceRun(s, i) == n
  {
  }

  /** A run of word characters that cannot be extended is the greedy run. */
  lemma WordRunIs(s: string, i: nat, n: nat)
    requires i + n <= |s|
    requires forall k :: i <= k < i + n ==> IsWordChar(s[k])
    requires i + n == |s| || !IsWordChar(s[i + n])
    ensures WordRun(s, i) == n
  {
  }

  /** Every match the scanner reports at `i` is a match of the regex there. */
  lemma ClassMatchAtSound(s: string, i: nat)
    requires i <= |s| && ClassMatchAt(s, i).Some?
    ensures IsClassMatch(s, i, ClassMatchAt(s, i).value)
  {
    var b := i + 6 + SpaceRun(s, i + 6);
    var d := b + 5 + SpaceRun(s, b + 5);
    var e := d + WordRun(s, d);
    assert ClassMatchShape(s, i, b, d, e);
  }

  /** The greedy runs of a match, from its positions. */
  lemma ClassRunsOfShape(s: string, i: nat, b: nat, d: nat, e: nat)
    requires ClassMatchShape(s, i, b, d, e)
    ensures SpaceRun(s, i + 6) == b - i - 6 && SpaceRun(s, b + 5) == d - b - 5 && WordRun(s, d) == e - d
  {
    assert s[b] == s[b..b + 5][0];
    SpaceRunIs(s, i + 6, b - i - 6);
    SpaceRunIs(s, b + 5, d - b - 5);
    WordRunIs(s, d, e - d);
  }

  /** With the literals in place and the runs known, the scanner reports the word. */
  lemma ClassMatchAtOfRuns(s: string, i: nat, b: nat, d: nat, e: nat)
    requires i + 6 < b && b + 5 < d < e <= |s|
    requires StartsWithAt(s, i, "public") && StartsWithAt(s, b, "class")
    requires SpaceRun(s, i + 6) == b - i - 6 && SpaceRun(s, b + 5) == d - b - 5 && WordRun(s, d) == e - d
    ensures ClassMatchAt(s, i) == Some(s[d..e])
  {
  }

  /** The positions of a match at `i` determine what the scanner reports there. */
  lemma ClassMatchAtOfShape(s: string, i: nat, b: nat, d: nat, e: nat)
    requires ClassMatchShape(s, i, b, d, e)
    ensures ClassMatchAt(s, i) == Some(s[d..e])
  {
    ClassRunsOfShape(s, i, b, d, e);
    ClassMatchAtOfRuns(s, i, b, d, e);
  }

  /** Every match of the regex at `i` is what the scanner reports there. */
  lemma ClassMatchAtComplete(s: string, i: nat, name: string)
    requires i <= |s| && IsClassMatch(s, i, name)
    ensures ClassMatchAt(s, i) == Some(name)
  {
    var b: nat, d: nat, e: nat :| ClassMatchShape(s, i, b, d, e) && s[d..e] == name;
    ClassMatchAtOfShape(s, i, b, d, e);
  }

  /** The scanner's result at `i` is exactly the regex's capture for a match starting at `i`. */
  lemma ClassMatchAtIsRegexMatch(s: string, i: nat, name: string)
    requires i <= |s|
    ensures ClassMatchAt(s, i) == Some(name) <==> IsClassMatch(s, i, name)
  {
    if ClassMatchAt(s, i) == Some(name) {
      ClassMatchAtSound(s, i);
    }
    if IsClassMatch(s, i, name) {
      ClassMatchAtComplete(s, i, name);
    }
  }


  /** The first position at or after `i` where the class pattern matches. */
  function FirstClassMatch(s: string, i: nat): (r: Option<nat>)
    requires i <= |s|
    ensures r.Some? ==> i <= r.value <= |s| && ClassMatchAt(s, r.value).Some?
    ensures r.Some? ==> forall q :: i <= q < r.value ==> ClassMatchAt(s, q).None?
    ensures r.None? ==> forall q :: i <= q <= |s| ==> ClassMatchAt(s, q).None?
    decreases |s| - i
  {
    if ClassMatchAt(s, i).Some? then Some(i)
    else if i == |s| then None
    else FirstClassMatch(s, i + 1)
  }

  /**
   * `classNameRegex.matcher(s).find()` and `group(1)`: the capture of the
   * leftmost match, or None when the pattern occurs nowhere.
   */
  function FindClassName(s: string): (r: Option<string>)
    ensures r.None? <==> forall i :: 0 <= i <= |s| ==> ClassMatchAt(s, i).None?
    ensures r.Some? ==> |r.value| > 0
    ensures r.Some? ==> exists p :: 0 <= p <= |s| && ClassMatchAt(s, p) == r &&
                                    forall q :: 0 <= q < p ==> ClassMatchAt(s, q).None?
  {
    match FirstClassMatch(s, 0)
    case None => None
    case Some(p) => ClassMatchAt(s, p)
  }

  /** The first position where the pattern matches is the one the search reports. */
  lemma FindClassNameAt(s: string, p: nat)
    requires p <= |s| && ClassMatchAt(s, p).Some?
    requires forall q :: 0 <= q < p ==> ClassMatchAt(s, q).None?
    ensures FindClassName(s) == ClassMatchAt(s, p)
  {
  }

  /** No match starts where the text does not read `pu`. */
  lemma NoClassMatchAt(s: string, q: nat)
    requires q < |s| && (s[q] != 'p' || q + 1 == |s| || s[q + 1] != 'u')
    ensures ClassMatchAt(s, q).None?
  {
  }

  /**
   * A file that reads `public class ` and a word after text in which `pu`
   * does not occur: that word is the class name.
   */
  lemma ClassDeclaration(pre: string, name: string, rest: string)
    requires forall q :: 0 <= q < |pre| ==> pre[q] != 'p' || q + 1 == |pre| || pre[q + 1] != 'u'
    requires |name| > 0 && forall k :: 0 <= k < |name| ==> IsWordChar(name[k])
    requires rest == [] || !IsWordChar(rest[0])
    ensures FindClassName(pre + "public class " + name + rest) == Some(name)
  {
    var s := pre + "public class " + name + rest;
    var i := |pre|;
    var e := i + 13 + |name|;
    forall q | 0 <= q < i ensures ClassMatchAt(s, q).None? {
      assert s[q] == pre[q];
      assert q + 1 < i ==> s[q + 1] == pre[q + 1];
      assert q + 1 == i ==> s[q + 1] == 'p';
      NoClassMatchAt(s, q);
    }
    assert forall k :: 0 <= k < 13 ==> s[i + k] == "public class "[k];
    assert s[i..i + 6] == "public" && s[i + 7..i + 12] == "class";
    assert forall k :: i + 13 <= k < e ==> s[k] == name[k - i - 13];
    assert s[i + 13..e] == name;
    assert e < |s| ==> s[e] == rest[0];
    ClassMatchAtOfShape(s, i, i + 7, i + 13, e);
    FindClassNameAt(s, i);
  }

  /**
   * The class name is group 1 of the leftmost regex match: None exactly when
   * the regex matches nowhere, otherwise the capture at the first position
   * where it matches.
   */
  lemma FindClassNameIsLeftmostMatch(s: string)
    ensures FindClassName(s).None? <==> forall q, n :: 0 <= q <= |s| ==> !IsClassMatch(s, q, n)
    ensures FindClassName(s).Some? ==>
      exists p :: 0 <= p <= |s| && IsClassMatch(s, p, FindClassName(s).value) &&
                  forall q, n :: 0 <= q < p ==> !IsClassMatch(s, q, n)
  {
    var first := FirstClassMatch(s, 0);
    var bound := if first.Some? then first.value else |s| + 1;
    forall q, n | 0 <= q < bound && q <= |s| ensures !IsClassMatch(s, q, n) {
      ClassMatchAtIsRegexMatch(s, q, n);
    }
    if first.Some? {
      var p := first.value;
      ClassMatchAtIsRegexMatch(s, p, ClassMatchAt(s, p).value);
    } else {
      forall q | 0 <= q <= |s| ensures ClassMatchAt(s, q).None? {
      }
    }
  }

  // ---------------------------------------------------------------------
  // ^\s*package\s+(.*?)\s*;   (DOTALL; `^` is the start of the text)

  /** The first position at or after `from` holding `c`. */
  function IndexOf(s: string, from: nat, c: char): (r: Option<nat>)
    requires from <= |s|
    ensures r.Some? ==> from <= r.value < |s| && s[r.value] == c
    ensures r.Some? ==> forall k :: from <= k < r.value ==> s[k] != c
    ensures r.None? ==> forall k :: from <= k < |s| ==> s[k] != c
    decreases |s| - from
  {
    if from == |s| then None
    else if s[from] == c then Some(from)
    else IndexOf(s, from + 1, c)
  }

  /** Where the run of `\s` that ends at `hi` begins, not going below `lo` (what a final `\s*` gives back). */
  function SpaceRunBefore(s: string, lo: nat, hi: nat): (j: nat)
    requires lo <= hi <= |s|
    ensures lo <= j <= hi
    ensures forall k :: j <= k < hi ==> IsSpace(s[k])
    ensures j == lo || !IsSpace(s[j - 1])
    decreases hi - lo
  {
    if lo < hi && IsSpace(s[hi - 1]) then SpaceRunBefore(s, lo, hi - 1) else hi
  }

  /**
   * `packageRegex.matcher(s).find()` and `group(1)`.  The greedy `\s+` takes
   * the whole run of spaces after `package`; the lazy group then stops at
   * the first `;`, leaving any spaces before it to the final `\s*`.
   */
  function FindPackage(s: string): (r: Option<string>)
    ensures r.Some? ==> forall k :: 0 <= k < |r.value| ==> r.value[k] != ';'
    ensures r.Some? && r.value != [] ==> !IsSpace(r.value[0]) && !IsSpace(r.value[|r.value| - 1])
  {
    var a := SpaceRun(s, 0);
    if !StartsWithAt(s, a, "package") then None
    else
      var g := a + 7 + SpaceRun(s, a + 7);
      if g == a + 7 then None
      else
        match IndexOf(s, g, ';')
        case None => None
        case Some(p) => Some(s[g..SpaceRunBefore(s, g, p)])
  }

  /** `^` anchors the package statement: a first character that is neither a space nor `p` rules it out. */
  lemma PackageNeedsKeywordFirst(s: string)
    requires |s| > 0 && !IsSpace(s[0]) && s[0] != 'p'
    ensures FindPackage(s) == None
  {
    assert SpaceRun(s, 0) == 0;
  }

  /**
   * The positions a match of the package pattern passes through: spaces up
   * to `a`, `package` at `a`, the greedy `\s+` up to `g` (it stops at a
   * non-space), the first `;` at or after `g` at `p`, and `e`, the start of
   * the run of spaces before `p` that the lazy group leaves to `\s*`.
   * Group 1 is `s[g..e]`.
   */
  ghost predicate PackageMatchShape(s: string, a: nat, g: nat, e: nat, p: nat) {
    a + 7 < g <= e <= p < |s| &&
    (forall k :: 0 <= k < a ==> IsSpace(s[k])) && s[a..a + 7] == "package" &&
    (forall k :: a + 7 <= k < g ==> IsSpace(s[k])) && !IsSpace(s[g]) &&
    (forall k :: g <= k < p ==> s[k] != ';') && s[p] == ';' &&
    (forall k :: e <= k < p ==> IsSpace(s[k])) && (e == g || !IsSpace(s[e - 1]))
  }

  /** `s` matches the package pattern with group 1 equal to `name`. */
  ghost predicate IsPackageMatch(s: string, name: string) {
    exists a: nat, g: nat, e: nat, p: nat :: PackageMatchShape(s, a, g, e, p) && s[g..e] == name
  }

  /** The first `;` is where the scan stops. */
  lemma IndexOfIs(s: string, from: nat, c: char, p: nat)
    requires from <= p < |s| && s[p] == c
    requires forall k :: from <= k < p ==> s[k] != c
    ensures IndexOf(s, from, c) == Some(p)
  {
  }

  /** A run of spaces ending at `hi` that cannot be extended downwards is what SpaceRunBefore finds. */
  lemma SpaceRunBeforeIs(s: string, lo: nat, hi: nat, j: nat)
    requires lo <= j <= hi <= |s|
    requires forall k :: j <= k < hi ==> IsSpace(s[k])
    requires j == lo || !IsSpace(s[j - 1])
    ensures SpaceRunBefore(s, lo, hi) == j
  {
  }

  /** The positions the package scanner computes form a match. */
  lemma PackageScanShape(s: string) returns (a: nat, g: nat, e: nat, p: nat)
    requires FindPackage(s).Some?
    ensures PackageMatchShape(s, a, g, e, p)
    ensures FindPackage(s) == Some(s[g..e])
  {
    a := SpaceRun(s, 0);
    g := a + 7 + SpaceRun(s, a + 7);
    p := IndexOf(s, g, ';').value;
    e := SpaceRunBefore(s, g, p);
  }

  /** The package the scanner reports is a match of the regex. */
  lemma FindPackageSound(s: string)
    requires FindPackage(s).Some?
    ensures IsPackageMatch(s, FindPackage(s).value)
  {
    var a, g, e, p := PackageScanShape(s);
  }

  /** The scanner's runs and stopping point, from the positions of a match. */
  lemma PackageRunsOfShape(s: string, a: nat, g: nat, e: nat, p: nat)
    requires PackageMatchShape(s, a, g, e, p)
    ensures SpaceRun(s, 0) == a && SpaceRun(s, a + 7) == g - a - 7
    ensures IndexOf(s, g, ';') == Some(p) && SpaceRunBefore(s, g, p) == e
  {
    assert s[a] == s[a..a + 7][0];
    SpaceRunIs(s, 0, a);
    SpaceRunIs(s, a + 7, g - a - 7);
    IndexOfIs(s, g, ';', p);
    SpaceRunBeforeIs(s, g, p, e);
  }

  /** With the keyword in place and the runs known, the scanner reports the text between them. */
  lemma FindPackageOfRuns(s: string, a: nat, g: nat, e: nat, p: nat)
    requires a + 7 < g <= e <= p < |s|
    requires StartsWithAt(s, a, "package")
    requires SpaceRun(s, 0) == a && SpaceRun(s, a + 7) == g - a - 7
    requires IndexOf(s, g, ';') == Some(p) && SpaceRunBefore(s, g, p) == e
    ensures FindPackage(s) == Some(s[g..e])
  {
  }

  /** The positions of a match determine what the package scanner reports. */
  lemma FindPackageOfShape(s: string, a: nat, g: nat, e: nat, p: nat)
    requires PackageMatchShape(s, a, g, e, p)
    ensures FindPackage(s) == Some(s[g..e])
  {
    PackageRunsOfShape(s, a, g, e, p);
    FindPackageOfRuns(s, a, g, e, p);
  }

  /** A file that opens with `package `, a name and `;`: that name is the package. */
  lemma PackageDeclaration(name: string, rest: string)
    requires |name| > 0 && forall k :: 0 <= k < |name| ==> name[k] != ';'
    requires !IsSpace(name[0]) && !IsSpace(name[|name| - 1])
    ensures FindPackage("package " + name + ";" + rest) == Some(name)
  {
    var s := "package " + name + ";" + rest;
    var e := 8 + |name|;
    assert forall k :: 0 <= k < 8 ==> s[k] == "package "[k];
    assert s[0..7] == "package";
    assert forall k :: 8 <= k < e ==> s[k] == name[k - 8];
    assert s[8..e] == name;
    assert s[e] == ';';
    FindPackageOfShape(s, 0, 8, e, e);
  }

  /** Every match of the regex is what the scanner reports. */
  lemma FindPackageComplete(s: string, name: string)
    requires IsPackageMatch(s, name)
    ensures FindPackage(s) == Some(name)
  {
    var a: nat, g: nat, e: nat, p: nat :| PackageMatchShape(s, a, g, e, p) && s[g..e] == name;
    FindPackageOfShape(s, a, g, e, p);
  }

  /** The package scanner's result is exactly the regex's capture group. */
  lemma FindPackageIsRegexMatch(s: string, name: string)
    ensures FindPackage(s) == Some(name) <==> IsPackageMatch(s, name)
  {
    if FindPackage(s) == Some(name) {
      FindPackageSound(s);
    }
    if IsPackageMatch(s, name) {
      FindPackageComplete(s, name);
    }
  }
}
