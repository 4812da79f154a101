/** The two POSIX `os.path` operations the conversion utilities use:
    `splitext` and two-argument `join`, with '/' as the separator. */
module Paths {

  /** Index of the last `c` in `s`, or -1 (`str.rfind`). */
  function LastIndexOf(s: string, c: char): (r: int)
    ensures -1 <= r < |s|
    ensures r >= 0 ==> s[r] == c
    ensures forall j :: r < j < |s| ==> s[j] != c
  {
    if |s| == 0 then -1
    else if s[|s| - 1] == c then |s| - 1
    else LastIndexOf(s[..|s| - 1], c)
  }

  predicate AllDots(s: string) {
    forall i :: 0 <= i < |s| ==> s[i] == '.'
  }

  /** `os.path.splitext`: the extension runs from the last '.' of the last
      path component, unless everything before that '.' in the component
      is dots (a leading-dot name such as ".mp3" has no extension). */
  function SplitExt(p: string): (r: (string, string))
    ensures r.0 + r.1 == p
    ensures r.1 == "" || r.1[0] == '.'
    ensures forall j :: 0 < j < |r.1| ==> r.1[j] != '.' && r.1[j] != '/'
    ensures r.1 != "" ==> LastIndexOf(p, '/') < |r.0| && !AllDots(r.0[LastIndexOf(p, '/') + 1..])
    ensures r.1 != "" <==>
              && LastIndexOf(p, '.') > LastIndexOf(p, '/')
              && !AllDots(p[LastIndexOf(p, '/') + 1..LastIndexOf(p, '.')])
  {
    var sepIndex := LastIndexOf(p, '/');
    var dotIndex := LastIndexOf(p, '.');
    if dotIndex > sepIndex && !AllDots(p[sepIndex + 1..dotIndex]) then
      SplitAt(p, sepIndex, dotIndex);
      (p[..dotIndex], p[dotIndex..])
    else (p, "")
  }

  /** Splitting at the last '.', which follows the last '/' and a
      component part that is not all dots. */
  lemma SplitAt(p: string, sepIndex: int, dotIndex: int)
    requires -1 <= sepIndex < dotIndex < |p| && p[dotIndex] == '.'
    requires forall j :: dotIndex < j < |p| ==> p[j] != '.'
    requires forall j :: sepIndex < j < |p| ==> p[j] != '/'
    requires !AllDots(p[sepIndex + 1..dotIndex])
    ensures p[..dotIndex] + p[dotIndex..] == p
    ensures p[dotIndex..][0] == '.'
    ensures forall j :: 0 < j < |p| - dotIndex ==> p[dotIndex..][j] != '.' && p[dotIndex..][j] != '/'
    ensures !AllDots(p[..dotIndex][sepIndex + 1..])
  {
    assert p[..dotIndex][sepIndex + 1..] == p[sepIndex + 1..dotIndex];
    forall j | 0 < j < |p| - dotIndex
      ensures p[dotIndex..][j] != '.' && p[dotIndex..][j] != '/'
    {
      assert p[dotIndex..][j] == p[dotIndex + j];
    }
  }

  /** A name with a stem and an extension splits into exactly those. */
  lemma SplitExtOfNamed(stem: string, ext: string)
    requires forall i :: 0 <= i < |stem| ==> stem[i] != '/'
    requires exists i :: 0 <= i < |stem| && stem[i] != '.'
    requires forall i :: 0 <= i < |ext| ==> ext[i] != '.' && ext[i] != '/'
    ensures SplitExt(stem + "." + ext) == (stem, "." + ext)
  {
    var p := stem + "." + ext;
    assert p[|stem|] == '.';
    assert forall j :: |stem| < j < |p| ==> p[j] == ext[j - |stem| - 1];
    var dotIndex := LastIndexOf(p, '.');
    assert dotIndex == |stem|;
    var sepIndex := LastIndexOf(p, '/');
    assert forall j :: 0 <= j < |stem| ==> p[j] == stem[j];
    assert sepIndex == -1;
    assert p[sepIndex + 1..dotIndex] == stem;
    assert p[..dotIndex] == stem;
    assert p[dotIndex..] == "." + ext;
  }

  /** A leading-dot name without another dot has no extension. */
  lemma SplitExtOfDotName(ext: string)
    requires forall i :: 0 <= i < |ext| ==> ext[i] != '.' && ext[i] != '/'
    ensures SplitExt("." + ext) == ("." + ext, "")
  {
    var p := "." + ext;
    assert p[0] == '.';
    assert forall j :: 0 < j < |p| ==> p[j] == ext[j - 1];
    assert LastIndexOf(p, '.') == 0;
    assert LastIndexOf(p, '/') == -1;
    assert AllDots(p[0..0]);
  }

  /** Two-argument `os.path.join`: an absolute second part replaces the
      first; otherwise a '/' is inserted unless the first part is empty or
      already ends with one. */
  function Join(a: string, b: string): (r: string)
    ensures |b| > 0 && b[0] == '/' ==> r == b
    ensures !(|b| > 0 && b[0] == '/') ==> |r| >= |b| && r[|r| - |b|..] == b
    ensures !(|b| > 0 && b[0] == '/') && (a == "" || a[|a| - 1] == '/') ==> r == a + b
    ensures !(|b| > 0 && b[0] == '/') && a != "" && a[|a| - 1] != '/' ==> r == a + "/" + b
  {
    if |b| > 0 && b[0] == '/' then b
    else if a == "" || a[|a| - 1] == '/' then a + b
    else a + "/" + b
  }
}
