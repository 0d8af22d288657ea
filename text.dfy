/** Strings, file names and Windows paths as the launcher treats them. */
module Text {

  predicate EndsWith(s: string, suffix: string) {
    |suffix| <= |s| && s[|s| - |suffix|..] == suffix
  }

  /** `toLowerCase` restricted to ASCII letters. */
  function LowerChar(c: char): char {
    if 'A' <= c <= 'Z' then (c as int + 32) as char else c
  }

  function ToLower(s: string): (r: string)
    ensures |r| == |s|
    ensures forall i :: 0 <= i < |s| ==> r[i] == LowerChar(s[i])
  {
    seq(|s|, i requires 0 <= i < |s| => LowerChar(s[i]))
  }

  /** `p.toLowerCase().endsWith('.exe')` */
  predicate IsExePath(p: string) {
    EndsWith(ToLower(p), ".exe")
  }

  /** `p.toLowerCase().endsWith('.lnk')` */
  predicate IsLnkPath(p: string) {
    EndsWith(ToLower(p), ".lnk")
  }

  /** The case-sensitive extensions of the entries the catalog lists. */
  predicate HasAppExt(f: string) {
    EndsWith(f, ".lnk") || EndsWith(f, ".exe") || EndsWith(f, ".url")
  }

  /** `f.replace(/\.(lnk|exe|url)$/, '')`: all three extensions are four characters long. */
  function StripAppExt(f: string): (name: string)
    ensures HasAppExt(f) ==> |f| >= 4 && name + f[|f| - 4..] == f
    ensures !HasAppExt(f) ==> name == f
  {
    if HasAppExt(f) then f[..|f| - 4] else f
  }

  /** `path.extname(f)` for a directory entry name that carries one of the
      three extensions: empty when the dot is the first character. */
  function FileType(f: string): (ext: string)
    ensures HasAppExt(f) && |f| == 4 ==> ext == ""
    ensures HasAppExt(f) && |f| > 4 ==>
      && ext == f[|f| - 4..] && ext[0] == '.'
      && forall i :: |f| - 4 < i < |f| ==> f[i] != '.'
  {
    if |f| <= 4 then "" else f[|f| - 4..]
  }

  const SEPARATOR: char := '\\'

  predicate IsSeparator(c: char) {
    c == '\\' || c == '/'
  }

  predicate NoSeparator(f: string) {
    forall i :: 0 <= i < |f| ==> !IsSeparator(f[i])
  }

  /** `path.join(folder, f)` without normalisation. */
  function Join(folder: string, f: string): string {
    folder + [SEPARATOR] + f
  }

  /** `path.basename(p)`: everything after the last separator. */
  function Basename(p: string): (b: string)
    ensures NoSeparator(b)
    ensures |b| <= |p| && p[|p| - |b|..] == b
    decreases |p|
  {
    if p == [] || IsSeparator(p[|p| - 1]) then []
    else Basename(p[..|p| - 1]) + [p[|p| - 1]]
  }

  /** The basename is all of what follows the last separator: either the
      whole path, or the character just before it is a separator. */
  lemma {:induction false} BasenameAfterLastSeparator(p: string)
    ensures var b := Basename(p); |b| == |p| || IsSeparator(p[|p| - |b| - 1])
    decreases |p|
  {
    if p != [] && !IsSeparator(p[|p| - 1]) {
      var q := p[..|p| - 1];
      BasenameAfterLastSeparator(q);
      assert |Basename(p)| == |Basename(q)| + 1;
      if |Basename(q)| < |q| {
        assert p[|p| - |Basename(p)| - 1] == q[|q| - |Basename(q)| - 1];
      }
    }
  }

  /** A separator-free suffix leaves no separator in the positions it covers. */
  lemma SuffixHasNoSeparator(p: string, b: string)
    requires |b| <= |p| && p[|p| - |b|..] == b && NoSeparator(b)
    ensures forall i :: |p| - |b| <= i < |p| ==> !IsSeparator(p[i])
  {
    forall i | |p| - |b| <= i < |p|
      ensures !IsSeparator(p[i])
    {
      assert p[i] == b[i - (|p| - |b|)];
    }
  }

  /** A separator-free suffix is no longer than a suffix that is all of `p`
      or follows a separator. */
  lemma NotLongerThanSegment(p: string, segment: string, free: string)
    requires |segment| <= |p| && (|segment| == |p| || IsSeparator(p[|p| - |segment| - 1]))
    requires |free| <= |p| && p[|p| - |free|..] == free && NoSeparator(free)
    ensures |free| <= |segment|
  {
    SuffixHasNoSeparator(p, free);
  }

  /** A separator-free suffix of `p` that is all of `p` or follows a separator. */
  ghost predicate LastSegment(p: string, b: string) {
    && |b| <= |p| && p[|p| - |b|..] == b && NoSeparator(b)
    && (|b| == |p| || IsSeparator(p[|p| - |b| - 1]))
  }

  /** `p` has only one last segment. */
  lemma LastSegmentUnique(p: string, b: string, c: string)
    requires LastSegment(p, b) && LastSegment(p, c)
    ensures b == c
  {
    NotLongerThanSegment(p, b, c);
    NotLongerThanSegment(p, c, b);
    assert b == p[|p| - |c|..];
  }

  /** The basename is the last segment of the path, and the only one. */
  lemma BasenameUnique(p: string, b: string)
    ensures LastSegment(p, Basename(p))
    ensures LastSegment(p, b) ==> b == Basename(p)
  {
    BasenameAfterLastSeparator(p);
    if LastSegment(p, b) {
      LastSegmentUnique(p, b, Basename(p));
    }
  }

  /** The basename of a joined path is the file name that was joined. */
  lemma {:induction false} BasenameOfJoin(folder: string, f: string)
    requires NoSeparator(f)
    ensures Basename(Join(folder, f)) == f
    decreases |f|
  {
    var p := Join(folder, f);
    if f == [] {
      assert p[|p| - 1] == SEPARATOR;
    } else {
      var f' := f[..|f| - 1];
      assert Join(folder, f)[..|p| - 1] == Join(folder, f');
      BasenameOfJoin(folder, f');
      assert f' + [f[|f| - 1]] == f;
    }
  }
}
