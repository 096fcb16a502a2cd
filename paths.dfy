/**
 * An abstract version of the `System.IO.Path` operations the organizer uses:
 * `Combine`, `GetFileName`, `GetDirectoryName`, `GetExtension` and
 * `GetFileNameWithoutExtension`. A path is a string; `\` and `/` separate its
 * segments, as on Windows. Rooted second arguments of `Combine`, drive letters and
 * separator normalisation are not modelled.
 */
module Paths {
  import opened Text

  const Separator: char := '\\'

  predicate IsSep(c: char) {
    c == '\\' || c == '/'
  }

  predicate NoSep(s: string) {
    forall i :: 0 <= i < |s| ==> !IsSep(s[i])
  }

  predicate EndsWithSep(s: string) {
    s != [] && IsSep(s[|s| - 1])
  }

  // ---------------------------------------------------------------- joining

  /** What `Combine(dir, name)` puts in front of `name`: nothing for an empty `dir`,
      otherwise `dir` followed by a separator unless it already ends with one. */
  function JoinPrefix(dir: string): (r: string)
    ensures r == [] || EndsWithSep(r)
  {
    if dir == [] then [] else if EndsWithSep(dir) then dir else dir + [Separator]
  }

  /** `Path.Combine(dir, name)`. */
  function Combine(dir: string, name: string): string {
    JoinPrefix(dir) + name
  }

  /** Within one directory, different names give different paths. */
  lemma CombineInjective(dir: string, a: string, b: string)
    ensures Combine(dir, a) == Combine(dir, b) ==> a == b
  {
    var p := JoinPrefix(dir);
    assert a == Combine(dir, a)[|p|..];
    assert b == Combine(dir, b)[|p|..];
  }

  lemma JoinPrefixIdempotent(dir: string)
    ensures JoinPrefix(JoinPrefix(dir)) == JoinPrefix(dir)
  {
  }

  // ---------------------------------------------------------------- splitting

  /** The index of the last separator of `p`, or -1 if it has none. */
  function LastSep(p: string): (r: int)
    ensures -1 <= r < |p|
    ensures r >= 0 ==> IsSep(p[r])
  {
    if p == [] then -1
    else if IsSep(p[|p| - 1]) then |p| - 1
    else LastSep(p[..|p| - 1])
  }

  /** No separator follows the one `LastSep` finds. */
  lemma {:induction false} LastSepIsLast(p: string)
    ensures forall j :: LastSep(p) < j < |p| ==> !IsSep(p[j])
  {
    if p != [] && !IsSep(p[|p| - 1]) {
      LastSepIsLast(p[..|p| - 1]);
    }
  }

  /** `Path.GetFileName(path)`: what follows the last separator. */
  function FileName(path: string): string {
    path[LastSep(path) + 1..]
  }

  /** A file name has no separator in it. */
  lemma FileNameHasNoSep(path: string)
    ensures NoSep(FileName(path))
  {
    LastSepIsLast(path);
    var i := LastSep(path) + 1;
    forall k | 0 <= k < |FileName(path)| ensures !IsSep(FileName(path)[k]) {
      assert FileName(path)[k] == path[i + k];
    }
  }

  /** `Path.GetDirectoryName(path)`: what precedes the file name. Unlike .NET this keeps
      the trailing separator; `Combine` treats both forms alike. */
  function DirectoryName(path: string): (r: string)
    ensures r == [] || EndsWithSep(r)
  {
    path[..LastSep(path) + 1]
  }

  /** Splitting a path and combining the parts again gives the path back. */
  lemma SplitRoundTrip(path: string)
    ensures Combine(DirectoryName(path), FileName(path)) == path
  {
    assert JoinPrefix(DirectoryName(path)) == DirectoryName(path);
    assert DirectoryName(path) + FileName(path) == path;
  }

  /** The last separator of `Combine(dir, name)` is the one `Combine` wrote (or the last
      one of `dir`), as long as `name` itself has none. */
  lemma LastSepOfCombine(dir: string, name: string)
    requires NoSep(name)
    ensures LastSep(Combine(dir, name)) == |JoinPrefix(dir)| - 1
  {
    var q := Combine(dir, name);
    var k := |JoinPrefix(dir)| - 1;
    LastSepIsLast(q);
    if k >= 0 {
      assert IsSep(q[k]);
    }
  }

  /** Combining and then splitting gives the parts back: the file name exactly, the
      directory in the form `Combine` used. */
  lemma CombineSplitRoundTrip(dir: string, name: string)
    requires NoSep(name)
    ensures FileName(Combine(dir, name)) == name
    ensures DirectoryName(Combine(dir, name)) == JoinPrefix(dir)
  {
    LastSepOfCombine(dir, name);
    var q, p := Combine(dir, name), JoinPrefix(dir);
    assert q[|p|..] == name;
    assert q[..|p|] == p;
  }

  // ---------------------------------------------------------------- extensions

  predicate NoDot(s: string) {
    forall i :: 0 <= i < |s| ==> s[i] != '.'
  }

  /** The index of the last `.` of a file name, or -1 if it has none. */
  function LastDot(f: string): (r: int)
    ensures -1 <= r < |f|
    ensures r >= 0 ==> f[r] == '.'
  {
    if f == [] then -1
    else if f[|f| - 1] == '.' then |f| - 1
    else LastDot(f[..|f| - 1])
  }

  /** No `.` follows the one `LastDot` finds. */
  lemma {:induction false} LastDotIsLast(f: string)
    ensures forall j :: LastDot(f) < j < |f| ==> f[j] != '.'
  {
    if f != [] && f[|f| - 1] != '.' {
      LastDotIsLast(f[..|f| - 1]);
    }
  }

  /** The extension of a file name: from its last `.` on, or empty when there is no `.`
      or the `.` is the last character. */
  function NameExtension(f: string): (r: string)
    ensures |r| <= |f|
  {
    var i := LastDot(f);
    if i < 0 || i == |f| - 1 then [] else f[i..]
  }

  /** An extension is a suffix of the name: a `.` and at least one more character, none
      of them a `.`, so it starts at the last `.`. A name has one exactly when it
      contains a `.` and does not end in one. */
  lemma NameExtensionSpec(f: string)
    ensures var r := NameExtension(f);
      && r == f[|f| - |r|..]
      && (r == [] || (|r| >= 2 && r[0] == '.' && NoDot(r[1..])))
      && (r != [] <==> f != [] && f[|f| - 1] != '.' && !NoDot(f))
  {
    LastDotIsLast(f);
    var r := NameExtension(f);
    var i := LastDot(f);
    if r != [] {
      forall k | 0 <= k < |r[1..]| ensures r[1..][k] != '.' {
        assert r[1..][k] == f[i + 1 + k];
      }
    }
    if !NoDot(f) {
      var j :| 0 <= j < |f| && f[j] == '.';
      assert j <= i;
    }
  }

  /** The file name without its extension: everything before the last `.`. */
  function NameStem(f: string): (r: string)
    ensures |r| <= |f|
  {
    var i := LastDot(f);
    if i < 0 then f else f[..i]
  }

  /** The stem is a prefix of the name. */
  lemma NameStemIsPrefix(f: string)
    ensures NameStem(f) == f[..|NameStem(f)|]
  {
  }

  /** `Path.GetExtension(path)`. */
  function GetExtension(path: string): string {
    NameExtension(FileName(path))
  }

  /** `Path.GetFileNameWithoutExtension(path)`. */
  function GetFileNameWithoutExtension(path: string): string {
    NameStem(FileName(path))
  }

  /** Stem and extension make up the file name again, except that a trailing `.` is
      in neither of them. */
  lemma StemAndExtension(f: string)
    ensures if f != [] && f[|f| - 1] == '.' then NameExtension(f) == [] && NameStem(f) + "." == f
            else NameStem(f) + NameExtension(f) == f
  {
    var i := LastDot(f);
    if i < 0 {
      assert NameStem(f) + NameExtension(f) == f;
    } else if i == |f| - 1 {
      assert NameStem(f) + "." == f;
    } else {
      assert f[..i] + f[i..] == f;
    }
  }

  /** Parts of a name without separators have none either. */
  lemma PartsHaveNoSep(f: string)
    requires NoSep(f)
    ensures NoSep(NameStem(f)) && NoSep(NameExtension(f))
  {
    var stem, ext := NameStem(f), NameExtension(f);
    NameStemIsPrefix(f);
    NameExtensionSpec(f);
    forall i | 0 <= i < |stem| ensures !IsSep(stem[i]) {
      assert stem[i] == f[i];
    }
    forall i | 0 <= i < |ext| ensures !IsSep(ext[i]) {
      assert ext[i] == f[|f| - |ext| + i];
    }
  }

  /** `GetExtension(path).TrimStart('.')` drops exactly the one leading dot. */
  lemma ExtensionWithoutDot(path: string)
    ensures var ext := GetExtension(path);
            TrimStart(ext, '.') == if ext == [] then [] else ext[1..]
  {
    var ext := GetExtension(path);
    NameExtensionSpec(FileName(path));
    if ext != [] {
      assert ext[1..][0] != '.';
      assert TrimStart(ext[1..], '.') == ext[1..];
    }
  }
}
