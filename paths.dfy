/**
 * The few string and path operations of Python's standard library that the
 * downloader relies on: `os.path.join` with two parts, `str.endswith`,
 * `str.split`/`str.rsplit` without a limit, `str.strip()` and `str.replace`
 * of one character by nothing.
 */
module Paths {

  predicate StartsWith(s: string, prefix: string) {
    |prefix| <= |s| && s[..|prefix|] == prefix
  }

  /** `s.endswith(suffix)`; every string ends with the empty string. */
  predicate EndsWith(s: string, suffix: string) {
    |suffix| <= |s| && s[|s| - |suffix|..] == suffix
  }

  /**
   * `posixpath.join(a, b)`: an absolute `b` replaces `a`; otherwise a `/` is
   * put between them unless `a` is empty or already ends with one.
   */
  function Join(a: string, b: string): string {
    if |b| > 0 && b[0] == '/' then b
    else if a == [] || a[|a| - 1] == '/' then a + b
    else a + "/" + b
  }

  /**
   * The joined path ends with `b`; an absolute `b` is the whole result;
   * otherwise the result starts with `a`, and a `/` separates them when `a`
   * is not empty and does not end with one.
   */
  lemma JoinShape(a: string, b: string)
    ensures var r := Join(a, b);
      && EndsWith(r, b)
      && (StartsWith(b, "/") ==> r == b)
      && (!StartsWith(b, "/") ==> StartsWith(r, a))
      && (!StartsWith(b, "/") && a != [] && !EndsWith(a, "/") ==> |r| == |a| + 1 + |b| && r[|a|] == '/')
      && (!StartsWith(b, "/") && (a == [] || EndsWith(a, "/")) ==> r == a + b)
  {
  }

  /**
   * The extension rule shared by the download list and the download itself:
   * `if not path.endswith(ext): path += "." + ext`.
   */
  function WithExtension(path: string, ext: string): string {
    if EndsWith(path, ext) then path else path + "." + ext
  }

  /**
   * The result always ends with `ext` and starts with `path`; it is `path`
   * itself exactly when `path` already ends with `ext`, and otherwise `path`,
   * a dot and `ext`.
   */
  lemma WithExtensionShape(path: string, ext: string)
    ensures var r := WithExtension(path, ext);
      && EndsWith(r, ext)
      && StartsWith(r, path)
      && (r == path <==> EndsWith(path, ext))
      && (r != path ==> |r| == |path| + 1 + |ext| && r[|path|] == '.')
  {
    var r := WithExtension(path, ext);
    if !EndsWith(path, ext) {
      assert r[|r| - |ext|..] == ext;
    }
  }

  /** `s.split(sep)` (equivalently `s.rsplit(sep)`): the fields between separators. */
  function Split(s: string, sep: char): (fields: seq<string>)
    ensures |fields| >= 1
    ensures forall i :: 0 <= i < |fields| ==> sep !in fields[i]
  {
    if s == [] then [""]
    else
      var rest := Split(s[1..], sep);
      if s[0] == sep then [""] + rest
      else [[s[0]] + rest[0]] + rest[1..]
  }

  /** `sep.join(fields)`: the inverse of `Split`. */
  function JoinWith(fields: seq<string>, sep: char): string
    requires |fields| >= 1
  {
    if |fields| == 1 then fields[0] else fields[0] + [sep] + JoinWith(fields[1..], sep)
  }

  /** Splitting loses nothing: joining the fields back gives the original string. */
  lemma {:induction false} SplitJoin(s: string, sep: char)
    ensures JoinWith(Split(s, sep), sep) == s
  {
    if s != [] {
      var rest := Split(s[1..], sep);
      SplitJoin(s[1..], sep);
      if s[0] == sep {
        assert Split(s, sep)[1..] == rest;
      } else {
        var fields := Split(s, sep);
        assert fields[0] == [s[0]] + rest[0];
        if |rest| == 1 {
          assert JoinWith(fields, sep) == [s[0]] + rest[0];
        } else {
          assert fields[1..] == rest[1..];
          assert JoinWith(rest, sep) == rest[0] + [sep] + JoinWith(rest[1..], sep);
        }
      }
    }
  }

  /** A string has a second field exactly when it contains the separator. */
  lemma {:induction false} SplitHasSecondField(s: string, sep: char)
    ensures |Split(s, sep)| >= 2 <==> sep in s
  {
    if s != [] {
      SplitHasSecondField(s[1..], sep);
      assert sep in s <==> s[0] == sep || sep in s[1..];
    }
  }

  /** The characters for which Python's `str.isspace()` holds. */
  predicate IsSpace(c: char) {
    ('\U{9}' <= c <= '\U{D}') || ('\U{1C}' <= c <= ' ') || c == '\U{85}' || c == '\U{A0}'
    || c == '\U{1680}' || ('\U{2000}' <= c <= '\U{200A}') || c == '\U{2028}' || c == '\U{2029}'
    || c == '\U{202F}' || c == '\U{205F}' || c == '\U{3000}'
  }

  function StripLeft(s: string): (r: string)
    ensures r == [] || !IsSpace(r[0])
    ensures EndsWith(s, r)
    ensures forall i :: 0 <= i < |s| - |r| ==> IsSpace(s[i])
  {
    if s != [] && IsSpace(s[0]) then StripLeft(s[1..]) else s
  }

  function StripRight(s: string): (r: string)
    ensures r == [] || !IsSpace(r[|r| - 1])
    ensures StartsWith(s, r)
    ensures forall i :: |r| <= i < |s| ==> IsSpace(s[i])
  {
    if s != [] && IsSpace(s[|s| - 1]) then StripRight(s[..|s| - 1]) else s
  }

  /** `s.strip()`: whitespace removed from both ends. */
  function Strip(s: string): (r: string)
    ensures r == [] || (!IsSpace(r[0]) && !IsSpace(r[|r| - 1]))
    ensures (forall i :: 0 <= i < |s| ==> !IsSpace(s[i])) ==> r == s
  {
    StripRight(StripLeft(s))
  }

  /** `s.replace(c, "")`. */
  function Remove(s: string, c: char): (r: string)
    ensures c !in r
    ensures c !in s ==> r == s
    ensures |r| <= |s|
  {
    if s == [] then [] else (if s[0] == c then [] else [s[0]]) + Remove(s[1..], c)
  }
}
