/**
 The two pieces of Python's path and string handling that the capture core relies on:
 `os.path.split(p)[-1]` and `s.split('.')[-1]` (both "the text after the last separator")
 and the two-argument form of `os.path.join` on POSIX.
 */
module Paths {

  /** `t` is a suffix of `s`. */
  predicate IsSuffix(t: string, s: string)
  {
    |t| <= |s| && t == s[|s| - |t|..]
  }

  /**
   The text after the last occurrence of `c` in `s`, or all of `s` when `c` does not occur.
   With `c == '/'` this is the tail that `os.path.split` returns; with `c == '.'` it is the
   last element of `s.split('.')`.
   */
  function AfterLast(s: string, c: char): (r: string)
    ensures IsSuffix(r, s)
    ensures c !in r
    ensures |r| == |s| || s[|s| - |r| - 1] == c
  {
    if s == [] then []
    else if s[|s| - 1] == c then []
    else AfterLast(s[..|s| - 1], c) + [s[|s| - 1]]
  }

  /**
   The three properties in the contract of `AfterLast` pin its result down: any suffix without
   `c` that is either all of `s` or preceded by `c` is that result.
   */
  lemma AfterLastUnique(s: string, c: char, t: string)
    requires IsSuffix(t, s) && c !in t
    requires |t| == |s| || s[|s| - |t| - 1] == c
    ensures t == AfterLast(s, c)
  {
    var r := AfterLast(s, c);
    if |r| < |t| {
      assert false;
    } else if |t| < |r| {
      assert false;
    }
  }

  /** Any suffix of `s` that does not contain `c` is a suffix of `AfterLast(s, c)`. */
  lemma AfterLastLongest(s: string, c: char, t: string)
    requires IsSuffix(t, s) && c !in t
    ensures |t| <= |AfterLast(s, c)|
  {
    var r := AfterLast(s, c);
    if |r| < |t| {
      assert false;
    }
  }

  /** `os.path.join(a, b)` on POSIX. */
  function Join(a: string, b: string): string
  {
    if b != [] && b[0] == '/' then b
    else if a == [] || a[|a| - 1] == '/' then a + b
    else a + "/" + b
  }

  /** When neither side supplies a separator of its own, `Join` inserts exactly one. */
  lemma JoinRelative(a: string, b: string)
    requires a != [] && a[|a| - 1] != '/'
    requires b != [] && b[0] != '/'
    ensures Join(a, b) == a + "/" + b
    ensures AfterLast(Join(a, b), '/') == AfterLast(b, '/')
  {
    var p := a + "/" + b;
    var r := AfterLast(b, '/');
    assert p[|p| - |b|..] == b;
    assert IsSuffix(r, p) by {
      assert p[|p| - |r|..] == b[|b| - |r|..];
    }
    if |r| == |b| {
      assert p[|p| - |r| - 1] == '/';
    } else {
      assert p[|p| - |r| - 1] == b[|b| - |r| - 1];
    }
    AfterLastUnique(p, '/', r);
  }

  /**
   Joining a non-empty folder and a plain file name keeps the folder as a prefix and makes the
   name the last segment, whether or not the folder already ends in '/'.
   */
  lemma JoinFileName(dir: string, name: string)
    requires dir != [] && name != [] && '/' !in name
    ensures Join(dir, name)[..|dir|] == dir
    ensures AfterLast(Join(dir, name), '/') == name
  {
    var file := Join(dir, name);
    if dir[|dir| - 1] == '/' {
      assert file == dir + name;
      assert file[|file| - |name| - 1] == '/';
    } else {
      assert file == dir + "/" + name;
      assert file[|file| - |name| - 1] == '/';
    }
    assert IsSuffix(name, file);
    AfterLastUnique(file, '/', name);
  }
}
