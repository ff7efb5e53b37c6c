/**
 * The few .NET library routines whose behaviour the core relies on:
 * ordinal `String.Replace(string, string)` and `Path.GetFileName` /
 * `Path.Combine` on paths whose only separator is '/'.
 */
module DotNet {

  /** `s` starts with `pat`. */
  predicate StartsWith(s: string, pat: string)
  {
    |pat| <= |s| && s[..|pat|] == pat
  }

  /** There is an occurrence of `pat` in `s` starting at index `i`. */
  ghost predicate OccursAt(s: string, pat: string, i: int)
  {
    0 <= i <= |s| && StartsWith(s[i..], pat)
  }

  /**
   * `s.Replace(pat, rep)`: scans `s` from the left and replaces every
   * non-overlapping occurrence of `pat` by `rep`.
   */
  function Replace(s: string, pat: string, rep: string): (r: string)
    requires pat != []
    decreases |s|
  {
    if |s| < |pat| then s
    else if StartsWith(s, pat) then rep + Replace(s[|pat|..], pat, rep)
    else [s[0]] + Replace(s[1..], pat, rep)
  }

  /** Where `pat` does not occur, `Replace` leaves the string as it is. */
  lemma {:induction false} ReplaceWithoutOccurrence(s: string, pat: string, rep: string)
    requires pat != []
    requires forall i :: !OccursAt(s, pat, i)
    ensures Replace(s, pat, rep) == s
    decreases |s|
  {
    if |s| >= |pat| {
      assert !OccursAt(s, pat, 0);
      forall i ensures !OccursAt(s[1..], pat, i) {
        assert !OccursAt(s, pat, i + 1);
        if 0 <= i < |s| {
          assert s[1..][i..] == s[i + 1..];
        }
      }
      ReplaceWithoutOccurrence(s[1..], pat, rep);
    }
  }

  /**
   * The leftmost occurrence of `pat` is replaced by `rep`, the text before it
   * is kept and the rest of the string is processed the same way.
   */
  lemma {:induction false} ReplaceLeftmost(s: string, pat: string, rep: string, k: nat)
    requires pat != []
    requires OccursAt(s, pat, k)
    requires forall i :: 0 <= i < k ==> !OccursAt(s, pat, i)
    ensures Replace(s, pat, rep) == s[..k] + rep + Replace(s[k + |pat|..], pat, rep)
  {
    ReplaceSkipsPrefix(s, pat, rep, k);
    var t := s[k..];
    assert StartsWith(t, pat);
    assert t[|pat|..] == s[k + |pat|..];
    assert Replace(t, pat, rep) == rep + Replace(s[k + |pat|..], pat, rep);
  }

  /** The first `k` characters, at none of which `pat` occurs, are copied unchanged. */
  lemma {:induction false} ReplaceSkipsPrefix(s: string, pat: string, rep: string, k: nat)
    requires pat != [] && k <= |s|
    requires forall i :: 0 <= i < k ==> !OccursAt(s, pat, i)
    ensures Replace(s, pat, rep) == s[..k] + Replace(s[k..], pat, rep)
    decreases k
  {
    if k == 0 {
      assert s[..k] == [] && s[k..] == s;
    } else if |s| < |pat| {
      assert Replace(s[k..], pat, rep) == s[k..];
      assert s[..k] + s[k..] == s;
    } else {
      assert s[0..] == s && !OccursAt(s, pat, 0);
      assert Replace(s, pat, rep) == [s[0]] + Replace(s[1..], pat, rep);
      forall i | 0 <= i < k - 1 ensures !OccursAt(s[1..], pat, i) {
        assert s[1..][i..] == s[i + 1..];
        assert !OccursAt(s, pat, i + 1);
      }
      ReplaceSkipsPrefix(s[1..], pat, rep, k - 1);
      assert s[1..][k - 1..] == s[k..];
      assert s[..k] == [s[0]] + s[1..][..k - 1];
    }
  }

  /** A string that is exactly the placeholder becomes exactly the replacement. */
  lemma {:induction false} ReplaceWholePlaceholder(pat: string, rep: string)
    requires pat != []
    ensures Replace(pat, pat, rep) == rep
  {
    assert pat[..|pat|] == pat;
    assert pat[|pat|..] == [];
  }

  /**
   * `Path.GetFileName(path)` on a path whose separator is '/': the characters
   * after the last '/', or the whole path if it has none.
   */
  function FileName(path: string): (r: string)
    ensures '/' !in r
    ensures |r| <= |path| && r == path[|path| - |r|..]
    ensures |r| == |path| || path[|path| - |r| - 1] == '/'
  {
    if path == [] then []
    else if path[|path| - 1] == '/' then []
    else FileName(path[..|path| - 1]) + [path[|path| - 1]]
  }

  /**
   * `Path.Combine(dir, name)` for a `name` that holds no separator (so it is
   * never rooted): an empty part yields the other one, and a separator is
   * inserted unless `dir` already ends with one.
   */
  function Combine(dir: string, name: string): (r: string)
    requires '/' !in name
    ensures name != [] ==> FileName(r) == name
    ensures name == [] ==> r == dir
    ensures |dir| <= |r| && r[..|dir|] == dir
    ensures name != [] ==> |dir| < |r|
    ensures name != [] ==> r == dir + name || r == dir + "/" + name
  {
    if name == [] then dir
    else if dir == [] then
      FileNameAfterSeparator([], name); name
    else if dir[|dir| - 1] == '/' then
      FileNameAfterSeparator(dir, name); dir + name
    else
      FileNameAfterSeparator(dir + "/", name); dir + "/" + name
  }

  /** The file name of a path that ends in a separator followed by `name` is `name`. */
  lemma {:induction false} FileNameAfterSeparator(dir: string, name: string)
    requires dir == [] || dir[|dir| - 1] == '/'
    requires '/' !in name
    ensures FileName(dir + name) == name
    decreases |name|
  {
    var p := dir + name;
    if name == [] {
      assert p == dir;
    } else {
      var init, last := name[..|name| - 1], name[|name| - 1];
      assert name == init + [last];
      assert last != '/' && '/' !in init;
      assert p[|p| - 1] == last;
      assert p[..|p| - 1] == dir + init;
      FileNameAfterSeparator(dir, init);
      assert FileName(p) == FileName(dir + init) + [last];
    }
  }

}
