/**
 POSIX path names as `os.path.basename` treats them: the separator is `/`,
 and the base name is whatever follows the last separator.
 */
module Paths {

  /** `os.path.basename(p)` on a POSIX system: the longest suffix of `p`
      without a `/`. It is empty when `p` is empty or ends in `/`. */
  function Basename(p: string): (b: string)
    ensures |b| <= |p| && b == p[|p| - |b|..]
    ensures '/' !in b
    ensures |b| < |p| ==> p[|p| - |b| - 1] == '/'
    decreases |p|
  {
    if |p| == 0 || p[|p| - 1] == '/' then ""
    else Basename(p[..|p| - 1]) + [p[|p| - 1]]
  }

  /** A name without separators is its own base name. */
  lemma BasenameOfName(name: string)
    requires '/' !in name
    ensures Basename(name) == name
  {
  }

  /** Whatever directory a file is put in, its base name is the file's name. */
  lemma {:induction false} BasenameOfJoin(dir: string, name: string)
    requires '/' !in name
    ensures Basename(dir + "/" + name) == name
  {
    var p := dir + "/" + name;
    if |name| > 0 {
      var init := name[..|name| - 1];
      assert name[|name| - 1] in name;
      assert forall c :: c in init ==> c in name;
      BasenameOfJoin(dir, init);
      assert p[..|p| - 1] == dir + "/" + init;
      assert init + [name[|name| - 1]] == name;
    }
  }

  /** The three facts `Basename` promises about `b` and `p`. */
  predicate IsBasename(p: string, b: string)
  {
    && |b| <= |p| && b == p[|p| - |b|..]
    && '/' !in b
    && (|b| < |p| ==> p[|p| - |b| - 1] == '/')
  }

  /** The base name is determined by the three facts `Basename` promises. */
  lemma BasenameUnique(p: string, b: string)
    requires IsBasename(p, b)
    ensures b == Basename(p)
  {
  }
}
