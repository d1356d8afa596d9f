/**
 * File and directory names of the exported tree: lower-casing, path joining
 * and the file-name builder of the exporters.
 */
module Names {
  import opened Wrappers

  /** The path separator. */
  const Sep: char := '/'

  predicate IsUpper(c: char) { 'A' <= c <= 'Z' }

  /** No upper-case letter anywhere in s. */
  predicate IsLowerCase(s: string) {
    forall i :: 0 <= i < |s| ==> !IsUpper(s[i])
  }

  function LowerChar(c: char): char {
    if IsUpper(c) then (c as int + 32) as char else c
  }

  /** String lower-casing (ASCII letters only), character by character. */
  function Lower(s: string): (r: string)
    ensures |r| == |s|
  {
    seq(|s|, i requires 0 <= i < |s| => LowerChar(s[i]))
  }

  /**
   * The result of lower-casing contains no upper-case letter, maps each
   * upper-case letter to its lower-case partner and keeps every other
   * character.
   */
  lemma LowerSpec(s: string)
    ensures IsLowerCase(Lower(s))
    ensures forall i :: 0 <= i < |s| && IsUpper(s[i]) ==> Lower(s)[i] as int == s[i] as int + 32
    ensures forall i :: 0 <= i < |s| && !IsUpper(s[i]) ==> Lower(s)[i] == s[i]
  {
  }

  lemma LowerOfLowerCase(s: string)
    requires IsLowerCase(s)
    ensures Lower(s) == s
  {
  }

  /** Lower-casing is idempotent. */
  lemma LowerIdempotent(s: string)
    ensures Lower(Lower(s)) == Lower(s)
  {
    LowerSpec(s);
    LowerOfLowerCase(Lower(s));
  }

  /** Lower-casing distributes over concatenation. */
  lemma LowerAppend(a: string, b: string)
    ensures Lower(a + b) == Lower(a) + Lower(b)
  {
    assert forall i :: 0 <= i < |a + b| ==> Lower(a + b)[i] == (Lower(a) + Lower(b))[i];
  }

  /** os.path.join of two parts, as a plain separator join. */
  function Join(dir: string, leaf: string): (r: string)
    ensures |r| == |dir| + 1 + |leaf|
    ensures r[..|dir|] == dir && r[|dir|] == Sep && r[|dir| + 1..] == leaf
  {
    dir + [Sep] + leaf
  }

  /** p lies directly or indirectly inside dir. */
  predicate Under(dir: string, p: string) {
    |dir| < |p| && p[..|dir| + 1] == dir + [Sep]
  }

  /** A leaf name placed in the optional directory (None: the working directory). */
  function Place(destdir: Option<string>, leaf: string): (r: string)
    ensures destdir.None? ==> r == leaf
    ensures destdir.Some? ==> Under(destdir.value, r) && r[|destdir.value| + 1..] == leaf
  {
    if destdir.Some? then Join(destdir.value, leaf) else leaf
  }

  /** os.path.join(*segs): the segments separated by the path separator. */
  function JoinAll(segs: seq<string>): string
  {
    if |segs| == 0 then ""
    else if |segs| == 1 then segs[0]
    else segs[0] + [Sep] + JoinAll(segs[1..])
  }

  /** Each segment lower-cased. */
  function LowerAll(segs: seq<string>): (r: seq<string>)
    ensures |r| == |segs|
    ensures forall i :: 0 <= i < |segs| ==> r[i] == Lower(segs[i])
  {
    seq(|segs|, i requires 0 <= i < |segs| => Lower(segs[i]))
  }

  /** Lower-casing a joined path equals joining the lower-cased segments. */
  lemma {:induction false} LowerJoinAll(segs: seq<string>)
    ensures Lower(JoinAll(segs)) == JoinAll(LowerAll(segs))
  {
    if |segs| == 0 {
    } else if |segs| == 1 {
    } else {
      calc {
        Lower(JoinAll(segs));
        Lower(segs[0] + [Sep] + JoinAll(segs[1..]));
        { LowerAppend(segs[0] + [Sep], JoinAll(segs[1..])); LowerAppend(segs[0], [Sep]); }
        Lower(segs[0]) + [Sep] + Lower(JoinAll(segs[1..]));
        { LowerJoinAll(segs[1..]); }
        Lower(segs[0]) + [Sep] + JoinAll(LowerAll(segs[1..]));
        { assert LowerAll(segs[1..]) == LowerAll(segs)[1..]; }
        JoinAll(LowerAll(segs));
      }
    }
  }

  /**
   * build_filename: `<name><typsfx>.<fileext>` lower-cased as a whole, then
   * placed in destdir when one is given. Each part is lower-cased and the
   * directory itself is kept as it is.
   */
  function BuildFilename(objectName: string, typsfx: string, fileext: string, destdir: Option<string>): (r: string)
    ensures r == Place(destdir, Lower(objectName) + Lower(typsfx) + "." + Lower(fileext))
  {
    var filename := Lower(objectName + typsfx + "." + fileext);
    LowerAppend(objectName + typsfx + ".", fileext);
    LowerAppend(objectName + typsfx, ".");
    LowerAppend(objectName, typsfx);
    if destdir.Some? then Join(destdir.value, filename) else filename
  }

  /** Object names that differ only in letter case give the same file name. */
  lemma BuildFilenameCaseInsensitive(a: string, b: string, typsfx: string, fileext: string, destdir: Option<string>)
    requires Lower(a) == Lower(b)
    ensures BuildFilename(a, typsfx, fileext, destdir) == BuildFilename(b, typsfx, fileext, destdir)
  {
  }
}
