/** POSIX path handling as Python's `posixpath` does it: `join` of two parts, `split` and `basename`. */
module Paths {

  const Sep: char := '/'

  predicate HasNoSep(s: string) {
    forall i :: 0 <= i < |s| ==> s[i] != Sep
  }

  /** `os.path.join(a, b)`: an absolute `b` replaces `a`; otherwise one separator is put between them. */
  function Join(a: string, b: string): string {
    if |b| > 0 && b[0] == Sep then b
    else if a == [] || a[|a| - 1] == Sep then a + b
    else a + [Sep] + b
  }

  /** `p.rfind('/') + 1`: the length of the part of `p` up to and including its last separator. */
  function LastSepEnd(p: string): (i: nat)
    ensures i <= |p|
  {
    if p == [] then 0
    else if p[|p| - 1] == Sep then |p|
    else LastSepEnd(p[..|p| - 1])
  }

  /** `s.rstrip('/')`. */
  function RStripSep(s: string): string {
    if s != [] && s[|s| - 1] == Sep then RStripSep(s[..|s| - 1]) else s
  }

  /** Whether `s` consists of separators only. */
  predicate AllSep(s: string) {
    s == [] || (s[|s| - 1] == Sep && AllSep(s[..|s| - 1]))
  }

  /** `os.path.split(p)`: the head (trailing separators removed unless it is all separators) and the tail. */
  function Split(p: string): (string, string)
  {
    var i := LastSepEnd(p);
    var head, tail := p[..i], p[i..];
    if !AllSep(head) then (RStripSep(head), tail)
    else (head, tail)
  }

  /** `os.path.basename(p)`, the second half of `os.path.split(p)`. */
  function Basename(p: string): string {
    Split(p).1
  }

  /** A join ends in its second part, which replaces the first when it is absolute. */
  lemma JoinShape(a: string, b: string)
    ensures |b| > 0 && b[0] == Sep ==> Join(a, b) == b
    ensures !(|b| > 0 && b[0] == Sep) ==> |Join(a, b)| >= |b| && Join(a, b)[|Join(a, b)| - |b|..] == b
  {
  }

  /** The part after the last separator contains no separator, and the position found follows a
      separator. */
  lemma {:induction false} LastSepEndShape(p: string)
    ensures var i := LastSepEnd(p); (i > 0 ==> p[i - 1] == Sep) && HasNoSep(p[i..])
  {
    if p != [] && p[|p| - 1] != Sep {
      var i := LastSepEnd(p[..|p| - 1]);
      LastSepEndShape(p[..|p| - 1]);
      assert p[i..] == p[..|p| - 1][i..] + [p[|p| - 1]];
    }
  }

  /** Stripping trailing separators keeps a prefix that does not end in one, and removes only separators. */
  lemma {:induction false} RStripSepShape(s: string)
    ensures var r := RStripSep(s);
            |r| <= |s| && r == s[..|r|] && (r == [] || r[|r| - 1] != Sep) &&
            forall i :: |r| <= i < |s| ==> s[i] == Sep
  {
    if s != [] && s[|s| - 1] == Sep {
      RStripSepShape(s[..|s| - 1]);
    }
  }

  /** A string whose every character is a separator is all separators. */
  lemma {:induction false} AllSepOfEvery(s: string)
    requires forall i :: 0 <= i < |s| ==> s[i] == Sep
    ensures AllSep(s)
  {
    if s != [] {
      AllSepOfEvery(s[..|s| - 1]);
    }
  }

  /** The tail of a split is the separator-free end of the path, and the head keeps everything before it
      (up to trailing separators). */
  lemma SplitShape(p: string)
    ensures HasNoSep(Split(p).1)
    ensures |Split(p).1| <= |p| && p[|p| - |Split(p).1|..] == Split(p).1
    ensures var h := Split(p).0; var k := |p| - |Split(p).1|;
            |h| <= k && h == p[..|h|] && forall i :: |h| <= i < k ==> p[i] == Sep
    ensures var h := Split(p).0; AllSep(h) || h[|h| - 1] != Sep
    ensures AllSep(Split(p).0) ==> Split(p).0 == p[..|p| - |Split(p).1|]
  {
    var i := LastSepEnd(p);
    LastSepEndShape(p);
    var head := p[..i];
    if !AllSep(head) {
      var r := RStripSep(head);
      RStripSepShape(head);
      assert forall j :: |r| <= j < i ==> p[j] == head[j];
      if r == [] {
        AllSepOfEvery(head);
      }
    }
  }

  /** Joining a separator-free name onto any directory and taking the base name gives the name back:
      this is why the upload and download destinations end in the source's own base name. */
  lemma BasenameOfJoin(dir: string, name: string)
    requires HasNoSep(name)
    ensures Basename(Join(dir, name)) == name
  {
    var p := Join(dir, name);
    JoinShape(dir, name);
    var a := p[..|p| - |name|];
    assert p == a + name;
    assert a == [] || a[|a| - 1] == Sep;
    var i := LastSepEnd(p);
    LastSepEndShape(p);
    assert i == |a|;
  }

  /** The directory part of a separator-free name joined onto a directory `dir` is `dir` itself, when
      `dir` is not empty and does not end in a separator. */
  lemma HeadOfJoin(dir: string, name: string)
    requires dir != [] && dir[|dir| - 1] != Sep && HasNoSep(name)
    ensures Split(Join(dir, name)).0 == dir
  {
    var p := Join(dir, name);
    assert p == dir + [Sep] + name;
    var i := LastSepEnd(p);
    LastSepEndShape(p);
    assert p[|dir|] == Sep;
    assert i == |dir| + 1;
    var head := p[..i];
    assert head == dir + [Sep];
    assert head[..|head| - 1] == dir && !AllSep(dir);
    assert RStripSep(head) == RStripSep(dir);
  }
}
