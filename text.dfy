/** Python's `str.strip()` with no argument, as the command responses use it. */
module Text {

  /** Python's `str.isspace()` for a single character (every Unicode whitespace code point). */
  predicate IsSpace(c: char) {
    var n := c as int;
    n == 0x20 || 0x09 <= n <= 0x0D || 0x1C <= n <= 0x1F || n == 0x85 || n == 0xA0 ||
    n == 0x1680 || 0x2000 <= n <= 0x200A || n == 0x2028 || n == 0x2029 ||
    n == 0x202F || n == 0x205F || n == 0x3000
  }

  predicate AllSpace(s: string) {
    forall i :: 0 <= i < |s| ==> IsSpace(s[i])
  }

  /** Drops the leading whitespace of `s`. */
  function StripLeft(s: string): string {
    if s != [] && IsSpace(s[0]) then StripLeft(s[1..]) else s
  }

  /** Drops the trailing whitespace of `s`. */
  function StripRight(s: string): string {
    if s != [] && IsSpace(s[|s| - 1]) then StripRight(s[..|s| - 1]) else s
  }

  /** `s.strip()`: `s` without its leading and trailing whitespace. */
  function Strip(s: string): string {
    StripRight(StripLeft(s))
  }

  /** Stripping on the left keeps a suffix that does not start with whitespace, and drops only
      whitespace. */
  lemma {:induction false} StripLeftShape(s: string)
    ensures var r := StripLeft(s);
            |r| <= |s| && r == s[|s| - |r|..] && AllSpace(s[..|s| - |r|]) && (r == [] || !IsSpace(r[0]))
  {
    if s != [] && IsSpace(s[0]) {
      StripLeftShape(s[1..]);
      var r := StripLeft(s);
      assert s[..|s| - |r|] == [s[0]] + s[1..][..|s| - 1 - |r|];
    }
  }

  /** Stripping on the right keeps a prefix that does not end in whitespace, and drops only whitespace. */
  lemma {:induction false} StripRightShape(s: string)
    ensures var r := StripRight(s);
            |r| <= |s| && r == s[..|r|] && AllSpace(s[|r|..]) && (r == [] || !IsSpace(r[|r| - 1]))
  {
    if s != [] && IsSpace(s[|s| - 1]) {
      StripRightShape(s[..|s| - 1]);
      var r := StripRight(s);
      assert s[|r|..] == s[..|s| - 1][|r|..] + [s[|s| - 1]];
    }
  }

  /** The stripped text is empty exactly when the whole text is whitespace. */
  lemma StripEmptyIff(s: string)
    ensures Strip(s) == "" <==> AllSpace(s)
  {
    var t := StripLeft(s);
    StripLeftShape(s);
    StripRightShape(t);
    if Strip(s) == "" {
      assert AllSpace(t[0..]);
      assert t == [];
      assert s[..|s|] == s;
    }
  }

  /** Leading whitespace ends at the first non-whitespace character. */
  lemma {:induction false} StripLeftAt(s: string, i: nat)
    requires i < |s| && AllSpace(s[..i]) && !IsSpace(s[i])
    ensures StripLeft(s) == s[i..]
  {
    if i > 0 {
      assert s[1..][..i - 1] == s[..i][1..];
      StripLeftAt(s[1..], i - 1);
      assert s[1..][i - 1..] == s[i..];
    }
  }

  /** Trailing whitespace starts after the last non-whitespace character. */
  lemma {:induction false} StripRightAt(s: string, j: nat)
    requires 0 < j <= |s| && AllSpace(s[j..]) && !IsSpace(s[j - 1])
    ensures StripRight(s) == s[..j]
  {
    if j < |s| {
      var p := s[..|s| - 1];
      assert p[j..] == s[j..][..|s| - 1 - j];
      StripRightAt(p, j);
      assert p[..j] == s[..j];
    }
  }

  /** `Strip(s) == "1"` exactly when `s` is a single '1' surrounded by whitespace only. */
  lemma StripIsOne(s: string)
    ensures Strip(s) == "1" <==>
            exists i :: 0 <= i < |s| && s[i] == '1' && AllSpace(s[..i]) && AllSpace(s[i + 1..])
  {
    var t := StripLeft(s);
    StripLeftShape(s);
    StripRightShape(t);
    var k := |s| - |t|;
    if Strip(s) == "1" {
      var u := StripRight(t);
      assert u == t[..1] && t[0] == '1';
      assert s[k] == '1';
      assert s[k + 1..] == t[1..];
    }
    if i :| 0 <= i < |s| && s[i] == '1' && AllSpace(s[..i]) && AllSpace(s[i + 1..]) {
      StripLeftAt(s, i);
      assert t[1..] == s[i + 1..];
      StripRightAt(t, 1);
    }
  }
}
