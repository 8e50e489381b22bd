/**
 * The few std::string operations the program relies on, with size_t arithmetic
 * written out: positions and counts are unsigned 64-bit values, so
 * `npos + 1` is 0 and `size() - 1` of an empty string is npos.
 */
module Text {

  /** size_t values are taken modulo 2^64. */
  const SIZE_MODULUS: nat := 0x1_0000_0000_0000_0000

  /** std::string::npos, the largest size_t. */
  const NPOS: nat := SIZE_MODULUS - 1

  /** An integer converted to size_t (unsigned wrap-around). */
  function Size(n: int): (r: nat)
    ensures r < SIZE_MODULUS
    ensures 0 <= n < SIZE_MODULUS ==> r == n
  {
    n % SIZE_MODULUS
  }

  function Min(a: nat, b: nat): nat {
    if a <= b then a else b
  }

  /** std::string::find_last_of for one character: the last index holding `c`, or npos. */
  function FindLastOf(s: string, c: char): (r: nat)
    ensures c !in s ==> r == NPOS
    ensures c in s ==> r < |s| && s[r] == c && c !in s[r + 1..]
  {
    if |s| == 0 then NPOS
    else if s[|s| - 1] == c then |s| - 1
    else
      var r := FindLastOf(s[..|s| - 1], c);
      assert c in s ==> c in s[..|s| - 1] by {
        if c in s {
          var i :| 0 <= i < |s| && s[i] == c;
          assert s[..|s| - 1][i] == c;
        }
      }
      assert c in s ==> s[r + 1..] == s[..|s| - 1][r + 1..] + [s[|s| - 1]];
      r
  }

  /**
   * std::string::substr(pos, count): the characters from `pos` on, at most `count`
   * of them. Both call sites pass a position no larger than the size.
   */
  function Substr(s: string, pos: nat, count: nat): string
    requires pos <= |s|
  {
    s[pos..pos + Min(count, |s| - pos)]
  }

  /**
   * `path.substr(0, path.find_last_of('/'))`: the directory part of a path, that is
   * everything before the last '/', or the whole path when it has no '/'.
   */
  function DirectoryOf(path: string): (dir: string)
    ensures '/' !in path && |path| <= NPOS ==> dir == path
    ensures '/' in path ==>
      && |dir| < |path|
      && dir == path[..|dir|]
      && path[|dir|] == '/'
      && '/' !in path[|dir| + 1..]
  {
    Substr(path, 0, FindLastOf(path, '/'))
  }

  /**
   * `file.substr(file.find_last_of('/') + 1, file.size() - 1)`, exactly as the model
   * loader writes it: with a '/' this is the part after the last '/', but with no
   * '/' the position wraps to 0 and the count `size() - 1` drops the last character.
   * (For a string longer than npos, which std::string cannot hold, the found index
   * could coincide with npos; the contract says nothing about that case.)
   */
  function StripAsWritten(file: string): (name: string)
    ensures file == [] ==> name == []
    ensures '/' !in file && file != [] && |file| <= NPOS ==> name == file[..|file| - 1]
    ensures '/' in file && |file| <= NPOS ==>
      && |name| < |file|
      && name == file[|file| - |name|..]
      && file[|file| - |name| - 1] == '/'
      && '/' !in name
  {
    var last := FindLastOf(file, '/');
    Substr(file, Size(last + 1), Size(|file| - 1))
  }

  /**
   * The evidently intended base-name strip, `file.substr(file.find_last_of('/') + 1)`:
   * the part after the last '/', or the whole name when it has no '/'.
   */
  function BaseName(file: string): (name: string)
    ensures '/' !in file && |file| <= NPOS ==> name == file
    ensures '/' in file && |file| <= NPOS ==>
      && |name| < |file|
      && name == file[|file| - |name|..]
      && file[|file| - |name| - 1] == '/'
      && '/' !in name
  {
    var last := FindLastOf(file, '/');
    Substr(file, Size(last + 1), NPOS)
  }

  /** Every non-empty name is longer than what the as-written strip makes of it. */
  lemma StripShortens(file: string)
    requires file != [] && |file| <= NPOS
    ensures |StripAsWritten(file)| < |file|
  {
  }

  /** The decimal digit character of 0..9. */
  function Digit(d: nat): (c: char)
    requires d < 10
    ensures '0' <= c <= '9'
  {
    (d + '0' as int) as char
  }

  /** std::to_string of an unsigned value: its decimal digits, without leading zeros. */
  function NatToString(n: nat): (s: string)
    ensures |s| >= 1
  {
    if n < 10 then [Digit(n)] else NatToString(n / 10) + [Digit(n % 10)]
  }

  /** The spelling is all digits, one digit exactly for values below ten, and ends in the last digit. */
  lemma {:induction false} NatToStringDigits(n: nat)
    ensures var s := NatToString(n);
      (n < 10 <==> |s| == 1) && s[|s| - 1] == Digit(n % 10) &&
      forall i :: 0 <= i < |s| ==> '0' <= s[i] <= '9'
  {
    if n >= 10 {
      NatToStringDigits(n / 10);
      var p := NatToString(n / 10);
      assert NatToString(n) == p + [Digit(n % 10)];
    }
  }

  lemma DigitInjective(a: nat, b: nat)
    requires a < 10 && b < 10 && Digit(a) == Digit(b)
    ensures a == b
  {
  }

  /** Distinct numbers have distinct decimal spellings. */
  lemma {:induction false} NatToStringInjective(m: nat, n: nat)
    requires NatToString(m) == NatToString(n)
    ensures m == n
  {
    var sm, sn := NatToString(m), NatToString(n);
    NatToStringDigits(m);
    NatToStringDigits(n);
    assert Digit(m % 10) == Digit(n % 10) by {
      assert sm[|sm| - 1] == sn[|sn| - 1];
    }
    DigitInjective(m % 10, n % 10);
    if m < 10 || n < 10 {
      assert |sm| == 1 && |sn| == 1;
      assert m < 10 && n < 10;
    } else {
      var pm, pn := NatToString(m / 10), NatToString(n / 10);
      assert sm == pm + [Digit(m % 10)];
      assert sn == pn + [Digit(n % 10)];
      assert pm == sm[..|sm| - 1];
      assert pn == sn[..|sn| - 1];
      NatToStringInjective(m / 10, n / 10);
    }
  }
}
