/**
 * The formatting helpers of the snapshot list: file modes in the style of
 * Go's io/fs FileMode.String, home-directory shortening of paths, dates as
 * "YYYY/MM/DD HH:MM:SS" and short snapshot ids.
 */
module Display {

  /** One letter per file-type bit, from bit 31 downwards (Go's io/fs order). */
  const TypeLetters: string := "dalTLDpSugct?"

  /** One letter per permission bit, from bit 8 downwards. */
  const PermLetters: string := "rwxrwxrwx"

  /** `u` shifted right by `b` bits. */
  function ShiftRight(u: nat, b: nat): nat
  {
    if b == 0 then u else ShiftRight(u / 2, b - 1)
  }

  /**
   * `mode & (1 << b)` is non-zero. JavaScript's bitwise operators first
   * convert `mode` to a 32-bit integer, which keeps it modulo 2^32.
   */
  predicate Bit(mode: int, b: nat)
    requires b < 32
  {
    ShiftRight(mode % 0x1_0000_0000, b) % 2 == 1
  }

  // ---------------------------------------------------------------------
  // ModeForDisplay

  /** The type letters selected by the first `n` type bits (31, 30, ...), in string order. */
  function TypePrefix(mode: int, n: nat): string
    requires n <= |TypeLetters|
  {
    if n == 0 then []
    else TypePrefix(mode, n - 1) + (if Bit(mode, 32 - n) then [TypeLetters[n - 1]] else [])
  }

  /** The first `n` permission characters: a letter of "rwxrwxrwx" where the bit is set, '-' elsewhere. */
  function Perms(mode: int, n: nat): string
    requires n <= |PermLetters|
  {
    if n == 0 then []
    else Perms(mode, n - 1) + [if Bit(mode, 9 - n) then PermLetters[n - 1] else '-']
  }

  /** What ModeForDisplay returns: the type letters, or "-" when there are none, then nine permission characters. */
  function ModeString(mode: int): (r: string)
    ensures forall i :: 0 <= i < |r| ==> r[i] == '-' || r[i] in TypeLetters || r[i] in PermLetters
  {
    var t := TypePrefix(mode, |TypeLetters|);
    TypePrefixAlphabet(mode);
    PermsAlphabet(mode);
    (if t == [] then "-" else t) + Perms(mode, |PermLetters|)
  }

  lemma TypePrefixAlphabet(mode: int)
    ensures forall k :: 0 <= k < |TypePrefix(mode, |TypeLetters|)| ==> TypePrefix(mode, |TypeLetters|)[k] in TypeLetters
  {
    forall k | 0 <= k < |TypePrefix(mode, |TypeLetters|)|
      ensures TypePrefix(mode, |TypeLetters|)[k] in TypeLetters
    {
      TypePrefixLetters(mode, |TypeLetters|, k);
      assert TypeLetters[..|TypeLetters|] == TypeLetters;
    }
  }

  lemma PermsAlphabet(mode: int)
    ensures forall k :: 0 <= k < |Perms(mode, |PermLetters|)| ==> Perms(mode, |PermLetters|)[k] in PermLetters + "-"
  {
    PermsAt(mode, |PermLetters|, 0);
    forall k | 0 <= k < |Perms(mode, |PermLetters|)|
      ensures Perms(mode, |PermLetters|)[k] in PermLetters + "-"
    {
      PermsAt(mode, |PermLetters|, k);
    }
  }

  /** The indices (0 = bit 31) of the set type bits among the first `n`. */
  ghost function SetTypeBits(mode: int, n: nat): set<nat>
    requires n <= |TypeLetters|
  {
    set i: nat | i < n && TypeBit(mode, i)
  }

  /** Type bit `i`, counting from bit 31 downwards, is set. */
  predicate TypeBit(mode: int, i: nat)
  {
    i < 32 && Bit(mode, 31 - i)
  }

  method ModeForDisplay(mode: int) returns (s: string)
    ensures s == ModeString(mode)
  {
    var buf := new char[|TypeLetters| + |PermLetters|];
    var w := WriteTypeLetters(buf, mode);
    if w == 0 {
      buf[w] := '-';
      w := w + 1;
    }
    ghost var head := buf[..w];
    assert head == if TypePrefix(mode, |TypeLetters|) == [] then "-" else TypePrefix(mode, |TypeLetters|);
    w := WritePerms(buf, mode, w);
    s := buf[..w];
  }

  /** The first loop of ModeForDisplay: the letters of the set type bits, from the start of `buf`. */
  method WriteTypeLetters(buf: array<char>, mode: int) returns (w: nat)
    requires |TypeLetters| <= buf.Length
    modifies buf
    ensures w <= |TypeLetters|
    ensures buf[..w] == TypePrefix(mode, |TypeLetters|)
  {
    w := 0;
    for i := 0 to |TypeLetters|
      invariant w <= i
      invariant buf[..w] == TypePrefix(mode, i)
    {
      if Bit(mode, 31 - i) {
        assert TypePrefix(mode, i + 1) == TypePrefix(mode, i) + [TypeLetters[i]];
        buf[w] := TypeLetters[i];
        assert buf[..w + 1] == buf[..w] + [TypeLetters[i]];
        w := w + 1;
      } else {
        assert TypePrefix(mode, i + 1) == TypePrefix(mode, i);
      }
    }
  }

  /** The second loop of ModeForDisplay: nine permission characters written from `start` on. */
  method WritePerms(buf: array<char>, mode: int, start: nat) returns (w: nat)
    requires start + |PermLetters| <= buf.Length
    modifies buf
    ensures w == start + |PermLetters|
    ensures buf[..w] == old(buf[..start]) + Perms(mode, |PermLetters|)
  {
    w := start;
    for i := 0 to |PermLetters|
      invariant w == start + i
      invariant buf[..w] == old(buf[..start]) + Perms(mode, i)
    {
      assert Perms(mode, i + 1) == Perms(mode, i) + [if Bit(mode, 8 - i) then PermLetters[i] else '-'];
      buf[w] := if Bit(mode, 8 - i) then PermLetters[i] else '-';
      w := w + 1;
    }
  }

  lemma {:induction false} TypePrefixCount(mode: int, n: nat)
    requires n <= |TypeLetters|
    ensures |TypePrefix(mode, n)| == |SetTypeBits(mode, n)|
  {
    if n > 0 {
      TypePrefixCount(mode, n - 1);
      var before := SetTypeBits(mode, n - 1);
      assert Bit(mode, 32 - n) == TypeBit(mode, n - 1);
      if TypeBit(mode, n - 1) {
        assert SetTypeBits(mode, n) == before + {n - 1};
        assert n - 1 !in before;
        assert |TypePrefix(mode, n)| == |TypePrefix(mode, n - 1)| + 1;
      } else {
        assert SetTypeBits(mode, n) == before;
        assert TypePrefix(mode, n) == TypePrefix(mode, n - 1) + [];
      }
    } else {
      assert SetTypeBits(mode, 0) == {};
    }
  }

  lemma {:induction false} PermsAt(mode: int, n: nat, i: nat)
    requires n <= |PermLetters| && i < n
    ensures |Perms(mode, n)| == n
    ensures Perms(mode, n)[i] == if Bit(mode, 8 - i) then PermLetters[i] else '-'
  {
    if i < n - 1 {
      PermsAt(mode, n - 1, i);
    } else if n > 1 {
      PermsAt(mode, n - 1, 0);
    }
  }

  /** The output is the type part, one character at least, followed by exactly nine permission characters. */
  lemma ModeLength(mode: int)
    ensures var k := |SetTypeBits(mode, |TypeLetters|)|;
      |ModeString(mode)| == (if k == 0 then 1 else k) + 9
    ensures 10 <= |ModeString(mode)| <= 22
  {
    TypePrefixCount(mode, |TypeLetters|);
    PermsAt(mode, |PermLetters|, 0);
    TypePrefixLength(mode, |TypeLetters|);
  }

  lemma {:induction false} TypePrefixLength(mode: int, n: nat)
    requires n <= |TypeLetters|
    ensures |TypePrefix(mode, n)| <= n
  {
    if n > 0 {
      TypePrefixLength(mode, n - 1);
    }
  }

  /** Character |s| - 9 + i is "rwxrwxrwx"[i] when bit 8 - i is set, '-' otherwise. */
  lemma ModePermissions(mode: int, i: nat)
    requires i < 9
    ensures |ModeString(mode)| >= 9
    ensures ModeString(mode)[|ModeString(mode)| - 9 + i] == if Bit(mode, 8 - i) then PermLetters[i] else '-'
  {
    PermsAt(mode, |PermLetters|, i);
  }

  /** The type part is a single '-' exactly when none of bits 31..19 is set. */
  lemma ModeNoTypeBits(mode: int)
    ensures ModeString(mode)[0] == '-' <==> SetTypeBits(mode, |TypeLetters|) == {}
  {
    TypePrefixCount(mode, |TypeLetters|);
    var t := TypePrefix(mode, |TypeLetters|);
    if t != [] {
      TypePrefixLetters(mode, |TypeLetters|, 0);
    }
  }

  lemma {:induction false} TypePrefixLetters(mode: int, n: nat, k: nat)
    requires n <= |TypeLetters| && k < |TypePrefix(mode, n)|
    ensures TypePrefix(mode, n)[k] in TypeLetters[..n]
  {
    var prev := TypePrefix(mode, n - 1);
    if k < |prev| {
      TypePrefixLetters(mode, n - 1, k);
      assert TypeLetters[..n - 1] <= TypeLetters[..n];
    }
  }

  /** The letter of type bit 31 - i appears in the output exactly when that bit is set. */
  lemma {:induction false} TypeLetterPresent(mode: int, n: nat, i: nat)
    requires i < n <= |TypeLetters|
    ensures TypeLetters[i] in TypePrefix(mode, n) <==> Bit(mode, 31 - i)
  {
    var prev := TypePrefix(mode, n - 1);
    if i < n - 1 {
      TypeLetterPresent(mode, n - 1, i);
    } else {
      if TypeLetters[i] in prev {
        var k :| 0 <= k < |prev| && prev[k] == TypeLetters[i];
        TypePrefixLetters(mode, n - 1, k);
        TypeLettersDistinct();
      }
    }
  }

  /** `sub` is obtained from `s` by deleting characters, keeping the order of the rest. */
  predicate IsSubsequence(sub: string, s: string)
  {
    if sub == [] then true
    else if s == [] then false
    else if sub[|sub| - 1] == s[|s| - 1] then IsSubsequence(sub[..|sub| - 1], s[..|s| - 1])
    else IsSubsequence(sub, s[..|s| - 1])
  }

  /** The type letters appear in the order of "dalTLDpSugct?". */
  lemma {:induction false} TypePrefixInOrder(mode: int, n: nat)
    requires n <= |TypeLetters|
    ensures IsSubsequence(TypePrefix(mode, n), TypeLetters[..n])
  {
    if n > 0 {
      TypePrefixInOrder(mode, n - 1);
      var t := TypePrefix(mode, n);
      var prev := TypePrefix(mode, n - 1);
      assert TypeLetters[..n][..n - 1] == TypeLetters[..n - 1];
      if t != prev {
        assert t[..|t| - 1] == prev;
      } else if prev != [] {
        TypePrefixLetters(mode, n - 1, |prev| - 1);
        TypeLettersDistinct();
      }
    }
  }

  lemma TypeLettersDistinct()
    ensures forall i, j :: 0 <= i < j < |TypeLetters| ==> TypeLetters[i] != TypeLetters[j]
  {
  }

  /** Only bits 31..19 and 8..0 are read: modes that agree on them display the same. */
  lemma ModeIgnoresMiddleBits(m1: int, m2: int)
    requires forall b: nat :: (19 <= b < 32 || b < 9) ==> (Bit(m1, b) <==> Bit(m2, b))
    ensures ModeString(m1) == ModeString(m2)
  {
    TypePrefixAgree(m1, m2, |TypeLetters|);
    PermsAgree(m1, m2, |PermLetters|);
  }

  lemma {:induction false} TypePrefixAgree(m1: int, m2: int, n: nat)
    requires n <= |TypeLetters|
    requires forall b: nat :: 32 - n <= b < 32 ==> (Bit(m1, b) <==> Bit(m2, b))
    ensures TypePrefix(m1, n) == TypePrefix(m2, n)
  {
    if n > 0 {
      TypePrefixAgree(m1, m2, n - 1);
    }
  }

  lemma {:induction false} PermsAgree(m1: int, m2: int, n: nat)
    requires n <= |PermLetters|
    requires forall b: nat :: 9 - n <= b < 9 ==> (Bit(m1, b) <==> Bit(m2, b))
    ensures Perms(m1, n) == Perms(m2, n)
  {
    if n > 0 {
      PermsAgree(m1, m2, n - 1);
    }
  }

  // ---------------------------------------------------------------------
  // PathForDisplay

  /** The prefixes PathForDisplay tries, in order: Linux homes first, then macOS homes. */
  function HomePrefixes(username: string): (r: seq<string>)
    ensures |r| == 2
  {
    ["/home/" + username + "/", "/Users/" + username + "/"]
  }

  /** What PathForDisplay returns: the first matching home prefix replaced by "~/". */
  function ShortenedPath(path: string, username: string): (r: string)
    ensures r == path || ("~/" <= r && |r| < |path|)
  {
    var tests := HomePrefixes(username);
    if tests[0] <= path then "~/" + path[|tests[0]|..]
    else if tests[1] <= path then "~/" + path[|tests[1]|..]
    else path
  }

  method PathForDisplay(path: string, username: string) returns (r: string)
    ensures r == ShortenedPath(path, username)
  {
    var tests := HomePrefixes(username);
    for i := 0 to |tests|
      invariant forall j :: 0 <= j < i ==> !(tests[j] <= path)
    {
      if tests[i] <= path {
        return "~/" + path[|tests[i]|..];
      }
    }
    return path;
  }

  /** Undoes the shortening: puts `home` back in place of the leading "~/". */
  function ExpandHome(shown: string, home: string): string
    requires |shown| >= 2
  {
    home + shown[2..]
  }

  /**
   * A leading "/home/<user>/" is replaced by "~/" and the rest is kept
   * verbatim, so expanding the result gives the path back.
   */
  lemma ShortenedHome(path: string, username: string)
    requires HomePrefixes(username)[0] <= path
    ensures var r := ShortenedPath(path, username);
      "~/" <= r && ExpandHome(r, HomePrefixes(username)[0]) == path && |r| < |path|
  {
    var home := HomePrefixes(username)[0];
    assert path == home + path[|home|..];
  }

  /** Otherwise a leading "/Users/<user>/" is replaced the same way. */
  lemma ShortenedUsers(path: string, username: string)
    requires !(HomePrefixes(username)[0] <= path) && HomePrefixes(username)[1] <= path
    ensures var r := ShortenedPath(path, username);
      "~/" <= r && ExpandHome(r, HomePrefixes(username)[1]) == path && |r| < |path|
  {
    var users := HomePrefixes(username)[1];
    assert path == users + path[|users|..];
  }

  /** A path under neither home is returned unchanged. */
  lemma ShortenedOther(path: string, username: string)
    requires !(HomePrefixes(username)[0] <= path) && !(HomePrefixes(username)[1] <= path)
    ensures ShortenedPath(path, username) == path
  {
  }

  // ---------------------------------------------------------------------
  // DateForDisplay

  function DigitChar(d: nat): (c: char)
    requires d < 10
  {
    "0123456789"[d]
  }

  /** Decimal digits of `n`, as JavaScript's String() prints a non-negative integer. */
  function NatToString(n: nat): (s: string)
    ensures |s| >= 1
  {
    if n < 10 then [DigitChar(n)] else NatToString(n / 10) + [DigitChar(n % 10)]
  }

  /** String() of an integer: a '-' sign for negative values. */
  function IntToString(n: int): string
  {
    if n < 0 then "-" + NatToString(-n) else NatToString(n)
  }

  /** padStart(2, "0"). */
  function PadStart2(s: string): (r: string)
    ensures |r| >= 2
  {
    if |s| >= 2 then s else seq(2 - |s|, _ => '0') + s
  }

  function TwoDigits(n: int): string
  {
    PadStart2(IntToString(n))
  }

  /**
   * DateForDisplay, with the local-time getters of the Date replaced by the
   * components they return; `month0` is zero-based, as getMonth() returns it.
   */
  function DateForDisplay(year: int, month0: int, day: int, hours: int, minutes: int, seconds: int): (r: string)
    ensures IntToString(year) + "/" <= r
    ensures |r| >= |IntToString(year)| + 15
  {
    var y := IntToString(year);
    var tail := TimeTail(TwoDigits(month0 + 1), TwoDigits(day), TwoDigits(hours), TwoDigits(minutes), TwoDigits(seconds));
    SlashFirst(y, tail);
    y + tail
  }

  predicate IsDigit(c: char)
  {
    '0' <= c <= '9'
  }

  predicate AllDigits(s: string)
  {
    forall i :: 0 <= i < |s| ==> IsDigit(s[i])
  }

  /** The value of a string of decimal digits. */
  function DecimalValue(s: string): int
    requires AllDigits(s)
  {
    if s == [] then 0 else 10 * DecimalValue(s[..|s| - 1]) + (s[|s| - 1] as int - '0' as int)
  }

  lemma {:induction false} NatToStringDigits(n: nat)
    ensures AllDigits(NatToString(n))
    ensures DecimalValue(NatToString(n)) == n
  {
    var s := NatToString(n);
    if n >= 10 {
      NatToStringDigits(n / 10);
      assert s[..|s| - 1] == NatToString(n / 10);
    }
  }

  /** A value in 0..99 prints as exactly two digits that read back as that value. */
  lemma TwoDigitsRoundTrip(n: int)
    requires 0 <= n < 100
    ensures |TwoDigits(n)| == 2
    ensures AllDigits(TwoDigits(n))
    ensures DecimalValue(TwoDigits(n)) == n
  {
    NatToStringDigits(n);
    var s := NatToString(n);
    if n >= 10 {
      NatToStringDigits(n / 10);
      assert |s| == 2;
    } else {
      assert TwoDigits(n) == ['0', s[0]];
      assert TwoDigits(n)[..1] == ['0'];
    }
  }

  /**
   * `d` holds, after a year of `y` digits, month, day, hours, minutes and
   * seconds as two digits each, separated by "/", "/", " ", ":", ":".
   */
  predicate DateLayout(d: string, y: nat, year: nat, month: int, day: int, hours: int, minutes: int, seconds: int)
  {
    && |d| == y + 15
    && AllDigits(d[..y]) && DecimalValue(d[..y]) == year
    && d[y] == '/' && d[y + 3] == '/' && d[y + 6] == ' ' && d[y + 9] == ':' && d[y + 12] == ':'
    && AllDigits(d[y + 1..y + 3]) && DecimalValue(d[y + 1..y + 3]) == month
    && AllDigits(d[y + 4..y + 6]) && DecimalValue(d[y + 4..y + 6]) == day
    && AllDigits(d[y + 7..y + 9]) && DecimalValue(d[y + 7..y + 9]) == hours
    && AllDigits(d[y + 10..y + 12]) && DecimalValue(d[y + 10..y + 12]) == minutes
    && AllDigits(d[y + 13..]) && DecimalValue(d[y + 13..]) == seconds
  }

  /**
   * For components in the ranges the Date getters return, the display reads
   * back field by field: the year, then month + 1 (getMonth() is zero-based),
   * day, hours, minutes and seconds.
   */
  lemma DateFields(year: nat, month0: int, day: int, hours: int, minutes: int, seconds: int)
    requires 0 <= month0 < 12 && 1 <= day <= 31 && 0 <= hours < 24
    requires 0 <= minutes < 60 && 0 <= seconds < 60
    ensures DateLayout(DateForDisplay(year, month0, day, hours, minutes, seconds), |NatToString(year)|,
                       year, month0 + 1, day, hours, minutes, seconds)
  {
    NatToStringDigits(year);
    TwoDigitsRoundTrip(month0 + 1);
    TwoDigitsRoundTrip(day);
    TwoDigitsRoundTrip(hours);
    TwoDigitsRoundTrip(minutes);
    TwoDigitsRoundTrip(seconds);
    var ys := NatToString(year);
    var t := TimeTail(TwoDigits(month0 + 1), TwoDigits(day), TwoDigits(hours), TwoDigits(minutes), TwoDigits(seconds));
    TimeTailLayout(TwoDigits(month0 + 1), TwoDigits(day), TwoDigits(hours), TwoDigits(minutes), TwoDigits(seconds));
    var d := DateForDisplay(year, month0, day, hours, minutes, seconds);
    SliceOfConcat(ys, t);
  }

  lemma SliceOfConcat(ys: string, t: string)
    requires |t| == 15
    ensures var d, y := ys + t, |ys|;
      && d[..y] == ys && d[y] == t[0] && d[y + 3] == t[3] && d[y + 6] == t[6] && d[y + 9] == t[9] && d[y + 12] == t[12]
      && d[y + 1..y + 3] == t[1..3] && d[y + 4..y + 6] == t[4..6] && d[y + 7..y + 9] == t[7..9]
      && d[y + 10..y + 12] == t[10..12] && d[y + 13..] == t[13..]
  {
  }

  /** Everything DateForDisplay prints after the year. */
  function TimeTail(mo: string, da: string, h: string, mi: string, s: string): (r: string)
    ensures |r| == 5 + |mo| + |da| + |h| + |mi| + |s| && r[0] == '/'
  {
    "/" + mo + "/" + da + " " + h + ":" + mi + ":" + s
  }

  lemma SlashFirst(y: string, tail: string)
    requires |tail| >= 1 && tail[0] == '/'
    ensures y + "/" <= y + tail
  {
    assert (y + tail)[..|y| + 1] == y + "/";
  }

  lemma TimeTailLayout(mo: string, da: string, h: string, mi: string, s: string)
    requires |mo| == |da| == |h| == |mi| == |s| == 2
    ensures var t := TimeTail(mo, da, h, mi, s);
      && |t| == 15
      && t[0] == '/' && t[3] == '/' && t[6] == ' ' && t[9] == ':' && t[12] == ':'
      && t[1..3] == mo && t[4..6] == da && t[7..9] == h && t[10..12] == mi && t[13..] == s
  {
  }

  // ---------------------------------------------------------------------
  // UUIDForDisplay

  /** The first eight characters of a snapshot id (all of it when shorter). */
  function UUIDForDisplay(uuid: string): (r: string)
    ensures r <= uuid
    ensures |r| == if |uuid| < 8 then |uuid| else 8
  {
    uuid[..if |uuid| < 8 then |uuid| else 8]
  }

  /** Shortening an already short id changes nothing. */
  lemma UUIDForDisplayIdempotent(uuid: string)
    ensures UUIDForDisplay(UUIDForDisplay(uuid)) == UUIDForDisplay(uuid)
  {
  }
}
