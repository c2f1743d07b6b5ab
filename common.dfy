/** Values shared by every part of the NAS model: optional values, the
    errors the computers report, and the few Go string helpers (the
    `strings`, `strconv` and `unicode` calls) the core relies on.

    Go strings are byte strings; the model's `string` holds one `char`
    per byte, so `|s|` is Go's `len(s)`. */
module Common {

  datatype Option<+T> = None | Some(value: T)

  /** A value or the error a Go function returns beside it. */
  datatype Result<+T> = Ok(value: T) | Err(error: Error)

  /** The error values of package sim that the core returns, plus the
      error an adaptation lookup of package av may report. */
  datatype Error =
    | ErrNoMoreAvailableSquawkCodes
    | ErrUnknownFacility
    | ErrNoMatchingFix
    | ErrNoMatchingFlight
    | ErrIllegalACID
    | ErrIllegalScratchpad
    | ErrIllegalACType
    | ErrInvalidAbbreviatedFP
    | ErrAdaptation

  /** A second update of the same key overrides the first. */
  lemma MapUpdateTwice<K, V>(m: map<K, V>, k: K, a: V, b: V)
    ensures m[k := a][k := b] == m[k := b]
  {
  }

  /** A set without members is the empty set. */
  lemma NoMemberMeansEmpty<T>(s: set<T>)
    ensures (forall x :: x !in s) ==> s == {}
  {
    if forall x :: x !in s {
      assert s == {};
    }
  }

  /** Some member of a non-empty set; methods call it before picking a
      member with `:|`. */
  lemma Member<T>(s: set<T>) returns (x: T)
    requires s != {}
    ensures x in s
  {
    NoMemberMeansEmpty(s);
    x :| x in s;
  }

  // ---------------------------------------------------------------------
  // strings.HasPrefix, strings.TrimPrefix, strings.Contains

  predicate HasPrefix(s: string, prefix: string)
  {
    |prefix| <= |s| && s[..|prefix|] == prefix
  }

  function TrimPrefix(s: string, prefix: string): (r: string)
    ensures HasPrefix(s, prefix) ==> prefix + r == s
    ensures !HasPrefix(s, prefix) ==> r == s
  {
    if HasPrefix(s, prefix) then s[|prefix|..] else s
  }

  /** strings.Contains: `sub` occurs somewhere in `s`. */
  predicate Contains(s: string, sub: string)
    decreases |s|
  {
    HasPrefix(s, sub) || (|s| > 0 && Contains(s[1..], sub))
  }

  /** `sub` occurs in `s` at offset `i`. */
  predicate OccursAt(s: string, sub: string, i: int)
  {
    0 <= i && i + |sub| <= |s| && s[i..i + |sub|] == sub
  }

  /** Contains means exactly "occurs at some offset". */
  lemma {:induction false} ContainsIffOccurs(s: string, sub: string)
    ensures Contains(s, sub) <==> exists i :: OccursAt(s, sub, i)
    decreases |s|
  {
    if HasPrefix(s, sub) {
      assert OccursAt(s, sub, 0);
    } else if |s| == 0 {
    } else {
      ContainsIffOccurs(s[1..], sub);
      if Contains(s[1..], sub) {
        var i :| OccursAt(s[1..], sub, i);
        assert s[i + 1..i + 1 + |sub|] == s[1..][i..i + |sub|];
        assert OccursAt(s, sub, i + 1);
      }
      if exists i :: OccursAt(s, sub, i) {
        var i :| OccursAt(s, sub, i);
        assert i != 0;
        assert s[1..][i - 1..i - 1 + |sub|] == s[i..i + |sub|];
        assert OccursAt(s[1..], sub, i - 1);
      }
    }
  }

  // ---------------------------------------------------------------------
  // Character classes

  predicate IsDigit(c: char)
  {
    '0' <= c <= '9'
  }

  /** unicode.IsLetter applied to `rune(b)` for a byte `b`: the ASCII
      letters and the letters of the Latin-1 supplement. */
  predicate IsLetterByte(c: char)
  {
    ('A' <= c <= 'Z') || ('a' <= c <= 'z') ||
    c == 0xAA as char || c == 0xB5 as char || c == 0xBA as char ||
    (0xC0 as char <= c <= 0xFF as char && c != 0xD7 as char && c != 0xF7 as char)
  }

  /** util.IsAllNumbers: every character is a decimal digit (true of ""). */
  predicate IsAllNumbers(s: string)
  {
    forall i :: 0 <= i < |s| ==> IsDigit(s[i])
  }

  /** util.IsAllLetters: every character is a letter (true of ""). */
  predicate IsAllLetters(s: string)
  {
    forall i :: 0 <= i < |s| ==> IsLetterByte(s[i])
  }

  // ---------------------------------------------------------------------
  // strings.Split with a one-character separator

  /** The pieces joined back with the separator between them. */
  function Join(pieces: seq<string>, sep: char): string
  {
    if |pieces| == 0 then ""
    else if |pieces| == 1 then pieces[0]
    else pieces[0] + [sep] + Join(pieces[1..], sep)
  }

  function Split(s: string, sep: char): (r: seq<string>)
    ensures |r| >= 1
    ensures Join(r, sep) == s
    ensures forall i :: 0 <= i < |r| ==> sep !in r[i]
    decreases |s|
  {
    if |s| == 0 then [""]
    else if s[0] == sep then
      var rest := Split(s[1..], sep);
      assert s == [] + [sep] + s[1..];
      [""] + rest
    else
      var rest := Split(s[1..], sep);
      var r := [[s[0]] + rest[0]] + rest[1..];
      assert r[1..] == rest[1..];
      assert s == [s[0]] + s[1..];
      r
  }

  /** A string without the separator splits into itself alone. */
  lemma {:induction false} SplitWithoutSeparator(s: string, sep: char)
    requires sep !in s
    ensures Split(s, sep) == [s]
    decreases |s|
  {
    if |s| > 0 {
      assert sep !in s[1..];
      SplitWithoutSeparator(s[1..], sep);
      assert [s[0]] + s[1..] == s;
    }
  }

  // ---------------------------------------------------------------------
  // strconv.Itoa and two-digit clock fields

  function DigitChar(d: nat): (c: char)
    requires d < 10
    ensures IsDigit(c) && c as int - '0' as int == d
  {
    ('0' as int + d) as char
  }

  /** The number a string of decimal digits denotes. */
  function DigitsValue(s: string): nat
    requires IsAllNumbers(s)
  {
    if |s| == 0 then 0
    else DigitsValue(s[..|s| - 1]) * 10 + (s[|s| - 1] as int - '0' as int)
  }

  /** Decimal representation of a natural number, without leading zeros. */
  function NatToString(n: nat): (r: string)
    ensures |r| >= 1 && IsAllNumbers(r)
    ensures DigitsValue(r) == n
    ensures |r| > 1 ==> r[0] != '0'
  {
    if n < 10 then [DigitChar(n)]
    else
      var r := NatToString(n / 10) + [DigitChar(n % 10)];
      assert r[..|r| - 1] == NatToString(n / 10);
      r
  }

  /** strconv.Itoa: decimal with a leading '-' for negative numbers. */
  function Itoa(n: int): (r: string)
    ensures |r| >= 1
    ensures n >= 0 ==> IsAllNumbers(r) && DigitsValue(r) == n
    ensures n < 0 ==> r[0] == '-' && IsAllNumbers(r[1..]) && DigitsValue(r[1..]) == -n
  {
    if n < 0 then "-" + NatToString(-n) else NatToString(n)
  }

  /** A number below 100 as exactly two digits, as time.Format's "15" and "04". */
  function TwoDigits(n: nat): (r: string)
    requires n < 100
    ensures |r| == 2 && IsAllNumbers(r) && DigitsValue(r) == n
  {
    var r := [DigitChar(n / 10), DigitChar(n % 10)];
    assert r[..1] == [DigitChar(n / 10)];
    assert r[..1][..0] == [];
    assert DigitsValue(r[..1]) == n / 10;
    r
  }
}
