/** The numeral composer of DaijiJa: it turns an integer in [0, 999,999,999,999]
    into Japanese daiji, the formal numerals written on receipts, using a table
    of fifteen glyphs. */
module DaijiJa {

  /** Largest number the composer accepts. */
  const MAX_NUMBER: int := 999_999_999_999

  /** Every glyph table has fifteen entries: the digits zero to nine
      (indices 0-9), the unit markers for tens, hundreds and thousands
      (10-12) and the group markers for 10^4 and 10^8 (13 and 14). */
  const TABLE_LENGTH: nat := 15
  const TEN_MARKER: nat := 10
  const HUNDRED_MARKER: nat := 11
  const THOUSAND_MARKER: nat := 12
  const MAN_MARKER: nat := 13
  const OKU_MARKER: nat := 14

  /** The three built-in tables, in the order of the modes 1, 2 and 3. */
  const STANDARD_TABLE: string := "零壱弐参四五六七八九拾百千万億"
  const OLD_TABLE: string := "零壹貳參四五六七八九拾百千万億"
  const OLDER_TABLE: string := "零壹貳參肆伍陸漆捌玖拾佰仟萬億"

  /** The mode selects one of the built-in tables. */
  type ModeNumber = m: int | 1 <= m <= 3 witness 1

  /** The two ValueError conditions of the conversion. */
  datatype Error =
    | NotNaturalNumber         // the number is below 0 or above MAX_NUMBER
    | CharlistNotProperLength  // a custom table that is neither empty nor 15 glyphs long

  datatype Result<T> = Success(value: T) | Failure(error: Error)

  /** No glyph of the table occurs at two indices. */
  predicate Distinct(t: string)
  {
    forall i, j :: 0 <= i < j < |t| ==> t[i] != t[j]
  }

  /** The built-in table of a mode; every one is complete and has fifteen different glyphs. */
  function ModeTable(mode: ModeNumber): (t: string)
    ensures |t| == TABLE_LENGTH
    ensures Distinct(t)
    ensures t[0] == '零' && t[MAN_MARKER] in "万萬" && t[OKU_MARKER] == '億'
  {
    if mode == 1 then STANDARD_TABLE
    else if mode == 2 then OLD_TABLE
    else OLDER_TABLE
  }

  /** The public entry point: validate the number, choose the table (the custom
      `charlist` when it is not empty, otherwise the table of `mode`) and compose. */
  function Daiji(number: int, mode: ModeNumber, charlist: string): (r: Result<string>)
    ensures r == Failure(NotNaturalNumber) <==> number < 0 || number > MAX_NUMBER
    ensures r == Failure(CharlistNotProperLength)
        <==> 0 <= number <= MAX_NUMBER && charlist != "" && |charlist| != TABLE_LENGTH
    ensures 0 <= number <= MAX_NUMBER && charlist == ""
        ==> r == Success(Compose(number, ModeTable(mode)))
    ensures 0 <= number <= MAX_NUMBER && |charlist| == TABLE_LENGTH
        ==> r == Success(Compose(number, charlist))
    ensures r.Success? ==> |r.value| >= 1
  {
    if number < 0 || number > MAX_NUMBER then
      Failure(NotNaturalNumber)
    else if charlist != "" && |charlist| != |ModeTable(1)| then
      Failure(CharlistNotProperLength)
    else
      var table := if charlist == "" then ModeTable(mode) else charlist;
      Success(Compose(number, table))
  }

  /** The three base-10,000 groups of a number, least significant first. */
  function Low(n: nat): nat { n % 10000 }
  function Mid(n: nat): nat { (n / 10000) % 10000 }
  function High(n: nat): nat { (n / 100000000) % 10000 }

  /** A group with its marker glyph after it, or nothing at all when the group is 0. */
  function Marked(g: nat, marker: nat, t: string): string
    requires g <= 9999 && |t| == TABLE_LENGTH && marker < TABLE_LENGTH
  {
    if g == 0 then "" else Daiji4(g, t) + [t[marker]]
  }

  /** Composes a whole number: one zero glyph for 0, otherwise the high group
      with the 10^8 marker, the mid group with the 10^4 marker and the low group. */
  function Compose(number: nat, t: string): (r: string)
    requires number <= MAX_NUMBER && |t| == TABLE_LENGTH
    ensures number == 0 ==> r == [t[0]]
    ensures number > 0 ==> r == Marked(High(number), OKU_MARKER, t)
                              + Marked(Mid(number), MAN_MARKER, t)
                              + Daiji4(Low(number), t)
    ensures 1 <= number <= 9999 ==> r == Daiji4(number, t)
    ensures |r| >= 1
  {
    if number == 0 then [t[0]]
    else
      var c1 := Daiji4(number % 10000, t);
      var c2 :=
        if number > 9999 && (number / 10000) % 10000 != 0
        then Daiji4((number / 10000) % 10000, t) + [t[MAN_MARKER]]
        else "";
      var c3 :=
        if number > 99999999 && (number / 100000000) % 10000 != 0
        then Daiji4((number / 100000000) % 10000, t) + [t[OKU_MARKER]]
        else "";
      assert number > 0 && Low(number) == 0 ==> Mid(number) != 0 || High(number) != 0;
      c3 + c2 + c1
  }

  /** Renders one group of at most four digits; zero digits are silent and a
      non-zero digit other than the ones digit is followed by its unit marker. */
  function Daiji4(n: nat, t: string): (r: string)
    requires n <= 9999 && |t| == TABLE_LENGTH
    ensures n == 0 <==> r == ""
  {
    var c1 := if n % 10 != 0 then [t[n % 10]] else "";
    var c2 :=
      if n > 9 && (n / 10) % 10 != 0
      then [t[(n / 10) % 10], t[TEN_MARKER]]
      else "";
    var c3 :=
      if n > 99 && (n / 100) % 10 != 0
      then [t[(n / 100) % 10], t[HUNDRED_MARKER]]
      else "";
    var c4 :=
      if n > 999 && (n / 1000) % 10 != 0
      then [t[(n / 1000) % 10], t[THOUSAND_MARKER]]
      else "";
    c4 + c3 + c2 + c1
  }

  function Pow10(k: nat): (p: nat)
    ensures p >= 1
  {
    if k == 0 then 1 else 10 * Pow10(k - 1)
  }

  /** The decimal digit of `n` at position `k` (0 = ones ... 3 = thousands). */
  function DigitAt(n: nat, k: nat): (d: nat)
    ensures d <= 9
  {
    (n / Pow10(k)) % 10
  }

  /** What digit `d` at position `k` of a group contributes to its rendering. */
  function Position(d: nat, k: nat, t: string): string
    requires d <= 9 && k <= 3 && |t| == TABLE_LENGTH
  {
    if d == 0 then ""
    else if k == 0 then [t[d]]
    else [t[d], t[9 + k]]
  }

  /** Reference rendering: the digits of `n` written at positions `k` to 3, the
      most significant first, one digit per step from the ones digit up. */
  function SpellFrom(n: nat, k: nat, t: string): string
    requires k <= 4 && |t| == TABLE_LENGTH
    decreases 4 - k
  {
    if k == 4 then "" else SpellFrom(n / 10, k + 1, t) + Position(n % 10, k, t)
  }

  /** Number of non-zero digits of `n` at the positions below `k`. */
  function NonZeroDigits(n: nat, k: nat): nat
  {
    if k == 0 then 0
    else NonZeroDigits(n, k - 1) + (if DigitAt(n, k - 1) != 0 then 1 else 0)
  }

  /** A group number is the sum of its four digits times their place values. */
  lemma GroupDigits(n: nat)
    requires n <= 9999
    ensures n == 1000 * DigitAt(n, 3) + 100 * DigitAt(n, 2) + 10 * DigitAt(n, 1) + DigitAt(n, 0)
    ensures DigitAt(n, 3) == (n / 1000) % 10 && DigitAt(n, 2) == (n / 100) % 10
    ensures DigitAt(n, 1) == (n / 10) % 10 && DigitAt(n, 0) == n % 10
  {
    assert Pow10(1) == 10 && Pow10(2) == 100 && Pow10(3) == 1000;
    var q1 := n / 10;
    var q2 := q1 / 10;
    var q3 := q2 / 10;
    assert n == 10 * q1 + n % 10;
    assert q1 == 10 * q2 + q1 % 10;
    assert q2 == 10 * q3 + q2 % 10;
    assert n == 100 * q2 + (10 * (q1 % 10) + n % 10);
    assert n / 100 == q2;
    assert n == 1000 * q3 + (100 * (q2 % 10) + 10 * (q1 % 10) + n % 10);
    assert n / 1000 == q3;
  }

  /** A number in range is the sum of its three groups times their place values. */
  lemma NumberGroups(n: nat)
    requires n <= MAX_NUMBER
    ensures n == High(n) * 100000000 + Mid(n) * 10000 + Low(n)
    ensures n <= 9999 ==> Mid(n) == 0 && High(n) == 0
    ensures n <= 99999999 ==> High(n) == 0
  {
  }

  /** The group rendering, digit by digit: thousands, hundreds, tens, ones. */
  lemma Daiji4ByPosition(n: nat, t: string)
    requires n <= 9999 && |t| == TABLE_LENGTH
    ensures Daiji4(n, t) == Position(DigitAt(n, 3), 3, t) + Position(DigitAt(n, 2), 2, t)
                          + Position(DigitAt(n, 1), 1, t) + Position(DigitAt(n, 0), 0, t)
  {
    GroupDigits(n);
  }

  /** The group rendering agrees with the digit-at-a-time reference rendering. */
  lemma Daiji4Spelled(n: nat, t: string)
    requires n <= 9999 && |t| == TABLE_LENGTH
    ensures Daiji4(n, t) == SpellFrom(n, 0, t)
  {
    GroupDigits(n);
    assert SpellFrom(n / 1000, 3, t) == Position((n / 1000) % 10, 3, t);
    assert n / 10 / 10 == n / 100 && n / 100 / 10 == n / 1000;
    assert SpellFrom(n, 0, t)
        == Position((n / 1000) % 10, 3, t) + Position((n / 100) % 10, 2, t)
         + Position((n / 10) % 10, 1, t) + Position(n % 10, 0, t);
  }

  /** A non-zero group is non-empty, uses only the digit glyphs 1-9 and the unit
      markers, and has two glyphs per non-zero digit less one for a non-zero ones digit. */
  lemma Daiji4Shape(n: nat, t: string)
    requires 1 <= n <= 9999 && |t| == TABLE_LENGTH
    ensures |Daiji4(n, t)| >= 1
    ensures forall k :: 0 <= k < |Daiji4(n, t)| ==> Daiji4(n, t)[k] in t[1..THOUSAND_MARKER + 1]
    ensures |Daiji4(n, t)| == 2 * NonZeroDigits(n, 4) - (if n % 10 != 0 then 1 else 0)
  {
    Daiji4ByPosition(n, t);
    var r := Daiji4(n, t);
    var p3, p2, p1, p0 := Position(DigitAt(n, 3), 3, t), Position(DigitAt(n, 2), 2, t),
                          Position(DigitAt(n, 1), 1, t), Position(DigitAt(n, 0), 0, t);
    var allowed := t[1..THOUSAND_MARKER + 1];
    forall k | 0 <= k < 4
      ensures forall j :: 0 <= j < |Position(DigitAt(n, k), k, t)|
                ==> Position(DigitAt(n, k), k, t)[j] in allowed
    {
      var d := DigitAt(n, k);
      if d != 0 {
        assert t[d] == allowed[d - 1];
        if k > 0 { assert t[9 + k] == allowed[8 + k]; }
      }
    }
    assert r == p3 + p2 + p1 + p0;
    assert NonZeroDigits(n, 4) == NonZeroDigits(n, 3) + (if DigitAt(n, 3) != 0 then 1 else 0);
    assert NonZeroDigits(n, 3) == NonZeroDigits(n, 2) + (if DigitAt(n, 2) != 0 then 1 else 0);
    assert NonZeroDigits(n, 2) == NonZeroDigits(n, 1) + (if DigitAt(n, 1) != 0 then 1 else 0);
    assert NonZeroDigits(n, 1) == (if DigitAt(n, 0) != 0 then 1 else 0);
    forall j | 0 <= j < |r|
      ensures r[j] in allowed
    {
      if j < |p3| { assert r[j] == p3[j]; }
      else if j < |p3| + |p2| { assert r[j] == p2[j - |p3|]; }
      else if j < |p3| + |p2| + |p1| { assert r[j] == p1[j - |p3| - |p2|]; }
      else { assert r[j] == p0[j - |p3| - |p2| - |p1|]; }
    }
  }
  /** Number of occurrences of glyph `c` in `s`. */
  function Occurrences(s: string, c: char): nat
  {
    if s == "" then 0 else (if s[0] == c then 1 else 0) + Occurrences(s[1..], c)
  }

  lemma {:induction false} OccurrencesAppend(a: string, b: string, c: char)
    ensures Occurrences(a + b, c) == Occurrences(a, c) + Occurrences(b, c)
  {
    if a != "" {
      assert (a + b)[0] == a[0] && (a + b)[1..] == a[1..] + b;
      OccurrencesAppend(a[1..], b, c);
    } else {
      assert a + b == b;
    }
  }

  /** A glyph that does not occur in the digit-and-unit part of a table never
      occurs in a group rendering. */
  lemma Daiji4Avoids(n: nat, t: string, c: char)
    requires n <= 9999 && |t| == TABLE_LENGTH && c !in t[1..THOUSAND_MARKER + 1]
    ensures Occurrences(Daiji4(n, t), c) == 0
  {
    if n != 0 {
      Daiji4Shape(n, t);
      NoOccurrences(Daiji4(n, t), t[1..THOUSAND_MARKER + 1], c);
    }
  }

  lemma {:induction false} NoOccurrences(s: string, allowed: string, c: char)
    requires forall k :: 0 <= k < |s| ==> s[k] in allowed
    requires c !in allowed
    ensures Occurrences(s, c) == 0
  {
    if s != "" {
      assert s[0] in allowed;
      NoOccurrences(s[1..], allowed, c);
    }
  }

  /** With a table of distinct glyphs, the 10^4 marker occurs exactly once when
      the mid group is non-zero and not at all otherwise, and likewise the 10^8
      marker with the high group. */
  lemma ComposeMarkers(n: nat, t: string)
    requires n <= MAX_NUMBER && |t| == TABLE_LENGTH && Distinct(t)
    ensures Occurrences(Compose(n, t), t[MAN_MARKER]) == (if Mid(n) != 0 then 1 else 0)
    ensures Occurrences(Compose(n, t), t[OKU_MARKER]) == (if High(n) != 0 then 1 else 0)
  {
    var man, oku := t[MAN_MARKER], t[OKU_MARKER];
    if n == 0 {
      assert Compose(n, t) == [t[0]];
      assert Occurrences([t[0]], man) == 0 && Occurrences([t[0]], oku) == 0 by {
        assert [t[0]][1..] == "";
      }
    } else {
      assert man !in t[1..THOUSAND_MARKER + 1] && oku !in t[1..THOUSAND_MARKER + 1] by {
        forall k | 1 <= k <= THOUSAND_MARKER
          ensures t[k] != man && t[k] != oku
        {}
      }
      assert man != oku;
      var hi, mid, lo := Marked(High(n), OKU_MARKER, t), Marked(Mid(n), MAN_MARKER, t), Daiji4(Low(n), t);
      OccurrencesAppend(hi + mid, lo, man);
      OccurrencesAppend(hi, mid, man);
      OccurrencesAppend(hi + mid, lo, oku);
      OccurrencesAppend(hi, mid, oku);
      Daiji4Avoids(Low(n), t, man);
      Daiji4Avoids(Low(n), t, oku);
      MarkedOccurrences(High(n), OKU_MARKER, t, man);
      MarkedOccurrences(High(n), OKU_MARKER, t, oku);
      MarkedOccurrences(Mid(n), MAN_MARKER, t, man);
      MarkedOccurrences(Mid(n), MAN_MARKER, t, oku);
    }
  }

  lemma MarkedOccurrences(g: nat, marker: nat, t: string, c: char)
    requires g <= 9999 && |t| == TABLE_LENGTH && MAN_MARKER <= marker < TABLE_LENGTH
    requires c !in t[1..THOUSAND_MARKER + 1]
    ensures Occurrences(Marked(g, marker, t), c) == (if g != 0 && t[marker] == c then 1 else 0)
  {
    if g != 0 {
      Daiji4Avoids(g, t, c);
      OccurrencesAppend(Daiji4(g, t), [t[marker]], c);
      assert [t[marker]][1..] == "";
    }
  }
  /** By magnitude: up to 9999 no group marker occurs, from 10,000 to
      99,999,999 the 10^4 marker occurs exactly once and the 10^8 marker never,
      and from 100,000,000 on the 10^8 marker occurs exactly once. */
  lemma MarkersByMagnitude(n: nat, t: string)
    requires n <= MAX_NUMBER && |t| == TABLE_LENGTH && Distinct(t)
    ensures n <= 9999 ==> Occurrences(Compose(n, t), t[MAN_MARKER]) == 0
    ensures n <= 9999 ==> Occurrences(Compose(n, t), t[OKU_MARKER]) == 0
    ensures 10000 <= n <= 99999999 ==> Occurrences(Compose(n, t), t[MAN_MARKER]) == 1
    ensures 10000 <= n <= 99999999 ==> Occurrences(Compose(n, t), t[OKU_MARKER]) == 0
    ensures 100000000 <= n ==> Occurrences(Compose(n, t), t[OKU_MARKER]) == 1
  {
    ComposeMarkers(n, t);
    NumberGroups(n);
  }

  /** A custom table of the right length decides the result on its own: the mode is ignored. */
  lemma CharlistOverridesMode(number: int, m1: ModeNumber, m2: ModeNumber, charlist: string)
    requires |charlist| == TABLE_LENGTH
    ensures Daiji(number, m1, charlist) == Daiji(number, m2, charlist)
  {
  }
}
