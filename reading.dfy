/** An independent reference for the composer: reading a daiji string back
    into the number it denotes, the way such numerals are read by hand. The
    library itself only converts one way; the reader serves to prove that the
    composition loses nothing. */
module DaijiReading {
  import opened DaijiJa

  /** The state of a left-to-right reading: the value of the groups closed by
      a 10^4 or 10^8 marker, the value read so far in the open group, and the
      digit that waits for its unit marker. */
  datatype Reading = Reading(done: nat, group: nat, pending: nat)

  /** The first index of glyph `c` in the table, or the table's length. */
  function IndexOf(c: char, t: string): (i: nat)
    ensures i <= |t|
    ensures i < |t| ==> t[i] == c
    ensures i == |t| ==> c !in t
    ensures forall j :: 0 <= j < i ==> t[j] != c
  {
    if t == "" then 0
    else if t[0] == c then 0
    else
      var i := 1 + IndexOf(c, t[1..]);
      assert forall j :: 1 <= j < |t| ==> t[j] == t[1..][j - 1];
      i
  }

  /** Reading one glyph, given by its table index: a digit waits, a unit
      marker multiplies the waiting digit, a group marker closes the group. */
  function Step(r: Reading, i: nat): Reading
  {
    if i <= 9 then r.(pending := i)
    else if i <= THOUSAND_MARKER then
      r.(group := r.group + r.pending * Pow10(i - 9), pending := 0)
    else if i == MAN_MARKER then Reading(r.done + (r.group + r.pending) * 10000, 0, 0)
    else if i == OKU_MARKER then Reading(r.done + (r.group + r.pending) * 100000000, 0, 0)
    else r
  }

  function Eval(s: string, t: string, r: Reading): Reading
    decreases |s|
  {
    if s == "" then r else Eval(s[1..], t, Step(r, IndexOf(s[0], t)))
  }

  function Value(r: Reading): nat
  {
    r.done + r.group + r.pending
  }

  /** The number a daiji string denotes under table `t`. */
  function ReadDaiji(s: string, t: string): nat
  {
    Value(Eval(s, t, Reading(0, 0, 0)))
  }

  lemma IndexOfDistinct(t: string, i: nat)
    requires Distinct(t) && i < |t|
    ensures IndexOf(t[i], t) == i
  {
  }

  lemma {:induction false} EvalAppend(a: string, b: string, t: string, r: Reading)
    ensures Eval(a + b, t, r) == Eval(b, t, Eval(a, t, r))
    decreases |a|
  {
    if a == "" {
      assert a + b == b;
    } else {
      assert (a + b)[0] == a[0] && (a + b)[1..] == a[1..] + b;
      EvalAppend(a[1..], b, t, Step(r, IndexOf(a[0], t)));
    }
  }

  lemma EvalSingle(c: char, t: string, r: Reading)
    ensures Eval([c], t, r) == Step(r, IndexOf(c, t))
  {
    assert [c][1..] == "";
  }

  lemma EvalPair(a: char, b: char, t: string, r: Reading)
    ensures Eval([a, b], t, r) == Step(Step(r, IndexOf(a, t)), IndexOf(b, t))
  {
    assert [a, b][1..] == [b];
    EvalSingle(b, t, Step(r, IndexOf(a, t)));
  }

  /** Reading the contribution of one digit position of a group. */
  lemma PositionRead(d: nat, k: nat, t: string, r: Reading)
    requires d <= 9 && k <= 3 && |t| == TABLE_LENGTH && Distinct(t) && r.pending == 0
    ensures Eval(Position(d, k, t), t, r)
         == if k == 0 then r.(pending := d) else r.(group := r.group + d * Pow10(k))
  {
    if d != 0 {
      IndexOfDistinct(t, d);
      if k == 0 {
        EvalSingle(t[d], t, r);
      } else {
        IndexOfDistinct(t, 9 + k);
        EvalPair(t[d], t[9 + k], t, r);
      }
    }
  }

  /** Reading a group rendering from a fresh group: everything but the ones
      digit lands in the open group, the ones digit waits. */
  lemma Daiji4Read(n: nat, t: string, done: nat)
    requires n <= 9999 && |t| == TABLE_LENGTH && Distinct(t)
    ensures Eval(Daiji4(n, t), t, Reading(done, 0, 0)) == Reading(done, n - n % 10, n % 10)
  {
    Daiji4ByPosition(n, t);
    GroupDigits(n);
    var d3, d2, d1, d0 := DigitAt(n, 3), DigitAt(n, 2), DigitAt(n, 1), DigitAt(n, 0);
    var p3, p2, p1, p0 := Position(d3, 3, t), Position(d2, 2, t), Position(d1, 1, t), Position(d0, 0, t);
    assert Pow10(1) == 10 && Pow10(2) == 100 && Pow10(3) == 1000;
    EvalAppend(p3 + p2 + p1, p0, t, Reading(done, 0, 0));
    EvalAppend(p3 + p2, p1, t, Reading(done, 0, 0));
    EvalAppend(p3, p2, t, Reading(done, 0, 0));
    var r0 := Reading(done, 0, 0);
    PositionRead(d3, 3, t, r0);
    var r3 := Reading(done, 1000 * d3, 0);
    PositionRead(d2, 2, t, r3);
    var r2 := Reading(done, 1000 * d3 + 100 * d2, 0);
    PositionRead(d1, 1, t, r2);
    var r1 := Reading(done, 1000 * d3 + 100 * d2 + 10 * d1, 0);
    PositionRead(d0, 0, t, r1);
  }

  /** Reading a group followed by its marker closes it with the marker's weight;
      a zero group reads as nothing. */
  lemma MarkedRead(g: nat, marker: nat, t: string, done: nat)
    requires g <= 9999 && |t| == TABLE_LENGTH && Distinct(t)
    requires marker == MAN_MARKER || marker == OKU_MARKER
    ensures Eval(Marked(g, marker, t), t, Reading(done, 0, 0))
         == Reading(done + g * (if marker == MAN_MARKER then 10000 else 100000000), 0, 0)
  {
    if g != 0 {
      EvalAppend(Daiji4(g, t), [t[marker]], t, Reading(done, 0, 0));
      Daiji4Read(g, t, done);
      IndexOfDistinct(t, marker);
      assert [t[marker]][1..] == "";
    }
  }

  /** Round trip: with a table of distinct glyphs, reading the composed string
      gives back the number. */
  lemma ComposeReadsBack(n: nat, t: string)
    requires n <= MAX_NUMBER && |t| == TABLE_LENGTH && Distinct(t)
    ensures ReadDaiji(Compose(n, t), t) == n
  {
    if n == 0 {
      IndexOfDistinct(t, 0);
      EvalSingle(t[0], t, Reading(0, 0, 0));
    } else {
      GroupsReadBack(n, t);
    }
  }

  lemma GroupsReadBack(n: nat, t: string)
    requires 0 < n <= MAX_NUMBER && |t| == TABLE_LENGTH && Distinct(t)
    ensures ReadDaiji(Compose(n, t), t) == n
  {
    NumberGroups(n);
    ThreeGroupsRead(High(n), Mid(n), Low(n), t);
  }

  lemma ThreeGroupsRead(h: nat, m: nat, l: nat, t: string)
    requires h <= 9999 && m <= 9999 && l <= 9999 && |t| == TABLE_LENGTH && Distinct(t)
    ensures ReadDaiji(Marked(h, OKU_MARKER, t) + Marked(m, MAN_MARKER, t) + Daiji4(l, t), t)
         == h * 100000000 + m * 10000 + l
  {
    var hi, mid, lo := Marked(h, OKU_MARKER, t), Marked(m, MAN_MARKER, t), Daiji4(l, t);
    var start := Reading(0, 0, 0);
    EvalAppend(hi + mid, lo, t, start);
    EvalAppend(hi, mid, t, start);
    MarkedRead(h, OKU_MARKER, t, 0);
    MarkedRead(m, MAN_MARKER, t, h * 100000000);
    Daiji4Read(l, t, h * 100000000 + m * 10000);
  }

  /** With a table of distinct glyphs, different numbers compose to different strings. */
  lemma ComposeInjective(m: nat, n: nat, t: string)
    requires m <= MAX_NUMBER && n <= MAX_NUMBER && |t| == TABLE_LENGTH && Distinct(t)
    ensures m != n ==> Compose(m, t) != Compose(n, t)
  {
    ComposeReadsBack(m, t);
    ComposeReadsBack(n, t);
  }

  /** Under every built-in mode, two different accepted numbers convert to
      different strings. */
  lemma DaijiInjective(m: int, n: int, mode: ModeNumber)
    ensures Daiji(m, mode, "").Success? && m != n ==> Daiji(m, mode, "") != Daiji(n, mode, "")
  {
    if Daiji(m, mode, "").Success? && Daiji(n, mode, "").Success? {
      ComposeInjective(m, n, ModeTable(mode));
    }
  }
}
