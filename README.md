# DaijiJa in Dafny

DaijiJa converts an integer from 0 to 999,999,999,999 into Japanese *daiji*,
the formal numerals written on receipts (壱, 弐, 参 … instead of 一, 二, 三).
A conversion uses a table of fifteen glyphs: the digits zero to nine, the
unit markers for tens, hundreds and thousands (拾 百 千), and the group
markers for 10^4 (万) and 10^8 (億). There are three built-in tables, one per
mode, and the caller may supply a table of their own.

The model has three modules:

- `DaijiJa` (`daiji.dfy`) is the library itself. `ModeTable` holds the three
  built-in tables. `Daiji` is the public entry point: it checks the range,
  then the length of a custom table, then picks the table. `Compose` splits
  the number into three base-10,000 groups and joins them with their
  markers. `Daiji4` renders one group of up to four digits. Beside them are
  reference definitions: `Position` (one digit's contribution), `SpellFrom`
  (a digit-at-a-time rendering) and `Occurrences`. Lemmas connect these
  to the functions.
- `DaijiReading` (`reading.dfy`) is an independent reader. It turns a daiji
  string back into the number it denotes, reading left to right the way a
  person would. The library itself has no such reader. Here it serves as the
  partner that proves a round trip: for any table of fifteen distinct
  glyphs, reading `Compose(n, t)` gives back `n`. So different numbers never
  render alike.
- `DaijiExamples` (`examples.dfy`) holds the documented conversions as
  lemmas: the docstring examples, the command-line examples and the
  validation boundaries.

Everything is pure: the Python functions build their strings from local
variables that are each set at most once, so the model is functions and
lemmas, with no classes or loops.

Python's `ValueError` is raised for two conditions with two messages. The
model makes them the two constructors of `Error`: `NotNaturalNumber` and
`CharlistNotProperLength`. `Result` carries either the string or the error.
A glyph is one Dafny `char`, and a string is a `seq<char>` of Unicode scalar
values. So `|charlist|` counts code points, as Python's `len` does.

The helper `_daiji4` says in a comment that it takes numbers from 1 to 9999.
But `_daiji` also calls it with 0, for the low group of a number such as
10000, and then it returns the empty string. The model follows the code:
`Daiji4` accepts 0 to 9999 and returns `""` exactly for 0.

The custom-table example differs between sources. The docstring of
`daiji` gives it for 123456789. The command-line help gives it for 123456.
Both are proved.

## Model

| member | source | states |
|---|---|---|
| `DaijiJa.ModeTable` | DaijiJa/DaijiJa.py:12-16 | every built-in table has exactly fifteen glyphs, all different, with 零 at index 0 and 億 at index 14 |
| `DaijiJa.Daiji` | DaijiJa/DaijiJa.py:48-58 | out-of-range numbers fail with `NotNaturalNumber` (if and only if), whatever table is given; in range, a non-empty custom table whose length is not 15 fails with `CharlistNotProperLength` (if and only if); an empty custom table composes with the mode's table; a 15-glyph custom table composes with itself; success is never the empty string |
| `DaijiJa.CharlistOverridesMode` | DaijiJa/DaijiJa.py:52-57 | with a 15-glyph custom table the mode makes no difference to the result |
| `DaijiJa.Compose` | DaijiJa/DaijiJa.py:72-85 | 0 gives the zero glyph alone, whatever the rest of the table; otherwise the result is the high group with 億, then the mid group with 万, then the low group, where a zero group adds nothing (no marker either); for 1..9999 it is the group rendering with no marker; never empty |
| `DaijiJa.NumberGroups` | DaijiJa/DaijiJa.py:77-84 | the three groups recombine to the number (high·10^8 + mid·10^4 + low), and the mid and high groups are 0 below 10,000 and 100,000,000 |
| `DaijiJa.Daiji4` | DaijiJa/DaijiJa.py:97-113 | a group renders as the empty string exactly when it is 0 |
| `DaijiJa.Daiji4ByPosition` | DaijiJa/DaijiJa.py:102-113 | a group is the contributions of its thousands, hundreds, tens and ones digits, in that order; a zero digit contributes nothing, a ones digit its glyph alone, any other digit its glyph and the unit marker of its position |
| `DaijiJa.Daiji4Spelled` | DaijiJa/DaijiJa.py:102-113 | the group rendering equals the reference rendering that takes one digit at a time from the ones digit upwards |
| `DaijiJa.GroupDigits` | DaijiJa/DaijiJa.py:102-112 | the four digits the group renderer extracts recombine to the group, and each is the decimal digit of its position |
| `DaijiJa.Daiji4Shape` | DaijiJa/DaijiJa.py:97-113 | a non-zero group is non-empty, uses only table indices 1 to 12, and has two glyphs per non-zero digit, less one when the ones digit is non-zero |
| `DaijiJa.ComposeMarkers` | DaijiJa/DaijiJa.py:77-85 | with distinct glyphs, 万 occurs once when the mid group is non-zero and never otherwise, and 億 likewise with the high group |
| `DaijiJa.MarkersByMagnitude` | DaijiJa/DaijiJa.py:79-85 | with distinct glyphs, numbers up to 9999 contain no group marker, numbers from 10,000 to 99,999,999 exactly one 万 and no 億, larger numbers exactly one 億 |
| `DaijiReading.ComposeReadsBack` | DaijiJa/DaijiJa.py:72-113 | with distinct glyphs, reading the composed string back gives the number (round trip) |
| `DaijiReading.ComposeInjective` | DaijiJa/DaijiJa.py:72-85 | with distinct glyphs, two different numbers have different renderings |
| `DaijiReading.DaijiInjective` | DaijiJa/DaijiJa.py:48-58 | under every built-in mode, two different accepted numbers have different conversions |
| `DaijiExamples.Compose123456789` | DaijiJa/DaijiJa.py:39-46 | under any table, 123456789 renders as 1 億, 2345 万, 6789, glyph by glyph |
| `DaijiExamples.DocumentedConversions` | DaijiJa/DaijiJa.py:39-46 | the four docstring conversions of 123456789 (modes 1, 2, 3 and the custom table) hold exactly |
| `DaijiExamples.Compose123456` | DaijiJa/cli.py:23-33 | under any table, 123456 renders as 12 万, 3456, glyph by glyph, the leading one kept |
| `DaijiExamples.CommandLineConversions` | DaijiJa/cli.py:23-33 | the four command-line conversions of 123456 hold exactly, including 一十 with the custom table |
| `DaijiExamples.SmallConversions` | DaijiJa/DaijiJa.py:73-113 | 0 is 零, 10 is 壱拾, 2005 is 弐千五, 10000 is 壱万 and 100000001 is 壱億壱 |
| `DaijiExamples.ComposeLargest` | DaijiJa/DaijiJa.py:49-50 | under any table, the largest accepted number renders with both group markers |
| `DaijiExamples.LargestNumber` | DaijiJa/DaijiJa.py:49-50 | 999,999,999,999 is accepted and converts to 九千九百九拾九億九千九百九拾九万九千九百九拾九 |
| `DaijiExamples.RejectedInputs` | DaijiJa/DaijiJa.py:49-53 | -1 and 10^12 are rejected as out of range, before the table is looked at; custom tables of 14 and 16 glyphs are rejected for their length |

## Left out

- The `isinstance(number, int)` check and its `TypeError` (DaijiJa/DaijiJa.py:48, 59-60): the model's number is a Dafny `int`, so a non-integer cannot be passed. Python's treatment of `bool` as `int` is not modelled either.
- The `KeyError` for a mode outside 1 to 3 with no custom table: the mode is the subset type `ModeNumber` (1 to 3).
- The default arguments `mode=1` and `charlist=''`: `Daiji` takes both explicitly.
- The exception messages: the two `ValueError` conditions are the two `Error` constructors, without their text.
- Unicode encoding: each glyph is one `char`; all built-in glyphs are single code points.
- DaijiJa/cli.py (argument parsing, printing, exit codes) is I/O glue and is not part of this model; only its documented examples are used, in `DaijiExamples`.
- setup.py is packaging data and is not part of this model.
- The round trip and the marker counts need a table whose fifteen glyphs are distinct. The built-in tables are, by `ModeTable`. A custom table with repeated glyphs has no such guarantee, and the library does not check for them.
