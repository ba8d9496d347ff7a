/** The documented conversions of DaijiJa, and the boundary cases of its
    validation, as facts about the model. */
module DaijiExamples {
  import opened DaijiJa

  const CUSTOM_TABLE: string := "零一二三四五六七八九十百千万億"

  /** 123456789 under any table: 1 億, 2345 万, 6789. */
  lemma Compose123456789(t: string)
    requires |t| == TABLE_LENGTH
    ensures Compose(123456789, t)
         == [t[1], t[14], t[2], t[12], t[3], t[11], t[4], t[10], t[5], t[13],
             t[6], t[12], t[7], t[11], t[8], t[10], t[9]]
  {
    assert High(123456789) == 1 && Mid(123456789) == 2345 && Low(123456789) == 6789;
    assert Daiji4(1, t) == [t[1]];
    assert Daiji4(2345, t) == [t[2], t[12], t[3], t[11], t[4], t[10], t[5]];
    assert Daiji4(6789, t) == [t[6], t[12], t[7], t[11], t[8], t[10], t[9]];
  }

  /** 123456 under any table: 12 万, 3456. */
  lemma Compose123456(t: string)
    requires |t| == TABLE_LENGTH
    ensures Compose(123456, t)
         == [t[1], t[10], t[2], t[13], t[3], t[12], t[4], t[11], t[5], t[10], t[6]]
  {
    assert High(123456) == 0 && Mid(123456) == 12 && Low(123456) == 3456;
    assert Daiji4(12, t) == [t[1], t[10], t[2]];
    assert Daiji4(3456, t) == [t[3], t[12], t[4], t[11], t[5], t[10], t[6]];
  }

  /** The examples of the conversion's own documentation, one per table. */
  lemma DocumentedConversions()
    ensures Daiji(123456789, 1, "") == Success("壱億弐千参百四拾五万六千七百八拾九")
    ensures Daiji(123456789, 2, "") == Success("壹億貳千參百四拾五万六千七百八拾九")
    ensures Daiji(123456789, 3, "") == Success("壹億貳仟參佰肆拾伍萬陸仟漆佰捌拾玖")
    ensures Daiji(123456789, 1, CUSTOM_TABLE) == Success("一億二千三百四十五万六千七百八十九")
  {
    Compose123456789(STANDARD_TABLE);
    Compose123456789(OLD_TABLE);
    Compose123456789(OLDER_TABLE);
    Compose123456789(CUSTOM_TABLE);
  }

  /** The examples of the command-line documentation; the custom table shows
      that a leading one before a unit marker is written out (一十). */
  lemma CommandLineConversions()
    ensures Daiji(123456, 1, "") == Success("壱拾弐万参千四百五拾六")
    ensures Daiji(123456, 2, "") == Success("壹拾貳万參千四百五拾六")
    ensures Daiji(123456, 3, "") == Success("壹拾貳萬參仟肆佰伍拾陸")
    ensures Daiji(123456, 3, CUSTOM_TABLE) == Success("一十二万三千四百五十六")
  {
    Compose123456(STANDARD_TABLE);
    Compose123456(OLD_TABLE);
    Compose123456(OLDER_TABLE);
    Compose123456(CUSTOM_TABLE);
  }

  /** Zero is the zero glyph alone, silent zero digits leave no unit marker
      behind, a leading one is never dropped, and a zero group leaves no group
      marker behind. */
  lemma SmallConversions()
    ensures Daiji(0, 1, "") == Success("零")
    ensures Daiji(10, 1, "") == Success("壱拾")
    ensures Daiji(2005, 1, "") == Success("弐千五")
    ensures Daiji(10000, 1, "") == Success("壱万")
    ensures Daiji(100000001, 1, "") == Success("壱億壱")
  {
    var t := STANDARD_TABLE;
    assert Daiji4(10, t) == [t[1], t[10]];
    assert Daiji4(2005, t) == [t[2], t[12], t[5]];
    assert Daiji4(1, t) == [t[1]];
    assert High(10000) == 0 && Mid(10000) == 1 && Low(10000) == 0;
    assert Compose(10000, t) == [t[1], t[13]];
    assert High(100000001) == 1 && Mid(100000001) == 0 && Low(100000001) == 1;
    assert Compose(100000001, t) == [t[1], t[14], t[1]];
  }

  /** The largest accepted number, under any table: both group markers occur. */
  lemma ComposeLargest(t: string)
    requires |t| == TABLE_LENGTH
    ensures Compose(MAX_NUMBER, t)
         == [t[9], t[12], t[9], t[11], t[9], t[10], t[9], t[14],
             t[9], t[12], t[9], t[11], t[9], t[10], t[9], t[13],
             t[9], t[12], t[9], t[11], t[9], t[10], t[9]]
  {
    assert High(MAX_NUMBER) == 9999 && Mid(MAX_NUMBER) == 9999 && Low(MAX_NUMBER) == 9999;
    assert Daiji4(9999, t) == [t[9], t[12], t[9], t[11], t[9], t[10], t[9]];
  }

  lemma LargestNumber()
    ensures Daiji(MAX_NUMBER, 1, "")
         == Success("九千九百九拾九億九千九百九拾九万九千九百九拾九")
  {
    ComposeLargest(STANDARD_TABLE);
  }

  /** The validation boundaries: one past either end of the range, and custom
      tables one glyph too short or too long. */
  lemma RejectedInputs()
    ensures Daiji(-1, 1, "") == Failure(NotNaturalNumber)
    ensures Daiji(1000000000000, 1, "") == Failure(NotNaturalNumber)
    ensures Daiji(-1, 1, "零") == Failure(NotNaturalNumber)
    ensures Daiji(5, 1, CUSTOM_TABLE[..14]) == Failure(CharlistNotProperLength)
    ensures Daiji(5, 1, CUSTOM_TABLE + "兆") == Failure(CharlistNotProperLength)
  {
  }
}
