/**
 * The STATION_LINES and STATION_MAPPING literals are well-formed dicts.
 * The STATION_LINES codes are written in ascending order, so no code is
 * listed twice; this is the precondition `BuildOptimalRoute` places on its
 * line table. No display name of STATION_MAPPING is listed twice; this is
 * the precondition of the exact-name pass and of the name round trip.
 */
module StationTables {
  import opened Text
  import opened Tables

  /** Each code is below the next one in Python's string order. */
  ghost predicate Ascending(m: seq<(string, seq<string>)>) {
    forall i :: 0 <= i < |m| - 1 ==> Below(m[i].0, m[i + 1].0)
  }

  /** In an ascending table every earlier code is below every later one. */
  lemma {:induction false} AscendingFrom(m: seq<(string, seq<string>)>, i: nat, j: nat)
    requires Ascending(m) && i < j < |m|
    ensures Below(m[i].0, m[j].0)
    decreases j - i
  {
    if j > i + 1 {
      AscendingFrom(m, i + 1, j);
      BelowTransitive(m[i].0, m[i + 1].0, m[j].0);
    }
  }

  /** An ascending table has distinct keys. */
  lemma AscendingUnique(m: seq<(string, seq<string>)>)
    requires Ascending(m)
    ensures UniqueKeys(m)
  {
    forall i, j | 0 <= i < j < |m| ensures m[i].0 != m[j].0 {
      AscendingFrom(m, i, j);
      BelowIrreflexive(m[i].0);
    }
  }

  /** Two ascending blocks, the first ending below where the second begins, make an ascending table. */
  lemma AscendingAppend(a: seq<(string, seq<string>)>, b: seq<(string, seq<string>)>)
    requires Ascending(a) && Ascending(b) && a != [] && b != [] && Below(a[|a| - 1].0, b[0].0)
    ensures Ascending(a + b)
  {
    forall i | 0 <= i < |a + b| - 1 ensures Below((a + b)[i].0, (a + b)[i + 1].0) {
      if i >= |a| {
        assert (a + b)[i] == b[i - |a|] && (a + b)[i + 1] == b[i + 1 - |a|];
      }
    }
  }

  // One block per lemma, with the codes it begins and ends with.
  lemma RedAAscending() ensures Ascending(LinesRedA) && LinesRedA[0].0 == "A01" && LinesRedA[|LinesRedA| - 1].0 == "A15" {
    forall i | 0 <= i < |LinesRedA| - 1 ensures Below(LinesRedA[i].0, LinesRedA[i + 1].0) {
      var a, b := LinesRedA[i].0, LinesRedA[i + 1].0;
      assert a[0] == b[0] == 'A';
    }
  }
  lemma RedBAscending() ensures Ascending(LinesRedB) && LinesRedB[0].0 == "B02" && LinesRedB[|LinesRedB| - 1].0 == "B35" {
    forall i | 0 <= i < |LinesRedB| - 1 ensures Below(LinesRedB[i].0, LinesRedB[i + 1].0) {
      var a, b := LinesRedB[i].0, LinesRedB[i + 1].0;
      assert a[0] == b[0] == 'B';
    }
  }
  lemma CAscending() ensures Ascending(LinesC) && LinesC[0].0 == "C01" && LinesC[|LinesC| - 1].0 == "C15" {
    forall i | 0 <= i < |LinesC| - 1 ensures Below(LinesC[i].0, LinesC[i + 1].0) {
      var a, b := LinesC[i].0, LinesC[i + 1].0;
      assert a[0] == b[0] == 'C';
    }
  }
  lemma DAscending() ensures Ascending(LinesD) && LinesD[0].0 == "D01" && LinesD[|LinesD| - 1].0 == "D13" {
    forall i | 0 <= i < |LinesD| - 1 ensures Below(LinesD[i].0, LinesD[i + 1].0) {
      var a, b := LinesD[i].0, LinesD[i + 1].0;
      assert a[0] == b[0] == 'D';
    }
  }
  lemma EAscending() ensures Ascending(LinesE) && LinesE[0].0 == "E01" && LinesE[|LinesE| - 1].0 == "E10" {
    forall i | 0 <= i < |LinesE| - 1 ensures Below(LinesE[i].0, LinesE[i + 1].0) {
      var a, b := LinesE[i].0, LinesE[i + 1].0;
      assert a[0] == b[0] == 'E';
    }
  }
  lemma FAscending() ensures Ascending(LinesF) && LinesF[0].0 == "F01" && LinesF[|LinesF| - 1].0 == "F11" {
    forall i | 0 <= i < |LinesF| - 1 ensures Below(LinesF[i].0, LinesF[i + 1].0) {
      var a, b := LinesF[i].0, LinesF[i + 1].0;
      assert a[0] == b[0] == 'F';
    }
  }
  lemma GJAscending() ensures Ascending(LinesGJ) && LinesGJ[0].0 == "G01" && LinesGJ[|LinesGJ| - 1].0 == "J03" {}
  lemma KAscending() ensures Ascending(LinesK) && LinesK[0].0 == "K01" && LinesK[|LinesK| - 1].0 == "K08" {
    forall i | 0 <= i < |LinesK| - 1 ensures Below(LinesK[i].0, LinesK[i + 1].0) {
      var a, b := LinesK[i].0, LinesK[i + 1].0;
      assert a[0] == b[0] == 'K';
    }
  }
  lemma NAscending() ensures Ascending(LinesN) && LinesN[0].0 == "N01" && LinesN[|LinesN| - 1].0 == "N12" {
    forall i | 0 <= i < |LinesN| - 1 ensures Below(LinesN[i].0, LinesN[i + 1].0) {
      var a, b := LinesN[i].0, LinesN[i + 1].0;
      assert a[0] == b[0] == 'N';
    }
  }

  /** The whole table ascends, block after block. */
  lemma StationLinesAscending()
    ensures Ascending(StationLines)
  {
    KAscending(); NAscending();
    assert Below("K08", "N01");
    AscendingAppend(LinesK, LinesN);
    GJAscending();
    assert Below("J03", "K01");
    AscendingAppend(LinesGJ, LinesFromK);
    FAscending();
    assert Below("F11", "G01");
    AscendingAppend(LinesF, LinesFromGJ);
    EAscending();
    assert Below("E10", "F01");
    AscendingAppend(LinesE, LinesFromF);
    DAscending();
    assert Below("D13", "E01");
    AscendingAppend(LinesD, LinesFromE);
    CAscending();
    assert Below("C15", "D01");
    AscendingAppend(LinesC, LinesFromD);
    RedBAscending();
    assert Below("B35", "C01");
    AscendingAppend(LinesRedB, LinesFromC);
    RedAAscending();
    assert Below("A15", "B02");
    AscendingAppend(LinesRedA, LinesFromRedB);
  }

  /** STATION_LINES lists every station code once. */
  lemma StationLinesUnique()
    ensures UniqueKeys(StationLines)
  {
    StationLinesAscending();
    AscendingUnique(StationLines);
  }

  // STATION_MAPPING, written in ten blocks: each block has distinct names,
  // and no name of one block occurs in another.

  /** No key of `a` is a key of `b`. */
  ghost predicate KeysApart<V>(a: seq<(string, V)>, b: seq<(string, V)>) {
    forall i, j :: 0 <= i < |a| && 0 <= j < |b| ==> a[i].0 != b[j].0
  }

  /** Two dicts with no key in common concatenate to a dict. */
  lemma UniqueAppend<V>(a: seq<(string, V)>, b: seq<(string, V)>)
    requires UniqueKeys(a) && UniqueKeys(b) && KeysApart(a, b)
    ensures UniqueKeys(a + b)
  {
    forall i, j | 0 <= i < j < |a + b| ensures (a + b)[i].0 != (a + b)[j].0 {
      if j < |a| {
        assert (a + b)[i] == a[i] && (a + b)[j] == a[j];
      } else if i < |a| {
        assert (a + b)[i] == a[i] && (a + b)[j] == b[j - |a|];
      } else {
        assert (a + b)[i] == b[i - |a|] && (a + b)[j] == b[j - |a|];
      }
    }
  }

  /** Keys apart from two tables are apart from their concatenation. */
  lemma ApartAppend<V>(a: seq<(string, V)>, b: seq<(string, V)>, c: seq<(string, V)>)
    requires KeysApart(a, b) && KeysApart(a, c)
    ensures KeysApart(a, b + c)
  {
    forall i, j | 0 <= i < |a| && 0 <= j < |b + c| ensures a[i].0 != (b + c)[j].0 {
      if j >= |b| {
        assert (b + c)[j] == c[j - |b|];
      }
    }
  }

  // Each block has distinct names, settled by evaluating the block.
  lemma Mapping0Unique() ensures UniqueKeys(Mapping0) {}
  lemma Mapping1Unique() ensures UniqueKeys(Mapping1) {}
  lemma Mapping2Unique() ensures UniqueKeys(Mapping2) {}
  lemma Mapping3Unique() ensures UniqueKeys(Mapping3) {}
  lemma Mapping4Unique() ensures UniqueKeys(Mapping4) {}
  lemma Mapping5Unique() ensures UniqueKeys(Mapping5) {}
  lemma Mapping6Unique() ensures UniqueKeys(Mapping6) {}
  lemma Mapping7Unique() ensures UniqueKeys(Mapping7) {}
  lemma Mapping8Unique() ensures UniqueKeys(Mapping8) {}
  lemma Mapping9Unique() ensures UniqueKeys(Mapping9) {}

  // Each pair of blocks has no name in common, settled by evaluating both blocks.
  lemma Apart01() ensures KeysApart(Mapping0, Mapping1) {}
  lemma Apart02() ensures KeysApart(Mapping0, Mapping2) {}
  lemma Apart03() ensures KeysApart(Mapping0, Mapping3) {}
  lemma Apart04() ensures KeysApart(Mapping0, Mapping4) {}
  lemma Apart05() ensures KeysApart(Mapping0, Mapping5) {}
  lemma Apart06() ensures KeysApart(Mapping0, Mapping6) {}
  lemma Apart07() ensures KeysApart(Mapping0, Mapping7) {}
  lemma Apart08() ensures KeysApart(Mapping0, Mapping8) {}
  lemma Apart09() ensures KeysApart(Mapping0, Mapping9) {}
  lemma Apart12() ensures KeysApart(Mapping1, Mapping2) {}
  lemma Apart13() ensures KeysApart(Mapping1, Mapping3) {}
  lemma Apart14() ensures KeysApart(Mapping1, Mapping4) {}
  lemma Apart15() ensures KeysApart(Mapping1, Mapping5) {}
  lemma Apart16() ensures KeysApart(Mapping1, Mapping6) {}
  lemma Apart17() ensures KeysApart(Mapping1, Mapping7) {}
  lemma Apart18() ensures KeysApart(Mapping1, Mapping8) {}
  lemma Apart19() ensures KeysApart(Mapping1, Mapping9) {}
  lemma Apart23() ensures KeysApart(Mapping2, Mapping3) {}
  lemma Apart24() ensures KeysApart(Mapping2, Mapping4) {}
  lemma Apart25() ensures KeysApart(Mapping2, Mapping5) {}
  lemma Apart26() ensures KeysApart(Mapping2, Mapping6) {}
  lemma Apart27() ensures KeysApart(Mapping2, Mapping7) {}
  lemma Apart28() ensures KeysApart(Mapping2, Mapping8) {}
  lemma Apart29() ensures KeysApart(Mapping2, Mapping9) {}
  lemma Apart34() ensures KeysApart(Mapping3, Mapping4) {}
  lemma Apart35() ensures KeysApart(Mapping3, Mapping5) {}
  lemma Apart36() ensures KeysApart(Mapping3, Mapping6) {}
  lemma Apart37() ensures KeysApart(Mapping3, Mapping7) {}
  lemma Apart38() ensures KeysApart(Mapping3, Mapping8) {}
  lemma Apart39() ensures KeysApart(Mapping3, Mapping9) {}
  lemma Apart45() ensures KeysApart(Mapping4, Mapping5) {}
  lemma Apart46() ensures KeysApart(Mapping4, Mapping6) {}
  lemma Apart47() ensures KeysApart(Mapping4, Mapping7) {}
  lemma Apart48() ensures KeysApart(Mapping4, Mapping8) {}
  lemma Apart49() ensures KeysApart(Mapping4, Mapping9) {}
  lemma Apart56() ensures KeysApart(Mapping5, Mapping6) {}
  lemma Apart57() ensures KeysApart(Mapping5, Mapping7) {}
  lemma Apart58() ensures KeysApart(Mapping5, Mapping8) {}
  lemma Apart59() ensures KeysApart(Mapping5, Mapping9) {}
  lemma Apart67() ensures KeysApart(Mapping6, Mapping7) {}
  lemma Apart68() ensures KeysApart(Mapping6, Mapping8) {}
  lemma Apart69() ensures KeysApart(Mapping6, Mapping9) {}
  lemma Apart78() ensures KeysApart(Mapping7, Mapping8) {}
  lemma Apart79() ensures KeysApart(Mapping7, Mapping9) {}
  lemma Apart89() ensures KeysApart(Mapping8, Mapping9) {}

  /** The table from block 8 on has distinct names. */
  lemma MappingFrom8Unique()
    ensures UniqueKeys(MappingFrom8)
  {
    Apart89();
    Mapping9Unique();
    Mapping8Unique();
    UniqueAppend(Mapping8, Mapping9);
  }

  /** The table from block 7 on has distinct names. */
  lemma MappingFrom7Unique()
    ensures UniqueKeys(MappingFrom7)
  {
    Apart78(); Apart79();
    ApartAppend(Mapping7, Mapping8, Mapping9);
    MappingFrom8Unique();
    Mapping7Unique();
    UniqueAppend(Mapping7, MappingFrom8);
  }

  /** The table from block 6 on has distinct names. */
  lemma MappingFrom6Unique()
    ensures UniqueKeys(MappingFrom6)
  {
    Apart67(); Apart68(); Apart69();
    ApartAppend(Mapping6, Mapping8, Mapping9);
    ApartAppend(Mapping6, Mapping7, MappingFrom8);
    MappingFrom7Unique();
    Mapping6Unique();
    UniqueAppend(Mapping6, MappingFrom7);
  }

  /** The table from block 5 on has distinct names. */
  lemma MappingFrom5Unique()
    ensures UniqueKeys(MappingFrom5)
  {
    Apart56(); Apart57(); Apart58(); Apart59();
    ApartAppend(Mapping5, Mapping8, Mapping9);
    ApartAppend(Mapping5, Mapping7, MappingFrom8);
    ApartAppend(Mapping5, Mapping6, MappingFrom7);
    MappingFrom6Unique();
    Mapping5Unique();
    UniqueAppend(Mapping5, MappingFrom6);
  }

  /** The table from block 4 on has distinct names. */
  lemma MappingFrom4Unique()
    ensures UniqueKeys(MappingFrom4)
  {
    Apart45(); Apart46(); Apart47(); Apart48(); Apart49();
    ApartAppend(Mapping4, Mapping8, Mapping9);
    ApartAppend(Mapping4, Mapping7, MappingFrom8);
    ApartAppend(Mapping4, Mapping6, MappingFrom7);
    ApartAppend(Mapping4, Mapping5, MappingFrom6);
    MappingFrom5Unique();
    Mapping4Unique();
    UniqueAppend(Mapping4, MappingFrom5);
  }

  /** The table from block 3 on has distinct names. */
  lemma MappingFrom3Unique()
    ensures UniqueKeys(MappingFrom3)
  {
    Apart34(); Apart35(); Apart36(); Apart37(); Apart38(); Apart39();
    ApartAppend(Mapping3, Mapping8, Mapping9);
    ApartAppend(Mapping3, Mapping7, MappingFrom8);
    ApartAppend(Mapping3, Mapping6, MappingFrom7);
    ApartAppend(Mapping3, Mapping5, MappingFrom6);
    ApartAppend(Mapping3, Mapping4, MappingFrom5);
    MappingFrom4Unique();
    Mapping3Unique();
    UniqueAppend(Mapping3, MappingFrom4);
  }

  /** The table from block 2 on has distinct names. */
  lemma MappingFrom2Unique()
    ensures UniqueKeys(MappingFrom2)
  {
    Apart23(); Apart24(); Apart25(); Apart26(); Apart27(); Apart28(); Apart29();
    ApartAppend(Mapping2, Mapping8, Mapping9);
    ApartAppend(Mapping2, Mapping7, MappingFrom8);
    ApartAppend(Mapping2, Mapping6, MappingFrom7);
    ApartAppend(Mapping2, Mapping5, MappingFrom6);
    ApartAppend(Mapping2, Mapping4, MappingFrom5);
    ApartAppend(Mapping2, Mapping3, MappingFrom4);
    MappingFrom3Unique();
    Mapping2Unique();
    UniqueAppend(Mapping2, MappingFrom3);
  }

  /** The table from block 1 on has distinct names. */
  lemma MappingFrom1Unique()
    ensures UniqueKeys(MappingFrom1)
  {
    Apart12(); Apart13(); Apart14(); Apart15(); Apart16(); Apart17(); Apart18(); Apart19();
    ApartAppend(Mapping1, Mapping8, Mapping9);
    ApartAppend(Mapping1, Mapping7, MappingFrom8);
    ApartAppend(Mapping1, Mapping6, MappingFrom7);
    ApartAppend(Mapping1, Mapping5, MappingFrom6);
    ApartAppend(Mapping1, Mapping4, MappingFrom5);
    ApartAppend(Mapping1, Mapping3, MappingFrom4);
    ApartAppend(Mapping1, Mapping2, MappingFrom3);
    MappingFrom2Unique();
    Mapping1Unique();
    UniqueAppend(Mapping1, MappingFrom2);
  }

  /** STATION_MAPPING lists every display name once. */
  lemma StationMappingUnique()
    ensures UniqueKeys(StationMapping)
  {
    Apart01(); Apart02(); Apart03(); Apart04(); Apart05(); Apart06(); Apart07(); Apart08(); Apart09();
    ApartAppend(Mapping0, Mapping8, Mapping9);
    ApartAppend(Mapping0, Mapping7, MappingFrom8);
    ApartAppend(Mapping0, Mapping6, MappingFrom7);
    ApartAppend(Mapping0, Mapping5, MappingFrom6);
    ApartAppend(Mapping0, Mapping4, MappingFrom5);
    ApartAppend(Mapping0, Mapping3, MappingFrom4);
    ApartAppend(Mapping0, Mapping2, MappingFrom3);
    ApartAppend(Mapping0, Mapping1, MappingFrom2);
    MappingFrom1Unique();
    Mapping0Unique();
    UniqueAppend(Mapping0, MappingFrom1);
  }
}
