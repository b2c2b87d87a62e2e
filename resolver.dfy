/**
 * `get_station_code`: turns what a user typed into a station code. Three
 * passes are tried in order: an exact display name; an upper-cased code
 * when the input has at most three characters; and a case-insensitive
 * substring search over the display names in table order.
 */
module Resolver {
  import opened Wrappers
  import opened Text
  import opened Tables

  /** The test of the fuzzy pass: the lowered name contains, or starts with, the lowered input. */
  predicate FuzzyMatch(name: string, query: string) {
    Contains(Lower(name), query) || IsPrefix(query, Lower(name))
  }

  /** The fuzzy pass: the code of the first entry, in table order, whose name matches. */
  function FirstFuzzy(m: seq<(string, string)>, query: string): (r: Option<string>)
    ensures r.None? <==> forall i :: 0 <= i < |m| ==> !FuzzyMatch(m[i].0, query)
    ensures r.Some? ==> exists i :: 0 <= i < |m| && FuzzyMatch(m[i].0, query) && r.value == m[i].1 &&
                                    forall j :: 0 <= j < i ==> !FuzzyMatch(m[j].0, query)
  {
    if m == [] then None
    else if FuzzyMatch(m[0].0, query) then Some(m[0].1)
    else
      var r := FirstFuzzy(m[1..], query);
      assert r.Some? ==> exists i :: 1 <= i < |m| && FuzzyMatch(m[i].0, query) && r.value == m[i].1 &&
                                     forall j :: 0 <= j < i ==> !FuzzyMatch(m[j].0, query) by {
        if r.Some? {
          var i :| 0 <= i < |m[1..]| && FuzzyMatch(m[1..][i].0, query) && r.value == m[1..][i].1 &&
                   forall j :: 0 <= j < i ==> !FuzzyMatch(m[1..][j].0, query);
          assert m[i + 1] == m[1..][i];
          assert forall j :: 1 <= j < i + 1 ==> m[j] == m[1..][j - 1];
        }
      }
      r
  }

  /** The three passes of `get_station_code`, first success wins. */
  function Resolve(m: seq<(string, string)>, s: string): Option<string> {
    if Lookup(m, s).Some? then Lookup(m, s)
    else if |s| <= 3 && Upper(s) in Values(m) then Some(Upper(s))
    else FirstFuzzy(m, Lower(s))
  }

  /** `get_station_code(station_name)` over the table `m`. */
  method GetStationCode(m: seq<(string, string)>, s: string) returns (r: Option<string>)
    ensures r == Resolve(m, s)
  {
    var exact := Lookup(m, s);
    if exact.Some? {
      return exact;
    }
    if |s| <= 3 && Upper(s) in Values(m) {
      return Some(Upper(s));
    }
    var query := Lower(s);
    var i := 0;
    while i < |m|
      invariant 0 <= i <= |m|
      invariant forall j :: 0 <= j < i ==> !FuzzyMatch(m[j].0, query)
    {
      var name := Lower(m[i].0);
      if Contains(name, query) || IsPrefix(query, name) {
        assert FirstFuzzy(m, query) == Some(m[i].1) by {
          assert FuzzyMatch(m[i].0, query);
          var k :| 0 <= k < |m| && FuzzyMatch(m[k].0, query) && FirstFuzzy(m, query).value == m[k].1 &&
                   forall j :: 0 <= j < k ==> !FuzzyMatch(m[j].0, query);
          assert k == i;
        }
        return Some(m[i].1);
      }
      i := i + 1;
    }
    return None;
  }

  /** Every result is a code of the table: a value of STATION_MAPPING. */
  lemma ResolveYieldsCode(m: seq<(string, string)>, s: string)
    ensures Resolve(m, s).Some? ==> Resolve(m, s).value in Values(m)
  {
    var r := Resolve(m, s);
    if Lookup(m, s).Some? {
      var i :| 0 <= i < |m| && m[i] == (s, r.value) && forall j :: 0 <= j < i ==> m[j].0 != s;
      assert Values(m)[i] == r.value;
    } else if r.Some? && !(|s| <= 3 && Upper(s) in Values(m)) {
      var i :| 0 <= i < |m| && FuzzyMatch(m[i].0, Lower(s)) && r.value == m[i].1 &&
               forall j :: 0 <= j < i ==> !FuzzyMatch(m[j].0, Lower(s));
      assert Values(m)[i] == r.value;
    }
  }

  /** In a dict, each display name resolves to its own code. */
  lemma ResolveExactName(m: seq<(string, string)>, i: nat)
    requires UniqueKeys(m) && i < |m|
    ensures Resolve(m, m[i].0) == Some(m[i].1)
  {
    LookupUnique(m, i);
  }

  /**
   * An input of at most three characters that is not a display name and
   * whose upper-case form is a code resolves to that upper-case code.
   */
  lemma ResolveCode(m: seq<(string, string)>, s: string)
    requires |s| <= 3 && !HasKey(m, s) && Upper(s) in Values(m)
    ensures Resolve(m, s) == Some(Upper(s))
  {
  }

  /**
   * The fuzzy pass, stated with substring containment alone (the
   * `startswith` test adds nothing): the result is the code of the first
   * entry whose lowered name contains the lowered input, and there is none
   * exactly when no name contains it.
   */
  lemma FuzzyIsFirstContaining(m: seq<(string, string)>, s: string)
    requires !HasKey(m, s) && !(|s| <= 3 && Upper(s) in Values(m))
    ensures Resolve(m, s).None? <==> forall i :: 0 <= i < |m| ==> !Contains(Lower(m[i].0), Lower(s))
    ensures Resolve(m, s).Some? ==>
              exists i :: 0 <= i < |m| && Contains(Lower(m[i].0), Lower(s)) && Resolve(m, s).value == m[i].1 &&
                          forall j :: 0 <= j < i ==> !Contains(Lower(m[j].0), Lower(s))
  {
    forall name: string ensures FuzzyMatch(name, Lower(s)) <==> Contains(Lower(name), Lower(s)) {
      if IsPrefix(Lower(s), Lower(name)) {
        PrefixIsContained(Lower(s), Lower(name));
      }
    }
  }

  /** The empty input is part of every name, so it resolves to the first entry's code. */
  lemma EmptyResolvesToFirst(m: seq<(string, string)>)
    requires m != [] && !HasKey(m, "") && "" !in Values(m)
    ensures Resolve(m, "") == Some(m[0].1)
  {
    assert Lower("") == "";
    EmptyContained(Lower(m[0].0));
  }

  /**
   * The reverse lookup `next(name for name, code in ... if code == c)`
   * followed by resolution gives back `c`: names and codes round-trip.
   */
  lemma NameRoundTrip(m: seq<(string, string)>, c: string)
    requires UniqueKeys(m) && c in Values(m)
    ensures Resolve(m, KeyOf(m, c, c)) == Some(c)
  {
    ValuesHasValue(m, c);
    KeyOfFirst(m, c, c);
    var i :| 0 <= i < |m| && m[i] == (KeyOf(m, c, c), c) && forall j :: 0 <= j < i ==> m[j].1 != c;
    ResolveExactName(m, i);
  }
}

/** The resolver on the station table of wmata.py. */
module StationResolver {
  import opened Wrappers
  import opened Text
  import opened Tables
  import opened Resolver
  import opened StationTables

  /** Names are longer than three characters and codes are exactly three. */
  ghost predicate WellShapedMapping(m: seq<(string, string)>) {
    forall i :: 0 <= i < |m| ==> |m[i].0| > 3 && |m[i].1| == 3
  }

  lemma WellShapedAppend(a: seq<(string, string)>, b: seq<(string, string)>)
    requires WellShapedMapping(a) && WellShapedMapping(b)
    ensures WellShapedMapping(a + b)
  {
    forall i | 0 <= i < |a + b| ensures |(a + b)[i].0| > 3 && |(a + b)[i].1| == 3 {
      if i >= |a| {
        assert (a + b)[i] == b[i - |a|];
      }
    }
  }

  lemma StationMappingShaped()
    ensures WellShapedMapping(StationMapping)
  {
    Mapping8Shaped(); Mapping9Shaped();
    WellShapedAppend(Mapping8, Mapping9);
    Mapping7Shaped();
    WellShapedAppend(Mapping7, MappingFrom8);
    Mapping6Shaped();
    WellShapedAppend(Mapping6, MappingFrom7);
    Mapping5Shaped();
    WellShapedAppend(Mapping5, MappingFrom6);
    Mapping4Shaped();
    WellShapedAppend(Mapping4, MappingFrom5);
    Mapping3Shaped();
    WellShapedAppend(Mapping3, MappingFrom4);
    Mapping2Shaped();
    WellShapedAppend(Mapping2, MappingFrom3);
    Mapping1Shaped();
    WellShapedAppend(Mapping1, MappingFrom2);
    Mapping0Shaped();
    WellShapedAppend(Mapping0, MappingFrom1);
  }

  // One block of the table per lemma: each is settled by evaluating the block.
  lemma Mapping0Shaped() ensures WellShapedMapping(Mapping0) {}
  lemma Mapping1Shaped() ensures WellShapedMapping(Mapping1) {}
  lemma Mapping2Shaped() ensures WellShapedMapping(Mapping2) {}
  lemma Mapping3Shaped() ensures WellShapedMapping(Mapping3) {}
  lemma Mapping4Shaped() ensures WellShapedMapping(Mapping4) {}
  lemma Mapping5Shaped() ensures WellShapedMapping(Mapping5) {}
  lemma Mapping6Shaped() ensures WellShapedMapping(Mapping6) {}
  lemma Mapping7Shaped() ensures WellShapedMapping(Mapping7) {}
  lemma Mapping8Shaped() ensures WellShapedMapping(Mapping8) {}
  lemma Mapping9Shaped() ensures WellShapedMapping(Mapping9) {}

  /** On the real table, no input of at most three characters is a display name. */
  lemma ShortInputIsNoName(s: string)
    requires |s| <= 3
    ensures !HasKey(StationMapping, s)
  {
    StationMappingShaped();
  }

  /**
   * On the real table, an input of at most three characters resolves to its
   * upper-case form whenever that is a code: "c01" gives "C01".
   */
  lemma ShortCodeResolves(s: string)
    requires |s| <= 3 && Upper(s) in Values(StationMapping)
    ensures Resolve(StationMapping, s) == Some(Upper(s))
  {
    ShortInputIsNoName(s);
    ResolveCode(StationMapping, s);
  }

  lemma LowerCaseCode()
    ensures Resolve(StationMapping, "c01") == Some("C01")
  {
    assert Upper("c01") == "C01";
    assert Values(StationMapping)[0] == "C01";
    ShortCodeResolves("c01");
  }

  /** The empty input is no name and no code, and every name contains it: it gives Metro Center. */
  lemma EmptyInputIsMetroCenter()
    ensures Resolve(StationMapping, "") == Some("C01")
  {
    ShortInputIsNoName("");
    StationMappingShaped();
    assert "" !in Values(StationMapping);
    EmptyResolvesToFirst(StationMapping);
  }

  // Exact names, found in the block that holds them after the blocks before it are ruled out.
  lemma UnionStationNotInBlock0() ensures Lookup(Mapping0, "Union Station").None? { LookupAbsent(Mapping0, "Union Station"); }
  lemma UnionStationInBlock1() ensures Lookup(Mapping1, "Union Station") == Some("B03") { LookupAt(Mapping1, "Union Station", 7); }
  lemma PentagonNotInBlock0() ensures Lookup(Mapping0, "Pentagon").None? { LookupAbsent(Mapping0, "Pentagon"); }
  lemma PentagonNotInBlock1() ensures Lookup(Mapping1, "Pentagon").None? { LookupAbsent(Mapping1, "Pentagon"); }
  lemma PentagonNotInBlock2() ensures Lookup(Mapping2, "Pentagon").None? { LookupAbsent(Mapping2, "Pentagon"); }
  lemma PentagonInBlock3() ensures Lookup(Mapping3, "Pentagon") == Some("C07") { LookupAt(Mapping3, "Pentagon", 2); }

  lemma UnionStation()
    ensures Resolve(StationMapping, "Union Station") == Some("B03")
  {
    UnionStationNotInBlock0();
    UnionStationInBlock1();
    LookupAppend(Mapping0, MappingFrom1, "Union Station");
    LookupAppend(Mapping1, MappingFrom2, "Union Station");
  }

  lemma Pentagon()
    ensures Resolve(StationMapping, "Pentagon") == Some("C07")
  {
    PentagonNotInBlock0();
    PentagonNotInBlock1();
    PentagonNotInBlock2();
    PentagonInBlock3();
    LookupAppend(Mapping0, MappingFrom1, "Pentagon");
    LookupAppend(Mapping1, MappingFrom2, "Pentagon");
    LookupAppend(Mapping2, MappingFrom3, "Pentagon");
    LookupAppend(Mapping3, MappingFrom4, "Pentagon");
  }

  /** On the real table, every display name resolves to its own code. */
  lemma EveryNameResolves(i: nat)
    requires i < |StationMapping|
    ensures Resolve(StationMapping, StationMapping[i].0) == Some(StationMapping[i].1)
  {
    StationMappingUnique();
    ResolveExactName(StationMapping, i);
  }

  /** On the real table, the name the reverse lookup finds for a code resolves back to that code. */
  lemma EveryCodeRoundTrips(c: string)
    requires c in Values(StationMapping)
    ensures Resolve(StationMapping, KeyOf(StationMapping, c, c)) == Some(c)
  {
    StationMappingUnique();
    NameRoundTrip(StationMapping, c);
  }
}
