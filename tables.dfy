/**
 * The static tables of wmata.py and the dictionary operations the core
 * performs on them. A Python `dict` literal iterates in insertion order, so
 * each table is a sequence of (key, value) pairs in source order; a
 * well-formed table has distinct keys, as every dict does.
 */
module Tables {
  import opened Wrappers

  /** No key occurs twice: the sequence is the item list of some dict. */
  ghost predicate UniqueKeys<K, V>(m: seq<(K, V)>) {
    forall i, j :: 0 <= i < j < |m| ==> m[i].0 != m[j].0
  }

  /** `k in d`. */
  predicate HasKey<K(==), V>(m: seq<(K, V)>, k: K) {
    exists i :: 0 <= i < |m| && m[i].0 == k
  }

  /** `d.get(k)`: the value stored under the first (in a dict, the only) entry for `k`. */
  function Lookup<K(==), V>(m: seq<(K, V)>, k: K): (r: Option<V>)
    ensures r.None? <==> !HasKey(m, k)
    ensures r.Some? ==> exists i :: 0 <= i < |m| && m[i] == (k, r.value) && forall j :: 0 <= j < i ==> m[j].0 != k
  {
    if m == [] then None
    else if m[0].0 == k then Some(m[0].1)
    else
      var r := Lookup(m[1..], k);
      assert r.Some? ==> exists i :: 1 <= i < |m| && m[i] == (k, r.value) && forall j :: 0 <= j < i ==> m[j].0 != k by {
        if r.Some? {
          var i :| 0 <= i < |m[1..]| && m[1..][i] == (k, r.value) && forall j :: 0 <= j < i ==> m[1..][j].0 != k;
          assert m[i + 1] == (k, r.value);
          assert forall j :: 1 <= j < i + 1 ==> m[j].0 == m[1..][j - 1].0;
        }
      }
      r
  }

  /** In a dict, `d[k]` is the value of the one entry whose key is `k`. */
  lemma LookupUnique<K, V>(m: seq<(K, V)>, i: nat)
    requires UniqueKeys(m) && i < |m|
    ensures Lookup(m, m[i].0) == Some(m[i].1)
  {
    var r := Lookup(m, m[i].0);
    var j :| 0 <= j < |m| && m[j] == (m[i].0, r.value) && forall j' :: 0 <= j' < j ==> m[j'].0 != m[i].0;
    assert j == i;
  }

  /** A key no entry holds is not found. */
  lemma LookupAbsent<K, V>(m: seq<(K, V)>, k: K)
    requires forall j :: 0 <= j < |m| ==> m[j].0 != k
    ensures Lookup(m, k).None?
  {
  }

  /** The first entry holding a key is the one found. */
  lemma LookupAt<K, V>(m: seq<(K, V)>, k: K, i: nat)
    requires i < |m| && m[i].0 == k && forall j :: 0 <= j < i ==> m[j].0 != k
    ensures Lookup(m, k) == Some(m[i].1)
  {
    var r := Lookup(m, k);
    var i' :| 0 <= i' < |m| && m[i'] == (k, r.value) && forall j :: 0 <= j < i' ==> m[j].0 != k;
    assert i' == i;
  }

  /** `d.values()`, in entry order. */
  function Values<K, V>(m: seq<(K, V)>): (r: seq<V>)
    ensures |r| == |m|
    ensures forall i :: 0 <= i < |m| ==> r[i] == m[i].1
  {
    if m == [] then [] else [m[0].1] + Values(m[1..])
  }

  /**
   * `next((k for k, x in d.items() if x == v), fallback)`: the first key
   * whose value is `v`, or `fallback` when no entry has that value.
   */
  function KeyOf<K, V(==)>(m: seq<(K, V)>, v: V, fallback: K): K {
    if m == [] then fallback
    else if m[0].1 == v then m[0].0
    else KeyOf(m[1..], v, fallback)
  }

  /** Some entry holds the value `v`: `v in d.values()`. */
  predicate HasValue<K, V(==)>(m: seq<(K, V)>, v: V) {
    exists i :: 0 <= i < |m| && m[i].1 == v
  }

  /**
   * The reverse lookup finds the first entry holding `v`, and falls back
   * exactly when no entry holds it.
   */
  lemma {:induction false} KeyOfFirst<K, V>(m: seq<(K, V)>, v: V, fallback: K)
    ensures !HasValue(m, v) ==> KeyOf(m, v, fallback) == fallback
    ensures HasValue(m, v) ==>
      exists i :: 0 <= i < |m| && m[i] == (KeyOf(m, v, fallback), v) && forall j :: 0 <= j < i ==> m[j].1 != v
  {
    if m != [] && m[0].1 != v {
      KeyOfFirst(m[1..], v, fallback);
      if HasValue(m, v) {
        var k :| 0 <= k < |m| && m[k].1 == v;
        assert m[1..][k - 1].1 == v;
        var r := KeyOf(m, v, fallback);
        var i :| 0 <= i < |m[1..]| && m[1..][i] == (r, v) && forall j :: 0 <= j < i ==> m[1..][j].1 != v;
        assert m[i + 1] == (r, v);
        assert forall j :: 1 <= j < i + 1 ==> m[j].1 == m[1..][j - 1].1;
      }
    }
  }

  /** `v in d.values()` holds exactly when some entry holds `v`. */
  lemma ValuesHasValue<K, V>(m: seq<(K, V)>, v: V)
    ensures v in Values(m) <==> HasValue(m, v)
  {
    if v in Values(m) {
      var k :| 0 <= k < |m| && Values(m)[k] == v;
    }
  }

  /** A dict consulted block by block: the first block with the key decides. */
  lemma {:induction false} LookupAppend<K, V>(a: seq<(K, V)>, b: seq<(K, V)>, k: K)
    ensures Lookup(a + b, k) == if Lookup(a, k).Some? then Lookup(a, k) else Lookup(b, k)
  {
    if a != [] {
      assert (a + b)[1..] == a[1..] + b;
      LookupAppend(a[1..], b, k);
    } else {
      assert a + b == b;
    }
  }

  /** The keys of a dict, as a set. */
  function KeySet<K(!new), V>(m: seq<(K, V)>): (r: set<K>)
    ensures forall k :: k in r <==> HasKey(m, k)
  {
    set i | 0 <= i < |m| :: m[i].0
  }

  /** `set(xs)`. */
  function ToSet<T>(xs: seq<T>): set<T> {
    set x | x in xs
  }

  /** The line set of a station, `set(STATION_LINES.get(code, []))`. */
  function LinesOf(stationLines: seq<(string, seq<string>)>, code: string): (r: set<string>)
    ensures HasKey(stationLines, code) ==> exists i :: 0 <= i < |stationLines| && stationLines[i].0 == code && r == ToSet(stationLines[i].1)
    ensures !HasKey(stationLines, code) ==> r == {}
  {
    ToSet(Lookup(stationLines, code).GetOr([]))
  }

  /**
   * STATION_MAPPING: display name to station code, in source order. It is
   * written in blocks of ten consecutive entries so that concrete lookups
   * can be proved block by block.
   */
  const StationMapping: seq<(string, string)> := Mapping0 + MappingFrom1

  // The table from block n on.
  const MappingFrom1: seq<(string, string)> := Mapping1 + MappingFrom2
  const MappingFrom2: seq<(string, string)> := Mapping2 + MappingFrom3
  const MappingFrom3: seq<(string, string)> := Mapping3 + MappingFrom4
  const MappingFrom4: seq<(string, string)> := Mapping4 + MappingFrom5
  const MappingFrom5: seq<(string, string)> := Mapping5 + MappingFrom6
  const MappingFrom6: seq<(string, string)> := Mapping6 + MappingFrom7
  const MappingFrom7: seq<(string, string)> := Mapping7 + MappingFrom8
  const MappingFrom8: seq<(string, string)> := Mapping8 + Mapping9

  const Mapping0: seq<(string, string)> := [
    ("Metro Center", "C01"),
    ("Farragut North", "A02"),
    ("Dupont Circle", "A03"),
    ("Woodley Park-Zoo/Adams Morgan", "A04"),
    ("Cleveland Park", "A05"),
    ("Van Ness-UDC", "A06"),
    ("Tenleytown-AU", "A07"),
    ("Friendship Heights", "A08"),
    ("Bethesda", "A09"),
    ("Medical Center", "A10")
  ]

  const Mapping1: seq<(string, string)> := [
    ("Grosvenor-Strathmore", "A11"),
    ("North Bethesda", "A12"),
    ("Twinbrook", "A13"),
    ("Rockville", "A14"),
    ("Shady Grove", "A15"),
    ("Gallery Pl-Chinatown", "F01"),
    ("Judiciary Square", "B02"),
    ("Union Station", "B03"),
    ("Rhode Island Ave-Brentwood", "B04"),
    ("Brookland-CUA", "B05")
  ]

  const Mapping2: seq<(string, string)> := [
    ("Fort Totten", "E06"),
    ("Takoma", "B07"),
    ("Silver Spring", "B08"),
    ("Forest Glen", "B09"),
    ("Wheaton", "B10"),
    ("Glenmont", "B11"),
    ("NoMa-Gallaudet U", "B35"),
    ("McPherson Square", "C02"),
    ("Farragut West", "C03"),
    ("Foggy Bottom-GWU", "C04")
  ]

  const Mapping3: seq<(string, string)> := [
    ("Rosslyn", "C05"),
    ("Arlington Cemetery", "C06"),
    ("Pentagon", "C07"),
    ("Pentagon City", "C08"),
    ("Crystal City", "C09"),
    ("Ronald Reagan Washington National Airport", "C10"),
    ("Potomac Yard", "C11"),
    ("Braddock Road", "C12"),
    ("King St-Old Town", "C13"),
    ("Eisenhower Avenue", "C14")
  ]

  const Mapping4: seq<(string, string)> := [
    ("Huntington", "C15"),
    ("Federal Triangle", "D01"),
    ("Smithsonian", "D02"),
    ("L'Enfant Plaza", "F03"),
    ("Federal Center SW", "D04"),
    ("Capitol South", "D05"),
    ("Eastern Market", "D06"),
    ("Potomac Ave", "D07"),
    ("Stadium-Armory", "D08"),
    ("Minnesota Ave", "D09")
  ]

  const Mapping5: seq<(string, string)> := [
    ("Deanwood", "D10"),
    ("Cheverly", "D11"),
    ("Landover", "D12"),
    ("New Carrollton", "D13"),
    ("Mt Vernon Sq 7th St-Convention Center", "E01"),
    ("Shaw-Howard U", "E02"),
    ("U Street/African-Amer Civil War Memorial/Cardozo", "E03"),
    ("Columbia Heights", "E04"),
    ("Georgia Ave-Petworth", "E05"),
    ("West Hyattsville", "E07")
  ]

  const Mapping6: seq<(string, string)> := [
    ("Hyattsville Crossing", "E08"),
    ("College Park-U of Md", "E09"),
    ("Greenbelt", "E10"),
    ("Archives-Navy Memorial-Penn Quarter", "F02"),
    ("Waterfront", "F04"),
    ("Navy Yard-Ballpark", "F05"),
    ("Anacostia", "F06"),
    ("Congress Heights", "F07"),
    ("Southern Avenue", "F08"),
    ("Naylor Road", "F09")
  ]

  const Mapping7: seq<(string, string)> := [
    ("Suitland", "F10"),
    ("Branch Ave", "F11"),
    ("Benning Road", "G01"),
    ("Capitol Heights", "G02"),
    ("Addison Road-Seat Pleasant", "G03"),
    ("Morgan Boulevard", "G04"),
    ("Downtown Largo", "G05"),
    ("Van Dorn Street", "J02"),
    ("Franconia-Springfield", "J03"),
    ("Court House", "K01")
  ]

  const Mapping8: seq<(string, string)> := [
    ("Clarendon", "K02"),
    ("Virginia Square-GMU", "K03"),
    ("Ballston-MU", "K04"),
    ("East Falls Church", "K05"),
    ("West Falls Church", "K06"),
    ("Dunn Loring-Merrifield", "K07"),
    ("Vienna/Fairfax-GMU", "K08"),
    ("McLean", "N01"),
    ("Tysons", "N02"),
    ("Greensboro", "N03")
  ]

  const Mapping9: seq<(string, string)> := [
    ("Spring Hill", "N04"),
    ("Wiehle-Reston East", "N06"),
    ("Reston Town Center", "N07"),
    ("Herndon", "N08"),
    ("Innovation Center", "N09"),
    ("Washington Dulles International Airport", "N10"),
    ("Loudoun Gateway", "N11"),
    ("Ashburn", "N12")
  ]

  /** LINE_COLORS: line code to display name, in source order. */
  const LineColors: seq<(string, string)> := [
    ("RD", "Red Line"), ("BL", "Blue Line"), ("YL", "Yellow Line"),
    ("OR", "Orange Line"), ("GR", "Green Line"), ("SV", "Silver Line")
  ]

  /**
   * STATION_LINES: station code to the lines that serve it, in source order,
   * in the blocks the source's comments delimit (the Red Line block split
   * at its A and B branches).
   */
  const StationLines: seq<(string, seq<string>)> := LinesRedA + LinesFromRedB

  // The table from a block on.
  const LinesFromRedB: seq<(string, seq<string>)> := LinesRedB + LinesFromC
  const LinesFromC: seq<(string, seq<string>)> := LinesC + LinesFromD
  const LinesFromD: seq<(string, seq<string>)> := LinesD + LinesFromE
  const LinesFromE: seq<(string, seq<string>)> := LinesE + LinesFromF
  const LinesFromF: seq<(string, seq<string>)> := LinesF + LinesFromGJ
  const LinesFromGJ: seq<(string, seq<string>)> := LinesGJ + LinesFromK
  const LinesFromK: seq<(string, seq<string>)> := LinesK + LinesN

  // Red Line, A branch
  const LinesRedA: seq<(string, seq<string>)> := [
    ("A01", ["RD"]),
    ("A02", ["RD"]),
    ("A03", ["RD"]),
    ("A04", ["RD"]),
    ("A05", ["RD"]),
    ("A06", ["RD"]),
    ("A07", ["RD"]),
    ("A08", ["RD"]),
    ("A09", ["RD"]),
    ("A10", ["RD"]),
    ("A11", ["RD"]),
    ("A12", ["RD"]),
    ("A13", ["RD"]),
    ("A14", ["RD"]),
    ("A15", ["RD"])
  ]

  // Red Line, B branch
  const LinesRedB: seq<(string, seq<string>)> := [
    ("B02", ["RD"]),
    ("B03", ["RD"]),
    ("B04", ["RD"]),
    ("B05", ["RD"]),
    ("B06", ["RD"]),
    ("B07", ["RD"]),
    ("B08", ["RD"]),
    ("B09", ["RD"]),
    ("B10", ["RD"]),
    ("B11", ["RD"]),
    ("B35", ["RD"])
  ]

  // Blue/Orange/Silver Line stations
  const LinesC: seq<(string, seq<string>)> := [
    ("C01", ["RD", "BL", "OR", "SV"]),
    ("C02", ["BL", "OR", "SV"]),
    ("C03", ["BL", "OR", "SV"]),
    ("C04", ["BL", "OR", "SV"]),
    ("C05", ["BL", "OR", "SV"]),
    ("C06", ["BL"]),
    ("C07", ["BL", "YL"]),
    ("C08", ["BL", "YL"]),
    ("C09", ["BL", "YL"]),
    ("C10", ["BL", "YL"]),
    ("C11", ["BL", "YL"]),
    ("C12", ["BL", "YL"]),
    ("C13", ["BL", "YL"]),
    ("C14", ["BL"]),
    ("C15", ["BL"])
  ]

  // Orange/Silver Line
  const LinesD: seq<(string, seq<string>)> := [
    ("D01", ["OR", "SV"]),
    ("D02", ["OR", "SV"]),
    ("D03", ["OR"]),
    ("D04", ["OR", "SV"]),
    ("D05", ["OR", "SV"]),
    ("D06", ["OR", "SV"]),
    ("D07", ["OR", "SV"]),
    ("D08", ["OR", "SV"]),
    ("D09", ["OR"]),
    ("D10", ["OR"]),
    ("D11", ["OR"]),
    ("D12", ["OR"]),
    ("D13", ["OR", "SV"])
  ]

  // Green/Yellow Line
  const LinesE: seq<(string, seq<string>)> := [
    ("E01", ["GR", "YL"]),
    ("E02", ["GR"]),
    ("E03", ["GR"]),
    ("E04", ["GR"]),
    ("E05", ["GR"]),
    ("E06", ["RD", "GR"]),
    ("E07", ["GR"]),
    ("E08", ["GR"]),
    ("E09", ["GR"]),
    ("E10", ["GR"])
  ]

  // Gallery Place / L'Enfant Plaza connections
  const LinesF: seq<(string, seq<string>)> := [
    ("F01", ["RD", "GR", "YL"]),
    ("F02", ["GR", "YL"]),
    ("F03", ["BL", "OR", "SV", "GR", "YL"]),
    ("F04", ["GR"]),
    ("F05", ["GR"]),
    ("F06", ["GR"]),
    ("F07", ["GR"]),
    ("F08", ["GR"]),
    ("F09", ["GR"]),
    ("F10", ["GR"]),
    ("F11", ["GR"])
  ]

  // Other stations
  const LinesGJ: seq<(string, seq<string>)> := [
    ("G01", ["BL"]),
    ("G02", ["BL"]),
    ("G03", ["BL"]),
    ("G04", ["BL"]),
    ("G05", ["BL", "SV"]),
    ("J02", ["BL"]),
    ("J03", ["BL"])
  ]

  // Orange/Silver Line (Arlington)
  const LinesK: seq<(string, seq<string>)> := [
    ("K01", ["OR", "SV"]),
    ("K02", ["OR", "SV"]),
    ("K03", ["OR", "SV"]),
    ("K04", ["OR", "SV"]),
    ("K05", ["OR", "SV"]),
    ("K06", ["OR", "SV"]),
    ("K07", ["OR", "SV"]),
    ("K08", ["OR", "SV"])
  ]

  // Silver Line
  const LinesN: seq<(string, seq<string>)> := [
    ("N01", ["SV"]),
    ("N02", ["SV"]),
    ("N03", ["SV"]),
    ("N04", ["SV"]),
    ("N06", ["SV"]),
    ("N07", ["SV"]),
    ("N08", ["SV"]),
    ("N09", ["SV"]),
    ("N10", ["SV"]),
    ("N11", ["SV"]),
    ("N12", ["SV"])
  ]
}
