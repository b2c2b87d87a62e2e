/**
 * The station directory of `get_all_stations`: the parsed `Stations` list
 * is grouped by line code into a dict of lists, filled in place, and the
 * lines are then rendered in a fixed order, each with its entries sorted
 * and free of duplicates.
 */
module Directory {
  import opened Wrappers
  import opened Text
  import opened Tables

  /** One element of the feed's `Stations` list; a field the record lacks is `None`. */
  datatype StationRecord = StationRecord(
    code: Option<string>, name: Option<string>,
    lineCode1: Option<string>, lineCode2: Option<string>, lineCode3: Option<string>, lineCode4: Option<string>)

  /** The four line-code fields, in the order they are read. */
  function LineCodes(s: StationRecord): seq<Option<string>> {
    [s.lineCode1, s.lineCode2, s.lineCode3, s.lineCode4]
  }

  /** How a station is listed: `"{name} ({code})"`, with "Unknown" and "" for a missing name and code. */
  function Entry(s: StationRecord): string {
    s.name.GetOr("Unknown") + " (" + s.code.GetOr("") + ")"
  }

  /** The line codes that are grouped: the non-empty keys of the colour table (LINE_COLORS). */
  function KnownLines(colors: seq<(string, string)>): (r: set<string>)
    ensures forall k :: k in r <==> k != "" && HasKey(colors, k)
  {
    KeySet(colors) - {""}
  }

  /** How many of the line-code fields hold `k`. */
  function CountOf(codes: seq<Option<string>>, k: string): nat {
    if codes == [] then 0
    else CountOf(codes[..|codes| - 1], k) + (if codes[|codes| - 1] == Some(k) then 1 else 0)
  }

  /** `n` copies of `x`. */
  function Copies(x: string, n: nat): (r: seq<string>)
    ensures |r| == n && forall i :: 0 <= i < n ==> r[i] == x
  {
    if n == 0 then [] else Copies(x, n - 1) + [x]
  }

  /**
   * The entries the grouping collects for line `k`: for each station in
   * order, its entry once per field that names `k`.
   */
  function EntriesOn(stations: seq<StationRecord>, k: string): seq<string> {
    if stations == [] then []
    else
      var last := stations[|stations| - 1];
      EntriesOn(stations[..|stations| - 1], k) + Copies(Entry(last), CountOf(LineCodes(last), k))
  }

  /** The dict `lines` once every station is grouped: each known line with at least one entry, to its entries. */
  function Grouping(colors: seq<(string, string)>, stations: seq<StationRecord>): map<string, seq<string>> {
    map k | k in KnownLines(colors) && EntriesOn(stations, k) != [] :: EntriesOn(stations, k)
  }

  /** A field names `k` exactly when one of the four holds it. */
  lemma {:induction false} CountOfPositive(codes: seq<Option<string>>, k: string)
    ensures CountOf(codes, k) > 0 <==> Some(k) in codes
  {
    if codes != [] {
      var init := codes[..|codes| - 1];
      CountOfPositive(init, k);
      assert codes == init + [codes[|codes| - 1]];
    }
  }

  /** An entry is listed under `k` exactly when it is the entry of a station with a field naming `k`. */
  lemma {:induction false} EntriesOnMembers(stations: seq<StationRecord>, k: string, x: string)
    ensures x in EntriesOn(stations, k) <==>
      exists i :: 0 <= i < |stations| && x == Entry(stations[i]) && Some(k) in LineCodes(stations[i])
  {
    if stations != [] {
      var n := |stations| - 1;
      var init := stations[..n];
      var last := stations[n];
      EntriesOnMembers(init, k, x);
      CountOfPositive(LineCodes(last), k);
      assert EntriesOn(stations, k) == EntriesOn(init, k) + Copies(Entry(last), CountOf(LineCodes(last), k));
      assert forall i :: 0 <= i < n ==> init[i] == stations[i];
      if exists i :: 0 <= i < |stations| && x == Entry(stations[i]) && Some(k) in LineCodes(stations[i]) {
        var i :| 0 <= i < |stations| && x == Entry(stations[i]) && Some(k) in LineCodes(stations[i]);
        if i == n {
          assert Copies(Entry(last), CountOf(LineCodes(last), k))[0] == x;
        } else {
          assert x == Entry(init[i]) && Some(k) in LineCodes(init[i]);
        }
      }
      if x in EntriesOn(stations, k) {
        if x in EntriesOn(init, k) {
          var i :| 0 <= i < n && x == Entry(init[i]) && Some(k) in LineCodes(init[i]);
          assert x == Entry(stations[i]) && Some(k) in LineCodes(stations[i]);
        } else {
          assert x in Copies(Entry(last), CountOf(LineCodes(last), k));
          assert x == Entry(stations[n]) && Some(k) in LineCodes(stations[n]);
        }
      }
    }
  }

  /** Every station with some field naming line `k` is listed under it. */
  lemma StationListed(colors: seq<(string, string)>, stations: seq<StationRecord>, k: string, i: nat)
    requires i < |stations| && k in KnownLines(colors) && Some(k) in LineCodes(stations[i])
    ensures k in Grouping(colors, stations) && Entry(stations[i]) in Grouping(colors, stations)[k]
  {
    EntriesOnMembers(stations, k, Entry(stations[i]));
  }

  /** Only the keys of the colour table are grouped, and the empty code never is. */
  lemma GroupingKeys(colors: seq<(string, string)>, stations: seq<StationRecord>)
    ensures forall k :: k in Grouping(colors, stations) ==> HasKey(colors, k) && k != ""
  {
  }

  /** The list stored under `k`, or the empty list. */
  function Get(lines: map<string, seq<string>>, k: string): seq<string> {
    if k in lines then lines[k] else []
  }

  /** One field of one station: a non-empty known line code gets the entry appended, creating its list first. */
  function AddCode(colors: seq<(string, string)>, lines: map<string, seq<string>>, entry: string, c: Option<string>): map<string, seq<string>> {
    if c.Some? && c.value != "" && HasKey(colors, c.value) then lines[c.value := Get(lines, c.value) + [entry]] else lines
  }

  /** The fields `codes` of one station, one after the other. */
  function AddCodes(colors: seq<(string, string)>, lines: map<string, seq<string>>, entry: string, codes: seq<Option<string>>): map<string, seq<string>> {
    if codes == [] then lines
    else AddCode(colors, AddCodes(colors, lines, entry, codes[..|codes| - 1]), entry, codes[|codes| - 1])
  }

  /**
   * Handling a station's fields adds to the known lines it names (one copy
   * of the entry per field), and leaves every other list as it was.
   */
  lemma {:induction false} AddCodesEffect(colors: seq<(string, string)>, lines: map<string, seq<string>>, entry: string, codes: seq<Option<string>>)
    ensures var r := AddCodes(colors, lines, entry, codes);
      (forall k :: k in r <==> k in lines || (k in KnownLines(colors) && CountOf(codes, k) > 0)) &&
      (forall k :: k in KnownLines(colors) ==> Get(r, k) == Get(lines, k) + Copies(entry, CountOf(codes, k))) &&
      (forall k :: k !in KnownLines(colors) && k in lines ==> r[k] == lines[k])
  {
    if codes != [] {
      var n := |codes| - 1;
      var init := codes[..n];
      AddCodesEffect(colors, lines, entry, init);
      var m := AddCodes(colors, lines, entry, init);
      var r := AddCodes(colors, lines, entry, codes);
      assert r == AddCode(colors, m, entry, codes[n]);
      forall k | k in KnownLines(colors)
        ensures Get(r, k) == Get(lines, k) + Copies(entry, CountOf(codes, k))
      {
        if codes[n] == Some(k) {
          assert Get(r, k) == Get(m, k) + [entry];
        } else {
          assert Get(r, k) == Get(m, k);
        }
      }
    }
  }

  /**
   * The inner loop for one station: its entry is appended once for every
   * field naming a known line, the other lines keep their lists.
   */
  method AddStation(colors: seq<(string, string)>, lines: map<string, seq<string>>, entry: string, codes: seq<Option<string>>) returns (r: map<string, seq<string>>)
    ensures forall k :: k in r <==> k in lines || (k in KnownLines(colors) && CountOf(codes, k) > 0)
    ensures forall k :: k in KnownLines(colors) ==> Get(r, k) == Get(lines, k) + Copies(entry, CountOf(codes, k))
    ensures forall k :: k !in KnownLines(colors) && k in lines ==> r[k] == lines[k]
  {
    r := lines;
    for j := 0 to |codes|
      invariant r == AddCodes(colors, lines, entry, codes[..j])
    {
      assert codes[..j + 1][..j] == codes[..j];
      var c := codes[j];
      if c.Some? && c.value != "" && HasKey(colors, c.value) {
        if c.value !in r {
          r := r[c.value := []];
        }
        r := r[c.value := r[c.value] + [entry]];
      }
    }
    assert codes[..|codes|] == codes;
    AddCodesEffect(colors, lines, entry, codes);
  }

  /**
   * The loop of `get_all_stations` that fills `lines`: for every station,
   * for every non-empty field that is a key of LINE_COLORS, append the
   * station's entry to that line's list, creating the list first.
   */
  method GroupByLine(colors: seq<(string, string)>, stations: seq<StationRecord>) returns (lines: map<string, seq<string>>)
    ensures lines == Grouping(colors, stations)
  {
    lines := map[];
    for i := 0 to |stations|
      invariant forall k :: k in lines ==> k in KnownLines(colors)
      invariant forall k :: k in KnownLines(colors) ==> (k in lines <==> EntriesOn(stations[..i], k) != [])
      invariant forall k :: k in KnownLines(colors) ==> Get(lines, k) == EntriesOn(stations[..i], k)
    {
      assert stations[..i + 1][..i] == stations[..i];
      lines := AddStation(colors, lines, Entry(stations[i]), LineCodes(stations[i]));
    }
    assert stations[..|stations|] == stations;
  }

  /** Strictly increasing in Python's string order: sorted and free of duplicates. */
  ghost predicate StrictlySorted(xs: seq<string>) {
    forall i, j :: 0 <= i < j < |xs| ==> Below(xs[i], xs[j])
  }

  /** `x` placed into a strictly sorted list, unless it is already there. */
  function Insert(x: string, xs: seq<string>): (r: seq<string>)
    requires StrictlySorted(xs)
    ensures StrictlySorted(r) && ToSet(r) == ToSet(xs) + {x}
  {
    if xs == [] then [x]
    else if x == xs[0] then xs
    else if Below(x, xs[0]) then
      assert forall j :: 0 < j < |xs| ==> Below(x, xs[j]) by {
        forall j | 0 < j < |xs| ensures Below(x, xs[j]) {
          BelowTransitive(x, xs[0], xs[j]);
        }
      }
      [x] + xs
    else
      BelowTotal(x, xs[0]);
      var rest := Insert(x, xs[1..]);
      assert forall y :: y in rest ==> Below(xs[0], y) by {
        forall y | y in rest ensures Below(xs[0], y) {
          assert y in ToSet(rest);
          if y != x {
            var j :| 0 <= j < |xs[1..]| && xs[1..][j] == y;
            assert xs[j + 1] == y;
          }
        }
      }
      assert xs == [xs[0]] + xs[1..];
      assert ToSet([xs[0]] + rest) == {xs[0]} + ToSet(rest);
      assert ToSet(xs) == {xs[0]} + ToSet(xs[1..]);
      assert forall j :: 0 < j < |rest| + 1 ==> ([xs[0]] + rest)[j] == rest[j - 1];
      [xs[0]] + rest
  }

  lemma NoElements(xs: seq<string>)
    ensures xs == [] <==> ToSet(xs) == {}
  {
    if xs != [] {
      assert xs[0] in ToSet(xs);
    }
  }

  /** `sorted(set(xs))`. */
  function SortedSet(xs: seq<string>): (r: seq<string>)
    ensures StrictlySorted(r) && ToSet(r) == ToSet(xs)
  {
    if xs == [] then []
    else
      assert xs == [xs[0]] + xs[1..];
      Insert(xs[0], SortedSet(xs[1..]))
  }

  /**
   * A strictly sorted list is determined by its elements: `sorted(set(xs))`
   * is the one strictly increasing list holding exactly the elements of `xs`.
   */
  lemma {:induction false} SortedUnique(a: seq<string>, b: seq<string>)
    requires StrictlySorted(a) && StrictlySorted(b) && ToSet(a) == ToSet(b)
    ensures a == b
  {
    NoElements(a);
    NoElements(b);
    if a != [] && b != [] {
      assert a[0] in ToSet(b) && b[0] in ToSet(a);
      if a[0] != b[0] {
        var i :| 0 <= i < |b| && b[i] == a[0];
        var j :| 0 <= j < |a| && a[j] == b[0];
        BelowAsymmetric(a[0], a[j]);
      }
      forall y | y in ToSet(a[1..]) ensures y in ToSet(b[1..]) {
        var i :| 0 <= i < |a[1..]| && a[1..][i] == y;
        assert a[i + 1] == y;
        BelowIrreflexive(a[0]);
        assert y in ToSet(b);
        var j :| 0 <= j < |b| && b[j] == y;
        assert j > 0;
        assert b[1..][j - 1] == y;
      }
      forall y | y in ToSet(b[1..]) ensures y in ToSet(a[1..]) {
        var i :| 0 <= i < |b[1..]| && b[1..][i] == y;
        assert b[i + 1] == y;
        BelowIrreflexive(b[0]);
        assert y in ToSet(a);
        var j :| 0 <= j < |a| && a[j] == y;
        assert j > 0;
        assert a[1..][j - 1] == y;
      }
      SortedUnique(a[1..], b[1..]);
      assert a == [a[0]] + a[1..] && b == [b[0]] + b[1..];
    }
  }

  /** The order in which the lines are listed. */
  const LineOrder: seq<string> := ["RD", "OR", "SV", "BL", "YL", "GR"]

  /** One listed line: its code, its name and its entries as shown. */
  datatype Section = Section(code: string, name: string, entries: seq<string>)

  /**
   * The lines of `order` that have a list, each with its name from the
   * colour table and its list sorted without duplicates.
   */
  function Sections(colors: seq<(string, string)>, order: seq<string>, lines: map<string, seq<string>>): seq<Section>
    requires forall k :: k in lines ==> HasKey(colors, k)
  {
    if order == [] then []
    else
      var code := order[|order| - 1];
      Sections(colors, order[..|order| - 1], lines) +
        if code in lines then [Section(code, Lookup(colors, code).value, SortedSet(lines[code]))] else []
  }

  /** The directory as listed for the parsed station list. */
  function Listing(colors: seq<(string, string)>, stations: seq<StationRecord>): seq<Section> {
    GroupingKeys(colors, stations);
    Sections(colors, LineOrder, Grouping(colors, stations))
  }

  const Header: string := "🚇 **Metro Station Directory**\n\n"

  const Tips: string :=
    "💡 **Usage Tips:**\n" + "• Use station codes (like 'B03') or full names\n"
    + "• Major transfer stations connect multiple lines\n" + "• All stations are fully accessible"

  /** A bullet line per entry. */
  function ShowEntries(entries: seq<string>): string {
    if entries == [] then ""
    else ShowEntries(entries[..|entries| - 1]) + "• " + entries[|entries| - 1] + "\n"
  }

  /** A heading, the bullet lines and a blank line per section. */
  function ShowSections(sections: seq<Section>): string {
    if sections == [] then ""
    else
      var s := sections[|sections| - 1];
      ShowSections(sections[..|sections| - 1]) + ("**" + s.name + ":**\n" + ShowEntries(s.entries) + "\n")
  }

  /**
   * The rendering of `get_all_stations`: the header, each line of
   * LineOrder that has a list, then the usage tips.
   */
  method Render(colors: seq<(string, string)>, lines: map<string, seq<string>>) returns (result: string)
    requires forall k :: k in lines ==> HasKey(colors, k)
    ensures result == Header + ShowSections(Sections(colors, LineOrder, lines)) + Tips
  {
    result := AppendSections(Header, colors, LineOrder, lines);
    ghost var body := result;
    result := result + "💡 **Usage Tips:**\n";
    result := result + "• Use station codes (like 'B03') or full names\n";
    result := result + "• Major transfer stations connect multiple lines\n";
    result := result + "• All stations are fully accessible";
    assert result == body + Tips;
  }

  /** The loop over the line order: each line that has a list adds its section. */
  method AppendSections(prefix: string, colors: seq<(string, string)>, order: seq<string>, lines: map<string, seq<string>>)
    returns (result: string)
    requires forall k :: k in lines ==> HasKey(colors, k)
    ensures result == prefix + ShowSections(Sections(colors, order, lines))
  {
    result := prefix;
    for i := 0 to |order|
      invariant result == prefix + ShowSections(Sections(colors, order[..i], lines))
    {
      result := AppendLine(result, prefix, colors, order, lines, i);
    }
    assert order[..|order|] == order;
  }

  /** One turn of the loop over the line order: the section of `order[i]`, when that line has a list. */
  method AppendLine(result0: string, prefix: string, colors: seq<(string, string)>, order: seq<string>,
                    lines: map<string, seq<string>>, i: nat)
    returns (result: string)
    requires forall k :: k in lines ==> HasKey(colors, k)
    requires i < |order| && result0 == prefix + ShowSections(Sections(colors, order[..i], lines))
    ensures result == prefix + ShowSections(Sections(colors, order[..i + 1], lines))
  {
    SectionsStep(colors, order, lines, i);
    var code := order[i];
    if code in lines {
      var name := Lookup(colors, code).value;
      var list := SortedSet(lines[code]);
      var done := Sections(colors, order[..i], lines);
      ShowSectionsSnoc(done, Section(code, name, list));
      result := AppendSection(result0, name, list);
      assert result == prefix + (ShowSections(done) + ("**" + name + ":**\n" + ShowEntries(list) + "\n"));
    } else {
      assert Sections(colors, order[..i], lines) + [] == Sections(colors, order[..i], lines);
      result := result0;
    }
  }

  /** One more line of the order: its section, when it has a list, comes after the ones before it. */
  lemma SectionsStep(colors: seq<(string, string)>, order: seq<string>, lines: map<string, seq<string>>, i: nat)
    requires forall k :: k in lines ==> HasKey(colors, k)
    requires i < |order|
    ensures Sections(colors, order[..i + 1], lines) == Sections(colors, order[..i], lines) +
      if order[i] in lines then [Section(order[i], Lookup(colors, order[i]).value, SortedSet(lines[order[i]]))] else []
  {
    assert order[..i + 1][..i] == order[..i];
  }

  /** The rendering of one more section is appended to the rendering of those before it. */
  lemma ShowSectionsSnoc(done: seq<Section>, s: Section)
    ensures ShowSections(done + [s]) == ShowSections(done) + ("**" + s.name + ":**\n" + ShowEntries(s.entries) + "\n")
  {
    assert (done + [s])[..|done|] == done;
  }

  /** One section: its heading, its bullet lines, a blank line. */
  method AppendSection(prefix: string, name: string, list: seq<string>) returns (result: string)
    ensures result == prefix + ("**" + name + ":**\n" + ShowEntries(list) + "\n")
  {
    result := prefix + "**" + name + ":**\n";
    result := AppendEntries(result, list);
    result := result + "\n";
  }

  /** The bullet loop of one section: `result += f"• {station}\n"` for each entry. */
  method AppendEntries(prefix: string, list: seq<string>) returns (result: string)
    ensures result == prefix + ShowEntries(list)
  {
    result := prefix;
    for j := 0 to |list|
      invariant result == prefix + ShowEntries(list[..j])
    {
      assert list[..j + 1][..j] == list[..j];
      var line := "• " + list[j] + "\n";
      assert ShowEntries(list[..j + 1]) == ShowEntries(list[..j]) + line;
      result := result + line;
    }
    assert list[..|list|] == list;
  }

  /**
   * `get_all_stations()` on the parsed response: a message when the
   * request failed or the response has no station list, else the directory.
   */
  method GetAllStations(colors: seq<(string, string)>, response: Option<seq<StationRecord>>) returns (result: string)
    ensures response.None? ==> result == "❌ Unable to get station list."
    ensures response.Some? ==> result == Header + ShowSections(Listing(colors, response.value)) + Tips
  {
    if response.None? {
      return "❌ Unable to get station list.";
    }
    var lines := GroupByLine(colors, response.value);
    GroupingKeys(colors, response.value);
    result := Render(colors, lines);
  }

  /** Each section is a line of `order` that has a list, named from the colour table, listing that list sorted. */
  lemma {:induction false} SectionsFrom(colors: seq<(string, string)>, order: seq<string>, lines: map<string, seq<string>>, i: nat)
    requires forall k :: k in lines ==> HasKey(colors, k)
    requires i < |Sections(colors, order, lines)|
    ensures var s := Sections(colors, order, lines)[i];
      s.code in order && s.code in lines && Lookup(colors, s.code) == Some(s.name) && s.entries == SortedSet(lines[s.code])
  {
    var n := |order| - 1;
    var done := Sections(colors, order[..n], lines);
    if i < |done| {
      SectionsFrom(colors, order[..n], lines, i);
      assert Sections(colors, order, lines)[i] == done[i];
    }
  }

  /** Every line of `order` that has a list gets a section. */
  lemma {:induction false} SectionsCover(colors: seq<(string, string)>, order: seq<string>, lines: map<string, seq<string>>, a: nat)
    requires forall k :: k in lines ==> HasKey(colors, k)
    requires a < |order| && order[a] in lines
    ensures exists i :: 0 <= i < |Sections(colors, order, lines)| && Sections(colors, order, lines)[i].code == order[a]
  {
    var n := |order| - 1;
    var done := Sections(colors, order[..n], lines);
    var all := Sections(colors, order, lines);
    if a < n {
      SectionsCover(colors, order[..n], lines, a);
      var i :| 0 <= i < |done| && done[i].code == order[..n][a];
      assert all[i] == done[i];
    } else {
      assert all[|done|].code == order[a];
    }
  }

  /** The sections keep the order of `order`. */
  lemma {:induction false} SectionsInOrder(colors: seq<(string, string)>, order: seq<string>, lines: map<string, seq<string>>, i: nat, j: nat)
    requires forall k :: k in lines ==> HasKey(colors, k)
    requires i < j < |Sections(colors, order, lines)|
    ensures exists a, b ::
      0 <= a < b < |order| &&
      Sections(colors, order, lines)[i].code == order[a] && Sections(colors, order, lines)[j].code == order[b]
  {
    var n := |order| - 1;
    var done := Sections(colors, order[..n], lines);
    var all := Sections(colors, order, lines);
    assert all[i] == done[i];
    if j < |done| {
      SectionsInOrder(colors, order[..n], lines, i, j);
      assert all[j] == done[j];
      var a, b :| 0 <= a < b < n && done[i].code == order[..n][a] && done[j].code == order[..n][b];
      assert all[i].code == order[a] && all[j].code == order[b];
    } else {
      SectionsFrom(colors, order[..n], lines, i);
      var a :| 0 <= a < n && order[..n][a] == done[i].code;
      assert all[i].code == order[a] && all[j].code == order[n];
    }
  }

  /**
   * A listed line is a known line of the fixed order with its colour-table
   * name; its entries are strictly sorted (so free of duplicates), never
   * empty, and are exactly the entries of the stations with a field naming
   * that line.
   */
  lemma ListedLine(colors: seq<(string, string)>, stations: seq<StationRecord>, i: nat, x: string)
    requires i < |Listing(colors, stations)|
    ensures var s := Listing(colors, stations)[i];
      s.code in LineOrder && s.code in KnownLines(colors) && Lookup(colors, s.code) == Some(s.name) &&
      s.entries != [] && StrictlySorted(s.entries) &&
      (x in s.entries <==> exists j :: 0 <= j < |stations| && x == Entry(stations[j]) && Some(s.code) in LineCodes(stations[j]))
  {
    GroupingKeys(colors, stations);
    var lines := Grouping(colors, stations);
    SectionsFrom(colors, LineOrder, lines, i);
    var s := Listing(colors, stations)[i];
    EntriesOnMembers(stations, s.code, x);
    NoElements(s.entries);
    NoElements(lines[s.code]);
    assert x in s.entries <==> x in ToSet(s.entries);
    assert x in lines[s.code] <==> x in ToSet(lines[s.code]);
  }

  /** Every known line of the fixed order that some station names is listed. */
  lemma LineListed(colors: seq<(string, string)>, stations: seq<StationRecord>, a: nat, j: nat)
    requires a < |LineOrder| && LineOrder[a] in KnownLines(colors)
    requires j < |stations| && Some(LineOrder[a]) in LineCodes(stations[j])
    ensures exists i :: 0 <= i < |Listing(colors, stations)| && Listing(colors, stations)[i].code == LineOrder[a]
  {
    GroupingKeys(colors, stations);
    StationListed(colors, stations, LineOrder[a], j);
    var lines := Grouping(colors, stations);
    SectionsCover(colors, LineOrder, lines, a);
    var i :| 0 <= i < |Sections(colors, LineOrder, lines)| && Sections(colors, LineOrder, lines)[i].code == LineOrder[a];
    assert Listing(colors, stations)[i].code == LineOrder[a];
  }

  /** The listed lines come in the order RD, OR, SV, BL, YL, GR. */
  lemma ListingInOrder(colors: seq<(string, string)>, stations: seq<StationRecord>, i: nat, j: nat)
    requires i < j < |Listing(colors, stations)|
    ensures exists a, b ::
      0 <= a < b < |LineOrder| &&
      Listing(colors, stations)[i].code == LineOrder[a] && Listing(colors, stations)[j].code == LineOrder[b]
  {
    GroupingKeys(colors, stations);
    SectionsInOrder(colors, LineOrder, Grouping(colors, stations), i, j);
  }

  /** Every line of the fixed order is a key of LINE_COLORS. */
  lemma LineOrderKnown(a: nat)
    requires a < |LineOrder|
    ensures LineOrder[a] in KnownLines(LineColors)
  {
    assert LineOrder[a] != "";
    var i := [0, 3, 5, 1, 2, 4][a];
    assert LineColors[i].0 == LineOrder[a];
  }
}
