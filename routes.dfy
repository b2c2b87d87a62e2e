/**
 * The route heuristics of wmata.py: the precomputed COMMON_ROUTES table
 * consulted forwards and backwards (`find_simple_route`), the choice of a
 * single transfer station (`find_optimal_transfer_point`) and the 2- or
 * 3-step itinerary the station-to-station handler shows
 * (`build_optimal_route`).
 */
module Routes {
  import opened Wrappers
  import opened Tables

  /** The "action" tag of a step. */
  datatype Action = Start | Board | Transfer | TransferTo | Arrive

  /** What a step dict holds; `nextLine` is the "next_line" entry only `transfer_to` steps carry. */
  datatype RouteStep = RouteStep(station: string, name: string, line: string, action: Action, nextLine: Option<string>)

  /** The tag a step gets when its route is read backwards: start and arrive trade places. */
  function SwapAction(a: Action): Action {
    match a
    case Start => Arrive
    case Arrive => Start
    case _ => a
  }

  function Swapped(v: RouteStep): RouteStep {
    v.(action := SwapAction(v.action))
  }

  /** `list(reversed(xs))`. */
  function Reversed<T>(xs: seq<T>): (r: seq<T>)
    ensures |r| == |xs|
    ensures forall i :: 0 <= i < |xs| ==> r[i] == xs[|xs| - 1 - i]
  {
    if xs == [] then [] else Reversed(xs[1..]) + [xs[0]]
  }

  /** A route read backwards: the steps in reverse order, start and arrive swapped. */
  function ReverseRoute(vs: seq<RouteStep>): seq<RouteStep> {
    if vs == [] then [] else ReverseRoute(vs[1..]) + [Swapped(vs[0])]
  }

  /**
   * Reading a route backwards keeps its length; step `i` is step
   * `n - 1 - i` with only its tag swapped, and only start and arrive tags
   * change.
   */
  lemma {:induction false} ReverseRouteAt(vs: seq<RouteStep>)
    ensures |ReverseRoute(vs)| == |vs|
    ensures forall i :: 0 <= i < |vs| ==> ReverseRoute(vs)[i] == Swapped(vs[|vs| - 1 - i])
  {
    if vs != [] {
      ReverseRouteAt(vs[1..]);
    }
  }

  /** Reading a route backwards twice gives it back. */
  lemma ReverseRouteInvolutive(vs: seq<RouteStep>)
    ensures ReverseRoute(ReverseRoute(vs)) == vs
  {
    ReverseRouteAt(vs);
    ReverseRouteAt(ReverseRoute(vs));
    forall i | 0 <= i < |vs| ensures ReverseRoute(ReverseRoute(vs))[i] == vs[i] {
      assert SwapAction(SwapAction(vs[i].action)) == vs[i].action;
    }
  }

  /** Every route begins with a start step and ends with an arrive step, and has no others. */
  ghost predicate Shaped(vs: seq<RouteStep>) {
    |vs| >= 2 && vs[0].action == Start && vs[|vs| - 1].action == Arrive &&
    forall i :: 0 < i < |vs| - 1 ==> vs[i].action != Start && vs[i].action != Arrive
  }

  /** Reading a well-shaped route backwards gives a well-shaped route. */
  lemma ReverseKeepsShape(vs: seq<RouteStep>)
    requires Shaped(vs)
    ensures Shaped(ReverseRoute(vs))
  {
    ReverseRouteAt(vs);
    var r := ReverseRoute(vs);
    forall i | 0 < i < |r| - 1 ensures r[i].action != Start && r[i].action != Arrive {
      assert r[i] == Swapped(vs[|vs| - 1 - i]);
    }
  }

  /** A step dict stored in COMMON_ROUTES: a shared object whose "action" entry is reassigned in place. */
  class Step {
    const station: string
    const name: string
    const line: string
    var action: Action
    const nextLine: Option<string>

    constructor (v: RouteStep)
      ensures View() == v
    {
      station, name, line, action, nextLine := v.station, v.name, v.line, v.action, v.nextLine;
    }

    function View(): RouteStep
      reads this
    {
      RouteStep(station, name, line, action, nextLine)
    }
  }

  /** What a list of step dicts currently holds. */
  function Views(steps: seq<Step>): (r: seq<RouteStep>)
    reads steps
    ensures |r| == |steps|
    ensures forall i :: 0 <= i < |steps| ==> r[i] == steps[i].View()
  {
    if steps == [] then [] else [steps[0].View()] + Views(steps[1..])
  }

  /** The steps of a route are distinct dicts. */
  ghost predicate Distinct(steps: seq<Step>) {
    forall j, k :: 0 <= j < k < |steps| ==> steps[j] != steps[k]
  }

  /** The contents of COMMON_ROUTES, in source order. */
  const CommonRoutes: seq<((string, string), seq<RouteStep>)> := [
    (("B03", "C07"), [
      RouteStep("B03", "Union Station", "RD", Start, None),
      RouteStep("C01", "Metro Center", "RD", Transfer, None),
      RouteStep("C01", "Metro Center", "BL", Board, None),
      RouteStep("C07", "Pentagon", "BL", Arrive, None)]),
    (("A03", "C10"), [
      RouteStep("A03", "Dupont Circle", "RD", Start, None),
      RouteStep("C01", "Metro Center", "RD", Transfer, None),
      RouteStep("C01", "Metro Center", "BL", Board, None),
      RouteStep("C10", "Ronald Reagan Washington National Airport", "BL", Arrive, None)]),
    (("F01", "C05"), [
      RouteStep("F01", "Gallery Pl-Chinatown", "RD", Start, None),
      RouteStep("C01", "Metro Center", "RD", Transfer, None),
      RouteStep("C01", "Metro Center", "OR", Board, None),
      RouteStep("C05", "Rosslyn", "OR", Arrive, None)])
  ]

  /** A list literal of step dicts: one fresh dict per step. */
  method NewSteps(vs: seq<RouteStep>) returns (steps: seq<Step>)
    ensures Views(steps) == vs && Distinct(steps)
    ensures forall i :: 0 <= i < |steps| ==> fresh(steps[i])
  {
    steps := [];
    for i := 0 to |vs|
      invariant |steps| == i && Distinct(steps)
      invariant forall j :: 0 <= j < i ==> fresh(steps[j]) && steps[j].View() == vs[j]
    {
      var s := new Step(vs[i]);
      steps := steps + [s];
    }
  }

  /** The entries of a dict literal of route lists: the keys in order, each route as fresh, distinct dicts. */
  method NewEntries(routes: seq<((string, string), seq<RouteStep>)>) returns (es: seq<((string, string), seq<Step>)>)
    ensures |es| == |routes|
    ensures forall j :: 0 <= j < |routes| ==> es[j].0 == routes[j].0 && Views(es[j].1) == routes[j].1 && Distinct(es[j].1)
    ensures forall j, k :: 0 <= j < |es| && 0 <= k < |es[j].1| ==> fresh(es[j].1[k])
  {
    es := [];
    for i := 0 to |routes|
      invariant |es| == i
      invariant forall j :: 0 <= j < i ==> es[j].0 == routes[j].0 && Views(es[j].1) == routes[j].1 && Distinct(es[j].1)
      invariant forall j, k :: 0 <= j < i && 0 <= k < |es[j].1| ==> fresh(es[j].1[k])
    {
      var steps := NewSteps(routes[i].1);
      es := es + [(routes[i].0, steps)];
    }
  }

  /** COMMON_ROUTES: (from, to) to the list of step dicts stored for that pair. */
  class RouteTable {
    const entries: seq<((string, string), seq<Step>)>

    /** Every step dict the table holds. */
    ghost function Footprint(): set<Step> {
      set i, j | 0 <= i < |entries| && 0 <= j < |entries[i].1| :: entries[i].1[j]
    }

    ghost predicate Valid() {
      UniqueKeys(entries) && forall i :: 0 <= i < |entries| ==> Distinct(entries[i].1)
    }

    /** What the table currently holds, as values. */
    ghost function Contents(): seq<((string, string), seq<RouteStep>)>
      reads Footprint()
    {
      seq(|entries|, i requires 0 <= i < |entries| reads Footprint() => (entries[i].0, Views(entries[i].1)))
    }

    /** A dict literal of route lists: every step of every route is a fresh dict. */
    constructor (routes: seq<((string, string), seq<RouteStep>)>)
      requires UniqueKeys(routes)
      ensures Valid() && fresh(Footprint())
      ensures |entries| == |routes| && forall i :: 0 <= i < |routes| ==> entries[i].0 == routes[i].0
      ensures Contents() == routes
    {
      var es := NewEntries(routes);
      entries := es;
    }

    /**
     * `find_simple_route(from_code, to_code)`. A stored route is returned
     * as the list the table holds. A route stored the other way round is
     * returned reversed, and its start and arrive tags are swapped on the
     * very dicts the table holds, so the table itself changes. Otherwise two
     * fresh dicts on a common line, or None.
     */
    method FindSimpleRoute(stationLines: seq<(string, seq<string>)>, mapping: seq<(string, string)>, from: string, to: string)
      returns (r: Option<seq<Step>>)
      requires Valid()
      modifies Footprint()
      ensures HasKey(entries, (from, to)) ==> r == Lookup(entries, (from, to)) && unchanged(Footprint())
      ensures !HasKey(entries, (from, to)) && HasKey(entries, (to, from)) ==>
        var steps := Lookup(entries, (to, from)).value;
        r == Some(Reversed(steps)) && Views(r.value) == ReverseRoute(old(Views(steps))) &&
        forall s :: s in Footprint() ==> s.View() == if s in steps then Swapped(old(s.View())) else old(s.View())
      ensures !HasKey(entries, (from, to)) && !HasKey(entries, (to, from)) ==>
        unchanged(Footprint()) &&
        var common := LinesOf(stationLines, from) * LinesOf(stationLines, to);
        (r.Some? <==> common != {}) &&
        (r.Some? ==> |r.value| == 2 && fresh(r.value[0]) && fresh(r.value[1]) &&
                     Itinerary(mapping, stationLines, Views(r.value), from, to))
    {
      var forward := Lookup(entries, (from, to));
      if forward.Some? {
        return forward;
      }
      var backward := Lookup(entries, (to, from));
      if backward.Some? {
        var steps := backward.value;
        ghost var e :| 0 <= e < |entries| && entries[e] == ((to, from), steps);
        assert forall s :: s in steps ==> s in Footprint() by {
          forall s | s in steps ensures s in Footprint() {
            var k :| 0 <= k < |steps| && steps[k] == s;
            assert s == entries[e].1[k];
          }
        }
        var route := ReverseInPlace(steps);
        return Some(route);
      }
      r := DirectSteps(stationLines, mapping, from, to);
    }

    /**
     * `find_simple_route` with the reverse branch building fresh dicts, so
     * that reading a stored route backwards leaves the table as it was.
     */
    method FindSimpleRouteFresh(stationLines: seq<(string, seq<string>)>, mapping: seq<(string, string)>, from: string, to: string)
      returns (r: Option<seq<Step>>)
      requires Valid()
      ensures unchanged(Footprint())
      ensures HasKey(entries, (from, to)) ==> r == Lookup(entries, (from, to))
      ensures !HasKey(entries, (from, to)) && HasKey(entries, (to, from)) ==>
        r.Some? && (forall i :: 0 <= i < |r.value| ==> fresh(r.value[i])) &&
        Views(r.value) == ReverseRoute(Views(Lookup(entries, (to, from)).value))
      ensures !HasKey(entries, (from, to)) && !HasKey(entries, (to, from)) ==>
        var common := LinesOf(stationLines, from) * LinesOf(stationLines, to);
        (r.Some? <==> common != {}) &&
        (r.Some? ==> |r.value| == 2 && fresh(r.value[0]) && fresh(r.value[1]) &&
                     Itinerary(mapping, stationLines, Views(r.value), from, to))
    {
      var forward := Lookup(entries, (from, to));
      if forward.Some? {
        return forward;
      }
      var backward := Lookup(entries, (to, from));
      if backward.Some? {
        var copy := NewSteps(ReverseRoute(Views(backward.value)));
        return Some(copy);
      }
      r := DirectSteps(stationLines, mapping, from, to);
    }
  }

  /**
   * The reverse branch of `find_simple_route`: the stored list reversed,
   * with the start and arrive tags swapped on the stored dicts themselves.
   */
  method ReverseInPlace(steps: seq<Step>) returns (route: seq<Step>)
    requires Distinct(steps)
    modifies set s | s in steps
    ensures route == Reversed(steps)
    ensures Views(route) == ReverseRoute(old(Views(steps)))
    ensures forall s :: s in steps ==> s.View() == Swapped(old(s.View()))
  {
    route := Reversed(steps);
    ReversedDistinct(steps);
    ViewsReversed(steps);
    ReverseRouteSplit(Views(steps));
    assert forall s :: s in route <==> s in steps by {
      forall s | s in steps ensures s in route {
        var k :| 0 <= k < |steps| && steps[k] == s;
        assert route[|steps| - 1 - k] == s;
      }
    }
    SwapEnds(route);
  }

  /** The same-line branch: two fresh dicts on a line serving both ends, or None when there is none. */
  method DirectSteps(stationLines: seq<(string, seq<string>)>, mapping: seq<(string, string)>, from: string, to: string)
    returns (r: Option<seq<Step>>)
    ensures var common := LinesOf(stationLines, from) * LinesOf(stationLines, to);
      (r.Some? <==> common != {}) &&
      (r.Some? ==> |r.value| == 2 && fresh(r.value[0]) && fresh(r.value[1]) &&
                   Itinerary(mapping, stationLines, Views(r.value), from, to))
  {
    var common := LinesOf(stationLines, from) * LinesOf(stationLines, to);
    if common != {} {
      var line :| line in common;
      var route := DirectRoute(mapping, from, to, line);
      DirectRouteIsItinerary(mapping, stationLines, from, to, line);
      var a := new Step(route[0]);
      var b := new Step(route[1]);
      assert Views([a, b]) == route;
      return Some([a, b]);
    }
    return None;
  }

  /**
   * The loop of the reverse branch: every start tag becomes arrive and
   * every arrive tag becomes start, in place, on the dicts of `route`.
   */
  method SwapEnds(route: seq<Step>)
    requires Distinct(route)
    modifies set s | s in route
    ensures Views(route) == SwapAll(old(Views(route)))
  {
    ghost var before := Views(route);
    for i := 0 to |route|
      invariant forall k :: 0 <= k < i ==> route[k].View() == Swapped(before[k])
      invariant forall k :: i <= k < |route| ==> route[k].View() == before[k]
    {
      var step := route[i];
      if step.action == Start {
        step.action := Arrive;
      } else if step.action == Arrive {
        step.action := Start;
      }
    }
  }

  /** Every tag swapped, the order kept. */
  function SwapAll(vs: seq<RouteStep>): (r: seq<RouteStep>)
    ensures |r| == |vs| && forall i :: 0 <= i < |vs| ==> r[i] == Swapped(vs[i])
  {
    if vs == [] then [] else [Swapped(vs[0])] + SwapAll(vs[1..])
  }

  /** Reading a route backwards is reversing it and then swapping its tags. */
  lemma ReverseRouteSplit(vs: seq<RouteStep>)
    ensures ReverseRoute(vs) == SwapAll(Reversed(vs))
  {
    ReverseRouteAt(vs);
  }

  lemma ViewsReversed(steps: seq<Step>)
    ensures Views(Reversed(steps)) == Reversed(Views(steps))
  {
  }

  /** Reversing a list of distinct dicts keeps them distinct. */
  lemma ReversedDistinct(steps: seq<Step>)
    requires Distinct(steps)
    ensures Distinct(Reversed(steps))
  {
    var r := Reversed(steps);
    forall j, k | 0 <= j < k < |r| ensures r[j] != r[k] {
      assert r[j] == steps[|steps| - 1 - j] && r[k] == steps[|steps| - 1 - k];
    }
  }

  /**
   * A route as the planner builds it: well shaped, from `from` to `to`;
   * each step named by the reverse name lookup of its station, on a line
   * that serves that station; a `next_line` exactly on transfer steps, one
   * that also serves the station; and each step rides on the line the
   * previous one leaves on.
   */
  ghost predicate Itinerary(mapping: seq<(string, string)>, stationLines: seq<(string, seq<string>)>, vs: seq<RouteStep>, from: string, to: string) {
    Shaped(vs) && vs[0].station == from && vs[|vs| - 1].station == to &&
    (forall i :: 0 <= i < |vs| ==>
      vs[i].name == KeyOf(mapping, vs[i].station, vs[i].station) &&
      vs[i].line in LinesOf(stationLines, vs[i].station) &&
      (vs[i].nextLine.Some? <==> vs[i].action == TransferTo) &&
      (vs[i].nextLine.Some? ==> vs[i].nextLine.value in LinesOf(stationLines, vs[i].station))) &&
    forall i :: 0 <= i < |vs| - 1 ==> vs[i + 1].line == vs[i].nextLine.GetOr(vs[i].line)
  }

  /** The two-step route both same-line branches build: start at from, arrive at to, both on `line`. */
  function DirectRoute(mapping: seq<(string, string)>, from: string, to: string, line: string): seq<RouteStep> {
    [RouteStep(from, KeyOf(mapping, from, from), line, Start, None),
     RouteStep(to, KeyOf(mapping, to, to), line, Arrive, None)]
  }

  /** A line common to both ends makes the direct route an itinerary. */
  lemma DirectRouteIsItinerary(mapping: seq<(string, string)>, stationLines: seq<(string, seq<string>)>, from: string, to: string, line: string)
    requires line in LinesOf(stationLines, from) * LinesOf(stationLines, to)
    ensures Itinerary(mapping, stationLines, DirectRoute(mapping, from, to, line), from, to)
  {
    var vs := DirectRoute(mapping, from, to, line);
    assert vs[0].station == from && vs[1].station == to;
  }

  /** Every stored route, and so every stored route read backwards, is well shaped. */
  lemma CommonRoutesShaped(i: nat)
    requires i < |CommonRoutes|
    ensures Shaped(CommonRoutes[i].1) && Shaped(ReverseRoute(CommonRoutes[i].1))
  {
    ReverseKeepsShape(CommonRoutes[i].1);
  }

  /** What the scenarios below use of COMMON_ROUTES: its first key, that key's first tag, and no key the other way round. */
  lemma CommonRoutesFirst()
    ensures UniqueKeys(CommonRoutes) && CommonRoutes[0].0 == ("B03", "C07")
    ensures CommonRoutes[0].1 != [] && CommonRoutes[0].1[0].action == Start
    ensures !HasKey(CommonRoutes, ("C07", "B03"))
  {
  }

  /**
   * Asking for `(b, a)` and then for `(a, b)` when only `(a, b)` is stored:
   * the second answer is the stored list, whose first step the first query
   * re-tagged.
   */
  method QueryBothWays(table: RouteTable, a: string, b: string) returns (first: Action)
    requires table.Valid() && HasKey(table.entries, (a, b)) && !HasKey(table.entries, (b, a))
    requires Lookup(table.entries, (a, b)).value != []
    modifies table.Footprint()
    ensures first == SwapAction(old(Lookup(table.entries, (a, b)).value[0].action))
  {
    ghost var stored := Lookup(table.entries, (a, b)).value;
    ghost var e :| 0 <= e < |table.entries| && table.entries[e] == ((a, b), stored);
    assert stored[0] == table.entries[e].1[0];
    assert stored[0] in table.Footprint();
    var back := table.FindSimpleRoute([], [], b, a);
    var again := table.FindSimpleRoute([], [], a, b);
    first := again.value[0].action;
  }

  /** The same two queries against the copying variant: the stored first step keeps its tag. */
  method QueryBothWaysFresh(table: RouteTable, a: string, b: string) returns (first: Action)
    requires table.Valid() && HasKey(table.entries, (a, b)) && !HasKey(table.entries, (b, a))
    requires Lookup(table.entries, (a, b)).value != []
    ensures first == Lookup(table.entries, (a, b)).value[0].action
  {
    var back := table.FindSimpleRouteFresh([], [], b, a);
    var again := table.FindSimpleRouteFresh([], [], a, b);
    first := again.value[0].action;
  }

  /**
   * Asking for Pentagon to Union Station and then for Union Station to
   * Pentagon: the second answer is the stored route, whose first step the
   * first query re-tagged as an arrival.
   */
  method ReverseThenForward() returns (first: Action)
    ensures first == Arrive
  {
    CommonRoutesFirst();
    var table := new RouteTable(CommonRoutes);
    StoredFirst(table);
    first := QueryBothWays(table, "B03", "C07");
  }

  /** The same two queries against the copying variant: the stored route still begins with its start step. */
  method ReverseThenForwardFresh() returns (first: Action)
    ensures first == Start
  {
    CommonRoutesFirst();
    var table := new RouteTable(CommonRoutes);
    StoredFirst(table);
    first := QueryBothWaysFresh(table, "B03", "C07");
  }

  /** A table built from COMMON_ROUTES holds its first route under its first key, tagged start, and no reversed key. */
  lemma StoredFirst(table: RouteTable)
    requires table.Valid() && table.Contents() == CommonRoutes
    requires |table.entries| == |CommonRoutes| && forall i :: 0 <= i < |CommonRoutes| ==> table.entries[i].0 == CommonRoutes[i].0
    ensures HasKey(table.entries, ("B03", "C07")) && !HasKey(table.entries, ("C07", "B03"))
    ensures Lookup(table.entries, ("B03", "C07")).value != []
    ensures Lookup(table.entries, ("B03", "C07")).value[0].action == Start
  {
    CommonRoutesFirst();
    LookupUnique(table.entries, 0);
    assert table.Contents()[0] == (table.entries[0].0, Views(table.entries[0].1));
    assert Views(table.entries[0].1)[0] == table.entries[0].1[0].View();
  }
}
