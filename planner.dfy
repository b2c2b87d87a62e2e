/**
 * `find_optimal_transfer_point` and `build_optimal_route`: the itinerary the
 * station-to-station handler shows. Stations sharing a line get a direct
 * two-step route; otherwise one transfer station is chosen among the
 * STATION_LINES entries that serve a line of each end, preferring stations
 * that are not one of the three major hubs.
 */
module Planner {
  import opened Wrappers
  import opened Tables
  import opened Routes

  /** `major_hubs`: Metro Center, Gallery Place and L'Enfant Plaza. */
  const MajorHubs: set<string> := {"C01", "F01", "F03"}

  /** A station with these lines connects to both an origin line and a destination line. */
  predicate Connects(lines: seq<string>, fromLines: set<string>, toLines: set<string>) {
    ToSet(lines) * fromLines != {} && ToSet(lines) * toLines != {}
  }

  /** `transfer_candidates`: the keys of the table whose lines connect, in table order. */
  function Candidates(entries: seq<(string, seq<string>)>, fromLines: set<string>, toLines: set<string>): seq<string> {
    if entries == [] then []
    else
      var rest := Candidates(entries[1..], fromLines, toLines);
      if Connects(entries[0].1, fromLines, toLines) then [entries[0].0] + rest else rest
  }

  /** `x` is the key of an entry whose lines connect. */
  predicate Connecting(entries: seq<(string, seq<string>)>, x: string, fromLines: set<string>, toLines: set<string>) {
    exists j :: 0 <= j < |entries| && entries[j].0 == x && Connects(entries[j].1, fromLines, toLines)
  }

  /** Every candidate is the key of an entry whose lines connect. */
  lemma {:induction false} CandidatesConnect(entries: seq<(string, seq<string>)>, fromLines: set<string>, toLines: set<string>)
    ensures forall k :: 0 <= k < |Candidates(entries, fromLines, toLines)| ==>
      Connecting(entries, Candidates(entries, fromLines, toLines)[k], fromLines, toLines)
  {
    if entries != [] {
      CandidatesConnect(entries[1..], fromLines, toLines);
      var rest := Candidates(entries[1..], fromLines, toLines);
      var cs := Candidates(entries, fromLines, toLines);
      var skip := if Connects(entries[0].1, fromLines, toLines) then 1 else 0;
      assert skip == 1 ==> cs == [entries[0].0] + rest;
      assert skip == 0 ==> cs == rest;
      forall k | 0 <= k < |cs| ensures Connecting(entries, cs[k], fromLines, toLines) {
        if k < skip {
          assert entries[0].0 == cs[k];
        } else {
          assert cs[k] == rest[k - skip];
          assert Connecting(entries[1..], rest[k - skip], fromLines, toLines);
          var j :| 0 <= j < |entries[1..]| && entries[1..][j].0 == rest[k - skip] && Connects(entries[1..][j].1, fromLines, toLines);
          assert entries[j + 1] == entries[1..][j];
        }
      }
    } else {
      assert Candidates(entries, fromLines, toLines) == [];
    }
  }

  /** There are no candidates exactly when no entry connects. */
  lemma {:induction false} NoCandidatesIff(entries: seq<(string, seq<string>)>, fromLines: set<string>, toLines: set<string>)
    ensures Candidates(entries, fromLines, toLines) == [] <==>
      forall j :: 0 <= j < |entries| ==> !Connects(entries[j].1, fromLines, toLines)
  {
    if entries != [] {
      NoCandidatesIff(entries[1..], fromLines, toLines);
      forall j | 0 <= j < |entries[1..]| ensures entries[1..][j] == entries[j + 1] {}
    }
  }

  /** The first candidate that is not a major hub, if any. */
  function FirstNonHub(cs: seq<string>): (r: Option<string>)
    ensures r.None? <==> forall i :: 0 <= i < |cs| ==> cs[i] in MajorHubs
    ensures r.Some? ==> r.value in cs && r.value !in MajorHubs
  {
    if cs == [] then None
    else if cs[0] !in MajorHubs then Some(cs[0])
    else
      var r := FirstNonHub(cs[1..]);
      assert (forall i :: 0 <= i < |cs| ==> cs[i] in MajorHubs) <==> forall i :: 0 <= i < |cs[1..]| ==> cs[1..][i] in MajorHubs by {
        forall i | 0 <= i < |cs[1..]| ensures cs[1..][i] == cs[i + 1] {}
      }
      r
  }

  /**
   * What `find_optimal_transfer_point(from_code, to_code)` returns: None
   * when the two ends share a line, else the first non-hub candidate,
   * else the first candidate, else None.
   */
  function TransferPoint(stationLines: seq<(string, seq<string>)>, from: string, to: string): Option<string> {
    var fromLines := LinesOf(stationLines, from);
    var toLines := LinesOf(stationLines, to);
    if fromLines * toLines != {} then None
    else
      var cs := Candidates(stationLines, fromLines, toLines);
      match FirstNonHub(cs)
      case Some(c) => Some(c)
      case None => if cs == [] then None else Some(cs[0])
  }

  /** `find_optimal_transfer_point(from_code, to_code)`: collect the candidates, then scan them for a non-hub. */
  method FindOptimalTransferPoint(stationLines: seq<(string, seq<string>)>, from: string, to: string) returns (r: Option<string>)
    ensures r == TransferPoint(stationLines, from, to)
  {
    var fromLines := LinesOf(stationLines, from);
    var toLines := LinesOf(stationLines, to);
    if fromLines * toLines != {} {
      return None;
    }
    var candidates := CollectCandidates(stationLines, fromLines, toLines);
    for k := 0 to |candidates|
      invariant FirstNonHub(candidates[k..]) == FirstNonHub(candidates)
    {
      assert candidates[k..][1..] == candidates[k + 1..];
      if candidates[k] !in MajorHubs {
        return Some(candidates[k]);
      }
    }
    if candidates != [] {
      return Some(candidates[0]);
    }
    return None;
  }

  /** The candidate-collecting loop: every entry whose lines connect, appended in table order. */
  method CollectCandidates(entries: seq<(string, seq<string>)>, fromLines: set<string>, toLines: set<string>) returns (candidates: seq<string>)
    ensures candidates == Candidates(entries, fromLines, toLines)
  {
    candidates := [];
    for i := 0 to |entries|
      invariant candidates + Candidates(entries[i..], fromLines, toLines) == Candidates(entries, fromLines, toLines)
    {
      assert entries[i..][1..] == entries[i + 1..];
      if Connects(entries[i].1, fromLines, toLines) {
        candidates := candidates + [entries[i].0];
      }
    }
  }

  /** Stations that share a line need no transfer. */
  lemma SharedLineNoTransfer(stationLines: seq<(string, seq<string>)>, from: string, to: string)
    requires LinesOf(stationLines, from) * LinesOf(stationLines, to) != {}
    ensures TransferPoint(stationLines, from, to) == None
  {
  }

  /**
   * The chosen station is an entry of the table whose own lines serve a
   * line of the origin and a line of the destination.
   */
  lemma TransferConnects(stationLines: seq<(string, seq<string>)>, from: string, to: string)
    requires TransferPoint(stationLines, from, to).Some?
    ensures exists j ::
      0 <= j < |stationLines| && stationLines[j].0 == TransferPoint(stationLines, from, to).value &&
      Connects(stationLines[j].1, LinesOf(stationLines, from), LinesOf(stationLines, to))
  {
    var fromLines := LinesOf(stationLines, from);
    var toLines := LinesOf(stationLines, to);
    var cs := Candidates(stationLines, fromLines, toLines);
    var t := TransferPoint(stationLines, from, to).value;
    CandidatesConnect(stationLines, fromLines, toLines);
    var k :| 0 <= k < |cs| && cs[k] == t;
    assert Connecting(stationLines, cs[k], fromLines, toLines);
  }

  /** In a dict, the transfer station's own line set is looked up from the entry that made it a candidate. */
  lemma TransferLines(stationLines: seq<(string, seq<string>)>, from: string, to: string)
    requires UniqueKeys(stationLines) && TransferPoint(stationLines, from, to).Some?
    ensures var t := TransferPoint(stationLines, from, to).value;
      LinesOf(stationLines, from) * LinesOf(stationLines, t) != {} &&
      LinesOf(stationLines, to) * LinesOf(stationLines, t) != {}
  {
    TransferConnects(stationLines, from, to);
    var t := TransferPoint(stationLines, from, to).value;
    var j :| 0 <= j < |stationLines| && stationLines[j].0 == t &&
      Connects(stationLines[j].1, LinesOf(stationLines, from), LinesOf(stationLines, to));
    LookupUnique(stationLines, j);
  }

  /** No transfer is found exactly when the ends share a line or no entry connects them. */
  lemma NoTransferIff(stationLines: seq<(string, seq<string>)>, from: string, to: string)
    ensures TransferPoint(stationLines, from, to).None? <==>
      LinesOf(stationLines, from) * LinesOf(stationLines, to) != {} ||
      forall j :: 0 <= j < |stationLines| ==> !Connects(stationLines[j].1, LinesOf(stationLines, from), LinesOf(stationLines, to))
  {
    NoCandidatesIff(stationLines, LinesOf(stationLines, from), LinesOf(stationLines, to));
  }

  /**
   * When some connecting entry is not a hub, the answer is the first such
   * entry in table order, whatever hubs come before it.
   */
  lemma {:induction false} FirstNonHubChosen(entries: seq<(string, seq<string>)>, fromLines: set<string>, toLines: set<string>, i: nat)
    requires i < |entries| && entries[i].0 !in MajorHubs && Connects(entries[i].1, fromLines, toLines)
    requires forall j :: 0 <= j < i ==> entries[j].0 in MajorHubs || !Connects(entries[j].1, fromLines, toLines)
    ensures FirstNonHub(Candidates(entries, fromLines, toLines)) == Some(entries[i].0)
  {
    if i > 0 {
      FirstNonHubChosen(entries[1..], fromLines, toLines, i - 1);
    }
  }

  /** With no connecting non-hub, the answer is the first connecting entry. */
  lemma {:induction false} FirstCandidate(entries: seq<(string, seq<string>)>, fromLines: set<string>, toLines: set<string>, i: nat)
    requires i < |entries| && Connects(entries[i].1, fromLines, toLines)
    requires forall j :: 0 <= j < i ==> !Connects(entries[j].1, fromLines, toLines)
    ensures Candidates(entries, fromLines, toLines) != [] && Candidates(entries, fromLines, toLines)[0] == entries[i].0
  {
    if i > 0 {
      FirstCandidate(entries[1..], fromLines, toLines, i - 1);
    }
  }

  /** The transfer station preferred: the first connecting entry that is not a hub. */
  lemma NonHubPreferred(stationLines: seq<(string, seq<string>)>, from: string, to: string, i: nat)
    requires LinesOf(stationLines, from) * LinesOf(stationLines, to) == {}
    requires i < |stationLines| && stationLines[i].0 !in MajorHubs
    requires Connects(stationLines[i].1, LinesOf(stationLines, from), LinesOf(stationLines, to))
    requires forall j :: 0 <= j < i ==>
      stationLines[j].0 in MajorHubs || !Connects(stationLines[j].1, LinesOf(stationLines, from), LinesOf(stationLines, to))
    ensures TransferPoint(stationLines, from, to) == Some(stationLines[i].0)
  {
    FirstNonHubChosen(stationLines, LinesOf(stationLines, from), LinesOf(stationLines, to), i);
  }

  /** When every connecting entry is a hub, the first of them is the transfer station. */
  lemma HubFallback(stationLines: seq<(string, seq<string>)>, from: string, to: string, i: nat)
    requires LinesOf(stationLines, from) * LinesOf(stationLines, to) == {}
    requires forall j :: 0 <= j < |stationLines| && Connects(stationLines[j].1, LinesOf(stationLines, from), LinesOf(stationLines, to)) ==>
      stationLines[j].0 in MajorHubs
    requires i < |stationLines| && Connects(stationLines[i].1, LinesOf(stationLines, from), LinesOf(stationLines, to))
    requires forall j :: 0 <= j < i ==> !Connects(stationLines[j].1, LinesOf(stationLines, from), LinesOf(stationLines, to))
    ensures TransferPoint(stationLines, from, to) == Some(stationLines[i].0)
  {
    var fromLines := LinesOf(stationLines, from);
    var toLines := LinesOf(stationLines, to);
    var cs := Candidates(stationLines, fromLines, toLines);
    FirstCandidate(stationLines, fromLines, toLines, i);
    CandidatesConnect(stationLines, fromLines, toLines);
    forall k | 0 <= k < |cs| ensures cs[k] in MajorHubs {
      assert Connecting(stationLines, cs[k], fromLines, toLines);
      var j :| 0 <= j < |stationLines| && stationLines[j].0 == cs[k] && Connects(stationLines[j].1, fromLines, toLines);
    }
  }

  /**
   * `build_optimal_route(from_code, to_code)`: a direct two-step route when
   * the ends share a line; otherwise a three-step route changing lines at
   * the transfer station, when there is one; otherwise None.
   */
  method BuildOptimalRoute(mapping: seq<(string, string)>, stationLines: seq<(string, seq<string>)>, from: string, to: string)
    returns (r: Option<seq<RouteStep>>)
    requires UniqueKeys(stationLines)
    ensures r.Some? ==> Itinerary(mapping, stationLines, r.value, from, to)
    ensures LinesOf(stationLines, from) * LinesOf(stationLines, to) != {} ==> r.Some? && |r.value| == 2
    ensures LinesOf(stationLines, from) * LinesOf(stationLines, to) == {} ==>
      var t := TransferPoint(stationLines, from, to);
      (r.Some? <==> t.Some? && t.value != "") &&
      (r.Some? ==> |r.value| == 3 && r.value[1].station == t.value &&
                   r.value[1].action == TransferTo && r.value[1].nextLine == Some(r.value[2].line))
  {
    var fromLines := LinesOf(stationLines, from);
    var toLines := LinesOf(stationLines, to);
    var common := fromLines * toLines;
    if common != {} {
      var line :| line in common;
      DirectRouteIsItinerary(mapping, stationLines, from, to, line);
      return Some(DirectRoute(mapping, from, to, line));
    }
    var transfer := FindOptimalTransferPoint(stationLines, from, to);
    if transfer.Some? && transfer.value != "" {
      var t := transfer.value;
      TransferLines(stationLines, from, to);
      var transferLines := LinesOf(stationLines, t);
      var firstLine :| firstLine in fromLines * transferLines;
      var secondLine :| secondLine in toLines * transferLines;
      TransferRouteIsItinerary(mapping, stationLines, from, t, to, firstLine, secondLine);
      return Some(TransferRoute(mapping, from, t, to, firstLine, secondLine));
    }
    return None;
  }

  /** The three-step route: start on `first`, change at `t` to `second`, arrive on `second`. */
  function TransferRoute(mapping: seq<(string, string)>, from: string, t: string, to: string, first: string, second: string): seq<RouteStep> {
    [RouteStep(from, KeyOf(mapping, from, from), first, Start, None),
     RouteStep(t, KeyOf(mapping, t, t), first, TransferTo, Some(second)),
     RouteStep(to, KeyOf(mapping, to, to), second, Arrive, None)]
  }

  /** Lines shared with the transfer station on each side make the transfer route an itinerary. */
  lemma TransferRouteIsItinerary(mapping: seq<(string, string)>, stationLines: seq<(string, seq<string>)>,
                                 from: string, t: string, to: string, first: string, second: string)
    requires first in LinesOf(stationLines, from) * LinesOf(stationLines, t)
    requires second in LinesOf(stationLines, to) * LinesOf(stationLines, t)
    ensures Itinerary(mapping, stationLines, TransferRoute(mapping, from, t, to, first, second), from, to)
  {
    var vs := TransferRoute(mapping, from, t, to, first, second);
    assert vs[0].station == from && vs[1].station == t && vs[2].station == to;
  }
}
