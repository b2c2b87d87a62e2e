/**
 * `format_train_prediction`: one record of the live-arrivals feed becomes
 * one display line `🚇 {line} to {destination} - {time} ({cars} cars)`.
 * Missing fields and unknown line codes fall back to text, never to an
 * error.
 */
module Prediction {
  import opened Wrappers
  import opened Text
  import opened Tables

  /** One element of the feed's `Trains` list; a field the record lacks is `None`. */
  datatype Train = Train(line: Option<string>, destinationName: Option<string>, min: Option<string>, car: Option<string>)

  /** `LINE_COLORS.get(train.get("Line", ""), train.get("Line", "Unknown"))`. */
  function LineShown(line: Option<string>): string {
    match Lookup(LineColors, line.GetOr(""))
    case Some(name) => name
    case None => line.GetOr("Unknown")
  }

  /** The time part: the two sentinels get words, anything else is shown verbatim before "minutes". */
  function TimeShown(min: Option<string>): string {
    if min == Some("ARR") then "Arriving now"
    else if min == Some("BRD") then "Boarding"
    else min.GetOr("Unknown") + " minutes"
  }

  /** The template `f"🚇 {line} to {destination} - {time_info} ({cars} cars)"`. */
  function Layout(line: string, destination: string, time: string, cars: string): string {
    "🚇 " + line + " to " + destination + " - " + time + " (" + cars + " cars)"
  }

  /** `format_train_prediction(train)`. */
  function FormatTrainPrediction(t: Train): string {
    Layout(LineShown(t.line), t.destinationName.GetOr("Unknown"), TimeShown(t.min), t.car.GetOr("Unknown"))
  }

  lemma NoEmptyLineCode() ensures Lookup(LineColors, "").None? { LookupAbsent(LineColors, ""); }

  /** A known line code is shown as the line's name, at the head of the display line. */
  lemma KnownLineNamed(t: Train, i: nat)
    requires i < |LineColors| && t.line == Some(LineColors[i].0)
    ensures IsPrefix("🚇 " + LineColors[i].1, FormatTrainPrediction(t))
  {
    LineColorsUnique();
    LookupUnique(LineColors, i);
    assert LineShown(t.line) == LineColors[i].1;
    HeadIsPrefix(t);
  }

  lemma LineColorsUnique() ensures UniqueKeys(LineColors) {}

  /** A line code that is not in LINE_COLORS is passed through unchanged; an absent one reads "Unknown". */
  lemma OtherLineShownAsIs(t: Train)
    requires t.line.None? || !HasKey(LineColors, t.line.value)
    ensures IsPrefix("🚇 " + t.line.GetOr("Unknown"), FormatTrainPrediction(t))
  {
    NoEmptyLineCode();
    assert LineShown(t.line) == t.line.GetOr("Unknown");
    HeadIsPrefix(t);
  }

  /** The parts of the template, grouped so that each can be located in it. */
  lemma Pieces(line: string, destination: string, time: string, cars: string)
    ensures Layout(line, destination, time, cars) ==
      "🚇 " + line + (" to " + destination + " - ") + time + (" (" + cars + " cars)")
  {
  }

  /** The display line starts with the emoji and the line shown. */
  lemma HeadIsPrefix(t: Train)
    ensures IsPrefix("🚇 " + LineShown(t.line), FormatTrainPrediction(t))
  {
    HeadLocated(LineShown(t.line), t.destinationName.GetOr("Unknown"), TimeShown(t.min), t.car.GetOr("Unknown"));
  }

  /** The template starts with the emoji and the line. */
  lemma HeadLocated(line: string, destination: string, time: string, cars: string)
    ensures IsPrefix("🚇 " + line, Layout(line, destination, time, cars))
  {
    var rest := (" to " + destination + " - ") + time + (" (" + cars + " cars)");
    Pieces(line, destination, time, cars);
    assert Layout(line, destination, time, cars) == ("🚇 " + line) + rest;
    PrefixOfConcat("🚇 " + line, rest);
  }

  /** The time part stands in its slot: after the last " - ", right before the car count that ends the line. */
  lemma TimeLocated(line: string, destination: string, time: string, cars: string)
    ensures IsSuffix(" - " + time + " (" + cars + " cars)", Layout(line, destination, time, cars))
  {
    var head := "🚇 " + line + " to " + destination;
    var tail := " - " + time + " (" + cars + " cars)";
    assert Layout(line, destination, time, cars) == head + tail;
    assert (head + tail)[|head + tail| - |tail|..] == tail;
  }

  /** A minutes count fills the time slot followed by " minutes". */
  lemma MinutesLocated(line: string, destination: string, minutes: string, cars: string)
    ensures IsSuffix(" - " + minutes + " minutes" + " (" + cars + " cars)", Layout(line, destination, minutes + " minutes", cars))
  {
    var head := "🚇 " + line + " to " + destination;
    var tail := " - " + minutes + " minutes" + " (" + cars + " cars)";
    assert Layout(line, destination, minutes + " minutes", cars) == head + tail;
    assert (head + tail)[|head + tail| - |tail|..] == tail;
  }

  /** " to {destination} - " occurs in the display line. */
  lemma DestinationLocated(line: string, destination: string, time: string, cars: string)
    ensures Contains(Layout(line, destination, time, cars), " to " + destination + " - ")
  {
    var p := " to " + destination + " - ";
    Pieces(line, destination, time, cars);
    assert Layout(line, destination, time, cars) == ("🚇 " + line) + p + (time + (" (" + cars + " cars)"));
    ContainsMiddle("🚇 " + line, p, time + (" (" + cars + " cars)"));
  }

  /** The display line ends with " ({cars} cars)". */
  lemma CarsLocated(line: string, destination: string, time: string, cars: string)
    ensures IsSuffix(" (" + cars + " cars)", Layout(line, destination, time, cars))
  {
    var head := "🚇 " + line + (" to " + destination + " - ") + time;
    var tail := " (" + cars + " cars)";
    Pieces(line, destination, time, cars);
    assert (head + tail)[|head + tail| - |tail|..] == tail;
  }

  /** "ARR" reads "Arriving now", in the time slot. */
  lemma ArrivingNow(t: Train)
    requires t.min == Some("ARR")
    ensures IsSuffix(" - " + "Arriving now" + " (" + t.car.GetOr("Unknown") + " cars)", FormatTrainPrediction(t))
  {
    TimeLocated(LineShown(t.line), t.destinationName.GetOr("Unknown"), TimeShown(t.min), t.car.GetOr("Unknown"));
  }

  /** "BRD" reads "Boarding", in the time slot. */
  lemma Boarding(t: Train)
    requires t.min == Some("BRD")
    ensures IsSuffix(" - " + "Boarding" + " (" + t.car.GetOr("Unknown") + " cars)", FormatTrainPrediction(t))
  {
    TimeLocated(LineShown(t.line), t.destinationName.GetOr("Unknown"), TimeShown(t.min), t.car.GetOr("Unknown"));
  }

  /** Any other value, with no numeric check, fills the time slot verbatim followed by " minutes"; an absent one as "Unknown". */
  lemma MinutesVerbatim(t: Train)
    requires t.min != Some("ARR") && t.min != Some("BRD")
    ensures IsSuffix(" - " + t.min.GetOr("Unknown") + " minutes" + " (" + t.car.GetOr("Unknown") + " cars)", FormatTrainPrediction(t))
  {
    MinutesLocated(LineShown(t.line), t.destinationName.GetOr("Unknown"), t.min.GetOr("Unknown"), t.car.GetOr("Unknown"));
  }

  /** The destination, or "Unknown" when the record has none, stands between " to " and " - ". */
  lemma DestinationShown(t: Train)
    ensures Contains(FormatTrainPrediction(t), " to " + t.destinationName.GetOr("Unknown") + " - ")
  {
    DestinationLocated(LineShown(t.line), t.destinationName.GetOr("Unknown"), TimeShown(t.min), t.car.GetOr("Unknown"));
  }

  /** The line ends with the car count, or "Unknown" when the record has none. */
  lemma CarsAtTheEnd(t: Train)
    ensures IsSuffix(" (" + t.car.GetOr("Unknown") + " cars)", FormatTrainPrediction(t))
  {
    CarsLocated(LineShown(t.line), t.destinationName.GetOr("Unknown"), TimeShown(t.min), t.car.GetOr("Unknown"));
  }
}
