/** The daily briefing's greeting: the hour of the day picks morning, afternoon or evening. */
module Briefing {
  import Greetings

  /** Which part of the day an hour falls in: before noon, before five o'clock, or later. */
  function PartOfDay(hour: int): (part: string)
    ensures part in {"morning", "afternoon", "evening"}
    ensures part == "morning" <==> hour < 12
    ensures part == "afternoon" <==> 12 <= hour < 17
    ensures part == "evening" <==> 17 <= hour
  {
    if hour < 12 then "morning"
    else if hour < 17 then "afternoon"
    else "evening"
  }

  /**
   * The greeting printed at start-up for `name` at `hour` (the clock's hour, 0 to 23).
   * Exactly one of the three thresholds applies.
   */
  function HourGreeting(name: string, hour: int): (greeting: string)
    ensures hour < 12 ==> greeting == "Good morning, " + name + "!"
    ensures 12 <= hour < 17 ==> greeting == "Good afternoon, " + name + "!"
    ensures 17 <= hour ==> greeting == "Good evening, " + name + "!"
  {
    if hour < 12 then "Good morning, " + name + "!"
    else if hour < 17 then "Good afternoon, " + name + "!"
    else "Good evening, " + name + "!"
  }

  /**
   * The script's own if/elif chain and the greetings module agree: greeting by hour is
   * greeting by the part of the day that hour falls in.
   */
  lemma HourGreetingAgreesWithModule(name: string, hour: int)
    ensures HourGreeting(name, hour) == Greetings.GetGreeting(name, PartOfDay(hour))
  {
  }

  /** The three greetings are distinct, so the greeting determines the part of the day. */
  lemma HourGreetingDeterminesPart(name: string, h1: int, h2: int)
    ensures HourGreeting(name, h1) == HourGreeting(name, h2) <==> PartOfDay(h1) == PartOfDay(h2)
  {
    var m, a, e := "Good morning, " + name + "!", "Good afternoon, " + name + "!", "Good evening, " + name + "!";
    assert m[5] == 'm' && a[5] == 'a' && e[5] == 'e';
  }
}
