/** The greetings helper module: a time-of-day key selects a greeting for a name. */
module Greetings {

  /** The greeting table that `get_greeting` builds for `name`, one entry per known key. */
  function GreetingsMap(name: string): (m: map<string, string>)
    ensures m.Keys == {"morning", "afternoon", "evening", "day"}
  {
    map[
      "morning" := "Good morning, " + name + "!",
      "afternoon" := "Good afternoon, " + name + "!",
      "evening" := "Good evening, " + name + "!",
      "day" := "Hello, " + name + "!"
    ]
  }

  /** The default key used when the caller gives no time of day. */
  const DefaultTimeOfDay: string := "day"

  /**
   * The greeting for `name` at `timeOfDay`: looked up in the table, with "Hello, <name>!"
   * for any key the table does not hold. Total: every key gives a greeting that ends
   * with the name and an exclamation mark.
   */
  function GetGreeting(name: string, timeOfDay: string): (r: string)
    ensures timeOfDay == "morning" ==> r == "Good morning, " + name + "!"
    ensures timeOfDay == "afternoon" ==> r == "Good afternoon, " + name + "!"
    ensures timeOfDay == "evening" ==> r == "Good evening, " + name + "!"
    ensures timeOfDay == DefaultTimeOfDay ==> r == "Hello, " + name + "!"
    ensures timeOfDay !in {"morning", "afternoon", "evening", "day"} ==> r == "Hello, " + name + "!"
    ensures |r| > |name| && r[|r| - |name| - 1..] == name + "!"
  {
    var greetings := GreetingsMap(name);
    var fallback := "Hello, " + name + "!";
    if timeOfDay in greetings then greetings[timeOfDay] else fallback
  }

  /** An unknown key falls back to exactly the greeting of the default key "day". */
  lemma UnknownKeyIsDefault(name: string, timeOfDay: string)
    requires timeOfDay !in GreetingsMap(name)
    ensures GetGreeting(name, timeOfDay) == GetGreeting(name, DefaultTimeOfDay)
  {
  }
}
