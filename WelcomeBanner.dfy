/**
 * The greeting of components/WelcomeBanner.tsx. The hour comes from
 * `new Date().getHours()` and is a parameter, between 0 and 23.
 */
module WelcomeBanner {
  import opened Outcomes

  /** `getGreeting` */
  function Greeting(hour: int): (g: string)
    ensures hour < 12 ==> g == "Good morning"
    ensures 12 <= hour < 18 ==> g == "Good afternoon"
    ensures hour >= 18 ==> g == "Good evening"
  {
    if hour < 12 then "Good morning"
    else if hour < 18 then "Good afternoon"
    else "Good evening"
  }

  /** `user.name || 'there'` */
  function GreetedName(name: Option<string>): (n: string)
    ensures n != ""
    ensures name.Some? && name.value != "" ==> n == name.value
    ensures name.None? || name.value == "" ==> n == "there"
  {
    if name.Some? && name.value != "" then name.value else "there"
  }

  /** Every hour of the day gets exactly one of the three greetings. */
  lemma GreetingCoversDay(hour: int)
    requires 0 <= hour <= 23
    ensures Greeting(hour) in {"Good morning", "Good afternoon", "Good evening"}
    ensures (Greeting(hour) == "Good morning") == (hour <= 11)
    ensures (Greeting(hour) == "Good evening") == (hour >= 18)
  {
  }
}
