/**
 * The weather advice rule (weather_services.py, `_generate_suggestion`):
 * one sentence chosen by a temperature ladder, then at most one sentence
 * chosen by the sky condition, joined with a space.
 *
 * The temperature is the reported value in degrees Celsius, as a real
 * number; the condition is the `main` field of the first weather entry.
 */
module Weather {
  import opened Common
  import opened Text

  /** The rung of the temperature ladder a reading falls on. */
  datatype Band = Hot | Warm | Mild | Cold | Freezing

  /** The sky condition a suggestion may mention. */
  datatype Sky = Rain | Snow | Cloud | Clear

  /** Strict thresholds, tried from the top: above 30, 20, 10, 0. */
  function BandOf(temp: real): Band
  {
    if temp > 30.0 then Hot
    else if temp > 20.0 then Warm
    else if temp > 10.0 then Mild
    else if temp > 0.0 then Cold
    else Freezing
  }

  /** Position on the ladder, from the coldest rung (0) up. */
  function Rank(b: Band): (n: nat)
    ensures n <= 4
  {
    match b
    case Freezing => 0
    case Cold => 1
    case Mild => 2
    case Warm => 3
    case Hot => 4
  }

  /** The condition named in the lower-cased condition text, rain first,
      then snow, then cloud, then clear or sun; none when it names none. */
  function SkyOf(condition: string): Option<Sky>
  {
    var c := Lower(condition);
    if Contains(c, "rain") then Some(Rain)
    else if Contains(c, "snow") then Some(Snow)
    else if Contains(c, "cloud") then Some(Cloud)
    else if Contains(c, "clear") || Contains(c, "sun") then Some(Clear)
    else None
  }

  function BandSentence(b: Band): string
  {
    match b
    case Hot => "It's quite hot! Stay hydrated and consider indoor activities."
    case Warm => "Perfect weather for outdoor activities!"
    case Mild => "Pleasant weather, but bring a light jacket."
    case Cold => "It's cold! Dress warmly."
    case Freezing => "It's freezing! Bundle up and stay warm."
  }

  function SkySentence(s: Sky): string
  {
    match s
    case Rain => "Don't forget your umbrella!"
    case Snow => "Snow expected! Drive carefully."
    case Cloud => "Cloudy skies today."
    case Clear => "Clear skies ahead!"
  }

  /** The sentences the rule picks: the temperature one, then the sky one
      when the condition names a sky. */
  function Sentences(condition: string, temp: real): (ss: seq<string>)
  {
    [BandSentence(BandOf(temp))]
    + match SkyOf(condition) { case None => [] case Some(s) => [SkySentence(s)] }
  }

  /** `_generate_suggestion`. */
  method GenerateSuggestion(condition: string, temp: real) returns (suggestion: string)
    ensures suggestion == Join(Sentences(condition, temp), " ")
  {
    var c := Lower(condition);
    var suggestions: seq<string>;
    if temp > 30.0 {
      suggestions := [BandSentence(Hot)];
    } else if temp > 20.0 {
      suggestions := [BandSentence(Warm)];
    } else if temp > 10.0 {
      suggestions := [BandSentence(Mild)];
    } else if temp > 0.0 {
      suggestions := [BandSentence(Cold)];
    } else {
      suggestions := [BandSentence(Freezing)];
    }
    assert suggestions == [BandSentence(BandOf(temp))];
    if Contains(c, "rain") {
      suggestions := suggestions + [SkySentence(Rain)];
    } else if Contains(c, "snow") {
      suggestions := suggestions + [SkySentence(Snow)];
    } else if Contains(c, "cloud") {
      suggestions := suggestions + [SkySentence(Cloud)];
    } else if Contains(c, "clear") || Contains(c, "sun") {
      suggestions := suggestions + [SkySentence(Clear)];
    }
    suggestion := Join(suggestions, " ");
  }

  // ---------------------------------------------------------------------
  // Properties

  /** Each rung holds exactly the readings between its thresholds. */
  lemma BandThresholds(temp: real)
    ensures BandOf(temp) == Hot <==> temp > 30.0
    ensures BandOf(temp) == Warm <==> 20.0 < temp <= 30.0
    ensures BandOf(temp) == Mild <==> 10.0 < temp <= 20.0
    ensures BandOf(temp) == Cold <==> 0.0 < temp <= 10.0
    ensures BandOf(temp) == Freezing <==> temp <= 0.0
  {
  }

  /** A warmer reading never lands on a colder rung. */
  lemma BandMonotone(t1: real, t2: real)
    requires t1 <= t2
    ensures Rank(BandOf(t1)) <= Rank(BandOf(t2))
  {
  }

  /** The precedence rain > snow > cloud > clear/sun, and no sentence when
      the condition names none of them. */
  lemma SkyPrecedence(condition: string)
    ensures var c := Lower(condition);
      && (SkyOf(condition) == Some(Rain) <==> Contains(c, "rain"))
      && (SkyOf(condition) == Some(Snow) <==> !Contains(c, "rain") && Contains(c, "snow"))
      && (SkyOf(condition) == Some(Cloud) <==>
            !Contains(c, "rain") && !Contains(c, "snow") && Contains(c, "cloud"))
      && (SkyOf(condition) == Some(Clear) <==>
            !Contains(c, "rain") && !Contains(c, "snow") && !Contains(c, "cloud")
            && (Contains(c, "clear") || Contains(c, "sun")))
      && (SkyOf(condition).None? <==>
            !Contains(c, "rain") && !Contains(c, "snow") && !Contains(c, "cloud")
            && !Contains(c, "clear") && !Contains(c, "sun"))
  {
  }

  /** Matching ignores the case of the condition. */
  lemma SkyIgnoresCase(condition: string)
    ensures SkyOf(Lower(condition)) == SkyOf(condition)
  {
    LowerIdempotent(condition);
  }

  /** The suggestion is the temperature sentence alone, or followed by one
      space and the sky sentence. */
  lemma SuggestionShape(condition: string, temp: real)
    ensures var text := Join(Sentences(condition, temp), " ");
      && (SkyOf(condition).None? ==> text == BandSentence(BandOf(temp)))
      && (SkyOf(condition).Some? ==>
            text == BandSentence(BandOf(temp)) + " " + SkySentence(SkyOf(condition).value))
  {
    var ss := Sentences(condition, temp);
    if SkyOf(condition).Some? {
      assert |ss| == 2 && ss[1..] == [SkySentence(SkyOf(condition).value)];
    }
  }
}
