/**
 * The condition classifier behind `getWeatherIcon`: a free-text condition
 * ("Rain, Partially cloudy") is lower-cased and tested for keywords in a fixed
 * order; the first keyword found picks the icon. The model returns the icon's
 * tag instead of the rendered icon.
 */
module Conditions {
  import opened JsText

  datatype ConditionTag = Rain | Snow | Fog | Cloudy | Thunderstorm | Clear

  /** Position of a tag in the order the classifier tests them; Clear, the fallback, is last. */
  function Rank(t: ConditionTag): nat {
    match t
    case Rain => 0
    case Snow => 1
    case Fog => 2
    case Cloudy => 3
    case Thunderstorm => 4
    case Clear => 5
  }

  /** The keywords that select each tag; the fallback has none. */
  function Keywords(t: ConditionTag): seq<string> {
    match t
    case Rain => ["rain"]
    case Snow => ["snow"]
    case Fog => ["fog", "haze"]
    case Cloudy => ["cloud"]
    case Thunderstorm => ["thunder", "storm"]
    case Clear => []
  }

  /** Some word of `words` occurs in `text`. */
  predicate ContainsAny(text: string, words: seq<string>) {
    words != [] && (Contains(text, words[0]) || ContainsAny(text, words[1..]))
  }

  /** Some keyword of `t` occurs in `text`. */
  predicate Mentions(text: string, t: ConditionTag) {
    ContainsAny(text, Keywords(t))
  }

  /** What Mentions means for each tag, spelt out as the tests on the keywords. */
  lemma MentionsSpelledOut(text: string)
    ensures Mentions(text, Rain) <==> Contains(text, "rain")
    ensures Mentions(text, Snow) <==> Contains(text, "snow")
    ensures Mentions(text, Fog) <==> Contains(text, "fog") || Contains(text, "haze")
    ensures Mentions(text, Cloudy) <==> Contains(text, "cloud")
    ensures Mentions(text, Thunderstorm) <==> Contains(text, "thunder") || Contains(text, "storm")
    ensures !Mentions(text, Clear)
  {
    assert !ContainsAny(text, []);
    assert ["rain"][1..] == [] && ["snow"][1..] == [] && ["cloud"][1..] == [];
    assert ["haze"][1..] == [] && ["storm"][1..] == [];
    assert ["fog", "haze"][1..] == ["haze"] && ["thunder", "storm"][1..] == ["storm"];
    assert ContainsAny(text, ["rain"]) == Contains(text, "rain");
    assert ContainsAny(text, ["snow"]) == Contains(text, "snow");
    assert ContainsAny(text, ["cloud"]) == Contains(text, "cloud");
    assert ContainsAny(text, ["haze"]) == Contains(text, "haze");
    assert ContainsAny(text, ["storm"]) == Contains(text, "storm");
    assert ContainsAny(text, ["fog", "haze"]) == (Contains(text, "fog") || ContainsAny(text, ["haze"]));
    assert ContainsAny(text, ["thunder", "storm"]) == (Contains(text, "thunder") || ContainsAny(text, ["storm"]));
  }

  /**
   * The decision `getWeatherIcon` makes. The result is the first tag, in the
   * order Rain, Snow, Fog, Cloudy, Thunderstorm, whose keyword occurs in the
   * lower-cased text, and Clear when none does.
   */
  function Classify(conditions: string): (tag: ConditionTag)
    ensures tag != Clear ==> Mentions(ToLower(conditions), tag)
    ensures forall t :: Rank(t) < Rank(tag) ==> !Mentions(ToLower(conditions), t)
  {
    var condition := ToLower(conditions);
    MentionsSpelledOut(condition);
    if Contains(condition, "rain") then Rain
    else if Contains(condition, "snow") then Snow
    else if Contains(condition, "fog") || Contains(condition, "haze") then Fog
    else if Contains(condition, "cloud") then Cloudy
    else if Contains(condition, "thunder") || Contains(condition, "storm") then Thunderstorm
    else Clear
  }

  /** The order in which the rules are tried. */
  const Priority: seq<ConditionTag> := [Rain, Snow, Fog, Cloudy, Thunderstorm]

  /** An ordered-rule evaluator: the first tag of `order` that `text` mentions, else Clear. */
  function FirstMatch(order: seq<ConditionTag>, text: string): ConditionTag {
    if order == [] then Clear
    else if Mentions(text, order[0]) then order[0]
    else FirstMatch(order[1..], text)
  }

  /** The chain of tests is the ordered rule list Priority, evaluated first-match-wins. */
  lemma ClassifyIsFirstMatch(conditions: string)
    ensures Classify(conditions) == FirstMatch(Priority, ToLower(conditions))
  {
    var text := ToLower(conditions);
    MentionsSpelledOut(text);
    assert Priority[1..] == [Snow, Fog, Cloudy, Thunderstorm];
    assert [Snow, Fog, Cloudy, Thunderstorm][1..] == [Fog, Cloudy, Thunderstorm];
    assert [Fog, Cloudy, Thunderstorm][1..] == [Cloudy, Thunderstorm];
    assert [Cloudy, Thunderstorm][1..] == [Thunderstorm];
    assert [Thunderstorm][1..] == [];
    assert FirstMatch([Thunderstorm], text) == if Mentions(text, Thunderstorm) then Thunderstorm else Clear;
    assert FirstMatch([Cloudy, Thunderstorm], text)
      == if Mentions(text, Cloudy) then Cloudy else FirstMatch([Thunderstorm], text);
    assert FirstMatch([Fog, Cloudy, Thunderstorm], text)
      == if Mentions(text, Fog) then Fog else FirstMatch([Cloudy, Thunderstorm], text);
    assert FirstMatch([Snow, Fog, Cloudy, Thunderstorm], text)
      == if Mentions(text, Snow) then Snow else FirstMatch([Fog, Cloudy, Thunderstorm], text);
  }

  /** Classify's contract determines its result: no other tag satisfies it. */
  lemma ClassifyUnique(conditions: string, tag: ConditionTag)
    requires tag != Clear ==> Mentions(ToLower(conditions), tag)
    requires forall t :: Rank(t) < Rank(tag) ==> !Mentions(ToLower(conditions), t)
    ensures tag == Classify(conditions)
  {
    var c := Classify(conditions);
    assert Rank(tag) <= Rank(c) by {
      if tag != Clear { assert Mentions(ToLower(conditions), tag); }
    }
    assert Rank(c) <= Rank(tag) by {
      if c != Clear { assert Mentions(ToLower(conditions), c); }
    }
  }

  /** "rain" in any letter case anywhere in the text wins over every other keyword. */
  lemma RainWinsInAnyCase(conditions: string, i: nat)
    requires i + 4 <= |conditions| && ToLower(conditions[i..i + 4]) == "rain"
    ensures Classify(conditions) == Rain
  {
    ToLowerSlice(conditions, i, i + 4);
    ContainsAt(ToLower(conditions), "rain", i);
  }

  /** Clear is chosen exactly when no keyword of any tag occurs. */
  lemma ClearIffNoKeyword(conditions: string)
    ensures Classify(conditions) == Clear <==> forall t :: !Mentions(ToLower(conditions), t)
  {
    if Classify(conditions) == Clear {
      forall t ensures !Mentions(ToLower(conditions), t) {
        if t != Clear { assert Rank(t) < Rank(Clear); }
      }
    } else {
      assert Mentions(ToLower(conditions), Classify(conditions));
    }
  }

  /** An empty condition text shows the default, never an error. */
  lemma EmptyIsClear()
    ensures Classify("") == Clear
  {
    assert ToLower("") == "";
  }

  /** Letter case does not matter: the text and its lower-cased form get the same tag. */
  lemma ClassifyIgnoresCase(conditions: string)
    ensures Classify(ToLower(conditions)) == Classify(conditions)
  {
    ToLowerIdempotent(conditions);
  }

  /** Two texts that lower-case alike always get the same tag. */
  lemma SameLowerSameTag(a: string, b: string)
    requires ToLower(a) == ToLower(b)
    ensures Classify(a) == Classify(b)
  {
  }

  /** Fog, haze and cloud are tested before thunder and storm. */
  lemma CloudOutranksThunder(conditions: string)
    requires var lower := ToLower(conditions);
      Contains(lower, "fog") || Contains(lower, "haze") || Contains(lower, "cloud")
    ensures Classify(conditions) != Thunderstorm
  {
    var lower := ToLower(conditions);
    if Contains(lower, "cloud") {
      assert Mentions(lower, Cloudy);
    } else {
      assert Mentions(lower, Fog);
    }
  }

  /** A provider text that mentions clouds after its first comma still shows rain. */
  lemma RainAndCloudExample()
    ensures Classify("Rain, Partially cloudy") == Rain
  {
    RainWinsInAnyCase("Rain, Partially cloudy", 0);
  }
}
