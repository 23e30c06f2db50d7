/** The dispatcher's three string tests for a topic filter, against the
    level-by-level rule of section 4.7.1 of MQTT 3.1.1. */
module TopicFilters {
  import opened TopicTokens

  function Levels(s: string): seq<string> {
    Split(s, '/')
  }

  /** Topic names on the wire carry no wildcard (section 3.3.2.1 of MQTT 3.1.1). */
  predicate WildcardFree(topic: string) {
    '+' !in topic && '#' !in topic
  }

  /** `+` and `#` fill a whole level, and `#` only the last one (section 4.7.1). */
  predicate WellFormedFilter(filter: string) {
    && filter != ""
    && var levels := Levels(filter);
       forall i :: 0 <= i < |levels| ==>
         && ('+' in levels[i] ==> levels[i] == "+")
         && ('#' in levels[i] ==> levels[i] == "#" && i == |levels| - 1)
  }

  /** The rule of section 4.7.1: `#` stands for its parent and every level below,
      `+` for exactly one level, anything else for itself. */
  predicate LevelsMatch(filter: seq<string>, topic: seq<string>) {
    if filter == [] then topic == []
    else if filter[0] == "#" then true
    else
      && topic != []
      && (filter[0] == "+" || filter[0] == topic[0])
      && LevelsMatch(filter[1..], topic[1..])
  }

  predicate Matches(filter: string, topic: string) {
    LevelsMatch(Levels(filter), Levels(topic))
  }

  // ---- The code's three tests ----

  predicate ExactHit(filter: string, topic: string) {
    filter == topic
  }

  predicate HashHit(filter: string, topic: string)
    requires filter != ""
  {
    filter[|filter| - 1] == '#' && filter[..|filter| - 1] <= topic
  }

  predicate PlusHit(filter: string, topic: string) {
    '+' in filter && LevelwiseEqual(Levels(filter), Levels(topic))
  }

  predicate LevelwiseEqual(filter: seq<string>, topic: seq<string>) {
    |filter| == |topic| && forall i :: 0 <= i < |filter| ==> filter[i] == "+" || filter[i] == topic[i]
  }

  /** How many times the handler of `filter` is called for one message on `topic`. */
  function HitCount(filter: string, topic: string): nat
    requires filter != ""
  {
    (if ExactHit(filter, topic) then 1 else 0) +
    (if HashHit(filter, topic) then 1 else 0) +
    (if PlusHit(filter, topic) then 1 else 0)
  }

  /** The iterator pair of the `+` branch, with its early exit. */
  method CompareLevels(filter: seq<string>, topic: seq<string>) returns (match_: bool)
    requires |filter| == |topic|
    ensures match_ <==> LevelwiseEqual(filter, topic)
  {
    match_ := true;
    var i := 0;
    while i < |filter|
      invariant 0 <= i <= |filter|
      invariant match_
      invariant forall k :: 0 <= k < i ==> filter[k] == "+" || filter[k] == topic[k]
    {
      if filter[i] != "+" && filter[i] != topic[i] {
        match_ := false;
        break;
      }
      i := i + 1;
    }
  }

  /** One round of the dispatch loop: the number of handler calls it makes. */
  method CountHits(filter: string, topic: string) returns (calls: nat)
    requires filter != ""
    ensures calls == HitCount(filter, topic)
    ensures WildcardFree(topic) ==> calls <= 1
  {
    calls := 0;
    if filter == topic {
      calls := calls + 1;
    }
    var sz := |filter| - 1;
    if filter[sz] == '#' && filter[..sz] <= topic {
      calls := calls + 1;
    }
    if '+' in filter {
      var vect1 := TokenizeTopic(topic);
      var vect2 := TokenizeTopic(filter);
      if |vect1| == |vect2| {
        var match_ := CompareLevels(vect2, vect1);
        if match_ {
          calls := calls + 1;
        }
      }
    }
    if WildcardFree(topic) {
      AtMostOneHit(filter, topic);
    }
  }

  // ---- The branches exclude each other ----

  lemma HashHitHoldsNoPlus(filter: string, topic: string)
    requires filter != "" && WildcardFree(topic) && HashHit(filter, topic)
    ensures '+' !in filter
  {
    forall i | 0 <= i < |filter| ensures filter[i] != '+' {
      if i < |filter| - 1 {
        assert filter[i] == topic[i];
      }
    }
  }

  /** Whatever the filter, a wildcard-free topic takes at most one of the three branches. */
  lemma AtMostOneHit(filter: string, topic: string)
    requires filter != "" && WildcardFree(topic)
    ensures HitCount(filter, topic) <= 1
  {
    if HashHit(filter, topic) {
      HashHitHoldsNoPlus(filter, topic);
    }
  }

  // ---- Level lists and strings ----

  /** A filter without `#` matches exactly when the code's levelwise test holds. */
  lemma {:induction false} NoHashMatch(filter: seq<string>, topic: seq<string>)
    requires "#" !in filter
    ensures LevelsMatch(filter, topic) <==> LevelwiseEqual(filter, topic)
  {
    if filter != [] && topic != [] {
      NoHashMatch(filter[1..], topic[1..]);
      assert LevelwiseEqual(filter, topic) <==>
        (filter[0] == "+" || filter[0] == topic[0]) && LevelwiseEqual(filter[1..], topic[1..]) by {
        if LevelwiseEqual(filter[1..], topic[1..]) {
          assert forall i :: 1 <= i < |filter| ==> filter[i] == filter[1..][i - 1] && topic[i] == topic[1..][i - 1];
        }
      }
    }
  }

  /** Literal levels followed by `#` match exactly the topics below or at those levels. */
  lemma {:induction false} HashMatch(stem: seq<string>, topic: seq<string>)
    requires "+" !in stem && "#" !in stem
    ensures LevelsMatch(stem + ["#"], topic) <==> stem <= topic
  {
    if stem != [] {
      assert (stem + ["#"])[1..] == stem[1..] + ["#"];
      if topic != [] {
        HashMatch(stem[1..], topic[1..]);
        assert stem <= topic <==> stem[0] == topic[0] && stem[1..] <= topic[1..] by {
          assert stem == [stem[0]] + stem[1..] && topic == [topic[0]] + topic[1..];
        }
      }
    }
  }

  /** The text before `#`: every stem level followed by a slash. */
  function StemText(stem: seq<string>): string {
    if stem == [] then "" else stem[0] + "/" + StemText(stem[1..])
  }

  lemma {:induction false} JoinStem(stem: seq<string>)
    ensures Join(stem + ["#"], '/') == StemText(stem) + "#"
    ensures stem != [] ==> StemText(stem) == Join(stem, '/') + "/"
  {
    if stem != [] {
      JoinStem(stem[1..]);
      assert (stem + ["#"])[1..] == stem[1..] + ["#"];
    }
  }

  lemma {:induction false} PrefixGivesLevels(stem: seq<string>, topic: string)
    requires forall i :: 0 <= i < |stem| ==> '/' !in stem[i]
    requires StemText(stem) <= topic
    ensures |stem| < |Levels(topic)| && stem <= Levels(topic)
  {
    if stem != [] {
      var head, text := stem[0], StemText(stem);
      var rest := topic[|head| + 1..];
      assert topic == text + topic[|text|..];
      assert topic == head + "/" + rest;
      assert rest == StemText(stem[1..]) + topic[|text|..];
      SplitOfCons(head, '/', rest);
      PrefixGivesLevels(stem[1..], rest);
      assert stem == [head] + stem[1..];
    }
  }

  lemma {:induction false} LevelsGivePrefix(stem: seq<string>, topic: string)
    requires |stem| < |Levels(topic)| && stem <= Levels(topic)
    ensures StemText(stem) <= topic
  {
    if stem != [] {
      var levels := Levels(topic);
      JoinOfSplit(topic, '/');
      TokensAreClean(topic, '/');
      var rest := Join(levels[1..], '/');
      SplitOfJoin(levels[1..], '/');
      assert stem[1..] <= levels[1..];
      LevelsGivePrefix(stem[1..], rest);
      assert topic == stem[0] + "/" + rest;
      assert topic == StemText(stem) + rest[|StemText(stem[1..])|..];
    }
  }

  /** The string prefix test sees levels: the stem is a proper prefix of the topic's levels. */
  lemma PrefixSeesLevels(stem: seq<string>, topic: string)
    requires forall i :: 0 <= i < |stem| ==> '/' !in stem[i]
    ensures StemText(stem) <= topic <==> |stem| < |Levels(topic)| && stem <= Levels(topic)
  {
    if StemText(stem) <= topic {
      PrefixGivesLevels(stem, topic);
    }
    if |stem| < |Levels(topic)| && stem <= Levels(topic) {
      LevelsGivePrefix(stem, topic);
    }
  }

  /** Only the stem itself joins to a text whose levels are the stem. */
  lemma JoinIsTheOnly(stem: seq<string>, topic: string)
    requires |stem| > 0 && forall i :: 0 <= i < |stem| ==> '/' !in stem[i]
    ensures topic == Join(stem, '/') <==> Levels(topic) == stem
  {
    SplitOfJoin(stem, '/');
    JoinOfSplit(topic, '/');
  }

  // ---- Where the code and the standard part ----

  predicate EndsWithSlashHash(filter: string) {
    |filter| >= 2 && filter[|filter| - 2..] == "/#"
  }

  lemma SlashHashHoldsHash(filter: string)
    requires EndsWithSlashHash(filter)
    ensures '#' in filter
  {
    assert filter[|filter| - 1] == "/#"[1];
  }

  /** `topic` is the level that the filter's trailing `/#` hangs from. */
  predicate HashParent(filter: string, topic: string) {
    EndsWithSlashHash(filter) && filter[..|filter| - 2] == topic
  }

  predicate MixesWildcards(filter: string) {
    '+' in filter && '#' in filter
  }

  /** A character that is nowhere in the text is not a level of it either. */
  lemma NoLoneLevel(s: string, c: char)
    requires c != '/' && c !in s
    ensures [c] !in Levels(s)
  {
    TokenCharacters(s, '/', c);
    var levels := Levels(s);
    assert forall i :: 0 <= i < |levels| ==> c !in levels[i];
    assert c in [c];
  }

  /** A well-formed filter that holds `#` is a `#`-free stem followed by a last level `#`. */
  lemma HashShape(filter: string) returns (stem: seq<string>)
    requires WellFormedFilter(filter) && '#' in filter
    ensures Levels(filter) == stem + ["#"] && "#" !in stem
    ensures filter == StemText(stem) + "#"
    ensures forall i :: 0 <= i < |stem| ==> '/' !in stem[i]
    ensures EndsWithSlashHash(filter) <==> stem != []
    ensures stem != [] ==> filter[..|filter| - 2] == Join(stem, '/')
    ensures '+' !in filter ==> "+" !in stem
    ensures stem == [] ==> filter == "#"
  {
    var levels := Levels(filter);
    TokenCharacters(filter, '/', '#');
    var i :| 0 <= i < |levels| && '#' in levels[i];
    stem := levels[..|levels| - 1];
    assert levels == stem + ["#"];
    TokensAreClean(filter, '/');
    JoinOfSplit(filter, '/');
    JoinStem(stem);
    forall k | 0 <= k < |stem| ensures stem[k] != "#" {
      assert stem[k] == levels[k] && '#' !in levels[k];
      assert "#"[0] == '#';
    }
    if '+' !in filter {
      NoLoneLevel(filter, '+');
    }
    if stem != [] {
      assert filter == Join(stem, '/') + "/#";
    }
  }

  /** The stem before `#` is the whole topic, level for level. */
  lemma ParentIsTheStem(filter: string, stem: seq<string>, topic: string)
    requires EndsWithSlashHash(filter) <==> stem != []
    requires stem != [] ==> filter[..|filter| - 2] == Join(stem, '/')
    requires forall i :: 0 <= i < |stem| ==> '/' !in stem[i]
    ensures HashParent(filter, topic) <==> stem == Levels(topic)
  {
    if stem != [] {
      JoinIsTheOnly(stem, topic);
    }
  }

  /** Of the three tests only the one for `#` can hold. */
  lemma OnlyHashHit(filter: string, topic: string, text: string)
    requires filter == text + "#" && WildcardFree(topic) && '+' !in filter
    ensures HitCount(filter, topic) == 1 <==> text <= topic
  {
    assert filter[|filter| - 1] == '#' && filter[..|filter| - 1] == text;
    assert filter != topic;
  }

  lemma HashFilterHits(filter: string, topic: string)
    requires WellFormedFilter(filter) && WildcardFree(topic) && '#' in filter && '+' !in filter
    ensures HitCount(filter, topic) == 1 <==> Matches(filter, topic) && !HashParent(filter, topic)
  {
    var stem := HashShape(filter);
    OnlyHashHit(filter, topic, StemText(stem));
    StemHits(filter, stem, topic);
  }

  lemma StemHits(filter: string, stem: seq<string>, topic: string)
    requires Levels(filter) == stem + ["#"] && "#" !in stem && "+" !in stem
    requires forall i :: 0 <= i < |stem| ==> '/' !in stem[i]
    requires EndsWithSlashHash(filter) <==> stem != []
    requires stem != [] ==> filter[..|filter| - 2] == Join(stem, '/')
    ensures StemText(stem) <= topic <==> Matches(filter, topic) && !HashParent(filter, topic)
  {
    PrefixSeesLevels(stem, topic);
    HashMatch(stem, Levels(topic));
    ParentIsTheStem(filter, stem, topic);
  }

  lemma HashFreeFilterHits(filter: string, topic: string)
    requires WellFormedFilter(filter) && WildcardFree(topic) && '#' !in filter
    ensures HitCount(filter, topic) == 1 <==> Matches(filter, topic)
  {
    var levels := Levels(filter);
    NoLoneLevel(filter, '#');
    NoHashMatch(levels, Levels(topic));
    if '+' !in filter {
      NoLoneLevel(filter, '+');
      if LevelwiseEqual(levels, Levels(topic)) {
        assert levels == Levels(topic);
        SplitIsInjective(filter, topic, '/');
      }
    }
  }

  lemma MixedFilterNeverHits(filter: string, topic: string)
    requires WellFormedFilter(filter) && WildcardFree(topic) && MixesWildcards(filter)
    ensures HitCount(filter, topic) == 0
  {
    var stem := HashShape(filter);
    NoLoneLevel(topic, '#');
    var levels := Levels(filter);
    assert levels[|levels| - 1] == "#";
    if HashHit(filter, topic) {
      HashHitHoldsNoPlus(filter, topic);
    }
  }

  /** The dispatcher against the standard, for every well-formed filter and every topic:
      it calls the handler exactly when section 4.7.1 says the filter matches, except for a
      filter ending in `/#` on the parent level and for filters that hold both wildcards. */
  lemma DispatchAgainstStandard(filter: string, topic: string)
    requires WellFormedFilter(filter) && WildcardFree(topic)
    ensures HitCount(filter, topic) <= 1
    ensures HitCount(filter, topic) == 1 <==>
            Matches(filter, topic) && !HashParent(filter, topic) && !MixesWildcards(filter)
  {
    AtMostOneHit(filter, topic);
    if MixesWildcards(filter) {
      MixedFilterNeverHits(filter, topic);
    } else if '#' in filter {
      HashFilterHits(filter, topic);
    } else {
      HashFreeFilterHits(filter, topic);
      if HashParent(filter, topic) {
        SlashHashHoldsHash(filter);
      }
    }
  }

  // ---- Which filters are dispatched right on every topic ----

  /** `text` with every `+` replaced, which keeps its levels in place. */
  function WithoutPlus(text: string): (r: string)
    ensures |r| == |text| && '+' !in r
    ensures forall i :: 0 <= i < |r| ==> r[i] == if text[i] == '+' then 'x' else text[i]
  {
    if text == [] then [] else [if text[0] == '+' then 'x' else text[0]] + WithoutPlus(text[1..])
  }

  lemma {:induction false} WithoutPlusKeepsLevels(text: string)
    ensures |Levels(WithoutPlus(text))| == |Levels(text)|
    ensures forall i :: 0 <= i < |Levels(text)| ==> Levels(WithoutPlus(text))[i] == WithoutPlus(Levels(text)[i])
  {
    if text != [] {
      var plain := WithoutPlus(text);
      WithoutPlusKeepsLevels(text[1..]);
      assert plain[1..] == WithoutPlus(text[1..]);
      var rest := Levels(text[1..]);
      if text[0] != '/' {
        var first := [text[0]] + rest[0];
        assert first[1..] == rest[0];
        assert Levels(text)[0] == first;
        assert Levels(plain)[0] == [plain[0]] + Levels(plain[1..])[0];
        assert WithoutPlus(first) == [plain[0]] + WithoutPlus(rest[0]);
      }
    }
  }

  lemma {:induction false} StemMatchesItsInstance(stem: seq<string>, topic: seq<string>)
    requires |stem| == |topic| && "#" !in stem
    requires forall i :: 0 <= i < |stem| ==> stem[i] == "+" || stem[i] == topic[i]
    ensures LevelsMatch(stem + ["#"], topic)
  {
    if stem != [] {
      assert (stem + ["#"])[1..] == stem[1..] + ["#"];
      StemMatchesItsInstance(stem[1..], topic[1..]);
    }
  }

  /** A wildcard-free topic that instantiates the levels of a stem. */
  lemma Instance(stem: seq<string>) returns (topic: string)
    requires |stem| > 0
    requires forall i :: 0 <= i < |stem| ==>
               '/' !in stem[i] && '#' !in stem[i] && ('+' in stem[i] ==> stem[i] == "+")
    ensures WildcardFree(topic) && |Levels(topic)| == |stem|
    ensures forall i :: 0 <= i < |stem| ==> stem[i] == "+" || stem[i] == Levels(topic)[i]
    ensures "+" !in stem ==> topic == Join(stem, '/')
    ensures topic == WithoutPlus(Join(stem, '/'))
  {
    topic := WithoutPlus(Join(stem, '/'));
    SplitOfJoin(stem, '/');
    WithoutPlusKeepsLevels(Join(stem, '/'));
    forall i | 0 <= i < |stem|
      ensures '#' !in Levels(topic)[i]
      ensures stem[i] != "+" ==> Levels(topic)[i] == stem[i]
    {
      assert Levels(topic)[i] == WithoutPlus(stem[i]);
      if stem[i] != "+" {
        assert WithoutPlus(stem[i]) == stem[i];
      } else {
        assert WithoutPlus("+") == "x";
      }
    }
    TokenCharacters(topic, '/', '#');
    if "+" !in stem {
      assert Levels(topic) == stem;
      JoinIsTheOnly(stem, topic);
    }
  }

  /** Every well-formed filter ending in `/#`, but `/#` itself, misses a topic that the standard
      says it matches. */
  lemma MissedTopic(filter: string) returns (topic: string)
    requires WellFormedFilter(filter) && EndsWithSlashHash(filter) && filter != "/#"
    ensures topic != "" && WildcardFree(topic) && Matches(filter, topic) && HitCount(filter, topic) == 0
    ensures topic[0] == '$' ==> filter[0] == '$'
  {
    SlashHashHoldsHash(filter);
    var stem := HashShape(filter);
    assert forall i :: 0 <= i < |stem| ==> stem[i] == Levels(filter)[i];
    topic := Instance(stem);
    assert |topic| == |filter| - 2;
    assert filter == filter[..|filter| - 2] + "/#";
    assert [] + "/#" == "/#";
    StemMatchesItsInstance(stem, Levels(topic));
    DispatchAgainstStandard(filter, topic);
  }

  /** A topic as it can be received: not empty (section 4.7.3), no wildcard. */
  predicate TopicName(topic: string) {
    topic != "" && WildcardFree(topic)
  }

  /** The dispatcher agrees with the standard on every topic name if and only if the filter
      does not end in `/#` or is `/#`, whose parent level is the empty topic. */
  lemma FilterDispatchedRight(filter: string)
    requires WellFormedFilter(filter)
    ensures (forall topic :: TopicName(topic) ==> (HitCount(filter, topic) == 1 <==> Matches(filter, topic)))
            <==> !EndsWithSlashHash(filter) || filter == "/#"
  {
    if EndsWithSlashHash(filter) && filter != "/#" {
      var topic := MissedTopic(filter);
      assert TopicName(topic);
    } else {
      assert '+' !in "/#";
      if MixesWildcards(filter) {
        var stem := HashShape(filter);
      }
      forall topic | TopicName(topic)
        ensures HitCount(filter, topic) == 1 <==> Matches(filter, topic)
      {
        DispatchAgainstStandard(filter, topic);
        assert HashParent(filter, topic) ==> |topic| == |filter| - 2;
      }
    }
  }

  // ---- Topics that begin with `$` ----

  predicate SystemTopic(topic: string) {
    topic != "" && topic[0] == '$'
  }

  predicate StartsWithWildcard(filter: string) {
    filter != "" && (filter[0] == '+' || filter[0] == '#')
  }

  /** Sections 4.7.1 and 4.7.2 together: a filter that starts with a wildcard does not match a
      topic that begins with `$`. */
  predicate MatchesByStandard(filter: string, topic: string) {
    Matches(filter, topic) && !(SystemTopic(topic) && StartsWithWildcard(filter))
  }

  /** The handler is called against the standard exactly when a filter that starts with a
      wildcard meets a topic that begins with `$` and the dispatcher takes it for a match; it is
      not called, against the standard, exactly on the two families of section 4.7.1. */
  lemma DispatchOfSystemTopics(filter: string, topic: string)
    requires WellFormedFilter(filter) && WildcardFree(topic)
    ensures HitCount(filter, topic) == 1 && !MatchesByStandard(filter, topic) <==>
            && SystemTopic(topic) && StartsWithWildcard(filter)
            && Matches(filter, topic) && !HashParent(filter, topic) && !MixesWildcards(filter)
    ensures HitCount(filter, topic) == 0 && MatchesByStandard(filter, topic) <==>
            MatchesByStandard(filter, topic) && (HashParent(filter, topic) || MixesWildcards(filter))
  {
    DispatchAgainstStandard(filter, topic);
  }

  lemma {:induction false} PlusLevels(levels: seq<string>)
    requires forall i :: 0 <= i < |levels| ==> '+' in levels[i] ==> levels[i] == "+"
    ensures forall i :: 0 <= i < |levels| ==> levels[i] == "+" || WithoutPlus(levels[i]) == levels[i]
  {
    forall i | 0 <= i < |levels| && '+' !in levels[i] ensures WithoutPlus(levels[i]) == levels[i] {
      assert forall k :: 0 <= k < |levels[i]| ==> levels[i][k] != '+';
    }
  }

  /** A well-formed filter whose first level is `+` is `+` alone or goes on with a slash. */
  lemma PlusComesAlone(filter: string) returns (rest: string)
    requires WellFormedFilter(filter) && filter[0] == '+'
    ensures filter == "+" || (filter == "+" + "/" + rest && Levels(filter) == ["+"] + Levels(rest))
  {
    var levels := Levels(filter);
    JoinOfSplit(filter, '/');
    TokensAreClean(filter, '/');
    rest := "";
    if |levels| == 1 {
      assert levels[0] == filter;
    } else {
      rest := Join(levels[1..], '/');
      assert filter == levels[0] + "/" + rest;
      assert levels[0] == "+" by {
        assert filter[0] == (levels[0] + "/")[0];
      }
      SplitOfCons("+", '/', rest);
    }
  }

  lemma PlainLevelsFit(rest: string, topic: string)
    requires topic == "$" + "/" + WithoutPlus(rest)
    requires forall i :: 0 <= i < |Levels(rest)| ==> '+' in Levels(rest)[i] ==> Levels(rest)[i] == "+"
    ensures LevelwiseEqual(["+"] + Levels(rest), Levels(topic))
  {
    SplitOfCons("$", '/', WithoutPlus(rest));
    WithoutPlusKeepsLevels(rest);
    PlusLevels(Levels(rest));
  }

  lemma NoWildcardLeft(rest: string, topic: string)
    requires topic == "$" + "/" + WithoutPlus(rest) && '#' !in rest
    ensures TopicName(topic) && SystemTopic(topic)
  {
    var plain := WithoutPlus(rest);
    assert forall i :: 0 <= i < |topic| ==> topic[i] == if i == 0 then '$' else if i == 1 then '/' else plain[i - 2];
  }

  /** Such a filter without `#` hits a topic that begins with `$`. */
  lemma PlusMeetsSystemTopic(filter: string) returns (topic: string)
    requires WellFormedFilter(filter) && filter[0] == '+' && '#' !in filter
    ensures TopicName(topic) && SystemTopic(topic) && HitCount(filter, topic) == 1
  {
    var rest := PlusComesAlone(filter);
    if filter == "+" {
      topic := "$";
      SplitWithoutDelimiter("$", '/');
      SplitWithoutDelimiter("+", '/');
    } else {
      topic := "$" + "/" + WithoutPlus(rest);
      assert forall i :: 0 <= i < |Levels(rest)| ==> Levels(rest)[i] == Levels(filter)[i + 1];
      assert forall i :: 0 <= i < |rest| ==> rest[i] == filter[i + 2];
      PlainLevelsFit(rest, topic);
      NoWildcardLeft(rest, topic);
    }
    AtMostOneHit(filter, topic);
  }

  /** The dispatcher agrees with both sections on every topic name if and only if the filter does
      not start with a wildcard and does not end in `/#`, or is `/#`. */
  lemma FilterDispatchedByStandard(filter: string)
    requires WellFormedFilter(filter)
    ensures (forall topic :: TopicName(topic) ==> (HitCount(filter, topic) == 1 <==> MatchesByStandard(filter, topic)))
            <==> !StartsWithWildcard(filter) && (!EndsWithSlashHash(filter) || filter == "/#")
  {
    if EndsWithSlashHash(filter) && filter != "/#" {
      var topic := MissedTopic(filter);
      assert TopicName(topic) && MatchesByStandard(filter, topic);
    } else if StartsWithWildcard(filter) {
      var topic := WildcardMeetsSystemTopic(filter);
      assert TopicName(topic) && !MatchesByStandard(filter, topic);
    } else {
      FilterDispatchedRight(filter);
    }
  }

  lemma WildcardMeetsSystemTopic(filter: string) returns (topic: string)
    requires WellFormedFilter(filter) && StartsWithWildcard(filter) && !(EndsWithSlashHash(filter) && filter != "/#")
    ensures TopicName(topic) && SystemTopic(topic) && HitCount(filter, topic) == 1
  {
    if '#' in filter {
      var stem := HashShape(filter);
      topic := "$";
    } else {
      topic := PlusMeetsSystemTopic(filter);
    }
  }
}
