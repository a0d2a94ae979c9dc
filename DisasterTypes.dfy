/**
 * The dashboard's disaster-type label, derived from an incident's free-text
 * description by priority-ordered keyword search (`extractDisasterType` in
 * DashboardPage.jsx).
 */
module DisasterTypes {
  import opened Options
  import opened Text

  /** The labels `extractDisasterType` returns, each the string of the same name. */
  datatype DisasterType =
    | Flood | Earthquake | Cyclone | Fire | Landslide | Drought | Tsunami
    | Disaster  // a description that mentions no keyword
    | Unknown   // no description at all

  /** JavaScript truthiness of an optional string: absent and "" are falsy. */
  predicate TruthyText(s: Option<string>) {
    s.Some? && s.value != ""
  }

  /** `extractDisasterType(description)`, following the source's chain of tests. */
  function ExtractDisasterType(description: Option<string>): (r: DisasterType)
    ensures r == Unknown <==> !TruthyText(description)
    ensures r == Disaster <==> TruthyText(description) && !MentionsAny(Lower(description.value), AllKeywords)
  {
    if !TruthyText(description) then Unknown
    else
      var lowerDesc := Lower(description.value);
      MentionsAllKeywords(lowerDesc);
      if Contains(lowerDesc, "flood") || Contains(lowerDesc, "rain") then Flood
      else if Contains(lowerDesc, "earthquake") then Earthquake
      else if Contains(lowerDesc, "cyclone") then Cyclone
      else if Contains(lowerDesc, "fire") then Fire
      else if Contains(lowerDesc, "landslide") then Landslide
      else if Contains(lowerDesc, "drought") then Drought
      else if Contains(lowerDesc, "tsunami") then Tsunami
      else Disaster
  }

  // ---------------------------------------------------------------------
  // Reference definition: an ordered table of (keywords, label) rules,
  // of which the first whose keyword occurs decides the label.
  // ---------------------------------------------------------------------

  datatype Rule = Rule(keywords: seq<string>, kind: DisasterType)

  const Rules: seq<Rule> := [
    Rule(["flood", "rain"], Flood),
    Rule(["earthquake"], Earthquake),
    Rule(["cyclone"], Cyclone),
    Rule(["fire"], Fire),
    Rule(["landslide"], Landslide),
    Rule(["drought"], Drought),
    Rule(["tsunami"], Tsunami)
  ]

  const AllKeywords: seq<string> :=
    ["flood", "rain", "earthquake", "cyclone", "fire", "landslide", "drought", "tsunami"]

  /** Spells out `MentionsAny` on the eight keywords. */
  lemma MentionsAllKeywords(text: string)
    ensures MentionsAny(text, AllKeywords) <==>
      Contains(text, "flood") || Contains(text, "rain") || Contains(text, "earthquake") ||
      Contains(text, "cyclone") || Contains(text, "fire") || Contains(text, "landslide") ||
      Contains(text, "drought") || Contains(text, "tsunami")
  {
    MentionsAnyIff(text, AllKeywords);
    if MentionsAny(text, AllKeywords) {
      var k :| 0 <= k < |AllKeywords| && Contains(text, AllKeywords[k]);
      assert k in {0, 1, 2, 3, 4, 5, 6, 7};
    } else {
      assert !Contains(text, AllKeywords[0]) && !Contains(text, AllKeywords[1]);
      assert !Contains(text, AllKeywords[2]) && !Contains(text, AllKeywords[3]);
      assert !Contains(text, AllKeywords[4]) && !Contains(text, AllKeywords[5]);
      assert !Contains(text, AllKeywords[6]) && !Contains(text, AllKeywords[7]);
    }
  }

  /** Some word of `words` occurs in `text`. */
  predicate MentionsAny(text: string, words: seq<string>) {
    |words| > 0 && (Contains(text, words[0]) || MentionsAny(text, words[1..]))
  }

  lemma {:induction false} MentionsAnyIff(text: string, words: seq<string>)
    ensures MentionsAny(text, words) <==> exists k :: 0 <= k < |words| && Contains(text, words[k])
  {
    if |words| > 0 {
      MentionsAnyIff(text, words[1..]);
      assert forall k :: 0 < k < |words| ==> words[1..][k - 1] == words[k];
    }
  }

  /** The label of the first rule that matches, or Disaster when none does. */
  function FirstMatch(text: string, rules: seq<Rule>): DisasterType {
    if rules == [] then Disaster
    else if MentionsAny(text, rules[0].keywords) then rules[0].kind
    else FirstMatch(text, rules[1..])
  }

  /** No two rules share a label, and no rule is given a fallback kind. */
  ghost predicate WellFormed(rules: seq<Rule>) {
    && (forall i :: 0 <= i < |rules| ==> rules[i].kind != Disaster && rules[i].kind != Unknown)
    && (forall i, j :: 0 <= i < j < |rules| ==> rules[i].kind != rules[j].kind)
  }

  /** The source's chain of tests is the rule table applied to the lower-cased description. */
  lemma ExtractFollowsRules(description: Option<string>)
    ensures ExtractDisasterType(description) ==
      if TruthyText(description) then FirstMatch(Lower(description.value), Rules) else Unknown
  {
    if TruthyText(description) {
      var t := Lower(description.value);
      assert MentionsAny(t, Rules[0].keywords) <==> Contains(t, "flood") || Contains(t, "rain") by {
        MentionsAnyIff(t, Rules[0].keywords);
        if MentionsAny(t, Rules[0].keywords) {
          var k :| 0 <= k < 2 && Contains(t, Rules[0].keywords[k]);
          assert k == 0 || k == 1;
        } else {
          assert !Contains(t, Rules[0].keywords[0]) && !Contains(t, Rules[0].keywords[1]);
        }
      }
      forall w: string ensures MentionsAny(t, [w]) <==> Contains(t, w) {
        assert [w][1..] == [];
      }
      assert FirstMatch(t, Rules[7..]) == Disaster;
      assert FirstMatch(t, Rules[6..]) == if Contains(t, "tsunami") then Tsunami else Disaster by {
        assert Rules[6..][1..] == Rules[7..];
      }
      assert FirstMatch(t, Rules[5..]) == if Contains(t, "drought") then Drought else FirstMatch(t, Rules[6..]) by {
        assert Rules[5..][1..] == Rules[6..];
      }
      assert FirstMatch(t, Rules[4..]) == if Contains(t, "landslide") then Landslide else FirstMatch(t, Rules[5..]) by {
        assert Rules[4..][1..] == Rules[5..];
      }
      assert FirstMatch(t, Rules[3..]) == if Contains(t, "fire") then Fire else FirstMatch(t, Rules[4..]) by {
        assert Rules[3..][1..] == Rules[4..];
      }
      assert FirstMatch(t, Rules[2..]) == if Contains(t, "cyclone") then Cyclone else FirstMatch(t, Rules[3..]) by {
        assert Rules[2..][1..] == Rules[3..];
      }
      assert FirstMatch(t, Rules[1..]) == if Contains(t, "earthquake") then Earthquake else FirstMatch(t, Rules[2..]) by {
        assert Rules[1..][1..] == Rules[2..];
      }
    }
  }

  /** The label chosen is the fallback or the label of a rule that matches. */
  lemma {:induction false} FirstMatchChoosesMatchingRule(text: string, rules: seq<Rule>)
    ensures FirstMatch(text, rules) == Disaster ||
      exists j :: 0 <= j < |rules| && FirstMatch(text, rules) == rules[j].kind && MentionsAny(text, rules[j].keywords)
  {
    if rules != [] && !MentionsAny(text, rules[0].keywords) {
      FirstMatchChoosesMatchingRule(text, rules[1..]);
      if FirstMatch(text, rules) != Disaster {
        var j :| 0 <= j < |rules[1..]| && FirstMatch(text, rules[1..]) == rules[1..][j].kind
          && MentionsAny(text, rules[1..][j].keywords);
        assert rules[j + 1] == rules[1..][j];
      }
    }
  }

  /**
   * First match wins: the label of rule `i` is returned only when rule `i`
   * matches and no earlier rule does.
   */
  lemma {:induction false} FirstMatchIsFirst(text: string, rules: seq<Rule>, i: nat)
    requires WellFormed(rules)
    requires i < |rules|
    ensures FirstMatch(text, rules) == rules[i].kind <==>
      MentionsAny(text, rules[i].keywords) && forall j :: 0 <= j < i ==> !MentionsAny(text, rules[j].keywords)
  {
    if i == 0 {
      if !MentionsAny(text, rules[0].keywords) {
        FirstMatchChoosesMatchingRule(text, rules[1..]);
        if FirstMatch(text, rules) != Disaster {
          var j :| 0 <= j < |rules[1..]| && FirstMatch(text, rules[1..]) == rules[1..][j].kind;
          assert rules[1..][j] == rules[j + 1];
        }
      }
    } else {
      assert WellFormed(rules[1..]) by {
        assert forall j :: 0 <= j < |rules| - 1 ==> rules[1..][j] == rules[j + 1];
      }
      FirstMatchIsFirst(text, rules[1..], i - 1);
      assert rules[1..][i - 1] == rules[i];
      assert forall j :: 0 < j < i ==> rules[1..][j - 1] == rules[j];
      if MentionsAny(text, rules[0].keywords) {
        assert rules[0].kind != rules[i].kind;
      }
    }
  }

  /** Disaster is returned exactly when no rule matches. */
  lemma {:induction false} FirstMatchFallback(text: string, rules: seq<Rule>)
    requires WellFormed(rules)
    ensures FirstMatch(text, rules) == Disaster <==>
      forall j :: 0 <= j < |rules| ==> !MentionsAny(text, rules[j].keywords)
  {
    if rules != [] {
      assert WellFormed(rules[1..]) by {
        assert forall j :: 0 <= j < |rules| - 1 ==> rules[1..][j] == rules[j + 1];
      }
      FirstMatchFallback(text, rules[1..]);
      assert forall j :: 0 < j < |rules| ==> rules[1..][j - 1] == rules[j];
    }
  }

  lemma RulesWellFormed()
    ensures WellFormed(Rules)
  {
  }

  /** extractDisasterType returns rule `i`'s label exactly when rule `i` is the first to match. */
  lemma ExtractPriority(description: string, i: nat)
    requires description != ""
    requires i < |Rules|
    ensures ExtractDisasterType(Some(description)) == Rules[i].kind <==>
      MentionsAny(Lower(description), Rules[i].keywords) &&
      forall j :: 0 <= j < i ==> !MentionsAny(Lower(description), Rules[j].keywords)
  {
    ExtractFollowsRules(Some(description));
    RulesWellFormed();
    FirstMatchIsFirst(Lower(description), Rules, i);
  }

  /** "flood" or "rain" anywhere in the description wins over every other keyword. */
  lemma FloodWins(description: string)
    requires Contains(Lower(description), "flood") || Contains(Lower(description), "rain")
    ensures ExtractDisasterType(Some(description)) == Flood
  {
  }

  /** The label depends only on the lower-cased description: case variants classify alike. */
  lemma CaseInsensitive(s: string, t: string)
    requires Lower(s) == Lower(t)
    ensures ExtractDisasterType(Some(s)) == ExtractDisasterType(Some(t))
  {
  }

  lemma IgnoresCase(s: string)
    ensures ExtractDisasterType(Some(s)) == ExtractDisasterType(Some(Lower(s)))
  {
    LowerIdempotent(s);
    CaseInsensitive(s, Lower(s));
  }
}
