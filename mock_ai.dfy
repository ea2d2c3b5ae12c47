/**
 * The two deterministic helpers of the mock AI service
 * (src/services/ai/MockAIService.ts): brewing recommendations chosen by
 * threshold rules on a flavour profile, and a one-sentence flavour
 * description assembled clause by clause.
 *
 * Each helper is a method that builds its list step by step, as the service
 * does, proved equal to a specification function of the profile; the
 * properties are lemmas about those functions.
 */
module MockAI {
  import opened Types
  import opened Seqs

  // ---------------------------------------------------------------------------
  // Brewing recommendations
  // ---------------------------------------------------------------------------

  /** The V60 entry; its water temperature is lower for a more acidic bean. */
  function V60(profile: FlavorProfile): BrewingMethod {
    BrewingMethod(
      "1", "V60手冲",
      Equipment("1", "Hario V60", "Pour Over", None, None, None),
      2, 4, [],
      BrewingParameters("中细研磨", 15, 250, if profile.acidity > 3 then 90 else 92, 180, "1:15", None))
  }

  /** The French-press entry offered for a full-bodied bean. */
  function FrenchPress(): BrewingMethod {
    BrewingMethod(
      "2", "法压壶",
      Equipment("2", "法压壶", "French Press", None, None, None),
      1, 5, [],
      BrewingParameters("粗研磨", 20, 300, 95, 240, "1:15", None))
  }

  /** The recommendation list as a function of the profile: never empty, the V60 first. */
  function Recommendations(profile: FlavorProfile): (r: seq<BrewingMethod>)
    ensures 1 <= |r| <= 2 && r[0] == V60(profile)
  {
    [V60(profile)] + if profile.body > 3 then [FrenchPress()] else []
  }

  /** `generateBrewingRecommendations`: start from the V60 entry and push the French
      press when the body score exceeds 3. */
  method GenerateBrewingRecommendations(profile: FlavorProfile) returns (recommendations: seq<BrewingMethod>)
    ensures recommendations == Recommendations(profile)
  {
    recommendations := [V60(profile)];
    if profile.body > 3 {
      recommendations := recommendations + [FrenchPress()];
    }
  }

  /** There is always a first entry, the pour-over V60 with id '1', brewed at 90 degrees
      for an acidic bean and 92 otherwise; a second entry, the French press with id '2',
      is there exactly when the body score exceeds 3. */
  lemma RecommendationsShape(profile: FlavorProfile)
    ensures var r := Recommendations(profile);
            (|r| == 1 || |r| == 2) &&
            (|r| == 2 <==> profile.body > 3) &&
            r[0].id == "1" && r[0].equipment.kind == "Pour Over" &&
            (profile.acidity > 3 ==> r[0].parameters.waterTemp == 90) &&
            (profile.acidity <= 3 ==> r[0].parameters.waterTemp == 92) &&
            (|r| == 2 ==> r[1].id == "2" && r[1].equipment.kind == "French Press" &&
                          r[1].parameters.waterTemp == 95)
  {
  }

  /** The acidity only moves the V60's temperature and the body only decides the second
      entry: two profiles that agree on both get the same list. */
  lemma RecommendationsDependOnAcidityAndBody(p: FlavorProfile, q: FlavorProfile)
    requires (p.acidity > 3 <==> q.acidity > 3) && (p.body > 3 <==> q.body > 3)
    ensures Recommendations(p) == Recommendations(q)
  {
  }

  // ---------------------------------------------------------------------------
  // Flavour description
  // ---------------------------------------------------------------------------

  const AcidityClause: string := "入口有明显的酸味"
  const SweetnessClause: string := "余韵带有甜味"
  const FullBodyClause: string := "醇厚度适中"
  const LightBodyClause: string := "口感清爽"
  const BalanceClause: string := "整体平衡度不错"

  /** `aroma.map(a => a.name)`. */
  function AromaNames(aroma: seq<FlavorNote>): (names: seq<string>)
    ensures |names| == |aroma|
    ensures forall i :: 0 <= i < |aroma| ==> names[i] == aroma[i].name
  {
    if aroma == [] then [] else [aroma[0].name] + AromaNames(aroma[1..])
  }

  /** "能感受到" + the aroma names joined by '、' + "的香气". */
  function AromaClause(aroma: seq<FlavorNote>): (clause: string)
    ensures |clause| >= 7 && clause[0] == '能'
  {
    "能感受到" + Join(AromaNames(aroma), "、") + "的香气"
  }

  /** The balance test: the mean of acidity, sweetness and body is above 3.5. It holds
      when all three exceed 3, and only when at least one of them does. */
  predicate Balanced(profile: FlavorProfile)
    ensures profile.acidity > 3 && profile.sweetness > 3 && profile.body > 3 ==> Balanced(profile)
    ensures Balanced(profile) ==> profile.acidity > 3 || profile.sweetness > 3 || profile.body > 3
  {
    (profile.acidity + profile.sweetness + profile.body) as real / 3.0 > 3.5
  }

  function BodyClause(profile: FlavorProfile): string {
    if profile.body > 3 then FullBodyClause else LightBodyClause
  }

  /** The clauses in the order the service pushes them: at least the body clause, at
      most all five. */
  function FlavorClauses(profile: FlavorProfile): (clauses: seq<string>)
    ensures 1 <= |clauses| <= 5
  {
    (if profile.acidity > 3 then [AcidityClause] else []) +
    (if |profile.aroma| > 0 then [AromaClause(profile.aroma)] else []) +
    (if profile.sweetness > 3 then [SweetnessClause] else []) +
    [BodyClause(profile)] +
    (if Balanced(profile) then [BalanceClause] else [])
  }

  /** The clauses joined by '，' and closed by '。'. */
  function Description(profile: FlavorProfile): (sentence: string)
    ensures |sentence| >= 2 && sentence[|sentence| - 1] == '。'
  {
    Join(FlavorClauses(profile), "，") + "。"
  }

  /** `generateFlavorDescription`: push each clause whose condition holds, then join. */
  method GenerateFlavorDescription(profile: FlavorProfile) returns (description: string)
    ensures description == Description(profile)
  {
    var descriptions: seq<string> := [];
    if profile.acidity > 3 {
      descriptions := descriptions + [AcidityClause];
    }
    if |profile.aroma| > 0 {
      var aromaNames := Join(AromaNames(profile.aroma), "、");
      descriptions := descriptions + ["能感受到" + aromaNames + "的香气"];
    }
    if profile.sweetness > 3 {
      descriptions := descriptions + [SweetnessClause];
    }
    if profile.body > 3 {
      descriptions := descriptions + [FullBodyClause];
    } else {
      descriptions := descriptions + [LightBodyClause];
    }
    var balanceScore := (profile.acidity + profile.sweetness + profile.body) as real / 3.0;
    if balanceScore > 3.5 {
      descriptions := descriptions + [BalanceClause];
    }
    assert descriptions == FlavorClauses(profile);
    description := Join(descriptions, "，") + "。";
  }

  /** For integer scores the balance test is `2 * (acidity + sweetness + body) > 21`. */
  lemma BalancedInIntegers(profile: FlavorProfile)
    ensures Balanced(profile) <==> 2 * (profile.acidity + profile.sweetness + profile.body) > 21
  {
    var sum := profile.acidity + profile.sweetness + profile.body;
    if 2 * sum > 21 {
      assert sum >= 11;
      assert sum as real >= 11.0;
    } else {
      assert sum <= 10;
      assert sum as real <= 10.0;
    }
  }

  /** Each clause appears exactly when its condition holds, and exactly one of the two
      body clauses appears. */
  lemma ClausePresence(profile: FlavorProfile)
    ensures AcidityClause in FlavorClauses(profile) <==> profile.acidity > 3
    ensures AromaClause(profile.aroma) in FlavorClauses(profile) <==> |profile.aroma| > 0
    ensures SweetnessClause in FlavorClauses(profile) <==> profile.sweetness > 3
    ensures FullBodyClause in FlavorClauses(profile) <==> profile.body > 3
    ensures LightBodyClause in FlavorClauses(profile) <==> profile.body <= 3
    ensures BalanceClause in FlavorClauses(profile) <==> Balanced(profile)
  {
    var aroma := AromaClause(profile.aroma);
    assert AcidityClause[0] != aroma[0] && SweetnessClause[0] != aroma[0];
    assert FullBodyClause[0] != aroma[0] && LightBodyClause[0] != aroma[0];
    assert BalanceClause[0] != aroma[0];
  }

  /** The body clause comes right before the optional balance clause, which is last. */
  lemma ClauseOrder(profile: FlavorProfile)
    ensures var c := FlavorClauses(profile);
            c != [] &&
            (Balanced(profile) ==> |c| >= 2 && c[|c| - 1] == BalanceClause &&
                                   c[|c| - 2] == BodyClause(profile)) &&
            (!Balanced(profile) ==> c[|c| - 1] == BodyClause(profile))
  {
  }

  /** Whether `s` ends with `suffix`. */
  predicate EndsWith(s: string, suffix: string) {
    |suffix| <= |s| && s[|s| - |suffix|..] == suffix
  }

  /** The sentence always ends with '。'; it closes with the balance remark exactly when
      the profile is balanced, and with the body remark otherwise. */
  lemma DescriptionEnding(profile: FlavorProfile)
    ensures EndsWith(Description(profile), "。")
    ensures Balanced(profile) ==> EndsWith(Description(profile), "，" + BalanceClause + "。")
    ensures !Balanced(profile) ==> EndsWith(Description(profile), BodyClause(profile) + "。")
  {
    var c := FlavorClauses(profile);
    var init := c[..|c| - 1];
    var last := c[|c| - 1];
    ClauseOrder(profile);
    assert c == init + [last];
    if init != [] {
      JoinSnoc(init, "，", last);
      assert Description(profile) == Join(init, "，") + "，" + last + "。";
    } else {
      assert Description(profile) == last + "。";
    }
  }

  /** The aroma clause names every aroma note, in the profile's order. */
  lemma {:induction false} AromaClauseListsNames(aroma: seq<FlavorNote>)
    requires |aroma| > 0
    ensures Join(AromaNames(aroma), "、") ==
            Join(AromaNames(aroma[..|aroma| - 1]), "、") +
            (if |aroma| > 1 then "、" else "") + aroma[|aroma| - 1].name
  {
    var names := AromaNames(aroma);
    var init := AromaNames(aroma[..|aroma| - 1]);
    assert names == init + [aroma[|aroma| - 1].name];
    if |aroma| > 1 {
      JoinSnoc(init, "、", aroma[|aroma| - 1].name);
    } else {
      assert init == [];
    }
  }

  /** A lightly bodied, unremarkable profile gets the shortest sentence. */
  lemma PlainProfile(profile: FlavorProfile)
    requires profile.acidity <= 3 && profile.sweetness <= 3 && profile.body <= 3
    requires profile.aroma == []
    ensures Description(profile) == "口感清爽。"
  {
    assert FlavorClauses(profile) == [LightBodyClause];
  }
}
