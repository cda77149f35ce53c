/**
  What the symptom evaluator promises: the emergency short-circuit, the
  default advisory, the two-valued concern level, the prompt urgency, the
  last-writer-wins specialty and the list concatenation in category order.
  The fold lemmas hold for every rule table; the rest are about the table
  of backend/routes/symptoms.js.
 */
module SymptomProperties {
  import opened Wrappers
  import opened Strings
  import opened Symptoms

  /** The items the matching categories push, concatenated in category order. */
  function Collected(cats: seq<Category>, text: string): Advice
    decreases |cats|
  {
    if cats == [] then NoAdvice else Append(Contribution(cats[0], text), Collected(cats[1..], text))
  }

  lemma AppendAssociative(a: Advice, b: Advice, c: Advice)
    ensures Append(Append(a, b), c) == Append(a, Append(b, c))
  {
    assert (a.conditions + b.conditions) + c.conditions == a.conditions + (b.conditions + c.conditions);
    assert (a.homeCare + b.homeCare) + c.homeCare == a.homeCare + (b.homeCare + c.homeCare);
    assert (a.dietTips + b.dietTips) + c.dietTips == a.dietTips + (b.dietTips + c.dietTips);
  }

  lemma AppendNothing(a: Advice)
    ensures Append(a, NoAdvice) == a && Append(NoAdvice, a) == a
  {
    assert a.conditions + [] == a.conditions && [] + a.conditions == a.conditions;
    assert a.homeCare + [] == a.homeCare && [] + a.homeCare == a.homeCare;
    assert a.dietTips + [] == a.dietTips && [] + a.dietTips == a.dietTips;
  }

  /** Each list after the fold is the list before it followed by what the matching categories push, in order. */
  lemma {:induction false} FoldAdvice(cats: seq<Category>, text: string, f: Findings)
    ensures Fold(cats, text, f).advice == Append(f.advice, Collected(cats, text))
    decreases |cats|
  {
    if cats == [] {
      AppendNothing(f.advice);
    } else {
      var g := Step(f, cats[0], text);
      FoldAdvice(cats[1..], text, g);
      if Matches(cats[0], text) {
        AppendAssociative(f.advice, Contribution(cats[0], text), Collected(cats[1..], text));
      } else {
        AppendNothing(Collected(cats[1..], text));
      }
    }
  }

  /** Some category of `cats` that raises the concern level matches. */
  ghost predicate SomeRaising(cats: seq<Category>, text: string)
  {
    exists j :: 0 <= j < |cats| && cats[j].raisesConcern && Matches(cats[j], text)
  }

  /** Without an emergency the concern level only moves from Mild to Moderate, and it does exactly when a raising category matches. */
  lemma {:induction false} FoldConcern(cats: seq<Category>, text: string, f: Findings)
    requires f.concern != Severe
    ensures Fold(cats, text, f).concern != Severe
    ensures Fold(cats, text, f).concern == Moderate <==> f.concern == Moderate || SomeRaising(cats, text)
    decreases |cats|
  {
    if cats != [] {
      FoldConcern(cats[1..], text, Step(f, cats[0], text));
      if SomeRaising(cats[1..], text) {
        var j :| 0 <= j < |cats[1..]| && cats[1..][j].raisesConcern && Matches(cats[1..][j], text);
        assert cats[j + 1] == cats[1..][j];
      }
      if SomeRaising(cats, text) {
        var j :| 0 <= j < |cats| && cats[j].raisesConcern && Matches(cats[j], text);
        if j > 0 {
          assert cats[1..][j - 1] == cats[j];
        }
      }
    }
  }

  /** Some category of `cats` that sets the urgency to prompt matches. */
  ghost predicate SomePrompt(cats: seq<Category>, text: string)
  {
    exists j :: 0 <= j < |cats| && cats[j].prompt && Matches(cats[j], text)
  }

  /** Without an emergency the urgency is prompt exactly when it was, or a prompting category matches. */
  lemma {:induction false} FoldUrgency(cats: seq<Category>, text: string, f: Findings)
    requires f.urgency != Emergency
    ensures Fold(cats, text, f).urgency != Emergency
    ensures Fold(cats, text, f).urgency == Prompt <==> f.urgency == Prompt || SomePrompt(cats, text)
    decreases |cats|
  {
    if cats != [] {
      FoldUrgency(cats[1..], text, Step(f, cats[0], text));
      if SomePrompt(cats[1..], text) {
        var j :| 0 <= j < |cats[1..]| && cats[1..][j].prompt && Matches(cats[1..][j], text);
        assert cats[j + 1] == cats[1..][j];
      }
      if SomePrompt(cats, text) {
        var j :| 0 <= j < |cats| && cats[j].prompt && Matches(cats[j], text);
        if j > 0 {
          assert cats[1..][j - 1] == cats[j];
        }
      }
    }
  }

  /** The category matches and overwrites the specialty. */
  predicate SetsSpecialty(c: Category, text: string)
  {
    Matches(c, text) && c.specialty.Some?
  }

  /** No matching category overwrites the specialty: it keeps its value. */
  lemma {:induction false} FoldSpecialtyKept(cats: seq<Category>, text: string, f: Findings)
    requires forall j :: 0 <= j < |cats| ==> !SetsSpecialty(cats[j], text)
    ensures Fold(cats, text, f).specialty == f.specialty
    decreases |cats|
  {
    if cats != [] {
      assert !SetsSpecialty(cats[0], text);
      assert forall j :: 0 <= j < |cats[1..]| ==> cats[1..][j] == cats[j + 1];
      FoldSpecialtyKept(cats[1..], text, Step(f, cats[0], text));
    }
  }

  /** Last writer wins: the specialty is that of the last matching category that sets one. */
  lemma {:induction false} FoldSpecialtyLast(cats: seq<Category>, text: string, f: Findings, j: nat)
    requires j < |cats| && SetsSpecialty(cats[j], text)
    requires forall k :: j < k < |cats| ==> !SetsSpecialty(cats[k], text)
    ensures Fold(cats, text, f).specialty == cats[j].specialty.value
    decreases |cats|
  {
    var g := Step(f, cats[0], text);
    assert forall k :: 0 <= k < |cats[1..]| ==> cats[1..][k] == cats[k + 1];
    if j == 0 {
      FoldSpecialtyKept(cats[1..], text, g);
    } else {
      FoldSpecialtyLast(cats[1..], text, g, j - 1);
    }
  }

  /** No category matches: the locals are left as they were. */
  lemma {:induction false} FoldNoMatch(cats: seq<Category>, text: string, f: Findings)
    requires forall j :: 0 <= j < |cats| ==> !Matches(cats[j], text)
    ensures Fold(cats, text, f) == f
    decreases |cats|
  {
    if cats != [] {
      assert forall j :: 0 <= j < |cats[1..]| ==> cats[1..][j] == cats[j + 1];
      FoldNoMatch(cats[1..], text, Step(f, cats[0], text));
    }
  }

  /** Each collected list is at least as long as what any one category pushes onto it, nested block included. */
  lemma {:induction false} CollectedAtLeast(cats: seq<Category>, text: string, j: nat)
    requires j < |cats|
    ensures |Collected(cats, text).conditions| >= |Contribution(cats[j], text).conditions|
    ensures |Collected(cats, text).homeCare| >= |Contribution(cats[j], text).homeCare|
    ensures |Collected(cats, text).dietTips| >= |Contribution(cats[j], text).dietTips|
    decreases |cats|
  {
    if j > 0 {
      assert cats[1..][j - 1] == cats[j];
      CollectedAtLeast(cats[1..], text, j - 1);
    }
  }

  /** No category of the table matches. */
  predicate NoCategoryMatches(text: string)
  {
    forall j :: 0 <= j < |Categories| ==> !Matches(Categories[j], text)
  }

  /** The table's categories are the eight of the source, in source order. */
  lemma CategoryOrder()
    ensures |Categories| == 8
    ensures Categories[0] == Fever && Categories[1] == Respiratory && Categories[2] == Stomach
    ensures Categories[3] == Headache && Categories[4] == BodyPain && Categories[5] == Skin
    ensures Categories[6] == Diabetes && Categories[7] == Cardiac
  {
  }

  /** Every category of the table pushes at least three conditions. */
  lemma CategoriesPushConditions()
    ensures forall j :: 0 <= j < |Categories| ==> |Categories[j].advice.conditions| >= 3
  {
    CategoryOrder();
  }

  /** Only the cardiac category sets the urgency to prompt. */
  lemma PromptCategories(text: string)
    ensures SomePrompt(Categories, text) <==> Matches(Cardiac, text)
  {
    CategoryOrder();
    if SomePrompt(Categories, text) {
      var j :| 0 <= j < |Categories| && Categories[j].prompt && Matches(Categories[j], text);
      assert j == 7;
    }
    if Matches(Cardiac, text) { assert Categories[7].prompt; }
  }

  /** A critical phrase anywhere gives exactly the emergency advisory, whatever else the text contains. */
  lemma EmergencyWhateverElse(before: string, text: string, after: string)
    requires IsCritical(text)
    ensures Analysis(before + text + after) == EmergencyAdvisory
    ensures Analysis(before + text + after).concernLevel == Severe
    ensures Analysis(before + text + after).urgency == Emergency
    ensures Analysis(before + text + after).possibleConditions == ["Medical Emergency"]
    ensures Analysis(before + text + after).suggestedSpecialty == "Emergency Medicine"
  {
    var j :| 0 <= j < |CriticalKeywords| && Includes(text, CriticalKeywords[j]);
    IncludesInContext(before, text, after, CriticalKeywords[j]);
  }

  /** No critical phrase and no category keyword: the result is the default advisory. */
  lemma NothingMatchedGivesDefault(text: string)
    requires !IsCritical(text) && NoCategoryMatches(text)
    ensures Analysis(text) == DefaultAdvisory
  {
    FoldNoMatch(Categories, text, Start(Rules));
    AppendNothing(DefaultAdvice);
  }

  /** A matching category pushes at least three conditions, so the default block never runs after a match. */
  lemma MatchedNeverDefault(text: string)
    requires !IsCritical(text) && !NoCategoryMatches(text)
    ensures |Analysis(text).possibleConditions| >= 3
    ensures Analysis(text) != DefaultAdvisory
  {
    var j :| 0 <= j < |Categories| && Matches(Categories[j], text);
    FoldAdvice(Categories, text, Start(Rules));
    AppendNothing(Collected(Categories, text));
    CollectedAtLeast(Categories, text, j);
    assert |Contribution(Categories[j], text).conditions| >= |Categories[j].advice.conditions|;
    CategoriesPushConditions();
  }

  /** The default advisory comes out exactly when there is no critical phrase and no category keyword. */
  lemma DefaultExactlyWhenNothingMatches(text: string)
    ensures Analysis(text) == DefaultAdvisory <==> !IsCritical(text) && NoCategoryMatches(text)
  {
    if !IsCritical(text) {
      if NoCategoryMatches(text) {
        NothingMatchedGivesDefault(text);
      } else {
        MatchedNeverDefault(text);
      }
    }
  }

  /** The categories that raise the concern level are all but body pain and skin. */
  lemma RaisingCategories(text: string)
    ensures SomeRaising(Categories, text)
        <==> (Matches(Fever, text) || Matches(Respiratory, text) || Matches(Stomach, text)
              || Matches(Headache, text) || Matches(Diabetes, text) || Matches(Cardiac, text))
  {
    CategoryOrder();
    if SomeRaising(Categories, text) {
      var j :| 0 <= j < |Categories| && Categories[j].raisesConcern && Matches(Categories[j], text);
      assert j != 4 && j != 5;
    }
    if Matches(Fever, text) { assert Categories[0].raisesConcern; }
    if Matches(Respiratory, text) { assert Categories[1].raisesConcern; }
    if Matches(Stomach, text) { assert Categories[2].raisesConcern; }
    if Matches(Headache, text) { assert Categories[3].raisesConcern; }
    if Matches(Diabetes, text) { assert Categories[6].raisesConcern; }
    if Matches(Cardiac, text) { assert Categories[7].raisesConcern; }
  }

  /**
    Without an emergency the concern level is Mild or Moderate, and Moderate
    exactly when a fever, respiratory, stomach, headache, diabetes or cardiac
    keyword is included; body pain and skin keywords alone leave it Mild.
   */
  lemma ConcernLevel(text: string)
    requires !IsCritical(text)
    ensures Analysis(text).concernLevel == Mild || Analysis(text).concernLevel == Moderate
    ensures Analysis(text).concernLevel == Moderate
        <==> (Matches(Fever, text) || Matches(Respiratory, text) || Matches(Stomach, text)
              || Matches(Headache, text) || Matches(Diabetes, text) || Matches(Cardiac, text))
  {
    FoldConcern(Categories, text, Start(Rules));
    RaisingCategories(text);
  }

  /** Without an emergency the urgency is prompt exactly when a cardiac keyword is included, and normal otherwise. */
  lemma UrgencyPromptExactlyOnCardiac(text: string)
    requires !IsCritical(text)
    ensures Analysis(text).urgency == Prompt <==> Matches(Cardiac, text)
    ensures Analysis(text).urgency == Normal <==> !Matches(Cardiac, text)
  {
    FoldUrgency(Categories, text, Start(Rules));
    PromptCategories(text);
  }

  /** The suggested specialty is that of the last matching category (in source order) that sets one. */
  lemma SpecialtyOfLastMatch(text: string, j: nat)
    requires !IsCritical(text)
    requires j < |Categories| && SetsSpecialty(Categories[j], text)
    requires forall k :: j < k < |Categories| ==> !SetsSpecialty(Categories[k], text)
    ensures Analysis(text).suggestedSpecialty == Categories[j].specialty.value
  {
    FoldSpecialtyLast(Categories, text, Start(Rules), j);
  }

  /** When no matching category sets a specialty, it stays "General Physician". */
  lemma SpecialtyDefault(text: string)
    requires !IsCritical(text)
    requires forall k :: 0 <= k < |Categories| ==> !SetsSpecialty(Categories[k], text)
    ensures Analysis(text).suggestedSpecialty == "General Physician"
  {
    FoldSpecialtyKept(Categories, text, Start(Rules));
  }

  /** Fever alone: Moderate, the fever conditions, and the specialty untouched ("General Physician"). */
  lemma FeverAlone(text: string)
    requires !IsCritical(text) && Matches(Fever, text)
    requires forall k :: 1 <= k < |Categories| ==> !Matches(Categories[k], text)
    ensures Analysis(text).suggestedSpecialty == "General Physician"
    ensures Analysis(text).concernLevel == Moderate
  {
    CategoryOrder();
    FoldSpecialtyKept(Categories, text, Start(Rules));
    ConcernLevel(text);
  }

  /** A cardiac keyword always wins the specialty, since the cardiac category comes last. */
  lemma CardiacWinsSpecialty(text: string)
    requires !IsCritical(text) && Matches(Cardiac, text)
    ensures Analysis(text).suggestedSpecialty == "Cardiologist"
  {
    CategoryOrder();
    FoldSpecialtyLast(Categories, text, Start(Rules), 7);
  }

  /** When some category matched, each output list is exactly what the matching categories pushed, in category order. */
  lemma ListsInCategoryOrder(text: string)
    requires !IsCritical(text) && !NoCategoryMatches(text)
    ensures Analysis(text).possibleConditions == Collected(Categories, text).conditions
    ensures Analysis(text).homeCare == Collected(Categories, text).homeCare
    ensures Analysis(text).dietTips == Collected(Categories, text).dietTips
  {
    var j :| 0 <= j < |Categories| && Matches(Categories[j], text);
    FoldAdvice(Categories, text, Start(Rules));
    AppendNothing(Collected(Categories, text));
    CollectedAtLeast(Categories, text, j);
    assert |Contribution(Categories[j], text).conditions| >= |Categories[j].advice.conditions|;
    CategoriesPushConditions();
  }

  /** An item that no category of `cats` lists is never collected. */
  lemma {:induction false} NotCollected(cats: seq<Category>, text: string, x: string)
    requires forall j :: 0 <= j < |cats| ==> x !in cats[j].advice.conditions && x !in cats[j].extra.conditions
    ensures x !in Collected(cats, text).conditions
    decreases |cats|
  {
    if cats != [] {
      assert forall j :: 0 <= j < |cats[1..]| ==> cats[1..][j] == cats[j + 1];
      NotCollected(cats[1..], text, x);
    }
  }

  /**
    When only the first two categories of `cats` list `x`, the number of
    times `x` is collected is the sum of those two categories' counts.
   */
  lemma CountInFirstTwo(cats: seq<Category>, text: string, x: string)
    requires |cats| >= 2
    requires forall j :: 2 <= j < |cats| ==> x !in cats[j].advice.conditions && x !in cats[j].extra.conditions
    ensures multiset(Collected(cats, text).conditions)[x]
         == multiset(Contribution(cats[0], text).conditions)[x] + multiset(Contribution(cats[1], text).conditions)[x]
  {
    var rest := cats[2..];
    assert cats[1..][1..] == rest;
    assert forall j :: 0 <= j < |rest| ==> rest[j] == cats[j + 2];
    NotCollected(rest, text, x);
    var a, b, c := Contribution(cats[0], text).conditions, Contribution(cats[1], text).conditions, Collected(rest, text).conditions;
    assert Collected(cats[1..], text).conditions == b + c;
    assert Collected(cats, text).conditions == a + (b + c);
    assert a + (b + c) == a + b + c;
    assert multiset(a + b + c) == multiset(a) + multiset(b) + multiset(c);
  }

  /** Past the first two categories no category lists "Common Cold". */
  lemma CommonColdOnlyInFirstTwo()
    ensures forall j :: 2 <= j < |Categories| ==>
      "Common Cold" !in Categories[j].advice.conditions && "Common Cold" !in Categories[j].extra.conditions
  {
    CategoryOrder();
  }

  /** A fever with cough or cold pushes "Common Cold" once and also matches the respiratory category. */
  lemma FeverWithCold(text: string)
    requires Matches(Fever, text) && AnyIncluded(text, Fever.extraKeywords)
    ensures multiset(Contribution(Fever, text).conditions)["Common Cold"] == 1
    ensures Matches(Respiratory, text)
  {
    var j :| 0 <= j < |Fever.extraKeywords| && Includes(text, Fever.extraKeywords[j]);
    assert Respiratory.keywords[j] == Fever.extraKeywords[j];
    var fever := Fever.advice.conditions + Fever.extra.conditions;
    assert Contribution(Fever, text).conditions == fever;
    assert multiset(fever)["Common Cold"] == 1;
  }

  /** A respiratory match pushes "Common Cold" once. */
  lemma RespiratoryCold(text: string)
    requires Matches(Respiratory, text)
    ensures multiset(Contribution(Respiratory, text).conditions)["Common Cold"] == 1
  {
    assert multiset(Respiratory.advice.conditions)["Common Cold"] == 1;
  }

  /**
    Fever with cough or cold lists "Common Cold" twice, once from the nested
    fever block and once from the respiratory category: lists are not
    deduplicated.
   */
  lemma CommonColdTwice(text: string)
    requires !IsCritical(text) && Matches(Fever, text) && AnyIncluded(text, Fever.extraKeywords)
    ensures multiset(Analysis(text).possibleConditions)["Common Cold"] == 2
  {
    CategoryOrder();
    ListsInCategoryOrder(text);
    CommonColdOnlyInFirstTwo();
    CountInFirstTwo(Categories, text, "Common Cold");
    FeverWithCold(text);
    RespiratoryCold(text);
  }

  /** Every result without an emergency carries the fixed disclaimer and no emergency message. */
  lemma NonEmergencyDisclaimer(text: string)
    requires !IsCritical(text)
    ensures Analysis(text).disclaimer == Disclaimer
    ensures Analysis(text).message == None
    ensures Analysis(text).concernLevel != Severe && Analysis(text).urgency != Emergency
  {
    FoldConcern(Categories, text, Start(Rules));
    FoldUrgency(Categories, text, Start(Rules));
  }

  /** Inputs that differ only in the case of ASCII letters are evaluated alike once lowercased. */
  lemma CaseInsensitive(a: string, b: string)
    requires SameIgnoringCase(a, b)
    ensures Analysis(ToLower(a)) == Analysis(ToLower(b))
  {
    ToLowerIdentifiesCase(a, b);
  }
}
