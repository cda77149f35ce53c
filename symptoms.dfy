/**
  The rule-based symptom evaluator of backend/routes/symptoms.js and the
  `/check` route that guards it.

  `Analysis` is the evaluator stated as data: a fixed list of critical
  phrases that short-circuits to the emergency advisory, then a fold over
  eight keyword categories in source order, then the default advisory when
  nothing was found. `Evaluate` is the evaluator as the source runs it (a
  scan of the critical phrases with an early return, then one conditional
  update of the mutable locals per category, in order), proved equal to the
  fold; `AnalyzeSymptoms` runs it on the source's own table.
 */
module Symptoms {
  import opened Wrappers
  import opened Strings

  datatype Concern = Mild | Moderate | Severe
  datatype Urgency = Normal | Prompt | Emergency

  /** The result object of `analyzeSymptoms`; `message` exists on the emergency result only. */
  datatype Advisory = Advisory(
    concernLevel: Concern,
    urgency: Urgency,
    message: Option<string>,
    possibleConditions: seq<string>,
    homeCare: seq<string>,
    dietTips: seq<string>,
    suggestedSpecialty: string,
    disclaimer: string)

  /** The three lists a category pushes onto. */
  datatype Advice = Advice(conditions: seq<string>, homeCare: seq<string>, dietTips: seq<string>)

  const NoAdvice := Advice([], [], [])

  /** Pushing the items of `b` after those of `a`, list by list. */
  function Append(a: Advice, b: Advice): (r: Advice)
    ensures |r.conditions| == |a.conditions| + |b.conditions|
    ensures |r.homeCare| == |a.homeCare| + |b.homeCare|
    ensures |r.dietTips| == |a.dietTips| + |b.dietTips|
  {
    Advice(a.conditions + b.conditions, a.homeCare + b.homeCare, a.dietTips + b.dietTips)
  }

  /** Each list of `Append(a, b)` holds `a`'s items first, then `b`'s, none reordered or dropped. */
  lemma AppendKeepsOrder(a: Advice, b: Advice)
    ensures var r := Append(a, b);
      && r.conditions[..|a.conditions|] == a.conditions && r.conditions[|a.conditions|..] == b.conditions
      && r.homeCare[..|a.homeCare|] == a.homeCare && r.homeCare[|a.homeCare|..] == b.homeCare
      && r.dietTips[..|a.dietTips|] == a.dietTips && r.dietTips[|a.dietTips|..] == b.dietTips
  {
  }

  /**
    One keyword category: it matches when any of `keywords` is included;
    it then pushes `advice`, and `extra` too when one of `extraKeywords`
    is also included (the nested block of the fever category); it may
    raise the concern level, overwrite the specialty and set the urgency
    to prompt.
   */
  datatype Category = Category(
    keywords: seq<string>,
    advice: Advice,
    extraKeywords: seq<string>,
    extra: Advice,
    raisesConcern: bool,
    specialty: Option<string>,
    prompt: bool)

  /** Some keyword of `keywords` is a substring of `text`. */
  predicate AnyIncluded(text: string, keywords: seq<string>)
  {
    exists j :: 0 <= j < |keywords| && Includes(text, keywords[j])
  }

  const CriticalKeywords: seq<string> := [
    "chest pain", "difficulty breathing", "severe bleeding", "unconscious",
    "stroke", "heart attack", "suicide", "severe burn", "poisoning",
    "head injury", "can't breathe", "choking"
  ]

  predicate IsCritical(text: string)
  {
    AnyIncluded(text, CriticalKeywords)
  }

  const EmergencyAdvisory := Advisory(
    Severe,
    Emergency,
    Some("\U{26A0}\U{FE0F} EMERGENCY: Please call " +
         "emergency services (112/108) " +
         "immediately or visit the nearest " +
         "emergency room."),
    ["Medical Emergency"],
    ["Call emergency services immediately", "Do not delay seeking medical attention"],
    [],
    "Emergency Medicine",
    "This is a medical emergency. Seek immediate professional help.")

  const Disclaimer :=
    "\U{26A0}\U{FE0F} IMPORTANT: This is NOT " +
    "a medical diagnosis. This tool provides " +
    "general information only. Please " +
    "consult a qualified healthcare " +
    "professional for proper diagnosis and " +
    "treatment. If symptoms worsen or " +
    "persist, seek immediate medical " +
    "attention."

  const InitialSpecialty := "General Physician"

  const Fever := Category(
    ["fever", "temperature"],
    Advice(
      ["Viral Infection", "Bacterial Infection", "Flu"],
      ["Stay hydrated - drink plenty of water and fluids", "Rest adequately", "Take prescribed fever medication"],
      ["Light, easily digestible foods like khichdi, soup", "Fresh fruit juices (orange, coconut water)", "Avoid heavy, oily, or spicy foods"]),
    ["cough", "cold"],
    Advice(
      ["Common Cold", "Respiratory Infection"],
      ["Gargle with warm salt water", "Steam inhalation can help"],
      ["Warm ginger tea with honey", "Turmeric milk before bed"]),
    true,
    None,
    false)

  const Respiratory := Category(
    ["cough", "cold", "sore throat"],
    Advice(
      ["Upper Respiratory Infection", "Common Cold", "Throat Infection"],
      ["Warm water gargle with salt", "Stay warm and avoid cold drinks", "Rest your voice if throat is sore"],
      ["Warm soups and broths", "Honey with warm water or tea", "Avoid cold, icy foods"]),
    [], NoAdvice,
    true,
    Some("ENT Specialist or General Physician"),
    false)

  const Stomach := Category(
    ["stomach", "diarrhea", "vomit", "nausea", "acidity"],
    Advice(
      ["Gastroenteritis", "Food Poisoning", "Indigestion", "Acidity"],
      ["Stay hydrated with ORS or electrolyte solution", "Eat small, frequent meals", "Avoid solid food initially if vomiting"],
      ["BRAT diet: Bananas, Rice, Applesauce, Toast", "Plain yogurt (curd) with a pinch of salt", "Avoid spicy, oily, and fried foods",
       "Avoid dairy products except curd", "Ginger tea or jeera water for nausea"]),
    [], NoAdvice,
    true,
    Some("Gastroenterologist or General Physician"),
    false)

  const Headache := Category(
    ["headache", "migraine"],
    Advice(
      ["Tension Headache", "Migraine", "Dehydration", "Stress"],
      ["Rest in a dark, quiet room", "Apply cold compress on forehead", "Stay hydrated", "Practice relaxation techniques"],
      ["Drink plenty of water", "Avoid caffeine and alcohol", "Eat regular, balanced meals"]),
    [], NoAdvice,
    true,
    Some("Neurologist or General Physician"),
    false)

  const BodyPain := Category(
    ["body pain", "weakness", "fatigue", "tired"],
    Advice(
      ["Viral Infection", "Vitamin Deficiency", "Anemia", "Overexertion"],
      ["Adequate rest and sleep (7-8 hours)", "Light stretching or yoga", "Avoid strenuous activities"],
      ["Protein-rich foods: eggs, dal, chicken, fish", "Iron-rich foods: spinach, dates, raisins, beetroot",
       "Vitamin C foods: oranges, lemon, amla", "Dry fruits and nuts (almonds, walnuts)"]),
    [], NoAdvice,
    false,
    Some("General Physician"),
    false)

  const Skin := Category(
    ["rash", "itching", "skin", "allergy"],
    Advice(
      ["Allergic Reaction", "Skin Infection", "Dermatitis"],
      ["Avoid scratching the affected area", "Keep the area clean and dry", "Use prescribed antihistamines if needed"],
      ["Avoid known allergens", "Increase water intake", "Eat fresh fruits and vegetables"]),
    [], NoAdvice,
    false,
    Some("Dermatologist"),
    false)

  const Diabetes := Category(
    ["diabetes", "sugar", "frequent urination", "thirsty"],
    Advice(
      ["Diabetes", "High Blood Sugar", "Urinary Tract Infection"],
      ["Monitor blood sugar levels regularly", "Stay hydrated"],
      ["Low glycemic index foods", "Whole grains, vegetables, lean proteins", "Avoid sugary drinks and sweets",
       "Regular small meals throughout the day"]),
    [], NoAdvice,
    true,
    Some("Endocrinologist"),
    false)

  const Cardiac := Category(
    ["palpitation", "heart racing", "dizziness"],
    Advice(
      ["Cardiac Arrhythmia", "Anxiety", "Low Blood Pressure"],
      ["Sit or lie down if feeling dizzy", "Avoid caffeine and stimulants", "Practice deep breathing exercises"],
      ["Adequate salt intake for blood pressure", "Stay hydrated", "Avoid excessive caffeine"]),
    [], NoAdvice,
    true,
    Some("Cardiologist"),
    true)

  /** The categories in the order the source evaluates them. */
  const Categories: seq<Category> := [Fever, Respiratory, Stomach, Headache, BodyPain, Skin, Diabetes, Cardiac]

  /** Pushed when no category added a condition. */
  const DefaultAdvice := Advice(
    ["General health concern"],
    ["Monitor symptoms for 24-48 hours", "Stay hydrated and get adequate rest", "Maintain a balanced diet"],
    ["Eat balanced meals with fruits and vegetables", "Stay hydrated with water"])

  const DefaultAdvisory := Advisory(Mild, Normal, None, DefaultAdvice.conditions, DefaultAdvice.homeCare,
                                    DefaultAdvice.dietTips, InitialSpecialty, Disclaimer)

  predicate Matches(c: Category, text: string)
  {
    AnyIncluded(text, c.keywords)
  }

  /** What a category pushes for `text`: nothing, its advice, or its advice followed by its nested advice. */
  function Contribution(c: Category, text: string): Advice
  {
    if !Matches(c, text) then NoAdvice
    else if AnyIncluded(text, c.extraKeywords) then Append(c.advice, c.extra)
    else c.advice
  }

  /**
    Everything the evaluator's outcome depends on besides the text: the
    critical phrases and the emergency result, the ordered categories, the
    initial specialty, the default block and the disclaimer.
   */
  datatype RuleTable = RuleTable(
    critical: seq<string>,
    emergency: Advisory,
    categories: seq<Category>,
    initialSpecialty: string,
    fallback: Advice,
    disclaimer: string)

  /** The table written out in backend/routes/symptoms.js. */
  const Rules := RuleTable(CriticalKeywords, EmergencyAdvisory, Categories, InitialSpecialty, DefaultAdvice, Disclaimer)

  /** The evaluator's locals between two categories. */
  datatype Findings = Findings(concern: Concern, urgency: Urgency, advice: Advice, specialty: string)

  function Start(t: RuleTable): Findings
  {
    Findings(Mild, Normal, NoAdvice, t.initialSpecialty)
  }

  /** One category applied to the locals. */
  function Step(f: Findings, c: Category, text: string): Findings
  {
    if !Matches(c, text) then f
    else Findings(
      if c.raisesConcern then Moderate else f.concern,
      if c.prompt then Prompt else f.urgency,
      Append(f.advice, Contribution(c, text)),
      c.specialty.GetOr(f.specialty))
  }

  /** The categories applied in order. */
  function Fold(cats: seq<Category>, text: string, f: Findings): Findings
    decreases |cats|
  {
    if cats == [] then f else Fold(cats[1..], text, Step(f, cats[0], text))
  }

  /** The default block, then the result object of the non-emergency path. */
  function Finish(t: RuleTable, f: Findings): Advisory
  {
    var advice := if f.advice.conditions == [] then Append(f.advice, t.fallback) else f.advice;
    Advisory(f.concern, f.urgency, None, advice.conditions, advice.homeCare, advice.dietTips, f.specialty, t.disclaimer)
  }

  /** The outcome of evaluating `text` against a rule table. */
  function Evaluation(t: RuleTable, text: string): (r: Advisory)
    ensures AnyIncluded(text, t.critical) ==> r == t.emergency
    ensures !AnyIncluded(text, t.critical) ==> r.message.None? && r.disclaimer == t.disclaimer
    ensures !AnyIncluded(text, t.critical) && t.fallback.conditions != [] ==> r.possibleConditions != []
  {
    if AnyIncluded(text, t.critical) then t.emergency
    else Finish(t, Fold(t.categories, text, Start(t)))
  }

  /** `analyzeSymptoms` as a decision table over the (already lowercased) text. */
  function Analysis(text: string): (r: Advisory)
    ensures r.message.Some? <==> AnyIncluded(text, Rules.critical)
    ensures r.possibleConditions != []
  {
    Evaluation(Rules, text)
  }

  /** Applying categories one at a time from the front. */
  lemma FoldFront(cats: seq<Category>, text: string, f: Findings)
    requires cats != []
    ensures Fold(cats, text, f) == Fold(cats[1..], text, Step(f, cats[0], text))
  {
  }

  /**
    The evaluator's algorithm over a rule table: the critical phrases are
    scanned in order with an early return, then each category is applied in
    order to the mutable locals, then the default block runs when no
    condition was pushed.
   */
  method Evaluate(t: RuleTable, symptoms: string) returns (analysis: Advisory)
    ensures analysis == Evaluation(t, symptoms)
  {
    var concernLevel := Mild;
    var possibleConditions: seq<string> := [];
    var homeCare: seq<string> := [];
    var dietTips: seq<string> := [];
    var suggestedSpecialty := t.initialSpecialty;
    var urgency := Normal;

    for i := 0 to |t.critical|
      invariant forall j :: 0 <= j < i ==> !Includes(symptoms, t.critical[j])
    {
      if Includes(symptoms, t.critical[i]) {
        return t.emergency;
      }
    }

    for i := 0 to |t.categories|
      invariant Fold(t.categories, symptoms, Start(t))
             == Fold(t.categories[i..], symptoms,
                     Findings(concernLevel, urgency, Advice(possibleConditions, homeCare, dietTips), suggestedSpecialty))
    {
      var category := t.categories[i];
      ghost var before := Findings(concernLevel, urgency, Advice(possibleConditions, homeCare, dietTips), suggestedSpecialty);
      if Matches(category, symptoms) {
        if category.raisesConcern {
          concernLevel := Moderate;
        }
        if category.prompt {
          urgency := Prompt;
        }
        possibleConditions := possibleConditions + category.advice.conditions;
        homeCare := homeCare + category.advice.homeCare;
        dietTips := dietTips + category.advice.dietTips;
        if AnyIncluded(symptoms, category.extraKeywords) {
          possibleConditions := possibleConditions + category.extra.conditions;
          homeCare := homeCare + category.extra.homeCare;
          dietTips := dietTips + category.extra.dietTips;
        }
        if category.specialty.Some? {
          suggestedSpecialty := category.specialty.value;
        }
      }
      assert Step(before, category, symptoms)
          == Findings(concernLevel, urgency, Advice(possibleConditions, homeCare, dietTips), suggestedSpecialty);
      FoldFront(t.categories[i..], symptoms, before);
      assert t.categories[i..][1..] == t.categories[i + 1..];
    }

    if |possibleConditions| == 0 {
      possibleConditions := possibleConditions + t.fallback.conditions;
      homeCare := homeCare + t.fallback.homeCare;
      dietTips := dietTips + t.fallback.dietTips;
    }

    analysis := Advisory(concernLevel, urgency, None, possibleConditions, homeCare, dietTips, suggestedSpecialty, t.disclaimer);
  }

  /** `analyzeSymptoms(symptoms, age, gender)`: `age` and `gender` are accepted and never read. */
  method AnalyzeSymptoms(symptoms: string, age: Option<int>, gender: Option<string>) returns (analysis: Advisory)
    ensures analysis == Analysis(symptoms)
  {
    analysis := Evaluate(Rules, symptoms);
  }

  /** A request field as JavaScript sees it: absent, a string, or some other JSON value. */
  datatype Field = Absent | Text(s: string) | NonText(truthy: bool)

  /** The reply of `POST /check`. */
  datatype CheckReply = BadRequest | Analysed(analysis: Advisory) | ServerError {
    function Code(): int
    {
      match this
      case BadRequest => 400
      case Analysed(_) => 200
      case ServerError => 500
    }
  }

  /**
    `POST /check`: a missing or falsy `symptoms` is a 400; a truthy value
    that is not a string has no `toLowerCase` and fails with 500; a string
    is lowercased and evaluated.
   */
  method CheckSymptoms(symptoms: Field, age: Option<int>, gender: Option<string>) returns (reply: CheckReply)
    ensures reply.BadRequest? <==> symptoms == Absent || symptoms == Text([]) || symptoms == NonText(false)
    ensures reply.ServerError? <==> symptoms == NonText(true)
    ensures symptoms.Text? && symptoms.s != [] ==> reply == Analysed(Analysis(ToLower(symptoms.s)))
  {
    match symptoms
    case Absent => return BadRequest;
    case NonText(truthy) =>
      if !truthy { return BadRequest; }
      return ServerError;
    case Text(s) =>
      if s == [] { return BadRequest; }
      var symptomsLower := ToLower(s);
      var analysis := AnalyzeSymptoms(symptomsLower, age, gender);
      return Analysed(analysis);
  }
}
