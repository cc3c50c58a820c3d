/**
 * The recommendation engine and the catalog filters of
 * src/utils/recommendationLogic.js. The catalogs are parameters rather than
 * module globals, so the functions can be stated for every catalog.
 */
module RecommendationLogic {
  import opened JsBuiltins
  import opened Catalog

  /** One survey answer: a single option, or the options picked for a "multiple" question. */
  datatype AnswerValue = Choice(text: string) | Choices(options: seq<string>)

  /** Survey answers by question index; an unanswered index reads as `undefined` (None). */
  type Answers = seq<Option<AnswerValue>>

  /** The pair of lists the engine returns. */
  datatype Recommendations = Recommendations(celebrities: seq<Celebrity>, products: seq<Product>)

  /** `answers[i]`: `undefined` past the end of the array. */
  function At(answers: Answers, i: nat): Option<AnswerValue>
  {
    if i < |answers| then answers[i] else None
  }

  /** JavaScript truthiness of an answer: `undefined` and `""` are falsy, every array is truthy. */
  predicate Truthy(a: Option<AnswerValue>)
  {
    match a
    case None => false
    case Some(Choice(text)) => text != ""
    case Some(Choices(_)) => true
  }

  // ---------------------------------------------------------------------------
  // Style preferences: `stylePreferences = answers[1] || []`
  // ---------------------------------------------------------------------------

  /**
   * `stylePreferences.includes(x)`: list membership when question 1 holds the
   * list of picked options, substring search when it holds a non-empty
   * string, and false when it is absent or empty (the `|| []` default).
   */
  predicate StyleIncludes(answers: Answers, x: string)
    ensures StyleIncludes(answers, x) ==> Truthy(At(answers, 1))
    ensures At(answers, 1) == Some(Choice(x)) && x != "" ==> StyleIncludes(answers, x)
  {
    match At(answers, 1)
    case None => false
    case Some(Choice(text)) => text != "" && Includes(text, x)
    case Some(Choices(options)) => x in options
  }

  /** The celebrity test: some vibe tag is a style, or a style once " & Timeless" or " & Statement" is appended. */
  predicate CelebrityMatches(c: Celebrity, answers: Answers)
    ensures CelebrityMatches(c, answers) ==> Truthy(At(answers, 1)) && c.vibeTags != []
  {
    exists tag | tag in c.vibeTags ::
      || StyleIncludes(answers, tag)
      || StyleIncludes(answers, tag + " & Timeless")
      || StyleIncludes(answers, tag + " & Statement")
  }

  /** The celebrity test as a value, for `Filter`. */
  function CelebrityTest(answers: Answers): Celebrity -> bool
  {
    c => CelebrityMatches(c, answers)
  }

  // ---------------------------------------------------------------------------
  // Product score: the `matches` counter
  // ---------------------------------------------------------------------------

  /** The style criterion for products: an exact tag, with no suffix forms. */
  predicate StyleMatch(p: Product, answers: Answers)
    ensures StyleMatch(p, answers) ==> Truthy(At(answers, 1)) && p.vibeTags != []
  {
    exists tag | tag in p.vibeTags :: StyleIncludes(answers, tag)
  }

  /**
   * The metal answer can be lower-cased: it is absent or a string. (An array
   * there has no `toLowerCase` and the engine throws.)
   */
  predicate MetalAnswerUsable(answers: Answers)
  {
    !(At(answers, 2).Some? && At(answers, 2).value.Choices?)
  }

  /** The metal criterion: a non-empty metal answer occurs in the colour label, ignoring case. */
  predicate MetalMatch(p: Product, answers: Answers)
    requires MetalAnswerUsable(answers)
    ensures MetalMatch(p, answers) ==> Truthy(At(answers, 2))
    ensures (&& At(answers, 2).Some? && At(answers, 2).value.Choice? && At(answers, 2).value.text != ""
             && ToLowerCase(At(answers, 2).value.text) == ToLowerCase(p.color)) ==> MetalMatch(p, answers)
  {
    match At(answers, 2)
    case Some(Choice(metal)) => metal != "" && Includes(ToLowerCase(p.color), ToLowerCase(metal))
    case _ => false
  }

  /** The four budget labels of the survey's last question. */
  const BudgetBrackets: seq<string> :=
    ["Under 50,000 INR", "50,000 - 150,000 INR", "150,000 - 500,000 INR", "500,000+ INR"]

  /** The four budget brackets; any other label holds no price. */
  predicate InBracket(bracket: string, price: int)
    ensures InBracket(bracket, price) ==> bracket in BudgetBrackets
  {
    if bracket == "Under 50,000 INR" then price < 50000
    else if bracket == "50,000 - 150,000 INR" then 50000 <= price <= 150000
    else if bracket == "150,000 - 500,000 INR" then 150000 <= price <= 500000
    else if bracket == "500,000+ INR" then price >= 500000
    else false
  }

  /**
   * The budget criterion: the price lies in the bracket named by question 4.
   * An array there is truthy but equals no label, so it never matches.
   */
  predicate BudgetMatch(p: Product, answers: Answers)
    ensures BudgetMatch(p, answers) ==>
      Truthy(At(answers, 4)) && At(answers, 4).value.Choice? && At(answers, 4).value.text in BudgetBrackets
  {
    match At(answers, 4)
    case Some(Choice(bracket)) => bracket != "" && InBracket(bracket, p.price)
    case _ => false
  }

  /** The `matches` counter: one point per criterion met. */
  function MatchCount(p: Product, answers: Answers): (n: nat)
    requires MetalAnswerUsable(answers)
    ensures n <= 3
    ensures n > 0 <==> StyleMatch(p, answers) || MetalMatch(p, answers) || BudgetMatch(p, answers)
  {
    (if StyleMatch(p, answers) then 1 else 0)
    + (if MetalMatch(p, answers) then 1 else 0)
    + (if BudgetMatch(p, answers) then 1 else 0)
  }

  /** The product test, `matches > 0`, as a value for `Filter`. */
  function ProductTest(answers: Answers): Product -> bool
    requires MetalAnswerUsable(answers)
  {
    p => MatchCount(p, answers) > 0
  }

  // ---------------------------------------------------------------------------
  // generateRecommendations
  // ---------------------------------------------------------------------------

  /**
   * The celebrity half of `generateRecommendations`: the matching celebrities,
   * or the whole catalog when none matches.
   */
  function RecommendCelebrities(celebrities: seq<Celebrity>, answers: Answers): (r: seq<Celebrity>)
    ensures |celebrities| > 0 ==> |r| > 0
    ensures (forall c :: c in celebrities ==> !CelebrityMatches(c, answers)) ==> r == celebrities
    ensures (exists c :: c in celebrities && CelebrityMatches(c, answers)) ==>
      SelectsExactly(r, celebrities, CelebrityTest(answers))
  {
    var matched := Filter(celebrities, CelebrityTest(answers));
    FilterEmpty(celebrities, CelebrityTest(answers));
    FilterSelectsExactly(celebrities, CelebrityTest(answers));
    if |matched| > 0 then matched else celebrities
  }

  /**
   * The product half of `generateRecommendations`: the products meeting at
   * least one criterion, or the whole catalog when none does.
   */
  function RecommendProducts(products: seq<Product>, answers: Answers): (r: seq<Product>)
    requires MetalAnswerUsable(answers)
    ensures |products| > 0 ==> |r| > 0
    ensures (forall p :: p in products ==> MatchCount(p, answers) == 0) ==> r == products
    ensures (exists p :: p in products && MatchCount(p, answers) > 0) ==>
      SelectsExactly(r, products, ProductTest(answers))
  {
    var matched := Filter(products, ProductTest(answers));
    FilterEmpty(products, ProductTest(answers));
    FilterSelectsExactly(products, ProductTest(answers));
    if |matched| > 0 then matched else products
  }

  /** `generateRecommendations`: both lists, each with its own fallback. */
  function GenerateRecommendations(celebrities: seq<Celebrity>, products: seq<Product>, answers: Answers)
    : (r: Recommendations)
    requires MetalAnswerUsable(answers)
    ensures |celebrities| > 0 ==> |r.celebrities| > 0
    ensures |products| > 0 ==> |r.products| > 0
  {
    Recommendations(RecommendCelebrities(celebrities, answers), RecommendProducts(products, answers))
  }

  // ---------------------------------------------------------------------------
  // filterProductsByCategory, filterProductsByCelebrity
  // ---------------------------------------------------------------------------

  /** The category test as a value, for `Filter`. */
  function CategoryIs(category: string): Product -> bool
  {
    (p: Product) => p.category == category
  }

  /** The celebrity-id test as a value, for `Filter`. */
  function CelebrityIdIs(celebrityId: int): Product -> bool
  {
    (p: Product) => p.celebrityId == celebrityId
  }

  /**
   * `filterProductsByCategory`: everything for a falsy key (absent or ""),
   * otherwise exactly the products whose category equals the key, in order.
   */
  function FilterProductsByCategory(products: seq<Product>, category: Option<string>): (r: seq<Product>)
    ensures category == None || category == Some("") ==> r == products
    ensures category.Some? && category.value != "" ==>
      SelectsExactly(r, products, CategoryIs(category.value))
  {
    if category == None || category == Some("") then products
    else
      FilterSelectsExactly(products, CategoryIs(category.value));
      Filter(products, CategoryIs(category.value))
  }

  /**
   * `filterProductsByCelebrity`: everything for a falsy id (absent or 0),
   * otherwise exactly the products of that celebrity, in order.
   */
  function FilterProductsByCelebrity(products: seq<Product>, celebrityId: Option<int>): (r: seq<Product>)
    ensures celebrityId == None || celebrityId == Some(0) ==> r == products
    ensures celebrityId.Some? && celebrityId.value != 0 ==>
      SelectsExactly(r, products, CelebrityIdIs(celebrityId.value))
  {
    if celebrityId == None || celebrityId == Some(0) then products
    else
      FilterSelectsExactly(products, CelebrityIdIs(celebrityId.value));
      Filter(products, CelebrityIdIs(celebrityId.value))
  }

  // ---------------------------------------------------------------------------
  // Properties
  // ---------------------------------------------------------------------------

  /**
   * OR semantics: once some product meets a criterion, the recommended
   * products are exactly those meeting at least one of style, metal, budget.
   */
  lemma RecommendedProductsMeetSomeCriterion(products: seq<Product>, answers: Answers)
    requires MetalAnswerUsable(answers)
    requires exists p :: p in products && MatchCount(p, answers) > 0
    ensures forall k :: 0 <= k < |RecommendProducts(products, answers)| ==>
      var p := RecommendProducts(products, answers)[k];
      p in products && (StyleMatch(p, answers) || MetalMatch(p, answers) || BudgetMatch(p, answers))
    ensures forall i :: 0 <= i < |products| ==>
      (StyleMatch(products[i], answers) || MetalMatch(products[i], answers) || BudgetMatch(products[i], answers) ==>
       products[i] in RecommendProducts(products, answers))
  {
    SelectionMembership(RecommendProducts(products, answers), products, ProductTest(answers));
  }

  /** A celebrity sharing a vibe tag with the styles matches; the product style test implies the celebrity test. */
  lemma CelebrityTestExtendsStyleTest(c: Celebrity, p: Product, answers: Answers)
    requires c.vibeTags == p.vibeTags
    requires StyleMatch(p, answers)
    ensures CelebrityMatches(c, answers)
  {
    var tag :| tag in p.vibeTags && StyleIncludes(answers, tag);
    assert tag in c.vibeTags;
  }

  /** With no style, metal or budget answer, nothing matches and both catalogs come back whole. */
  lemma UnansweredSurveyShowsEverything(celebrities: seq<Celebrity>, products: seq<Product>, answers: Answers)
    requires At(answers, 1) == None && At(answers, 2) == None && At(answers, 4) == None
    ensures GenerateRecommendations(celebrities, products, answers) == Recommendations(celebrities, products)
  {
  }

  /** The bracket edges: each range is closed, "Under" is open, and 150,000 and 500,000 lie in two brackets. */
  lemma BudgetBracketEdges()
    ensures !InBracket("Under 50,000 INR", 50000) && InBracket("Under 50,000 INR", 49999)
    ensures InBracket("50,000 - 150,000 INR", 50000) && InBracket("50,000 - 150,000 INR", 150000)
    ensures InBracket("150,000 - 500,000 INR", 150000) && InBracket("150,000 - 500,000 INR", 500000)
    ensures InBracket("500,000+ INR", 500000) && !InBracket("500,000+ INR", 499999)
    ensures !InBracket("50,000 - 150,000 INR", 150001) && !InBracket("150,000 - 500,000 INR", 500001)
  {
  }

  /** Every price lies in some bracket, and a label outside the four holds none. */
  lemma BracketsCoverEveryPrice(price: int, other: string)
    requires other !in BudgetBrackets
    ensures exists b :: b in BudgetBrackets && InBracket(b, price)
    ensures !InBracket(other, price)
  {
    if price < 50000 {
      assert InBracket("Under 50,000 INR", price);
    } else if price <= 150000 {
      assert InBracket("50,000 - 150,000 INR", price);
    } else if price <= 500000 {
      assert InBracket("150,000 - 500,000 INR", price);
    } else {
      assert InBracket("500,000+ INR", price);
    }
  }

  // ---------------------------------------------------------------------------
  // The bundled catalog as examples
  // ---------------------------------------------------------------------------

  /** The survey's "Classic & Timeless" style, and nothing else answered. */
  const ClassicTimeless: Answers := [None, Some(Choices(["Classic & Timeless"]))]

  /** Zendaya's tag "Classic" reaches "Classic & Timeless" through the suffix heuristic. */
  lemma ZendayaMatchesClassicTimeless()
    ensures CelebrityMatches(Zendaya, ClassicTimeless)
  {
    assert "Classic" + " & Timeless" == "Classic & Timeless";
    assert StyleIncludes(ClassicTimeless, "Classic" + " & Timeless");
  }

  /** None of Rihanna's tags, suffixed or not, is "Classic & Timeless". */
  lemma RihannaMissesClassicTimeless()
    ensures !CelebrityMatches(Rihanna, ClassicTimeless)
  {
    forall tag | tag in Rihanna.vibeTags
      ensures !StyleIncludes(ClassicTimeless, tag)
      ensures !StyleIncludes(ClassicTimeless, tag + " & Timeless")
      ensures !StyleIncludes(ClassicTimeless, tag + " & Statement")
    {
      assert (tag + " & Timeless")[0] == tag[0] != 'C';
    }
  }

  /** None of Blake Lively's tags, suffixed or not, is "Classic & Timeless". */
  lemma BlakeLivelyMissesClassicTimeless()
    ensures !CelebrityMatches(BlakeLively, ClassicTimeless)
  {
    forall tag | tag in BlakeLively.vibeTags
      ensures !StyleIncludes(ClassicTimeless, tag)
      ensures !StyleIncludes(ClassicTimeless, tag + " & Timeless")
      ensures !StyleIncludes(ClassicTimeless, tag + " & Statement")
    {
      assert (tag + " & Timeless")[0] == tag[0] != 'C';
    }
  }

  /** The product style test takes exact tags only, so no bundled product meets "Classic & Timeless". */
  lemma ClassicTimelessProducts()
    ensures forall p :: p in Products ==> MatchCount(p, ClassicTimeless) == 0
  {
    assert !StyleMatch(StarCrossedNecklace, ClassicTimeless);
    assert !StyleMatch(WanderlustNecklace, ClassicTimeless);
    assert !StyleMatch(SereneNecklace, ClassicTimeless);
    assert !StyleMatch(DropEarrings, ClassicTimeless);
  }

  /**
   * "Classic & Timeless" recommends Zendaya alone; no product matches it,
   * Serene's "Classic" tag included, so every product comes back.
   */
  lemma ClassicTimelessExample()
    ensures RecommendCelebrities(Celebrities, ClassicTimeless) == [Zendaya]
    ensures RecommendProducts(Products, ClassicTimeless) == Products
  {
    ClassicTimelessCelebrities();
    ClassicTimelessProducts();
    FilterEmpty(Products, ProductTest(ClassicTimeless));
  }

  /** Filtering the bundled celebrities by "Classic & Timeless" keeps Zendaya alone. */
  lemma ClassicTimelessCelebrities()
    ensures Filter(Celebrities, CelebrityTest(ClassicTimeless)) == [Zendaya]
  {
    ZendayaMatchesClassicTimeless();
    RihannaMissesClassicTimeless();
    BlakeLivelyMissesClassicTimeless();
    var test := CelebrityTest(ClassicTimeless);
    assert test(Zendaya) && !test(BlakeLively) && !test(Rihanna);
    FilterOfThree(Rihanna, BlakeLively, Zendaya, test);
  }


  /** Only a budget answer: question 4 says "50,000 - 150,000 INR". */
  const MidBudget: Answers := [None, None, None, None, Some(Choice("50,000 - 150,000 INR"))]

  /** Of the bundled products only the 68,963 necklace lies in 50,000 - 150,000. */
  lemma MidBudgetScores()
    ensures MatchCount(StarCrossedNecklace, MidBudget) == 1
    ensures MatchCount(WanderlustNecklace, MidBudget) == 0
    ensures MatchCount(SereneNecklace, MidBudget) == 0
    ensures MatchCount(DropEarrings, MidBudget) == 0
  {
    assert At(MidBudget, 1) == None && At(MidBudget, 2) == None;
    assert At(MidBudget, 4) == Some(Choice("50,000 - 150,000 INR"));
  }

  /** A budget of "50,000 - 150,000 INR" alone recommends only the 68,963 necklace. */
  lemma MidBudgetExample()
    ensures RecommendProducts(Products, MidBudget) == [StarCrossedNecklace]
  {
    MidBudgetFilter();
  }

  /** Filtering the bundled products by the mid budget keeps the 68,963 necklace alone. */
  lemma MidBudgetFilter()
    ensures Filter(Products, ProductTest(MidBudget)) == [StarCrossedNecklace]
  {
    MidBudgetScores();
    var test := ProductTest(MidBudget);
    assert test(StarCrossedNecklace) && !test(WanderlustNecklace) && !test(SereneNecklace) && !test(DropEarrings);
    FilterOfFour(StarCrossedNecklace, WanderlustNecklace, SereneNecklace, DropEarrings, test);
  }


  /**
   * The category grid's necklace tile selects "NECKLACE", but the catalog
   * labels necklaces "NECKLACES": the exact-match filter finds nothing for
   * the first and the three necklaces for the second.
   */
  lemma NecklaceCategoryExample()
    ensures FilterProductsByCategory(Products, Some("NECKLACE")) == []
  {
    FilterEmpty(Products, CategoryIs("NECKLACE"));
  }

  /** The plural label, which the products carry, selects the three necklaces in catalog order. */
  lemma NecklacesCategoryExample()
    ensures FilterProductsByCategory(Products, Some("NECKLACES"))
      == [StarCrossedNecklace, WanderlustNecklace, SereneNecklace]
  {
    NecklacesFilter();
  }

  lemma NecklacesFilter()
    ensures Filter(Products, CategoryIs("NECKLACES")) == [StarCrossedNecklace, WanderlustNecklace, SereneNecklace]
  {
    var test := CategoryIs("NECKLACES");
    assert test(StarCrossedNecklace) && test(WanderlustNecklace) && test(SereneNecklace) && !test(DropEarrings);
    FilterOfFour(StarCrossedNecklace, WanderlustNecklace, SereneNecklace, DropEarrings, test);
  }


  /** Only a metal answer, in capitals: question 2 says "ROSE GOLD". */
  const RoseGoldShouted: Answers := [None, None, Some(Choice("ROSE GOLD"))]

  /** The metal test ignores case: "ROSE GOLD" finds the "Rose Gold" earrings and not the "Yellow Gold" necklaces. */
  lemma MetalIgnoresCaseExample()
    ensures MetalMatch(DropEarrings, RoseGoldShouted)
    ensures !MetalMatch(SereneNecklace, RoseGoldShouted)
  {
    assert ToLowerCase("ROSE GOLD") == "rose gold";
    assert ToLowerCase("Rose Gold") == "rose gold";
    assert ToLowerCase("Yellow Gold") == "yellow gold";
    assert !Includes("yellow gold", "rose gold") by {
      forall i | 0 <= i <= 2 ensures !("rose gold" <= "yellow gold"[i..]) {
        assert "yellow gold"[i..][0] != 'r';
      }
    }
  }
}
