/** What the recipe list and the detail view show: the per-recipe verdict
    label, the shortage notice, and the ingredient lines of the selected
    recipe with their catalog fallbacks. */
module RecipeList {
  import opened RecipeTypes
  import opened Catalog
  import opened FeasibilitySort

  /** The tag shown beside each recipe: `true` is "Possible", `false` is
      "Not possible", anything else is "Unsure". */
  function Label(p: Possible): (s: string)
    ensures s == "Possible" <==> p == Feasible
    ensures s == "Not possible" <==> p == Infeasible
    ensures s == "Unsure" <==> p == Undetermined
  {
    assert |"Possible"| == 8 && |"Not possible"| == 12 && |"Unsure"| == 6;
    match p
    case Feasible => "Possible"
    case Infeasible => "Not possible"
    case Undetermined => "Unsure"
  }

  /** Two recipes carry the same tag exactly when the sort puts them in the same tier. */
  lemma LabelMatchesTier(p: Possible, q: Possible)
    ensures Label(p) == Label(q) <==> Priority(p) == Priority(q)
  {
  }

  /** `recipes.every(r => r.possible === false)`: the condition of the shortage notice. */
  function AllInfeasible(recipes: seq<UserRecipe>): (r: bool)
    ensures r <==> forall i :: 0 <= i < |recipes| ==> recipes[i].possible == Infeasible
  {
    recipes == [] || (recipes[0].possible == Infeasible && AllInfeasible(recipes[1..]))
  }

  lemma {:induction false} ShortageMeansNoOtherTier(recipes: seq<UserRecipe>)
    ensures AllInfeasible(recipes) <==> Tier(Feasible, recipes) == [] && Tier(Undetermined, recipes) == []
  {
    if recipes != [] {
      ShortageMeansNoOtherTier(recipes[1..]);
    }
  }

  /** The notice does not depend on the order of the list. */
  lemma ShortageIgnoresOrder(recipes: seq<UserRecipe>, shown: seq<UserRecipe>)
    requires multiset(shown) == multiset(recipes)
    ensures AllInfeasible(shown) == AllInfeasible(recipes)
  {
    if AllInfeasible(recipes) {
      forall i | 0 <= i < |shown|
        ensures shown[i].possible == Infeasible
      {
        assert shown[i] in multiset(recipes);
      }
    } else {
      var k :| 0 <= k < |recipes| && recipes[k].possible != Infeasible;
      assert recipes[k] in multiset(shown);
    }
  }

  /** The notice is shown exactly when every row of the sorted list is tagged
      "Not possible"; with no recipes at all it is shown. */
  lemma ShortageMatchesLabels(step: ConnectionStep)
    ensures AllInfeasible(step.recipes) <==>
      forall i :: 0 <= i < |SortedRecipes(Some(step))| ==> Label(SortedRecipes(Some(step))[i].possible) == "Not possible"
    ensures step.recipes == [] ==> AllInfeasible(step.recipes)
  {
    ShortageIgnoresOrder(step.recipes, SortedRecipes(Some(step)));
  }

  /** One line of the detail view's ingredient list: `name: amount unit`. */
  datatype IngredientLine = IngredientLine(name: string, amount: int, unit: string)

  /** The detail view of a selected recipe: its title, ingredient lines and steps. */
  datatype DetailView = DetailView(title: string, lines: seq<IngredientLine>, steps: seq<string>)

  function RenderLine(m: Index, ing: Ingredient): (line: IngredientLine)
    ensures line.amount == ing.amount
    ensures ing.ingredient !in m ==> line.name == ing.ingredient && line.unit == ""
    ensures ing.ingredient in m ==> line.unit == AmountTypeText(m[ing.ingredient].amountType)
    ensures ing.ingredient in m && m[ing.ingredient].name != "" ==> line.name == m[ing.ingredient].name
    ensures ing.ingredient in m && m[ing.ingredient].name == "" ==> line.name == ing.ingredient
  {
    IngredientLine(DisplayName(m, ing.ingredient), ing.amount, UnitText(m, ing.ingredient))
  }

  function RenderDetail(m: Index, r: Recipe): (v: DetailView)
    ensures v.title == r.name && v.steps == r.recipeSteps
    ensures |v.lines| == |r.ingredients|
    ensures forall i :: 0 <= i < |v.lines| ==> v.lines[i] == RenderLine(m, r.ingredients[i])
  {
    DetailView(r.name, seq(|r.ingredients|, i requires 0 <= i < |r.ingredients| => RenderLine(m, r.ingredients[i])), r.recipeSteps)
  }

  /** With a catalog that does not list an ingredient, its line in the
      detail view shows the raw id and no unit. */
  lemma UnlistedLineFallsBack(catalog: seq<IngredientDescription>, ing: Ingredient)
    requires forall j :: 0 <= j < |catalog| ==> catalog[j].id != ing.ingredient
    ensures RenderLine(CatalogIndex(catalog), ing) == IngredientLine(ing.ingredient, ing.amount, "")
  {
  }
}
