/** The data exchanged between the recipe helper client, its ingredient
    catalog endpoint and its live feasibility stream.  Numbers (`amount`,
    `weight`) are modelled as integers: the client only displays them or
    compares them with 0. */
module RecipeTypes {

  datatype Option<+T> = None | Some(value: T)

  /** The three unit names an ingredient's amount can be given in. */
  datatype AmountType = Millilitres | Grams | Pieces

  /** An entry of the ingredient catalog. */
  datatype IngredientDescription = IngredientDescription(id: string, name: string, amountType: AmountType)

  /** A line item of a recipe; `ingredient` is an id that the catalog may or may not know. */
  datatype Ingredient = Ingredient(ingredient: string, amount: int)

  datatype Recipe = Recipe(name: string, recipeSteps: seq<string>, ingredients: seq<Ingredient>)

  /** An ingredient whose possession is not known yet; weight 0 means "do not ask". */
  datatype UnknownIngredient = UnknownIngredient(ingredient: string, weight: int)

  /** The client's answer to a disambiguation question. */
  datatype IngredientInfo = IngredientInfo(ingredient: string, has: bool)

  /** The server's verdict on a recipe: `true`, `null` or `false` on the wire. */
  datatype Possible = Feasible | Undetermined | Infeasible

  datatype UserRecipe = UserRecipe(recipe: Recipe, possible: Possible)

  /** One complete snapshot of the live stream. */
  datatype ConnectionStep = ConnectionStep(unknownIngredients: seq<UnknownIngredient>, recipes: seq<UserRecipe>)

  /** The text the client prints for a unit. */
  function AmountTypeText(t: AmountType): (s: string)
    ensures s != ""
    ensures s == "Millilitres" <==> t == Millilitres
    ensures s == "Grams" <==> t == Grams
    ensures s == "Pieces" <==> t == Pieces
  {
    assert |"Millilitres"| == 11 && |"Grams"| == 5 && |"Pieces"| == 6;
    match t
    case Millilitres => "Millilitres"
    case Grams => "Grams"
    case Pieces => "Pieces"
  }
}
