/** The component's state cells and the event handlers that overwrite them:
    the catalog list, whether the live socket has opened, the latest
    snapshot and the recipe open in the detail view.  `outbox` records every
    answer handed to the socket, in order; it stands for the wire and is
    not a cell of the client. */
module Session {
  import opened RecipeTypes
  import opened Catalog
  import opened FeasibilitySort
  import opened RecipeList
  import opened Disambiguation

  class AppSession {
    var ingredients: seq<IngredientDescription>
    var socketOpen: bool
    var connectionStep: Option<ConnectionStep>
    var selectedRecipe: Option<Recipe>
    ghost var outbox: seq<IngredientInfo>

    // The socket delivers messages only after it has opened, and the answer
    // buttons need a snapshot, so in the component an answer never meets a
    // closed socket.  The class does not impose that order on its callers:
    // `OnMessage` may come before `OnOpen`, which covers more than can happen.

    /** The first render: empty catalog, no socket, no snapshot, nothing selected. */
    constructor ()
      ensures ingredients == [] && !socketOpen && connectionStep == None && selectedRecipe == None
      ensures outbox == []
    {
      ingredients := [];
      socketOpen := false;
      connectionStep := None;
      selectedRecipe := None;
      outbox := [];
    }

    /** `ingredientsMap`, recomputed from the current catalog list. */
    function IngredientsMap(): Index
      reads this
    {
      CatalogIndex(ingredients)
    }

    /** `sortedRecipes`, recomputed from the current snapshot. */
    function Recipes(): seq<UserRecipe>
      reads this
    {
      SortedRecipes(connectionStep)
    }

    /** The question heading, shown only once a snapshot has arrived. */
    function Question(): (q: Option<string>)
      reads this
      ensures q.Some? <==> connectionStep.Some? && ActiveQuestion(connectionStep.value).Some?
      ensures q.Some? ==> (q.value ==
        "Do you have " + PromptName(CatalogIndex(ingredients), connectionStep.value.unknownIngredients[0].ingredient) + "?")
    {
      match connectionStep
      case Some(step) => QuestionText(IngredientsMap(), step)
      case None => None
    }

    /** Whether the shortage notice is on screen. */
    function ShortageShown(): (shown: bool)
      reads this
      ensures shown <==> (connectionStep.Some? &&
        forall i :: 0 <= i < |connectionStep.value.recipes| ==> connectionStep.value.recipes[i].possible == Infeasible)
    {
      connectionStep.Some? && AllInfeasible(connectionStep.value.recipes)
    }

    /** The detail view, open exactly while a recipe is selected. */
    function Detail(): (d: Option<DetailView>)
      reads this
      ensures d.Some? <==> selectedRecipe.Some?
      ensures d.Some? ==> d.value.title == selectedRecipe.value.name && d.value.steps == selectedRecipe.value.recipeSteps
      ensures d.Some? ==> |d.value.lines| == |selectedRecipe.value.ingredients|
      ensures d.Some? ==> forall i :: 0 <= i < |d.value.lines| ==>
        d.value.lines[i] == RenderLine(CatalogIndex(ingredients), selectedRecipe.value.ingredients[i])
    {
      match selectedRecipe
      case Some(r) => Some(RenderDetail(IngredientsMap(), r))
      case None => None
    }

    /** The catalog fetch resolved with `data`. */
    method OnCatalog(data: seq<IngredientDescription>)
      modifies this
      ensures ingredients == data
      ensures socketOpen == old(socketOpen) && connectionStep == old(connectionStep)
      ensures selectedRecipe == old(selectedRecipe) && outbox == old(outbox)
    {
      ingredients := data;
    }

    /** The socket's `onopen`: from now on sends go out. */
    method OnOpen()
      modifies this
      ensures socketOpen
      ensures ingredients == old(ingredients) && connectionStep == old(connectionStep)
      ensures selectedRecipe == old(selectedRecipe) && outbox == old(outbox)
    {
      socketOpen := true;
    }

    /** The socket's `onmessage`: the snapshot replaces the previous one
        entirely; the selection is not touched. */
    method OnMessage(step: ConnectionStep)
      modifies this
      ensures connectionStep == Some(step)
      ensures ingredients == old(ingredients) && socketOpen == old(socketOpen)
      ensures selectedRecipe == old(selectedRecipe) && outbox == old(outbox)
    {
      connectionStep := Some(step);
    }

    /** `sendIngredientInfo`: goes out only when the socket has opened, and is dropped otherwise. */
    method SendIngredientInfo(info: IngredientInfo)
      modifies this
      ensures outbox == if old(socketOpen) then old(outbox) + [info] else old(outbox)
      ensures ingredients == old(ingredients) && socketOpen == old(socketOpen)
      ensures connectionStep == old(connectionStep) && selectedRecipe == old(selectedRecipe)
    {
      if socketOpen {
        outbox := outbox + [info];
      }
    }

    /** A click on Yes (`has` true) or No (`has` false); the buttons exist only while a question is shown. */
    method Answer(has: bool)
      requires connectionStep.Some? && ActiveQuestion(connectionStep.value).Some?
      modifies this
      ensures old(socketOpen) ==>
        outbox == old(outbox) + [IngredientInfo(old(connectionStep).value.unknownIngredients[0].ingredient, has)]
      ensures !old(socketOpen) ==> outbox == old(outbox)
      ensures ingredients == old(ingredients) && socketOpen == old(socketOpen)
      ensures connectionStep == old(connectionStep) && selectedRecipe == old(selectedRecipe)
      ensures Question() == old(Question())
    {
      SendIngredientInfo(AnswerFor(connectionStep.value, has));
    }

    /** A click on a recipe row opens it in the detail view. */
    method Select(r: Recipe)
      modifies this
      ensures selectedRecipe == Some(r)
      ensures ingredients == old(ingredients) && socketOpen == old(socketOpen)
      ensures connectionStep == old(connectionStep) && outbox == old(outbox)
    {
      selectedRecipe := Some(r);
    }

    /** The close buttons of the detail view. */
    method Clear()
      modifies this
      ensures selectedRecipe == None
      ensures ingredients == old(ingredients) && socketOpen == old(socketOpen)
      ensures connectionStep == old(connectionStep) && outbox == old(outbox)
    {
      selectedRecipe := None;
    }
  }

  /** The rendering of a one-recipe snapshot with a one-entry catalog that
      does not list the ingredient asked about. */
  lemma ExampleRendering()
    ensures var flour := IngredientDescription("flour", "Flour", Grams);
            var cake := Recipe("Cake", ["Mix", "Bake"], [Ingredient("flour", 200)]);
            var step := ConnectionStep([UnknownIngredient("egg", 1)], [UserRecipe(cake, Undetermined)]);
            QuestionText(CatalogIndex([flour]), step) == Some("Do you have this ingredient?") &&
            SortedRecipes(Some(step)) == [UserRecipe(cake, Undetermined)] &&
            Label(SortedRecipes(Some(step))[0].possible) == "Unsure" &&
            !AllInfeasible(step.recipes) &&
            RenderDetail(CatalogIndex([flour]), cake) == DetailView("Cake", [IngredientLine("Flour", 200, "Grams")], ["Mix", "Bake"])
  {
    var flour := IngredientDescription("flour", "Flour", Grams);
    var m := CatalogIndex([flour]);
    assert [flour][..0] == [];
    assert m == map["flour" := flour];
    assert "Do you have " + "this ingredient" + "?" == "Do you have this ingredient?";
    var cake := Recipe("Cake", ["Mix", "Bake"], [Ingredient("flour", 200)]);
    assert RenderDetail(m, cake).lines == [RenderLine(m, Ingredient("flour", 200))];
  }

  /** A session driven through the socket and the user, as a client sees it
      through the handlers' contracts alone. */
  method AnswerWalkthrough(cake: Recipe)
  {
    var app := new AppSession();
    var step := ConnectionStep([UnknownIngredient("egg", 5), UnknownIngredient("milk", 3)], [UserRecipe(cake, Undetermined)]);

    // The socket opens, then the first snapshot arrives.  One answer is one
    // message about the head of the queue, and the snapshot, hence the
    // question, stays as it was.
    app.OnOpen();
    app.OnMessage(step);
    app.Select(cake);
    app.Answer(false);
    assert app.outbox == [IngredientInfo("egg", false)];
    assert app.connectionStep == Some(step);

    // A later snapshot replaces the queue and leaves the selection alone.
    app.OnMessage(ConnectionStep([UnknownIngredient("milk", 0)], [UserRecipe(cake, Infeasible)]));
    assert app.selectedRecipe == Some(cake);
    assert app.Question() == None;
    assert app.ShortageShown();

    app.Clear();
    assert app.Detail() == None;
  }
}
