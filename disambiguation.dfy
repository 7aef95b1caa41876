/** The yes/no question about the head of the unknown-ingredient queue. */
module Disambiguation {
  import opened RecipeTypes
  import opened Catalog

  /** The ingredient asked about, if any: the head of the queue when the
      queue is non-empty and the head's weight is not 0.  Nothing past the
      head is looked at. */
  function ActiveQuestion(step: ConnectionStep): (q: Option<UnknownIngredient>)
    ensures q.Some? <==> |step.unknownIngredients| > 0 && step.unknownIngredients[0].weight != 0
    ensures q.Some? ==> q.value == step.unknownIngredients[0]
  {
    if |step.unknownIngredients| > 0 && step.unknownIngredients[0].weight != 0
    then Some(step.unknownIngredients[0])
    else None
  }

  /** The question depends on the head alone: two snapshots whose queues
      start with the same entry, or are both empty, ask the same thing. */
  lemma QuestionDependsOnHeadOnly(s1: ConnectionStep, s2: ConnectionStep)
    requires |s1.unknownIngredients| == 0 <==> |s2.unknownIngredients| == 0
    requires |s1.unknownIngredients| > 0 ==> s1.unknownIngredients[0] == s2.unknownIngredients[0]
    ensures ActiveQuestion(s1) == ActiveQuestion(s2)
  {
  }

  /** A zero-weight head suppresses the question whatever follows it. */
  lemma ZeroHeadSuppresses(step: ConnectionStep, k: nat)
    requires |step.unknownIngredients| > 0 && step.unknownIngredients[0].weight == 0
    requires 0 < k < |step.unknownIngredients| && step.unknownIngredients[k].weight != 0
    ensures ActiveQuestion(step) == None
  {
  }

  /** The heading of the prompt: "Do you have <name>?". */
  function QuestionText(m: Index, step: ConnectionStep): (t: Option<string>)
    ensures t.Some? <==> ActiveQuestion(step).Some?
    ensures t.Some? ==> t.value == "Do you have " + PromptName(m, step.unknownIngredients[0].ingredient) + "?"
  {
    match ActiveQuestion(step)
    case Some(u) => Some("Do you have " + PromptName(m, u.ingredient) + "?")
    case None => None
  }

  /** The message a Yes or No button sends. */
  function AnswerFor(step: ConnectionStep, has: bool): (info: IngredientInfo)
    requires ActiveQuestion(step).Some?
    ensures info.ingredient == step.unknownIngredients[0].ingredient && info.has == has
  {
    IngredientInfo(step.unknownIngredients[0].ingredient, has)
  }
}
