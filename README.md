# Recipe helper client — reconciliation engine

A model of the logic inside the single React component of the recipe helper
client (`src/App.tsx`). The client gets its data from two places. One is an
ingredient catalog fetched once. The other is a live socket that pushes
complete snapshots (`ConnectionStep`) of the unknown-ingredient queue and of
each recipe's verdict (`possible`: `true`, `null` or `false`). From these the
component derives:

- the recipe list, sorted by feasibility tier (`sortedRecipes`);
- an id-to-description index of the catalog (`ingredientsMap`), used for
  names and units, with fallbacks when an id is missing;
- a yes/no question about the head of the unknown-ingredient queue, and the
  `{ingredient, has}` answer sent back over the socket;
- the per-recipe tag and the shortage notice;
- the detail view of the one selected recipe.

Modules, one per part of the component:

- `RecipeTypes` (types.dfy) holds the data types. The verdict `boolean | null` becomes `Possible = Feasible | Undetermined | Infeasible`.
- `FeasibilitySort` (feasibility_sort.dfy) holds the priority, the comparator and the stable sort. It also holds the three-tier reference ordering `ByTier` and the lemmas linking them.
- `Catalog` (catalog.dfy) holds the index, the loop that builds it, and the name, unit and prompt fallbacks. It also models the lookup as written on a plain JavaScript object (see Findings).
- `RecipeList` (recipe_list.dfy) holds the tags, the shortage notice and the detail view lines.
- `Disambiguation` (disambiguation.dfy) holds the active question, its heading and the answer message.
- `Session` (session.dfy) holds the class `AppSession`. Its fields are the component's state cells and its methods are the event handlers. A ghost `outbox` records what was handed to the socket.

The sort is a pure function. The source clones the snapshot's array before
sorting it, and Dafny sequences are values, so "the snapshot is not modified"
holds by construction. The built-in array sort must be stable (section
23.1.3.30 of ECMA-262, 2023 edition), and the comparator is consistent. So the
result is the unique stable ordering. `StableSortUnique` proves that every
tier-ordered list with the input's tiers equals `Sort`, so the insertion sort
used here stands for the engine's algorithm.

The model follows the code's fallbacks exactly:

- A recipe line falls back to the raw id (src/App.tsx:208), but the question
  heading falls back to the literal "this ingredient" (src/App.tsx:108-110).
  So a queued id the catalog does not list is asked about as "Do you have
  this ingredient?" (`Session.ExampleRendering`), except a key inherited
  from Object.prototype; see Findings.
- All fallbacks use `||`. An entry whose name is the empty string therefore
  also falls back, to the raw id or to "this ingredient".
- The active question is the head of the queue only. A zero-weight head
  suppresses the question even when a later entry has a non-zero weight.

## Model

| member | source | states |
|---|---|---|
| FeasibilitySort.Priority | src/App.tsx:53-57 | the key is 1, 2 or 3; it is 1 exactly for `true` and 3 exactly for `false` |
| FeasibilitySort.Compare | src/App.tsx:59 | the comparator is negative exactly when `a` has the earlier tier, and zero exactly when the verdicts are equal |
| FeasibilitySort.CompareConsistent | src/App.tsx:51-60 | the comparator is antisymmetric and transitive |
| FeasibilitySort.SortedRecipes | src/App.tsx:47-61 | with no snapshot, or no recipes, the list is empty; otherwise it is tier-ordered, a permutation of the snapshot's recipes, and equal to the concatenation of the three tiers |
| FeasibilitySort.SortPermutation | src/App.tsx:51-60 | the sorted list has the same multiset of recipes as the input |
| FeasibilitySort.SortOrdered | src/App.tsx:51-60 | every `true` recipe comes before every `null` one, and every `null` one before every `false` one |
| FeasibilitySort.InsertPermutation | src/App.tsx:51-60 | inserting a recipe adds exactly that recipe |
| FeasibilitySort.InsertOrdered | src/App.tsx:51-60 | inserting into a tier-ordered list keeps it tier-ordered |
| FeasibilitySort.InsertTier | src/App.tsx:51-60 | an inserted recipe goes to the front of its own tier, and the other tiers do not change |
| FeasibilitySort.SortStable | src/App.tsx:53-59 | within each tier the sorted list keeps the input order |
| FeasibilitySort.TierIsFilter | src/App.tsx:53-59 | a tier holds only recipes of the input with that verdict, and every recipe of the input with that verdict |
| FeasibilitySort.OrderedIsByTier | src/App.tsx:51-60 | a tier-ordered list is the concatenation of its own tiers |
| FeasibilitySort.SortIsByTier | src/App.tsx:51-60 | the sort equals the reference ordering: `true` recipes, then `null` ones, then `false` ones, each in input order |
| FeasibilitySort.SortIdempotent | src/App.tsx:51-60 | sorting the sorted list gives it back |
| FeasibilitySort.SortOfOrdered | src/App.tsx:51-60 | an already tier-ordered list comes back unchanged |
| FeasibilitySort.StableSortUnique | src/App.tsx:51-60 | any tier-ordered list with the same tiers as the input equals the sort, so every stable sort gives the same result |
| Catalog.CatalogIndex | src/App.tsx:66-72 | an id is in the index exactly when some catalog entry has that id |
| Catalog.LastWithId | src/App.tsx:68-70 | the reference reading of a lookup: nothing when no entry has the id, otherwise an entry with that id and no later entry with it |
| Catalog.LookupIsLastWithId | src/App.tsx:66-72 | looking up an id in the index gives the last catalog entry with that id, and nothing for any other id |
| Catalog.BuildIndex | src/App.tsx:67-71 | the loop builds the index, and every lookup in it is the last entry with the id |
| Catalog.Lookup | src/App.tsx:208 | a lookup finds the entry exactly when the id is a key |
| Catalog.DisplayName | src/App.tsx:208 | a listed id with a non-empty name shows that name; a missing id, or a listed id whose name is empty, shows the raw id |
| Catalog.UnitText | src/App.tsx:211 | the unit is empty exactly when the id is missing, and otherwise names the entry's amount type |
| Catalog.PromptName | src/App.tsx:108-110 | a listed id with a non-empty name is asked about by that name; a missing id, or a listed id whose name is empty, gives "this ingredient" |
| Catalog.UnlistedIdFallback | src/App.tsx:108-110 | an id no catalog entry has is shown as itself, with no unit, and is asked about as "this ingredient" |
| Catalog.InheritedName | src/App.tsx:67 | a key inherited from Object.prototype yields a non-empty `name`, or no name at all |
| Catalog.DisplayNameAsWritten | src/App.tsx:208 | on an id the index holds, agrees with `DisplayName`; on an inherited key, shows the inherited member's name; on any other id, gives the raw id |
| Catalog.PromptNameAsWritten | src/App.tsx:108-110 | on an id the index holds, agrees with `PromptName`; on an inherited key, names the inherited member's name; on any other id, gives "this ingredient" |
| Catalog.InheritedKeyShowsThrough | src/App.tsx:67-72 | with an empty catalog, id "constructor" is shown as "Object" and id "toString" is asked about by name, where the fallbacks give the raw id and "this ingredient" |
| RecipeTypes.AmountTypeText | src/App.tsx:3 | the unit prints as "Millilitres", "Grams" or "Pieces", each text exactly for its own unit, and never empty |
| RecipeList.Label | src/App.tsx:165-169 | the tag is "Possible" exactly for `true`, "Not possible" exactly for `false`, and "Unsure" exactly for `null` |
| RecipeList.LabelMatchesTier | src/App.tsx:165-169 | two recipes have the same tag exactly when the sort puts them in the same tier |
| RecipeList.AllInfeasible | src/App.tsx:175 | the shortage notice's condition holds exactly when every recipe's verdict is `false` |
| RecipeList.ShortageMeansNoOtherTier | src/App.tsx:175 | the notice is shown exactly when the `true` and `null` tiers are both empty |
| RecipeList.ShortageIgnoresOrder | src/App.tsx:175 | the notice does not depend on the order of the recipes |
| RecipeList.ShortageMatchesLabels | src/App.tsx:175 | the notice is shown exactly when every row of the sorted list is tagged "Not possible", and it is shown for an empty list |
| RecipeList.RenderLine | src/App.tsx:207-211 | a detail line shows the amount as given; a missing id shows the raw id and no unit; a listed id shows the entry's unit and its name, or the raw id when that name is empty |
| RecipeList.RenderDetail | src/App.tsx:189-227 | the detail view shows the recipe's name, its steps in order, and one line per ingredient in order |
| RecipeList.UnlistedLineFallsBack | src/App.tsx:207-211 | an ingredient the catalog does not list is shown as its raw id with no unit |
| Disambiguation.ActiveQuestion | src/App.tsx:102-103 | a question is active exactly when the queue is non-empty and its head's weight is not 0, and it is about the head |
| Disambiguation.QuestionDependsOnHeadOnly | src/App.tsx:102-103 | entries past the head never affect the question |
| Disambiguation.ZeroHeadSuppresses | src/App.tsx:102-103 | a zero-weight head suppresses the question even when a later entry has a non-zero weight |
| Disambiguation.QuestionText | src/App.tsx:105-113 | a heading is shown exactly when a question is active, and it reads "Do you have", the prompt name of the head, then "?" |
| Disambiguation.AnswerFor | src/App.tsx:116-121 | the answer names the head's ingredient and carries the button's yes/no |
| Session.AppSession.constructor | src/App.tsx:43-45 | at first the catalog is empty, there is no socket, no snapshot and no selection, and nothing has been sent |
| Session.AppSession.OnCatalog | src/App.tsx:79 | the catalog list is replaced, and nothing else changes |
| Session.AppSession.OnOpen | src/App.tsx:88 | the socket becomes available, and nothing else changes |
| Session.AppSession.OnMessage | src/App.tsx:89 | the snapshot is replaced entirely; the selection, the socket and the catalog do not change |
| Session.AppSession.SendIngredientInfo | src/App.tsx:93-95 | with an open socket exactly one message is sent; without one nothing is sent |
| Session.AppSession.Answer | src/App.tsx:116-133 | with an open socket exactly one message about the head is sent, otherwise none; the snapshot, the selection and the question do not change |
| Session.AppSession.Select | src/App.tsx:149 | the selection becomes the clicked recipe, and nothing else changes |
| Session.AppSession.Clear | src/App.tsx:193 | the selection is cleared, and nothing else changes |
| Session.AppSession.Question | src/App.tsx:99-113 | a heading is shown exactly when a snapshot has arrived and its question is active, and it names the head through the current catalog |
| Session.AppSession.ShortageShown | src/App.tsx:99-179 | the notice is shown exactly when a snapshot has arrived and every one of its recipes is `false`; there is none before the first snapshot |
| Session.AppSession.Detail | src/App.tsx:184-227 | the detail view is open exactly while a recipe is selected, and shows that recipe's name, its steps and one line per ingredient, each line being the recipe line rendered through the current catalog |
| Session.ExampleRendering | src/App.tsx:105-227 | for a one-recipe snapshot with an unlisted queued ingredient: the heading, the sorted list tagged "Unsure", no notice, and the detail lines |

## Left out

- The catalog fetch, `response.json()` and the logged fetch failure (src/App.tsx:74-84). These are network I/O and decoding. The model starts from the list handed to `OnCatalog`. A failed fetch is a session that never calls it.
- The socket's construction, JSON parsing and serialisation, and the `close()` on unmount (src/App.tsx:86-91). These are foreign transport APIs. A snapshot is handed to `OnMessage` already decoded, and the ghost `outbox` stands for the wire. A message that fails to parse, and a socket that closes after opening, are not modelled.
- React's `useState`, `useEffect` and `useMemo` machinery and re-rendering. The memoised values are functions of the current fields (`AppSession.IngredientsMap`, `AppSession.Recipes`).
- Markup, CSS classes, colours per verdict, the modal layout and the list keys (src/App.tsx:97-243). These are presentation only.
- `amount` and `weight` are JavaScript numbers. The model uses integers: the client only prints `amount` and compares `weight` with 0.
- A `possible` field that is absent or not a boolean cannot occur in the model, because the decoder is not modelled. In the source such a value would sort last but be tagged "Unsure".
- Catalog.InheritedName: covers only the members of Object.prototype. A catalog entry whose id is `__proto__` replaces the index object's prototype instead of adding an entry. That case is not modelled.
- Session.AppSession.OnMessage: may run before `OnOpen`, although the socket delivers messages only after it opens (src/App.tsx:88-89). The class therefore admits an answer on a closed socket, which the component never produces; the model covers more orders than can happen.
- Session.AppSession.Question and Session.AppSession.Detail: use the own-key lookup of `Catalog.CatalogIndex`. For a key inherited from Object.prototype they show the fallback, where the component shows the inherited member's name (see Findings; `Catalog.DisplayNameAsWritten` and `Catalog.PromptNameAsWritten` model that behaviour).
- Session.AppSession.Select: takes any recipe. In the source the click handler only ever passes a recipe from the current sorted list.

## Findings

| source | as written | input that shows it | evidently intended | confidence | as-written member | corrected member |
|---|---|---|---|---|---|---|
| src/App.tsx:67-72 | the index is a plain object `{}`, so a lookup of an id the catalog does not list can return a member inherited from Object.prototype | empty catalog and a recipe line for id "constructor": the name shown is "Object" (`Object.prototype.constructor.name`); a queued id "toString" is asked about as "toString" | an unlisted id shows the raw id, and the question says "this ingredient" | medium, not executed | Catalog.InheritedKeyShowsThrough | Catalog.UnlistedIdFallback |
