/** The id-to-description index the client builds from the ingredient
    catalog, and the lookups with fallbacks it uses when rendering. */
module Catalog {
  import opened RecipeTypes

  type Index = map<string, IngredientDescription>

  /** The index after folding the catalog in order: a later entry with the
      same id overwrites an earlier one. */
  function CatalogIndex(catalog: seq<IngredientDescription>): (m: Index)
    ensures forall id :: id in m <==> exists i :: 0 <= i < |catalog| && catalog[i].id == id
  {
    if catalog == [] then map[]
    else
      var last := catalog[|catalog| - 1];
      CatalogIndex(catalog[..|catalog| - 1])[last.id := last]
  }

  /** Reference reading of a lookup: the last catalog entry carrying `id`. */
  function LastWithId(catalog: seq<IngredientDescription>, id: string): (r: Option<IngredientDescription>)
    ensures r.None? <==> forall i :: 0 <= i < |catalog| ==> catalog[i].id != id
    ensures r.Some? ==> exists i :: 0 <= i < |catalog| && catalog[i] == r.value && r.value.id == id &&
                          forall j :: i < j < |catalog| ==> catalog[j].id != id
  {
    if catalog == [] then None
    else if catalog[|catalog| - 1].id == id then Some(catalog[|catalog| - 1])
    else LastWithId(catalog[..|catalog| - 1], id)
  }

  /** `dict[id]` on an index that holds only its own entries. */
  function Lookup(m: Index, id: string): (r: Option<IngredientDescription>)
    ensures r.Some? <==> id in m
    ensures r.Some? ==> r.value == m[id]
  {
    if id in m then Some(m[id]) else None
  }

  /** Looking an id up in the index finds the last catalog entry with that id, and nothing for any other id. */
  lemma {:induction false} LookupIsLastWithId(catalog: seq<IngredientDescription>, id: string)
    ensures Lookup(CatalogIndex(catalog), id) == LastWithId(catalog, id)
  {
    if catalog != [] {
      LookupIsLastWithId(catalog[..|catalog| - 1], id);
    }
  }

  /** The loop of `ingredientsMap`: one assignment per catalog entry, in order. */
  method BuildIndex(catalog: seq<IngredientDescription>) returns (dict: Index)
    ensures dict == CatalogIndex(catalog)
    ensures forall id :: Lookup(dict, id) == LastWithId(catalog, id)
  {
    dict := map[];
    for i := 0 to |catalog|
      invariant dict == CatalogIndex(catalog[..i])
    {
      assert catalog[..i + 1][..i] == catalog[..i];
      dict := dict[catalog[i].id := catalog[i]];
    }
    assert catalog[..|catalog|] == catalog;
    forall id
      ensures Lookup(dict, id) == LastWithId(catalog, id)
    {
      LookupIsLastWithId(catalog, id);
    }
  }

  /** The name shown for a recipe line: `dict[id]?.name || id`.  An absent
      entry and an empty name both fall back to the raw id. */
  function DisplayName(m: Index, id: string): (r: string)
    ensures r == id || (id in m && r == m[id].name)
    ensures id !in m ==> r == id
    ensures id in m && m[id].name != "" ==> r == m[id].name
    ensures id in m && m[id].name == "" ==> r == id
  {
    match Lookup(m, id)
    case Some(d) => if d.name != "" then d.name else id
    case None => id
  }

  /** The unit shown for a recipe line: `dict[id]?.amountType || ""`. */
  function UnitText(m: Index, id: string): (r: string)
    ensures r == "" <==> id !in m
    ensures id in m ==> r == AmountTypeText(m[id].amountType)
  {
    match Lookup(m, id)
    case Some(d) => AmountTypeText(d.amountType)
    case None => ""
  }

  /** The ingredient named in the question: `dict[id]?.name || "this ingredient"`. */
  function PromptName(m: Index, id: string): (r: string)
    ensures r == "this ingredient" || (id in m && r == m[id].name && r != "")
    ensures id !in m ==> r == "this ingredient"
    ensures id in m && m[id].name != "" ==> r == m[id].name
    ensures id in m && m[id].name == "" ==> r == "this ingredient"
  {
    match Lookup(m, id)
    case Some(d) => if d.name != "" then d.name else "this ingredient"
    case None => "this ingredient"
  }

  /** An id the catalog never listed renders as itself, with no unit, and is asked about as "this ingredient". */
  lemma UnlistedIdFallback(catalog: seq<IngredientDescription>, id: string)
    requires forall i :: 0 <= i < |catalog| ==> catalog[i].id != id
    ensures DisplayName(CatalogIndex(catalog), id) == id
    ensures UnitText(CatalogIndex(catalog), id) == ""
    ensures PromptName(CatalogIndex(catalog), id) == "this ingredient"
  {
  }

  // ----- The lookup as written on a plain JavaScript object -----

  /** What `({})[key]?.name` yields for a key the object does not own: the
      plain object inherits the members of Object.prototype, all of them
      functions whose `name` is the key itself, except `constructor`, the
      function `Object`, and `__proto__`, which yields the prototype, an
      object without a `name`. */
  function InheritedName(key: string): (r: Option<string>)
    ensures r.Some? ==> r.value != ""
  {
    if key == "constructor" then Some("Object")
    else if key in {"hasOwnProperty", "isPrototypeOf", "propertyIsEnumerable", "toString",
                    "toLocaleString", "valueOf", "__defineGetter__", "__defineSetter__",
                    "__lookupGetter__", "__lookupSetter__"}
    then Some(key)
    else None
  }

  /** `dict[id]?.name || id` with the index held in a plain object, as the client builds it. */
  function DisplayNameAsWritten(m: Index, id: string): (r: string)
    ensures id in m ==> r == DisplayName(m, id)
    ensures id !in m && InheritedName(id).None? ==> r == id
    ensures id !in m && InheritedName(id).Some? ==> r == InheritedName(id).value
  {
    if id in m then DisplayName(m, id)
    else match InheritedName(id)
      case Some(n) => n
      case None => id
  }

  /** `dict[id]?.name || "this ingredient"` with the index held in a plain object. */
  function PromptNameAsWritten(m: Index, id: string): (r: string)
    ensures id in m ==> r == PromptName(m, id)
    ensures id !in m && InheritedName(id).None? ==> r == "this ingredient"
    ensures id !in m && InheritedName(id).Some? ==> r == InheritedName(id).value
  {
    if id in m then PromptName(m, id)
    else match InheritedName(id)
      case Some(n) => n
      case None => "this ingredient"
  }

  /** With an empty catalog, a recipe line for id "constructor" is shown as
      "Object" and the question about "toString" names "toString", where the
      fallbacks promise the raw id and "this ingredient". */
  lemma InheritedKeyShowsThrough()
    ensures DisplayNameAsWritten(CatalogIndex([]), "constructor") == "Object"
    ensures DisplayName(CatalogIndex([]), "constructor") == "constructor"
    ensures PromptNameAsWritten(CatalogIndex([]), "toString") == "toString"
    ensures PromptName(CatalogIndex([]), "toString") == "this ingredient"
  {
  }
}
