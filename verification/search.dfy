/**
 The recipe search of the home page and the admin home page, and the
 admin page's list update after a delete. Both pages filter the full
 fetched list, never the previous result.
 */
module Search {
  import opened Text
  import opened Seqs
  import opened Store
  import opened Models

  /**
   The test both pages apply to one recipe: the (lower-cased) term occurs
   in the lower-cased title, the lower-cased category or some lower-cased
   ingredient.
   */
  predicate Matches(r: Recipe, term: string) {
    || Includes(Lower(r.title), term)
    || Includes(Lower(r.category), term)
    || exists i :: 0 <= i < |r.ingredients| && Includes(Lower(r.ingredients[i]), term)
  }

  /**
   `handleSearch`: the term is lower-cased, then every fetched recipe that
   matches it is kept, in the fetched order.
   */
  function SearchRecipes(recipes: seq<Doc<Recipe>>, input: string): (r: seq<Doc<Recipe>>)
    ensures IsSubsequence(r, recipes)
    ensures forall i :: 0 <= i < |r| ==> r[i] in recipes && Matches(r[i].value, Lower(input))
    ensures forall i :: 0 <= i < |recipes| && Matches(recipes[i].value, Lower(input)) ==> recipes[i] in r
  {
    Filter(recipes, (d: Doc<Recipe>) => Matches(d.value, Lower(input)))
  }

  /** The state both pages keep: the fetched list, the shown list and the search term. */
  datatype View = View(recipes: seq<Doc<Recipe>>, filtered: seq<Doc<Recipe>>, term: string)

  /** A successful fetch shows the whole list. */
  function Loaded(data: seq<Doc<Recipe>>): (v: View)
    ensures v.recipes == data && v.filtered == data && v.term == ""
  {
    View(data, data, "")
  }

  /**
   Typing into the search box: the shown list becomes exactly the fetched
   recipes that match the lower-cased input, in the fetched order.
   */
  function OnSearch(v: View, input: string): (w: View)
    ensures w.recipes == v.recipes && w.term == Lower(input)
    ensures IsSubsequence(w.filtered, v.recipes)
    ensures forall d :: d in w.filtered <==> d in v.recipes && Matches(d.value, Lower(input))
  {
    View(v.recipes, SearchRecipes(v.recipes, input), Lower(input))
  }

  /** How a delete on the admin page ends: the confirm box refused, the server refused, or done. */
  datatype DeleteOutcome = Cancelled | Failed | Deleted

  /**
   `handleDelete`: only a successful delete changes the shown list, and
   then by dropping the entries with that identifier; the fetched list is
   never touched.
   */
  function OnDelete(v: View, id: Id, outcome: DeleteOutcome): (w: View)
    ensures w.recipes == v.recipes && w.term == v.term
    ensures outcome != Deleted ==> w == v
    ensures outcome == Deleted ==> IsSubsequence(w.filtered, v.filtered)
    ensures outcome == Deleted ==> forall i :: 0 <= i < |w.filtered| ==> w.filtered[i].id != id
    ensures outcome == Deleted ==>
      forall i :: 0 <= i < |v.filtered| && v.filtered[i].id != id ==> v.filtered[i] in w.filtered
  {
    if outcome == Deleted then v.(filtered := Remove(v.filtered, id)) else v
  }

  /** The empty term matches every recipe, so clearing the box shows everything again. */
  lemma EmptySearchKeepsAll(recipes: seq<Doc<Recipe>>)
    ensures SearchRecipes(recipes, "") == recipes
  {
    var p := (d: Doc<Recipe>) => Matches(d.value, Lower(""));
    forall i | 0 <= i < |recipes| ensures p(recipes[i]) {
      IncludesEmpty(Lower(recipes[i].value.title));
    }
    FilterAll(recipes, p);
  }

  /** Searching the shown result again for the same term changes nothing. */
  lemma SearchIdempotent(recipes: seq<Doc<Recipe>>, input: string)
    ensures SearchRecipes(SearchRecipes(recipes, input), input) == SearchRecipes(recipes, input)
  {
    FilterIdempotent(recipes, (d: Doc<Recipe>) => Matches(d.value, Lower(input)));
  }

  /** The shown list depends only on the latest term, not on earlier searches or deletes. */
  lemma SearchForgetsHistory(v: View, id: Id, outcome: DeleteOutcome, a: string, b: string)
    ensures OnSearch(OnSearch(v, a), b) == OnSearch(v, b)
    ensures OnSearch(OnDelete(v, id, outcome), b) == OnSearch(v, b)
  {
  }

  /** Two terms that differ only in letter case select the same recipes. */
  lemma SearchCaseInsensitive(recipes: seq<Doc<Recipe>>, a: string, b: string)
    requires Lower(a) == Lower(b)
    ensures SearchRecipes(recipes, a) == SearchRecipes(recipes, b)
  {
  }

  /** Upper-casing letters in a recipe's fields does not change whether it matches. */
  lemma MatchIgnoresFieldCase(r: Recipe, r': Recipe, term: string)
    requires Lower(r.title) == Lower(r'.title) && Lower(r.category) == Lower(r'.category)
    requires |r.ingredients| == |r'.ingredients|
    requires forall i :: 0 <= i < |r.ingredients| ==> Lower(r.ingredients[i]) == Lower(r'.ingredients[i])
    ensures Matches(r, term) <==> Matches(r', term)
  {
  }

  /**
   With unique identifiers, a successful delete of a shown recipe shortens
   the shown list by exactly one.
   */
  lemma DeleteDropsOne(v: View, id: Id)
    requires UniqueIds(v.filtered) && HasId(v.filtered, id)
    ensures |OnDelete(v, id, Deleted).filtered| == |v.filtered| - 1
  {
    RemoveOne(v.filtered, id);
  }

  /**
   A recipe deleted from the shown list is still in the fetched list, so a
   later search that matches it shows it again.
   */
  lemma SearchAfterDeleteRestores(v: View, id: Id, input: string, k: nat)
    requires k < |v.recipes| && v.recipes[k].id == id && Matches(v.recipes[k].value, Lower(input))
    ensures v.recipes[k] in OnSearch(OnDelete(v, id, Deleted), input).filtered
  {
  }
}
