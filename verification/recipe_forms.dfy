/**
 The add-recipe and update-recipe forms: the form state, the payload a
 submit sends, the form an update page loads from a stored recipe, and
 what a submit does to the form and the page.
 */
module RecipeForms {
  import opened Wrappers
  import opened Text
  import opened Models
  import opened CommaList
  import opened Gates
  import Server

  /** A form value: what the user typed, or a number copied from a loaded recipe. */
  datatype Scalar = Text(text: string) | Number(n: int)

  /** The `formData` both pages keep; every field is what the inputs hold. */
  datatype RecipeForm = RecipeForm(
    title: string,
    description: string,
    ingredients: string,
    steps: string,
    cookingTime: Scalar,
    servings: Scalar,
    category: string,
    difficulty: string,
    imageUrl: string)

  /** Both pages start from empty inputs, with "Medium" difficulty selected. */
  const InitialForm := RecipeForm("", "", "", "", Text(""), Text(""), "", DefaultDifficulty, "")

  /** `{ ...formData, ingredients: [...], steps: [...] }` */
  datatype RecipePayload = RecipePayload(
    title: string,
    description: string,
    ingredients: seq<string>,
    steps: seq<string>,
    cookingTime: Scalar,
    servings: Scalar,
    category: string,
    difficulty: string,
    imageUrl: string)

  /**
   The payload of a submit: the two lists parsed from their textareas, one
   item more than there are commas and each trimmed; every other field
   sent exactly as the form holds it.
   */
  function BuildPayload(f: RecipeForm): (p: RecipePayload)
    ensures |p.ingredients| == CountChar(f.ingredients, Comma) + 1
    ensures |p.steps| == CountChar(f.steps, Comma) + 1
    ensures forall k :: 0 <= k < |p.ingredients| ==> IsTrimmed(p.ingredients[k])
    ensures forall k :: 0 <= k < |p.steps| ==> IsTrimmed(p.steps[k])
    ensures p.title == f.title && p.description == f.description
    ensures p.cookingTime == f.cookingTime && p.servings == f.servings
    ensures p.category == f.category && p.difficulty == f.difficulty && p.imageUrl == f.imageUrl
    ensures p.ingredients == ParseList(f.ingredients) && p.steps == ParseList(f.steps)
  {
    RecipePayload(f.title, f.description, ParseList(f.ingredients), ParseList(f.steps),
                  f.cookingTime, f.servings, f.category, f.difficulty, f.imageUrl)
  }

  /**
   The request body the server receives. JSON carries every key of the
   payload; a typed value reaches the numeric fields through `cast`, which
   stands for the document mapper's conversion and is not modelled.
   */
  function ToRequestBody(p: RecipePayload, cast: string -> Option<int>): (b: Server.RecipeBody)
    ensures b.title == Some(p.title) && b.description == Some(p.description)
    ensures b.ingredients == Some(p.ingredients) && b.steps == Some(p.steps)
    ensures p.cookingTime.Number? ==> b.cookingTime == Some(p.cookingTime.n)
    ensures p.servings.Number? ==> b.servings == Some(p.servings.n)
    ensures b.category == Some(p.category) && b.difficulty == Some(p.difficulty)
    ensures b.imageUrl == Some(p.imageUrl)
    ensures b.createdBy.None? && b.createdAt.None?
  {
    var num := (x: Scalar) => match x case Number(n) => Some(n) case Text(t) => cast(t);
    Server.RecipeBody(Some(p.title), Some(p.description), Some(p.ingredients), Some(p.steps),
                      num(p.cookingTime), num(p.servings), Some(p.category), Some(p.difficulty),
                      Some(p.imageUrl), None, None)
  }

  /** The form and the page after a submit. */
  datatype AfterSubmit = AfterSubmit(form: RecipeForm, nav: Nav)

  /**
   The add page's submit: on success the form returns to exactly its
   initial state and the page goes to the recipe list; otherwise the form
   is kept for another try.
   */
  function AddSubmitted(f: RecipeForm, ok: bool): (a: AfterSubmit)
    ensures ok ==> a.form == InitialForm && a.nav == Navigate("/recipes")
    ensures !ok ==> a.form == f && a.nav == Stay
  {
    if ok then AfterSubmit(InitialForm, Navigate("/recipes")) else AfterSubmit(f, Stay)
  }

  /** An untouched add form is refused by the server: its title is empty. */
  lemma BlankFormRefused(cast: string -> Option<int>)
    ensures !Server.RequiredPresent(ToRequestBody(BuildPayload(InitialForm), cast))
  {
  }

  /** `value || ""` on a text field, and `|| "Medium"` on difficulty. */
  function TextOr(s: string, fallback: string): string {
    if s != "" then s else fallback
  }

  /** `value || ""` on a number field: zero is falsy and becomes the empty input. */
  function NumberOr(n: int): (x: Scalar)
    ensures x == Number(n) <==> n != 0
    ensures x.Text? ==> x.text == ""
  {
    if n != 0 then Number(n) else Text("")
  }

  /**
   `fetchRecipe` filling the update form: text fields copied (an empty one
   stays empty), lists rendered with ", ", a zero number shown as an empty
   input, an empty difficulty shown as "Medium" and a missing image URL as
   the empty string.
   */
  function LoadForm(r: Recipe): (f: RecipeForm)
    ensures f.title == r.title && f.description == r.description && f.category == r.category
    ensures f.ingredients == RenderList(r.ingredients) && f.steps == RenderList(r.steps)
    ensures f.cookingTime == NumberOr(r.cookingTime) && f.servings == NumberOr(r.servings)
    ensures f.difficulty == (if r.difficulty == "" then DefaultDifficulty else r.difficulty)
    ensures f.imageUrl == (if r.imageUrl.Some? then r.imageUrl.value else "")
  {
    RecipeForm(
      TextOr(r.title, ""), TextOr(r.description, ""),
      RenderList(r.ingredients), RenderList(r.steps),
      NumberOr(r.cookingTime), NumberOr(r.servings),
      TextOr(r.category, ""), TextOr(r.difficulty, DefaultDifficulty),
      if r.imageUrl.Some? then TextOr(r.imageUrl.value, "") else "")
  }

  /**
   The update page's submit: on success it goes to the admin home page;
   the form itself is never reset.
   */
  function UpdateSubmitted(f: RecipeForm, ok: bool): (a: AfterSubmit)
    ensures a.form == f
    ensures a.nav == (if ok then Navigate("/admin-home") else Stay)
  {
    AfterSubmit(f, if ok then Navigate("/admin-home") else Stay)
  }

  /** A list the load-and-submit cycle gives back unchanged. */
  predicate RoundTrips(xs: seq<string>) {
    |xs| >= 1 && forall k :: 0 <= k < |xs| ==> Comma !in xs[k] && IsTrimmed(xs[k])
  }

  /**
   Loading a recipe into the update form and submitting it untouched sends
   back its own lists, title, description and category, as long as each
   list is non-empty with comma-free, trimmed items.
   */
  lemma LoadSubmitRoundTrip(r: Recipe)
    requires RoundTrips(r.ingredients) && RoundTrips(r.steps)
    ensures var p := BuildPayload(LoadForm(r));
      && p.ingredients == r.ingredients && p.steps == r.steps
      && p.title == r.title && p.description == r.description && p.category == r.category
  {
    RenderParseRoundTrip(r.ingredients);
    RenderParseRoundTrip(r.steps);
  }

  /**
   Under the same conditions, with non-zero numbers, a non-empty
   difficulty and a present image URL, the server's overwrite with the
   resubmitted body leaves the stored recipe exactly as it was.
   */
  lemma UntouchedUpdateChangesNothing(r: Recipe, cast: string -> Option<int>)
    requires RoundTrips(r.ingredients) && RoundTrips(r.steps)
    requires r.cookingTime != 0 && r.servings != 0 && r.difficulty != "" && r.imageUrl.Some?
    ensures Server.Overwrite(r, ToRequestBody(BuildPayload(LoadForm(r)), cast)) == r
  {
    LoadSubmitRoundTrip(r);
  }

  /** An empty stored list comes back from the update form as one empty item. */
  lemma EmptyListResubmitted(r: Recipe)
    requires r.ingredients == []
    ensures BuildPayload(LoadForm(r)).ingredients == [""]
  {
    EmptyListComesBackAsBlank();
  }
}
