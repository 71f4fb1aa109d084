/**
 The per-category recipe tally that both the server dashboard and the
 admin analysis page compute with the same `forEach` into a plain object.
 The tally is an association list in first-seen order, which treats the
 object as a clean map: a JavaScript object lists integer-like keys first,
 and names it inherits from `Object.prototype` behave differently.
 */
module Stats {
  import opened Seqs
  import opened Store
  import opened Models

  /** One property of the `recipesByCategory` object. */
  datatype Entry = Entry(category: string, count: nat)

  predicate HasKey(tally: seq<Entry>, c: string) {
    exists i :: 0 <= i < |tally| && tally[i].category == c
  }

  /** `recipesByCategory[c] || 0` */
  function CountOf(tally: seq<Entry>, c: string): nat
    decreases |tally|
  {
    if |tally| == 0 then 0
    else if tally[0].category == c then tally[0].count
    else CountOf(tally[1..], c)
  }

  /** Keys are distinct and non-empty, and every count is at least one. */
  predicate WellFormed(tally: seq<Entry>) {
    && (forall i, j :: 0 <= i < j < |tally| ==> tally[i].category != tally[j].category)
    && (forall i :: 0 <= i < |tally| ==> tally[i].category != "" && tally[i].count >= 1)
  }

  /** The sum of the object's values. */
  function Sum(tally: seq<Entry>): nat
    decreases |tally|
  {
    if |tally| == 0 then 0 else tally[0].count + Sum(tally[1..])
  }

  lemma {:induction false} AbsentCountsZero(tally: seq<Entry>, c: string)
    requires !HasKey(tally, c)
    ensures CountOf(tally, c) == 0
    decreases |tally|
  {
    if |tally| > 0 {
      assert !HasKey(tally[1..], c) by {
        forall i | 0 <= i < |tally[1..]| ensures tally[1..][i].category != c {
          assert tally[1..][i] == tally[i + 1];
        }
      }
      AbsentCountsZero(tally[1..], c);
    }
  }

  lemma WellFormedTail(tally: seq<Entry>)
    requires WellFormed(tally) && |tally| > 0
    ensures WellFormed(tally[1..])
    ensures !HasKey(tally[1..], tally[0].category)
  {
    forall i | 0 <= i < |tally[1..]| ensures tally[1..][i].category != tally[0].category {
      assert tally[1..][i] == tally[i + 1];
    }
  }

  /**
   `recipesByCategory[c] = (recipesByCategory[c] || 0) + 1`: an existing
   key is incremented in place, a new key is appended with count one. The
   keys stay distinct and come from the tally or `c`; `BumpCounts` states
   what happens to the values.
   */
  function Bump(tally: seq<Entry>, c: string): (r: seq<Entry>)
    requires WellFormed(tally) && c != ""
    ensures WellFormed(r)
    ensures forall i :: 0 <= i < |r| ==> r[i].category == c || HasKey(tally, r[i].category)
    decreases |tally|
  {
    if |tally| == 0 then [Entry(c, 1)]
    else if tally[0].category == c then
      WellFormedTail(tally);
      var r := [Entry(c, tally[0].count + 1)] + tally[1..];
      assert r[1..] == tally[1..];
      assert forall i :: 1 <= i < |r| ==> r[i] == tally[i];
      r
    else
      WellFormedTail(tally);
      var rest := Bump(tally[1..], c);
      BumpConsKeys(tally, c, rest);
      [tally[0]] + rest
  }

  /**
   A bump adds one to the bumped category's value and to the sum of the
   values, and leaves every other category's value as it was.
   */
  lemma {:induction false} BumpCounts(tally: seq<Entry>, c: string)
    requires WellFormed(tally) && c != ""
    ensures Sum(Bump(tally, c)) == Sum(tally) + 1
    ensures CountOf(Bump(tally, c), c) == CountOf(tally, c) + 1
    ensures forall d :: d != c ==> CountOf(Bump(tally, c), d) == CountOf(tally, d)
    decreases |tally|
  {
    if |tally| == 0 {
    } else if tally[0].category == c {
      ConsFacts(tally[0], tally[1..]);
      ConsFacts(Entry(c, tally[0].count + 1), tally[1..]);
      assert tally == [tally[0]] + tally[1..];
    } else {
      WellFormedTail(tally);
      BumpCounts(tally[1..], c);
      ConsFacts(tally[0], tally[1..]);
      ConsFacts(tally[0], Bump(tally[1..], c));
      assert tally == [tally[0]] + tally[1..];
    }
  }

  /** The sum and the lookups of a tally with one entry put in front. */
  lemma ConsFacts(e: Entry, rest: seq<Entry>)
    ensures Sum([e] + rest) == e.count + Sum(rest)
    ensures forall d :: CountOf([e] + rest, d) == if e.category == d then e.count else CountOf(rest, d)
  {
    assert ([e] + rest)[1..] == rest;
  }

  /**
   Putting back the first entry in front of the bumped tail keeps the keys
   distinct and drawn from the tally or `c`.
   */
  lemma BumpConsKeys(tally: seq<Entry>, c: string, rest: seq<Entry>)
    requires WellFormed(tally) && |tally| > 0 && tally[0].category != c
    requires WellFormed(rest)
    requires forall i :: 0 <= i < |rest| ==> rest[i].category == c || HasKey(tally[1..], rest[i].category)
    ensures WellFormed([tally[0]] + rest)
    ensures forall i :: 0 <= i < |[tally[0]] + rest| ==>
      ([tally[0]] + rest)[i].category == c || HasKey(tally, ([tally[0]] + rest)[i].category)
  {
    WellFormedTail(tally);
    var r := [tally[0]] + rest;
    forall i | 0 <= i < |rest| ensures rest[i].category != tally[0].category {
      if rest[i].category != c {
        var j :| 0 <= j < |tally[1..]| && tally[1..][j].category == rest[i].category;
      }
    }
    forall i | 0 <= i < |r| && r[i].category != c ensures HasKey(tally, r[i].category) {
      if i == 0 {
        assert tally[0].category == r[i].category;
      } else {
        assert r[i] == rest[i - 1];
        var j :| 0 <= j < |tally[1..]| && tally[1..][j].category == r[i].category;
        assert tally[j + 1].category == r[i].category;
      }
    }
    forall i, j | 0 <= i < j < |r| ensures r[i].category != r[j].category {
      if i > 0 {
        assert r[i] == rest[i - 1] && r[j] == rest[j - 1];
      } else {
        assert r[j] == rest[j - 1];
      }
    }
  }

  predicate NonEmpty(c: string) {
    c != ""
  }

  /** How many times `c` appears in `cats`. */
  function Occurrences(cats: seq<string>, c: string): nat {
    Count(cats, (x: string) => x == c)
  }

  /**
   `cats.forEach(c => { if (c) recipesByCategory[c] = (recipesByCategory[c] || 0) + 1 })`
   starting from the object `acc`: every key stays non-empty with a count of
   at least one, each category gains exactly its number of occurrences, and
   the values grow by the number of non-empty categories.
   */
  function TallyFrom(acc: seq<Entry>, cats: seq<string>): (r: seq<Entry>)
    requires WellFormed(acc)
    ensures WellFormed(r)
    ensures Sum(r) == Sum(acc) + Count(cats, NonEmpty)
    ensures forall c :: c != "" ==> CountOf(r, c) == CountOf(acc, c) + Occurrences(cats, c)
    decreases |cats|
  {
    if |cats| == 0 then acc
    else
      var next := if cats[0] != "" then BumpCounts(acc, cats[0]); Bump(acc, cats[0]) else acc;
      var r := TallyFrom(next, cats[1..]);
      TallyStep(cats);
      r
  }

  /** The first category's share of the counts a tally adds. */
  lemma TallyStep(cats: seq<string>)
    requires |cats| > 0
    ensures Count(cats, NonEmpty) == (if cats[0] != "" then 1 else 0) + Count(cats[1..], NonEmpty)
    ensures forall c :: Occurrences(cats, c) == (if cats[0] == c then 1 else 0) + Occurrences(cats[1..], c)
  {
    forall c ensures Occurrences(cats, c) == (if cats[0] == c then 1 else 0) + Occurrences(cats[1..], c) {
    }
  }

  /** The categories of a recipe list, in list order. */
  function Categories(recipes: seq<Doc<Recipe>>): (cats: seq<string>)
    ensures |cats| == |recipes|
    ensures forall i :: 0 <= i < |recipes| ==> cats[i] == recipes[i].value.category
  {
    Map(recipes, (d: Doc<Recipe>) => d.value.category)
  }

  /**
   `recipesByCategory` over a recipe list: only recipes with a truthy
   category are counted, each key is a non-empty category with count at
   least one, and each category's value is its number of recipes.
   */
  function CategoryCounts(recipes: seq<Doc<Recipe>>): (r: seq<Entry>)
    ensures WellFormed(r)
    ensures forall c :: c != "" ==> CountOf(r, c) == Occurrences(Categories(recipes), c)
    ensures Sum(r) == Count(Categories(recipes), NonEmpty)
  {
    TallyFrom([], Categories(recipes))
  }

  /**
   The values of `recipesByCategory` add up to at most the number of
   recipes, and to exactly that number iff every recipe has a non-empty
   category.
   */
  lemma CategorySumBound(recipes: seq<Doc<Recipe>>)
    ensures Sum(CategoryCounts(recipes)) <= |recipes|
    ensures Sum(CategoryCounts(recipes)) == |recipes|
        <==> forall i :: 0 <= i < |recipes| ==> recipes[i].value.category != ""
  {
    var cats := Categories(recipes);
    assert (forall i :: 0 <= i < |cats| ==> NonEmpty(cats[i]))
        <==> forall i :: 0 <= i < |recipes| ==> recipes[i].value.category != "";
  }

  /** The aggregate the dashboard reports. */
  datatype Dashboard = Dashboard(
    totalUsers: nat,
    totalAdmins: nat,
    activeUsers: nat,
    totalRecipes: nat,
    recipesByCategory: seq<Entry>)
}
