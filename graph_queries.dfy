/**
 * Post-processing of graph traversal results.
 *
 * The traversals themselves (which paths the graph engine returns, and in
 * which order) are inputs here: a recommendation query yields an ordered list
 * of paths whose fifth object is a recipe vertex, and a favourites query
 * yields an ordered list of recipe vertices. This module models what the bot
 * does with those lists.
 */
module GraphQueries {
  import opened Optional

  /** The `name` (the recipe id) and `title` of a recipe vertex in a traversal result. */
  datatype RecipeHit = RecipeHit(id: string, title: string)

  /** A recipe as offered to the user: id and title. */
  datatype RecipeSummary = RecipeSummary(id: string, title: string)

  /** A recommended recipe and the number of result paths that lead to it. */
  datatype Recommendation = Recommendation(id: string, title: string, recommendedUserCount: nat)

  /** The ids of search hits, in order. */
  function HitIds(hits: seq<RecipeHit>): (r: seq<string>)
    ensures |r| == |hits| && forall i :: 0 <= i < |hits| ==> r[i] == hits[i].id
  {
    seq(|hits|, i requires 0 <= i < |hits| => hits[i].id)
  }

  /** The ids of recommendations, in order; the same projection as `HitIds`, on the other record type. */
  function RecIds(recs: seq<Recommendation>): (r: seq<string>)
    ensures |r| == |recs| && forall i :: 0 <= i < |recs| ==> r[i] == recs[i].id
  {
    seq(|recs|, i requires 0 <= i < |recs| => recs[i].id)
  }

  predicate NoDuplicates(s: seq<string>) {
    forall i, j :: 0 <= i < j < |s| ==> s[i] != s[j]
  }

  // ---------------------------------------------------------------------------
  // Reference definitions
  // ---------------------------------------------------------------------------

  /** The distinct elements of `s`, in order of first appearance. */
  function FirstOccurrences(s: seq<string>): (r: seq<string>)
  {
    if s == [] then []
    else
      var d := FirstOccurrences(s[..|s| - 1]);
      if s[|s| - 1] in d then d else d + [s[|s| - 1]]
  }

  lemma {:induction false} FirstOccurrencesFacts(s: seq<string>)
    ensures forall x :: x in FirstOccurrences(s) <==> x in s
    ensures NoDuplicates(FirstOccurrences(s))
  {
    if s != [] {
      var init := s[..|s| - 1];
      FirstOccurrencesFacts(init);
      assert s == init + [s[|s| - 1]];
    }
  }

  /** The first `n` elements of `s` (all of them when `n` reaches `|s|`, none when `n <= 0`). */
  function Take(s: seq<string>, n: int): (r: seq<string>)
    ensures |r| <= |s| && r == s[..|r|]
    ensures n <= 0 ==> r == []
    ensures n > 0 ==> |r| == if n < |s| then n else |s|
  {
    if n <= 0 then [] else if n >= |s| then s else s[..n]
  }

  // ---------------------------------------------------------------------------
  // The loop, as a function of the paths seen so far
  // ---------------------------------------------------------------------------

  /** Index of the first recommendation with this id, or -1. */
  function FindId(recs: seq<Recommendation>, id: string): (r: int)
    ensures -1 <= r < |recs|
    ensures r >= 0 ==> recs[r].id == id
    ensures r == -1 <==> id !in RecIds(recs)
  {
    if recs == [] then -1
    else if recs[0].id == id then 0
    else
      var k := FindId(recs[1..], id);
      assert RecIds(recs) == [recs[0].id] + RecIds(recs[1..]);
      if k == -1 then -1 else k + 1
  }

  /**
   * One path: a recipe already admitted gets one more recommending user; a
   * new recipe is admitted with a count of one unless `count` recipes are
   * already admitted, in which case the path is skipped.
   */
  function Admit(recs: seq<Recommendation>, hit: RecipeHit, count: int): seq<Recommendation> {
    var k := FindId(recs, hit.id);
    if k >= 0 then recs[k := recs[k].(recommendedUserCount := recs[k].recommendedUserCount + 1)]
    else if |recs| >= count then recs
    else recs + [Recommendation(hit.id, hit.title, 1)]
  }

  /** The recommendations after processing `paths` in order. */
  function Recommend(paths: seq<RecipeHit>, count: int): seq<Recommendation>
  {
    if paths == [] then [] else Admit(Recommend(paths[..|paths| - 1], count), paths[|paths| - 1], count)
  }

  /**
   * What the loop admits, stated without the loop: the admitted ids are the
   * first `count` distinct ids in order of first appearance.
   */
  lemma {:induction false} RecommendIds(paths: seq<RecipeHit>, count: int)
    ensures RecIds(Recommend(paths, count)) == Take(FirstOccurrences(HitIds(paths)), count)
  {
    if paths != [] {
      var init := paths[..|paths| - 1];
      var hit := paths[|paths| - 1];
      RecommendIds(init, count);
      var recs := Recommend(init, count);
      var d := FirstOccurrences(HitIds(init));
      FirstOccurrencesFacts(HitIds(init));
      assert HitIds(paths) == HitIds(init) + [hit.id];
      assert HitIds(paths)[..|HitIds(paths)| - 1] == HitIds(init);
      var r := Recommend(paths, count);
      assert r == Admit(recs, hit, count);
      var k := FindId(recs, hit.id);
      if k >= 0 {
        assert hit.id in d;
        assert FirstOccurrences(HitIds(paths)) == d;
        assert RecIds(r) == RecIds(recs);
      } else if |recs| >= count {
        if hit.id !in d {
          assert FirstOccurrences(HitIds(paths)) == d + [hit.id];
          assert Take(d + [hit.id], count) == Take(d, count);
        }
      } else {
        assert hit.id !in d;
        assert FirstOccurrences(HitIds(paths)) == d + [hit.id];
        assert RecIds(r) == RecIds(recs) + [hit.id];
      }
    }
  }

  /**
   * What the loop counts, stated without the loop: each recommendation
   * counts every path carrying its id, before or after admission.
   */
  lemma {:induction false} RecommendCounts(paths: seq<RecipeHit>, count: int)
    ensures forall j :: 0 <= j < |Recommend(paths, count)| ==>
              Recommend(paths, count)[j].recommendedUserCount == multiset(HitIds(paths))[Recommend(paths, count)[j].id]
  {
    if paths != [] {
      var init := paths[..|paths| - 1];
      var hit := paths[|paths| - 1];
      RecommendCounts(init, count);
      RecommendDistinct(init, count);
      var recs := Recommend(init, count);
      assert HitIds(paths) == HitIds(init) + [hit.id];
      assert multiset(HitIds(paths)) == multiset(HitIds(init)) + multiset{hit.id};
      var r := Recommend(paths, count);
      assert r == Admit(recs, hit, count);
      var k := FindId(recs, hit.id);
      if k >= 0 {
        forall j | 0 <= j < |r|
          ensures r[j].recommendedUserCount == multiset(HitIds(paths))[r[j].id]
        {
          if j != k {
            assert RecIds(recs)[j] != RecIds(recs)[k];
          }
        }
      } else if |recs| >= count {
        assert forall j :: 0 <= j < |recs| ==> RecIds(recs)[j] != hit.id;
      } else {
        RecommendIds(init, count);
        FirstOccurrencesFacts(HitIds(init));
        assert hit.id !in HitIds(init);
        forall j | 0 <= j < |recs|
          ensures r[j].recommendedUserCount == multiset(HitIds(paths))[r[j].id]
        {
          assert RecIds(recs)[j] != hit.id;
        }
      }
    }
  }

  /**
   * The promises of the recommendation step: at most `count` entries (none
   * when `count` is not positive), pairwise-distinct ids in order of first
   * appearance, every path's id present when `count` leaves room, and each
   * entry's count equal to the number of paths carrying its id.
   */
  lemma RecommendProperties(paths: seq<RecipeHit>, count: int)
    ensures count <= 0 ==> Recommend(paths, count) == []
    ensures |Recommend(paths, count)| <= if count < 0 then 0 else count
    ensures NoDuplicates(RecIds(Recommend(paths, count)))
    ensures |Recommend(paths, count)| <= |FirstOccurrences(HitIds(paths))|
    ensures RecIds(Recommend(paths, count)) == FirstOccurrences(HitIds(paths))[..|Recommend(paths, count)|]
    ensures |FirstOccurrences(HitIds(paths))| <= count ==>
              forall p :: p in paths ==> p.id in RecIds(Recommend(paths, count))
    ensures forall j :: 0 <= j < |Recommend(paths, count)| ==>
              1 <= Recommend(paths, count)[j].recommendedUserCount == multiset(HitIds(paths))[Recommend(paths, count)[j].id]
  {
    RecommendIds(paths, count);
    RecommendCounts(paths, count);
    FirstOccurrencesFacts(HitIds(paths));
    var r := Recommend(paths, count);
    var d := FirstOccurrences(HitIds(paths));
    assert RecIds(r) == d[..|r|];
    forall j | 0 <= j < |r|
      ensures r[j].id in HitIds(paths)
    {
      assert RecIds(r)[j] == d[j];
    }
    if |d| <= count {
      forall p | p in paths
        ensures p.id in RecIds(r)
      {
        var i :| 0 <= i < |paths| && paths[i] == p;
        assert HitIds(paths)[i] == p.id;
      }
    }
  }

  /** Two paths to the first recipe and one to each of two others, with room for two recipes. */
  lemma RecommendExample()
    ensures Recommend([RecipeHit("7", "Soup"), RecipeHit("9", "Stew"), RecipeHit("7", "Soup"), RecipeHit("4", "Pie")], 2)
         == [Recommendation("7", "Soup", 2), Recommendation("9", "Stew", 1)]
  {
    var p := [RecipeHit("7", "Soup"), RecipeHit("9", "Stew"), RecipeHit("7", "Soup"), RecipeHit("4", "Pie")];
    assert p[..1][..0] == [];
    assert p[..2][..1] == p[..1];
    assert p[..3][..2] == p[..2];
    assert p[..3] == p[..|p| - 1];
    assert Recommend(p[..1], 2) == [Recommendation("7", "Soup", 1)];
    assert Recommend(p[..2], 2) == [Recommendation("7", "Soup", 1), Recommendation("9", "Stew", 1)];
    assert FindId(Recommend(p[..1], 2), "9") == -1;
    assert FindId(Recommend(p[..2], 2), "7") == 0;
    assert FindId(Recommend(p[..3], 2), "4") == -1;
    assert Recommend(p[..3], 2) == [Recommendation("7", "Soup", 2), Recommendation("9", "Stew", 1)];
  }

  /** The recommendations after one more path are those before it with that path admitted. */
  lemma RecommendStep(paths: seq<RecipeHit>, i: nat, count: int)
    requires i < |paths|
    ensures Recommend(paths[..i + 1], count) == Admit(Recommend(paths[..i], count), paths[i], count)
  {
    assert paths[..i + 1][..i] == paths[..i];
  }

  /** No recipe is recommended twice. */
  lemma RecommendDistinct(paths: seq<RecipeHit>, count: int)
    ensures NoDuplicates(RecIds(Recommend(paths, count)))
  {
    RecommendIds(paths, count);
    FirstOccurrencesFacts(HitIds(paths));
  }

  /** In a list of distinct ids, the id at position `k` is found at `k`. */
  lemma FindIdOfDistinct(recs: seq<Recommendation>, k: nat, id: string)
    requires NoDuplicates(RecIds(recs))
    requires k < |recs| && recs[k].id == id
    ensures FindId(recs, id) == k
  {
    var f := FindId(recs, id);
    assert RecIds(recs)[f] == RecIds(recs)[k];
  }

  // ---------------------------------------------------------------------------
  // The loops
  // ---------------------------------------------------------------------------

  /** The index map the loop keeps: each id maps to the position of its entry, and every entry is indexed. */
  ghost predicate Indexed(recipes: seq<Recommendation>, recipeHash: map<string, nat>) {
    && (forall id :: id in recipeHash ==> recipeHash[id] < |recipes| && recipes[recipeHash[id]].id == id)
    && (forall j :: 0 <= j < |recipes| ==> recipes[j].id in recipeHash)
  }

  /**
   * One iteration of the recommendation loop: the entry found through the
   * index map gets one more recommending user, or a new entry is appended
   * and indexed while fewer than `count` recipes are admitted.
   */
  method AdmitPath(recipes: seq<Recommendation>, recipeHash: map<string, nat>, hit: RecipeHit, count: int)
    returns (recipes': seq<Recommendation>, recipeHash': map<string, nat>)
    requires NoDuplicates(RecIds(recipes)) && Indexed(recipes, recipeHash)
    ensures recipes' == Admit(recipes, hit, count)
    ensures Indexed(recipes', recipeHash')
  {
    recipes', recipeHash' := recipes, recipeHash;
    if hit.id in recipeHash {
      var k := recipeHash[hit.id];
      FindIdOfDistinct(recipes, k, hit.id);
      recipes' := recipes[k := recipes[k].(recommendedUserCount := recipes[k].recommendedUserCount + 1)];
    } else {
      assert hit.id !in RecIds(recipes);
      if |recipes| < count {
        recipes' := recipes + [Recommendation(hit.id, hit.title, 1)];
        recipeHash' := recipeHash[hit.id := |recipes|];
      }
    }
  }

  /**
   * The recommendation loop: one pass over the paths with a map from recipe
   * id to the position of its entry. An absent or empty result gives no
   * recommendations.
   */
  method GetRecommendedRecipes(data: Option<seq<RecipeHit>>, count: int) returns (recipes: seq<Recommendation>)
    ensures data.None? ==> recipes == []
    ensures data.Some? ==> recipes == Recommend(data.value, count)
  {
    recipes := [];
    if data.None? || |data.value| == 0 {
      return;
    }
    var paths := data.value;
    var recipeHash: map<string, nat> := map[];
    for i := 0 to |paths|
      invariant recipes == Recommend(paths[..i], count)
      invariant Indexed(recipes, recipeHash)
    {
      RecommendStep(paths, i, count);
      RecommendDistinct(paths[..i], count);
      recipes, recipeHash := AdmitPath(recipes, recipeHash, paths[i], count);
    }
    assert paths[..|paths|] == paths;
  }

  /** Each recipe vertex, in order, as its id and title. */
  function Summaries(hits: seq<RecipeHit>): (r: seq<RecipeSummary>)
    ensures |r| == |hits|
    ensures forall i :: 0 <= i < |hits| ==> r[i].id == hits[i].id && r[i].title == hits[i].title
  {
    seq(|hits|, i requires 0 <= i < |hits| => RecipeSummary(hits[i].id, hits[i].title))
  }

  /**
   * The favourites mapping: each recipe vertex of the result, in the order
   * the traversal returned them, becomes its id and title. An absent or
   * empty result gives no recipes.
   */
  method FavoriteRecipes(data: Option<seq<RecipeHit>>) returns (recipes: seq<RecipeSummary>)
    ensures data.None? ==> recipes == []
    ensures data.Some? ==> recipes == Summaries(data.value)
  {
    recipes := [];
    if data.None? || |data.value| == 0 {
      return;
    }
    var recipeVertices := data.value;
    for i := 0 to |recipeVertices|
      invariant recipes == Summaries(recipeVertices[..i])
    {
      recipes := recipes + [RecipeSummary(recipeVertices[i].id, recipeVertices[i].title)];
    }
  }
}
