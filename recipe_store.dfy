/**
 * The recipe store: the bot's bookkeeping in the graph (GraphRecipeStore.js).
 *
 * The graph service is replaced by fields of the store: the list of graph ids
 * the service holds, the service URL the client is configured with, the
 * schemas the service returns, and the graph itself. Query strings, the
 * service's error replies and the asynchronous plumbing are not modelled.
 * A vertex argument that JavaScript may receive as null is an `Option`: the
 * property access on null raises a TypeError, which rejects the promise;
 * the methods report that rejection by returning `None` (or `false`), after
 * whatever was already written.
 */
module RecipeStore {
  import opened Optional
  import opened JsStrings
  import opened CanonicalKeys
  import opened Escaping
  import opened PropertyGraph
  import opened GraphQueries

  /**
   * The client URL after the graph is chosen: everything after the last `/`
   * is replaced by the graph id, keeping the prefix through that slash (the
   * whole URL is replaced when it has no slash).
   */
  function UpdatedGraphUrl(url: string, graphId: string): (r: string)
    ensures |graphId| <= |r| && r[|r| - |graphId|..] == graphId
    ensures var prefix := r[..|r| - |graphId|];
            && prefix <= url
            && (prefix == [] || prefix[|prefix| - 1] == '/')
            && '/' !in url[|prefix|..]
  {
    var k := LastIndexOf(url, '/');
    var prefix := Substring(url, 0, k + 1);
    assert prefix == url[..k + 1];
    var tail := url[k + 1..];
    assert '/' !in tail by {
      forall i | 0 <= i < |tail| ensures tail[i] != '/' {
        assert tail[i] == url[k + 1 + i];
      }
    }
    var r := prefix + graphId;
    assert r[..|r| - |graphId|] == prefix;
    r
  }

  /** With a graph id free of slashes, choosing the graph again leaves the URL as it is. */
  lemma UpdatedGraphUrlIdempotent(url: string, graphId: string)
    requires '/' !in graphId
    ensures UpdatedGraphUrl(UpdatedGraphUrl(url, graphId), graphId) == UpdatedGraphUrl(url, graphId)
  {
    var k := LastIndexOf(url, '/');
    var prefix := url[..k + 1];
    var u := UpdatedGraphUrl(url, graphId);
    assert u == prefix + graphId;
    LastIndexOfAppend(prefix, graphId, '/');
    assert LastIndexOf(prefix, '/') == k;
    assert Substring(u, 0, k + 1) == prefix;
  }

  class GraphRecipeStore {
    /** The id of the graph the bot works in. */
    const graphId: string
    /** The service URL the graph client is configured with. */
    var url: string
    /** The graph ids the service holds. */
    var graphIds: seq<string>
    /** The schemas the service returns when asked for the schema. */
    var schemas: seq<Schema>
    var graph: Graph

    ghost predicate Valid()
      reads this
    {
      WellFormed(graph)
    }

    constructor (graphId: string, url: string, graphIds: seq<string>, schemas: seq<Schema>, graph: Graph)
      requires WellFormed(graph)
      ensures this.graphId == graphId && this.url == url && this.graphIds == graphIds
      ensures this.schemas == schemas && this.graph == graph
      ensures Valid()
    {
      this.graphId := graphId;
      this.url := url;
      this.graphIds := graphIds;
      this.schemas := schemas;
      this.graph := graph;
    }

    /** initGraph: create the graph unless the service already holds it, then point the client at it. */
    method InitGraph()
      modifies this
      ensures graphIds == if graphId in old(graphIds) then old(graphIds) else old(graphIds) + [graphId]
      ensures graphId in graphIds
      ensures url == UpdatedGraphUrl(old(url), graphId)
      ensures schemas == old(schemas) && graph == old(graph)
    {
      var graphExists := graphId in graphIds;
      if !graphExists {
        graphIds := graphIds + [graphId];
      }
      UpdateGraphUrl();
    }

    method UpdateGraphUrl()
      modifies this
      ensures url == UpdatedGraphUrl(old(url), graphId)
      ensures graphIds == old(graphIds) && schemas == old(schemas) && graph == old(graph)
    {
      url := Substring(url, 0, LastIndexOf(url, '/') + 1) + graphId;
    }

    /**
     * initGraphSchema: the default schema is written only when none exists.
     * The promise resolves with the first fetched schema (absent when the
     * service returned none), also when the default was just written.
     */
    method InitGraphSchema() returns (resolved: Option<Schema>)
      modifies this
      ensures schemas == SchemaAfterInit(old(schemas))
      ensures SchemaExists(old(schemas)) ==> schemas == old(schemas)
      ensures resolved == if |old(schemas)| > 0 then Some(old(schemas)[0]) else None
      ensures url == old(url) && graphIds == old(graphIds) && graph == old(graph)
    {
      var schema: Option<Schema> := None;
      if |schemas| > 0 {
        schema := Some(schemas[0]);
      }
      var schemaExists := schema.Some? && |schema.value.propertyKeys| > 0;
      if !schemaExists {
        schemas := [DefaultSchema()];
      }
      resolved := schema;
    }

    /**
     * addVertexIfNotExists: look the vertex up by label and name; return the
     * one found, or create the draft with a fresh id and return that.
     */
    method AddVertexIfNotExists(draft: VertexDraft) returns (vertex: Vertex)
      requires Valid()
      modifies this
      ensures (graph, vertex) == Upsert(old(graph), draft)
      ensures Valid()
      ensures url == old(url) && graphIds == old(graphIds) && schemas == old(schemas)
    {
      UpsertPreservesWellFormed(graph, draft);
      var found := Lookup(graph, draft.kind, draft.name);
      if found.Some? {
        vertex := found.value;
      } else {
        vertex := Created(graph, draft);
        graph := Graph(graph.vertices[KeyOf(draft) := vertex], graph.edges, graph.nextId + 1);
      }
    }

    /**
     * addUpdateEdge: an edge already joining the two vertices gets its count
     * raised by one (a missing or zero count read as 0); otherwise the draft
     * edge is created.
     */
    method AddUpdateEdge(edge: EdgeDraft)
      requires Valid()
      modifies this
      ensures graph == BumpEdge(old(graph), edge)
      ensures Valid()
      ensures url == old(url) && graphIds == old(graphIds) && schemas == old(schemas)
    {
      var key := (edge.outV, edge.inV);
      if key in graph.edges {
        var existing := graph.edges[key];
        var count := 0;
        if existing.count.Some? && existing.count.value != 0 {
          count := existing.count.value;
        }
        graph := graph.(edges := graph.edges[key := Edge(existing.edgeLabel, Some(count + 1))]);
      } else {
        graph := graph.(edges := graph.edges[key := Edge(edge.edgeLabel, edge.count)]);
      }
    }

    /** addUser: upsert a person vertex named by the user id (the id is stored as given). */
    method AddUser(userId: string) returns (user: Vertex)
      requires Valid()
      modifies this
      ensures (graph, user) == Upsert(old(graph), VertexDraft(Person, userId, None, None))
      ensures user.kind == Person && user.name == userId
      ensures Valid()
      ensures url == old(url) && graphIds == old(graphIds) && schemas == old(schemas)
    {
      UpsertPreservesWellFormed(graph, VertexDraft(Person, userId, None, None));
      user := AddVertexIfNotExists(VertexDraft(Person, userId, None, None));
    }

    /**
     * recordIngredientRequestForUser and recordCuisineRequestForUser (the two
     * are the same operation): bump the `selects` edge from the user to the
     * ingredient or cuisine. A null user rejects before anything is written.
     */
    method RecordRequestForUser(target: Vertex, user: Option<Vertex>) returns (ok: bool)
      requires Valid()
      modifies this
      ensures ok <==> user.Some?
      ensures graph == if user.Some? then BumpEdge(old(graph), Selects(user.value.id, target.id)) else old(graph)
      ensures Valid()
      ensures url == old(url) && graphIds == old(graphIds) && schemas == old(schemas)
    {
      if user.None? {
        return false;
      }
      AddUpdateEdge(Selects(user.value.id, target.id));
      ok := true;
    }

    /**
     * recordRecipeRequestForUser: always bump the edge from the user to the
     * recipe, then bump the edge from the ingredient or cuisine to the recipe
     * only when there is one.
     */
    method RecordRecipeRequestForUser(recipe: Vertex, ingredientCuisine: Option<Vertex>, user: Option<Vertex>) returns (ok: bool)
      requires Valid()
      modifies this
      ensures ok <==> user.Some?
      ensures graph == if user.Some? then RecipeRequestRecorded(old(graph), recipe, ingredientCuisine, user.value) else old(graph)
      ensures Valid()
      ensures url == old(url) && graphIds == old(graphIds) && schemas == old(schemas)
    {
      if user.None? {
        return false;
      }
      AddUpdateEdge(Selects(user.value.id, recipe.id));
      if ingredientCuisine.Some? {
        AddUpdateEdge(Selects(ingredientCuisine.value.id, recipe.id));
      }
      ok := true;
    }

    /** findIngredient: the ingredient vertex stored under the list's unique name. */
    method FindIngredient(ingredientsStr: string) returns (found: Option<Vertex>)
      ensures found == Lookup(graph, Ingredient, IngredientKey(ingredientsStr))
    {
      var name := UniqueIngredientsName(ingredientsStr);
      found := Lookup(graph, Ingredient, name);
    }

    /** findCuisine: the cuisine vertex stored under the cuisine's unique name. */
    method FindCuisine(cuisine: string) returns (found: Option<Vertex>)
      ensures found == Lookup(graph, Cuisine, NameKey(cuisine))
    {
      found := Lookup(graph, Cuisine, NameKey(cuisine));
    }

    /** findRecipe: the recipe vertex stored under the recipe's unique name. */
    method FindRecipe(recipeId: string) returns (found: Option<Vertex>)
      ensures found == Lookup(graph, Recipe, NameKey(recipeId))
    {
      found := Lookup(graph, Recipe, NameKey(recipeId));
    }

    /**
     * addIngredient: upsert the ingredient vertex under the list's unique
     * name, its detail the matching recipes' JSON text with quotes escaped,
     * then record the user's request. Returns the stored vertex (which keeps
     * its first detail when it already existed).
     */
    method AddIngredient(ingredientsStr: string, matchingRecipesJson: string, user: Option<Vertex>) returns (added: Option<Vertex>)
      requires Valid()
      modifies this
      ensures var (g, v) := Upsert(old(graph), IngredientDraft(ingredientsStr, matchingRecipesJson));
              && graph == (if user.Some? then BumpEdge(g, Selects(user.value.id, v.id)) else g)
              && added == (if user.Some? then Some(v) else None)
      ensures Valid()
      ensures url == old(url) && graphIds == old(graphIds) && schemas == old(schemas)
    {
      var name := UniqueIngredientsName(ingredientsStr);
      var vertex := AddVertexIfNotExists(VertexDraft(Ingredient, name, None, Some(EscapeQuotes(matchingRecipesJson))));
      var ok := RecordRequestForUser(vertex, user);
      added := if ok then Some(vertex) else None;
    }

    /** addCuisine: as addIngredient, for a cuisine under its unique name. */
    method AddCuisine(cuisine: string, matchingRecipesJson: string, user: Option<Vertex>) returns (added: Option<Vertex>)
      requires Valid()
      modifies this
      ensures var (g, v) := Upsert(old(graph), CuisineDraft(cuisine, matchingRecipesJson));
              && graph == (if user.Some? then BumpEdge(g, Selects(user.value.id, v.id)) else g)
              && added == (if user.Some? then Some(v) else None)
      ensures Valid()
      ensures url == old(url) && graphIds == old(graphIds) && schemas == old(schemas)
    {
      var vertex := AddVertexIfNotExists(VertexDraft(Cuisine, NameKey(cuisine), None, Some(EscapeQuotes(matchingRecipesJson))));
      var ok := RecordRequestForUser(vertex, user);
      added := if ok then Some(vertex) else None;
    }

    /**
     * addRecipe: upsert the recipe vertex under the recipe's unique name, its
     * title trimmed with quotes escaped and its detail with quotes and line
     * feeds escaped, then record the request.
     */
    method AddRecipe(recipeId: string, recipeTitle: string, recipeDetail: string,
                     ingredientCuisine: Option<Vertex>, user: Option<Vertex>) returns (added: Option<Vertex>)
      requires Valid()
      modifies this
      ensures var (g, v) := Upsert(old(graph), RecipeDraft(recipeId, recipeTitle, recipeDetail));
              && graph == (if user.Some? then RecipeRequestRecorded(g, v, ingredientCuisine, user.value) else g)
              && added == (if user.Some? then Some(v) else None)
      ensures Valid()
      ensures url == old(url) && graphIds == old(graphIds) && schemas == old(schemas)
    {
      var draft := VertexDraft(Recipe, NameKey(recipeId), Some(EscapeQuotes(Trim(recipeTitle))),
                               Some(EscapeNewlines(EscapeQuotes(recipeDetail))));
      var vertex := AddVertexIfNotExists(draft);
      var ok := RecordRecipeRequestForUser(vertex, ingredientCuisine, user);
      added := if ok then Some(vertex) else None;
    }

    /**
     * findFavoriteRecipesForUser: the id and title of each recipe vertex the
     * favourites traversal returned. A null user rejects.
     */
    method FindFavoriteRecipesForUser(user: Option<Vertex>, data: Option<seq<RecipeHit>>) returns (recipes: Option<seq<RecipeSummary>>)
      ensures user.None? ==> recipes.None?
      ensures user.Some? ==> recipes == Some(if data.Some? then Summaries(data.value) else [])
    {
      if user.None? {
        return None;
      }
      var found := FavoriteRecipes(data);
      recipes := Some(found);
    }
  }

  /** The ingredient vertex addIngredient writes. */
  function IngredientDraft(ingredientsStr: string, matchingRecipesJson: string): (d: VertexDraft)
    ensures KeyOf(d) == (Ingredient, IngredientKey(ingredientsStr)) && d.title.None?
    ensures d.detail.Some? && UnescapeQuotes(d.detail.value) == matchingRecipesJson
  {
    UnescapeEscapeQuotes(matchingRecipesJson);
    VertexDraft(Ingredient, IngredientKey(ingredientsStr), None, Some(EscapeQuotes(matchingRecipesJson)))
  }

  /** The cuisine vertex addCuisine writes. */
  function CuisineDraft(cuisine: string, matchingRecipesJson: string): (d: VertexDraft)
    ensures KeyOf(d) == (Cuisine, NameKey(cuisine)) && d.title.None?
    ensures d.detail.Some? && UnescapeQuotes(d.detail.value) == matchingRecipesJson
  {
    UnescapeEscapeQuotes(matchingRecipesJson);
    VertexDraft(Cuisine, NameKey(cuisine), None, Some(EscapeQuotes(matchingRecipesJson)))
  }

  /** The recipe vertex addRecipe writes. */
  function RecipeDraft(recipeId: string, recipeTitle: string, recipeDetail: string): (d: VertexDraft)
    ensures KeyOf(d) == (Recipe, NameKey(recipeId)) && d.title.Some? && d.detail.Some?
    ensures UnescapeQuotes(d.title.value) == Trim(recipeTitle)
    ensures '\n' !in d.detail.value
  {
    UnescapeEscapeQuotes(Trim(recipeTitle));
    EscapeNewlinesShape(EscapeQuotes(recipeDetail));
    VertexDraft(Recipe, NameKey(recipeId), Some(EscapeQuotes(Trim(recipeTitle))), Some(EscapeNewlines(EscapeQuotes(recipeDetail))))
  }

  /** The graph after a recipe request: the user's edge bumped, then the ingredient's or cuisine's if any. */
  function RecipeRequestRecorded(g: Graph, recipe: Vertex, ingredientCuisine: Option<Vertex>, user: Vertex): Graph {
    var afterUser := BumpEdge(g, Selects(user.id, recipe.id));
    if ingredientCuisine.Some? then BumpEdge(afterUser, Selects(ingredientCuisine.value.id, recipe.id)) else afterUser
  }

  /**
   * A recipe request adds one to the user's count for the recipe and, when
   * an ingredient or cuisine was chosen before (and is not the user's own
   * vertex), one to its count for the recipe; no other count moves.
   */
  lemma RecipeRequestCounts(g: Graph, recipe: Vertex, ingredientCuisine: Option<Vertex>, user: Vertex)
    requires ingredientCuisine.Some? ==> ingredientCuisine.value.id != user.id
    ensures var g' := RecipeRequestRecorded(g, recipe, ingredientCuisine, user);
            && EdgeCount(g', user.id, recipe.id) == EdgeCount(g, user.id, recipe.id) + 1
            && (ingredientCuisine.Some? ==>
                  EdgeCount(g', ingredientCuisine.value.id, recipe.id) == EdgeCount(g, ingredientCuisine.value.id, recipe.id) + 1)
            && (forall a: nat, b: nat :: (a, b) != (user.id, recipe.id) && (ingredientCuisine.None? || (a, b) != (ingredientCuisine.value.id, recipe.id))
                  ==> EdgeCount(g', a, b) == EdgeCount(g, a, b))
            && g'.vertices == g.vertices
  {
    var afterUser := BumpEdge(g, Selects(user.id, recipe.id));
    BumpSelectsCounts(g, user.id, recipe.id);
    if ingredientCuisine.Some? {
      BumpSelectsCounts(afterUser, ingredientCuisine.value.id, recipe.id);
    }
  }
}
