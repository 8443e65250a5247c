/**
 * The older graph variant (RecipeGraph.js): the same unique names and the
 * same vertex upsert as the recipe store, but edges are created only when
 * absent and carry no counter, and the source vertex of every new edge is
 * the last vertex recorded in the conversation state.
 */
module LegacyGraph {
  import opened Optional
  import opened JsStrings
  import opened CanonicalKeys
  import opened Escaping
  import opened PropertyGraph
  import opened RecipeStore

  /** The part of a conversation state this variant reads and writes. */
  class GraphState {
    const userId: string
    /** The person vertex found or created for the user; the source of new edges. */
    var lastGraphVertex: Option<Vertex>

    constructor (userId: string)
      ensures this.userId == userId && lastGraphVertex.None?
    {
      this.userId := userId;
      lastGraphVertex := None;
    }
  }

  /**
   * The recipe vertex this variant writes: the title trimmed with quotes
   * escaped, the detail with quotes escaped and its line feeds left in place.
   */
  function LegacyRecipeDraft(recipeId: string, recipeTitle: string, recipeDetail: string): (d: VertexDraft)
    ensures d.kind == Recipe && d.name == NameKey(recipeId)
    ensures d.title.Some? && UnescapeQuotes(d.title.value) == Trim(recipeTitle)
    ensures d.detail.Some? && UnescapeQuotes(d.detail.value) == recipeDetail
    ensures '\n' in recipeDetail ==> '\n' in d.detail.value
  {
    UnescapeEscapeQuotes(Trim(recipeTitle));
    UnescapeEscapeQuotes(recipeDetail);
    EscapeQuotesShape(recipeDetail);
    VertexDraft(Recipe, NameKey(recipeId), Some(EscapeQuotes(Trim(recipeTitle))), Some(EscapeQuotes(recipeDetail)))
  }

  /** The graph after upserting a vertex and linking the last vertex of the state to it. */
  function Linked(g: Graph, draft: VertexDraft, last: Vertex): Graph {
    var (g1, v) := Upsert(g, draft);
    LinkIfAbsent(g1, "selects", last.id, v.id)
  }

  /**
   * Adding the same vertex twice from the same source leaves the graph as
   * after the first time: one vertex, one edge, no counter.
   */
  lemma LinkedTwice(g: Graph, draft1: VertexDraft, draft2: VertexDraft, last: Vertex)
    requires KeyOf(draft1) == KeyOf(draft2)
    ensures Linked(Linked(g, draft1, last), draft2, last) == Linked(g, draft1, last)
    ensures var (g1, v) := Upsert(g, draft1);
            (last.id, v.id) in Linked(g, draft1, last).edges
  {
    var (g1, v) := Upsert(g, draft1);
    var g2 := LinkIfAbsent(g1, "selects", last.id, v.id);
    assert KeyOf(draft1) in g1.vertices && g1.vertices[KeyOf(draft1)] == v;
    assert g2.vertices == g1.vertices;
    assert Upsert(g2, draft2) == (g2, v);
  }

  /**
   * On a graph without a schema, initGraph as written leaves the schema list
   * without a schema, while the intended initialisation leaves exactly the
   * default schema in force.
   */
  lemma InitGraphAsWrittenMissesSchema()
    ensures !SchemaExists([])
    ensures SchemaAfterInit([]) == [DefaultSchema()] && SchemaExists(SchemaAfterInit([]))
  {
  }

  class RecipeGraph {
    /** The schemas the service returns when asked for the schema. */
    var schemas: seq<Schema>
    var graph: Graph

    ghost predicate Valid()
      reads this
    {
      WellFormed(graph)
    }

    constructor (schemas: seq<Schema>, graph: Graph)
      requires WellFormed(graph)
      ensures this.schemas == schemas && this.graph == graph && Valid()
    {
      this.schemas := schemas;
      this.graph := graph;
    }

    /**
     * initGraph as written. The schema callback is a plain function, so
     * inside it `this` is not the graph: when a schema exists it is
     * resolved, and when none exists the call that would write the default
     * schema fails before reaching the service, nothing is written and the
     * promise never settles (`None`).
     */
    method InitGraphAsWritten() returns (schema: Option<Schema>)
      ensures SchemaExists(schemas) ==> schema == Some(schemas[0])
      ensures !SchemaExists(schemas) ==> schema.None?
    {
      var fetched: Option<Schema> := None;
      if |schemas| > 0 {
        fetched := Some(schemas[0]);
      }
      var schemaExists := fetched.Some? && |fetched.value.propertyKeys| > 0;
      if !schemaExists {
        schema := None;
      } else {
        schema := fetched;
      }
    }

    /**
     * initGraph as evidently intended (and as the recipe store does it): the
     * default schema is written only when none exists, and the promise
     * resolves with the schema in force afterwards.
     */
    method InitGraph() returns (schema: Schema)
      modifies this
      ensures schemas == SchemaAfterInit(old(schemas))
      ensures schema == schemas[0] && |schema.propertyKeys| > 0
      ensures !SchemaExists(old(schemas)) ==> schema == DefaultSchema()
      ensures graph == old(graph)
    {
      var fetched: Option<Schema> := None;
      if |schemas| > 0 {
        fetched := Some(schemas[0]);
      }
      var schemaExists := fetched.Some? && |fetched.value.propertyKeys| > 0;
      if !schemaExists {
        schema := DefaultSchema();
        schemas := [schema];
      } else {
        schema := fetched.value;
      }
    }

    /**
     * initGraph as written, on a service that holds no schema: nothing is
     * resolved and the service still holds no schema afterwards.
     */
    static method InitGraphAsWrittenOnEmptyService() returns (schema: Option<Schema>, schemasAfter: seq<Schema>)
      ensures schema.None? && schemasAfter == []
      ensures !SchemaExists(schemasAfter)
    {
      var recipeGraph := new RecipeGraph([], EmptyGraph());
      schema := recipeGraph.InitGraphAsWritten();
      schemasAfter := recipeGraph.schemas;
    }

    /** addVertexIfNotExists: return the vertex stored under the draft's label and name, or create it. */
    method AddVertexIfNotExists(draft: VertexDraft) returns (vertex: Vertex)
      requires Valid()
      modifies this
      ensures (graph, vertex) == Upsert(old(graph), draft)
      ensures schemas == old(schemas) && Valid()
    {
      UpsertPreservesWellFormed(graph, draft);
      if KeyOf(draft) in graph.vertices {
        vertex := graph.vertices[KeyOf(draft)];
      } else {
        vertex := Vertex(graph.nextId, draft.kind, draft.name, draft.title, draft.detail);
        graph := graph.(vertices := graph.vertices[KeyOf(draft) := vertex], nextId := graph.nextId + 1);
      }
    }

    /** addEdgeIfNotExists: create an edge without properties unless one already joins the two vertices. */
    method AddEdgeIfNotExists(edgeLabel: string, outV: nat, inV: nat)
      requires Valid()
      modifies this
      ensures graph == LinkIfAbsent(old(graph), edgeLabel, outV, inV)
      ensures schemas == old(schemas) && Valid()
    {
      if (outV, inV) !in graph.edges {
        graph := graph.(edges := graph.edges[(outV, inV) := Edge(edgeLabel, None)]);
      }
    }

    /** addUserVertex: upsert the user's person vertex and remember it in the state. */
    method AddUserVertex(state: GraphState)
      requires Valid()
      modifies this, state
      ensures state.lastGraphVertex.Some?
      ensures (graph, state.lastGraphVertex.value) == Upsert(old(graph), VertexDraft(Person, state.userId, None, None))
      ensures schemas == old(schemas) && Valid()
    {
      var vertex := AddVertexIfNotExists(VertexDraft(Person, state.userId, None, None));
      state.lastGraphVertex := Some(vertex);
    }

    /**
     * addIngredientsVertex: upsert the ingredient vertex and link the state's
     * last vertex to it. Without a last vertex the link fails (after the
     * upsert). The state is only read.
     */
    method AddIngredientsVertex(state: GraphState, ingredientsStr: string, matchingRecipesJson: string) returns (added: Option<Vertex>)
      requires Valid()
      modifies this
      ensures var (g, v) := Upsert(old(graph), IngredientDraft(ingredientsStr, matchingRecipesJson));
              && graph == (if state.lastGraphVertex.Some? then LinkIfAbsent(g, "selects", state.lastGraphVertex.value.id, v.id) else g)
              && added == (if state.lastGraphVertex.Some? then Some(v) else None)
      ensures schemas == old(schemas) && Valid()
    {
      var name := UniqueIngredientsName(ingredientsStr);
      var vertex := AddVertexIfNotExists(VertexDraft(Ingredient, name, None, Some(EscapeQuotes(matchingRecipesJson))));
      added := LinkFromLast(state, vertex);
    }

    /** addCuisineVertex: as addIngredientsVertex, for a cuisine under its unique name. */
    method AddCuisineVertex(state: GraphState, cuisine: string, matchingRecipesJson: string) returns (added: Option<Vertex>)
      requires Valid()
      modifies this
      ensures var (g, v) := Upsert(old(graph), CuisineDraft(cuisine, matchingRecipesJson));
              && graph == (if state.lastGraphVertex.Some? then LinkIfAbsent(g, "selects", state.lastGraphVertex.value.id, v.id) else g)
              && added == (if state.lastGraphVertex.Some? then Some(v) else None)
      ensures schemas == old(schemas) && Valid()
    {
      var vertex := AddVertexIfNotExists(VertexDraft(Cuisine, NameKey(cuisine), None, Some(EscapeQuotes(matchingRecipesJson))));
      added := LinkFromLast(state, vertex);
    }

    /** addRecipeVertex: as addIngredientsVertex, for a recipe whose detail keeps its line feeds. */
    method AddRecipeVertex(state: GraphState, recipeId: string, recipeTitle: string, recipeDetail: string) returns (added: Option<Vertex>)
      requires Valid()
      modifies this
      ensures var (g, v) := Upsert(old(graph), LegacyRecipeDraft(recipeId, recipeTitle, recipeDetail));
              && graph == (if state.lastGraphVertex.Some? then LinkIfAbsent(g, "selects", state.lastGraphVertex.value.id, v.id) else g)
              && added == (if state.lastGraphVertex.Some? then Some(v) else None)
      ensures schemas == old(schemas) && Valid()
    {
      var draft := VertexDraft(Recipe, NameKey(recipeId), Some(EscapeQuotes(Trim(recipeTitle))), Some(EscapeQuotes(recipeDetail)));
      var vertex := AddVertexIfNotExists(draft);
      added := LinkFromLast(state, vertex);
    }

    /** The edge step shared by the three add methods: link the state's last vertex to `vertex`. */
    method LinkFromLast(state: GraphState, vertex: Vertex) returns (added: Option<Vertex>)
      requires Valid()
      modifies this
      ensures graph == if state.lastGraphVertex.Some? then LinkIfAbsent(old(graph), "selects", state.lastGraphVertex.value.id, vertex.id) else old(graph)
      ensures added == if state.lastGraphVertex.Some? then Some(vertex) else None
      ensures schemas == old(schemas) && Valid()
    {
      if state.lastGraphVertex.None? {
        return None;
      }
      AddEdgeIfNotExists("selects", state.lastGraphVertex.value.id, vertex.id);
      added := Some(vertex);
    }
  }
}
