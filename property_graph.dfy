/**
 * An in-memory stand-in for the property graph the bot keeps in IBM Graph.
 *
 * Vertices are identified by their label and their `name` property (the
 * schema's unique composite index `vertexByName`), and receive fresh numeric
 * ids when they are created. Edges are identified by the ordered pair of the
 * ids they join and may carry an integer `count` property.
 *
 * The three ways the bot writes to the graph are defined here as functions on
 * graph values: upsert of a vertex (first write wins), the counter bump on an
 * edge, and the create-only-if-absent edge of the older graph variant.
 */
module PropertyGraph {
  import opened Optional

  datatype Label = Person | Ingredient | Cuisine | Recipe

  /** The label as it is written in the graph. */
  function LabelName(l: Label): (r: string)
    ensures r in DefaultSchema().vertexLabels
  {
    match l
    case Person => "person"
    case Ingredient => "ingredient"
    case Cuisine => "cuisine"
    case Recipe => "recipe"
  }

  /** A vertex as the bot builds it before it is stored: no id yet. */
  datatype VertexDraft = VertexDraft(kind: Label, name: string, title: Option<string>, detail: Option<string>)

  /** A stored vertex. */
  datatype Vertex = Vertex(id: nat, kind: Label, name: string, title: Option<string>, detail: Option<string>)

  /** An edge as the bot builds it: label, both ends, and the `count` property it is created with. */
  datatype EdgeDraft = EdgeDraft(edgeLabel: string, outV: nat, inV: nat, count: Option<int>)

  /** A stored edge; its ends are the key it is stored under. */
  datatype Edge = Edge(edgeLabel: string, count: Option<int>)

  datatype Graph = Graph(vertices: map<(Label, string), Vertex>, edges: map<(nat, nat), Edge>, nextId: nat)

  /** The label-and-name key a vertex is found by. */
  function KeyOf(d: VertexDraft): (Label, string) {
    (d.kind, d.name)
  }

  /**
   * Every vertex sits under its own label and name, and ids are distinct and
   * below the next fresh id.
   */
  ghost predicate WellFormed(g: Graph) {
    (forall k :: k in g.vertices ==> g.vertices[k].kind == k.0 && g.vertices[k].name == k.1 && g.vertices[k].id < g.nextId)
    && (forall k1, k2 :: k1 in g.vertices && k2 in g.vertices && k1 != k2 ==> g.vertices[k1].id != g.vertices[k2].id)
  }

  function EmptyGraph(): (g: Graph)
    ensures WellFormed(g)
  {
    Graph(map[], map[], 0)
  }

  /** The vertex with this label and name, if there is one. */
  function Lookup(g: Graph, kind: Label, name: string): (r: Option<Vertex>)
    ensures r.Some? <==> (kind, name) in g.vertices
    ensures WellFormed(g) && r.Some? ==> r.value.kind == kind && r.value.name == name
  {
    if (kind, name) in g.vertices then Some(g.vertices[(kind, name)]) else None
  }

  /** The vertex a draft becomes when it is created with the next fresh id. */
  function Created(g: Graph, d: VertexDraft): Vertex {
    Vertex(g.nextId, d.kind, d.name, d.title, d.detail)
  }

  /**
   * Add-if-not-exists: a vertex already stored under the draft's label and
   * name is returned and nothing is written; otherwise exactly one vertex,
   * carrying every attribute of the draft and a fresh id, is added.
   */
  function Upsert(g: Graph, d: VertexDraft): (r: (Graph, Vertex))
    ensures KeyOf(d) in g.vertices ==> r.0 == g && r.1 == g.vertices[KeyOf(d)]
    ensures KeyOf(d) !in g.vertices ==>
              && r.1 == Vertex(g.nextId, d.kind, d.name, d.title, d.detail)
              && r.0.vertices == g.vertices[KeyOf(d) := r.1]
              && r.0.edges == g.edges
              && r.0.nextId == g.nextId + 1
  {
    if KeyOf(d) in g.vertices then (g, g.vertices[KeyOf(d)])
    else
      var v := Created(g, d);
      (Graph(g.vertices[KeyOf(d) := v], g.edges, g.nextId + 1), v)
  }

  /** Upserting keeps the graph well formed, and the vertex returned is the one stored under the key. */
  lemma UpsertPreservesWellFormed(g: Graph, d: VertexDraft)
    requires WellFormed(g)
    ensures WellFormed(Upsert(g, d).0)
    ensures KeyOf(d) in Upsert(g, d).0.vertices && Upsert(g, d).0.vertices[KeyOf(d)] == Upsert(g, d).1
    ensures Upsert(g, d).1.kind == d.kind && Upsert(g, d).1.name == d.name
  {
  }

  /**
   * First write wins: after a vertex is upserted, a second upsert under the
   * same label and name, whatever its title and detail, returns the first
   * vertex with its first title and detail and leaves the graph as it was.
   */
  lemma UpsertFirstWriteWins(g: Graph, d1: VertexDraft, d2: VertexDraft)
    requires KeyOf(d1) == KeyOf(d2)
    ensures Upsert(Upsert(g, d1).0, d2) == (Upsert(g, d1).0, Upsert(g, d1).1)
    ensures KeyOf(d1) !in g.vertices ==>
              Upsert(Upsert(g, d1).0, d2).1.title == d1.title && Upsert(Upsert(g, d1).0, d2).1.detail == d1.detail
  {
  }

  // ---------------------------------------------------------------------------
  // Counted edges
  // ---------------------------------------------------------------------------

  /** The edge's `count`, a missing (or zero) count read as 0. */
  function CountOrZero(e: Edge): int {
    e.count.GetOr(0)
  }

  /**
   * Add-or-update of a counted edge: an edge already joining the two vertices
   * keeps its label and gets `count` set to its old count plus one (a missing
   * count read as 0); otherwise one edge with the draft's label and count is
   * created. No other edge and no vertex changes.
   */
  function BumpEdge(g: Graph, e: EdgeDraft): (r: Graph)
    ensures (e.outV, e.inV) in r.edges
    ensures (e.outV, e.inV) in g.edges ==>
              r.edges[(e.outV, e.inV)] == Edge(g.edges[(e.outV, e.inV)].edgeLabel, Some(CountOrZero(g.edges[(e.outV, e.inV)]) + 1))
    ensures (e.outV, e.inV) !in g.edges ==> r.edges[(e.outV, e.inV)] == Edge(e.edgeLabel, e.count)
    ensures r.edges.Keys == g.edges.Keys + {(e.outV, e.inV)}
    ensures forall k :: k in g.edges && k != (e.outV, e.inV) ==> r.edges[k] == g.edges[k]
    ensures r.vertices == g.vertices && r.nextId == g.nextId
  {
    var key := (e.outV, e.inV);
    var edge := if key in g.edges then Edge(g.edges[key].edgeLabel, Some(CountOrZero(g.edges[key]) + 1)) else Edge(e.edgeLabel, e.count);
    g.(edges := g.edges[key := edge])
  }

  /** The `selects` edge the bot records a request with: created with `count: 1`. */
  function Selects(outV: nat, inV: nat): EdgeDraft {
    EdgeDraft("selects", outV, inV, Some(1))
  }

  /** The number of requests recorded from `outV` to `inV`: the edge's count, or 0 without an edge. */
  function EdgeCount(g: Graph, outV: nat, inV: nat): int {
    if (outV, inV) in g.edges then CountOrZero(g.edges[(outV, inV)]) else 0
  }

  /**
   * Recording a request adds exactly one to the count between the two
   * vertices, whether or not an edge existed, and no other count moves.
   */
  lemma BumpSelectsCounts(g: Graph, outV: nat, inV: nat)
    ensures EdgeCount(BumpEdge(g, Selects(outV, inV)), outV, inV) == EdgeCount(g, outV, inV) + 1
    ensures forall a: nat, b: nat :: (a, b) != (outV, inV) ==> EdgeCount(BumpEdge(g, Selects(outV, inV)), a, b) == EdgeCount(g, a, b)
  {
  }

  /** `n` bumps of the same pair, one after the other. */
  function BumpTimes(g: Graph, e: EdgeDraft, n: nat): Graph {
    if n == 0 then g else BumpEdge(BumpTimes(g, e, n - 1), e)
  }

  /**
   * Starting from a pair with no edge, `n` bumps with a draft count of 1 give
   * `count == n`, and leave every other edge and every vertex as it was.
   */
  lemma {:induction false} BumpTimesCounts(g: Graph, e: EdgeDraft, n: nat)
    requires (e.outV, e.inV) !in g.edges
    requires e.count == Some(1)
    requires n >= 1
    ensures (e.outV, e.inV) in BumpTimes(g, e, n).edges
    ensures BumpTimes(g, e, n).edges[(e.outV, e.inV)] == Edge(e.edgeLabel, Some(n))
    ensures forall k :: k in g.edges ==> k in BumpTimes(g, e, n).edges && BumpTimes(g, e, n).edges[k] == g.edges[k]
    ensures BumpTimes(g, e, n).edges.Keys == g.edges.Keys + {(e.outV, e.inV)}
    ensures BumpTimes(g, e, n).vertices == g.vertices
  {
    if n > 1 {
      BumpTimesCounts(g, e, n - 1);
    }
  }

  // ---------------------------------------------------------------------------
  // Uncounted edges (older graph variant)
  // ---------------------------------------------------------------------------

  /**
   * Add-if-not-exists for an edge: when no edge joins the two vertices, one
   * edge with the given label and no properties is created; otherwise
   * nothing changes.
   */
  function LinkIfAbsent(g: Graph, edgeLabel: string, outV: nat, inV: nat): (r: Graph)
    ensures (outV, inV) in r.edges
    ensures (outV, inV) in g.edges ==> r == g
    ensures (outV, inV) !in g.edges ==> r.edges == g.edges[(outV, inV) := Edge(edgeLabel, None)] && r.vertices == g.vertices && r.nextId == g.nextId
  {
    if (outV, inV) in g.edges then g else g.(edges := g.edges[(outV, inV) := Edge(edgeLabel, None)])
  }

  /** Linking twice is linking once: repeated calls leave exactly one edge, with no counter. */
  lemma LinkIfAbsentIdempotent(g: Graph, edgeLabel1: string, edgeLabel2: string, outV: nat, inV: nat)
    ensures LinkIfAbsent(LinkIfAbsent(g, edgeLabel1, outV, inV), edgeLabel2, outV, inV) == LinkIfAbsent(g, edgeLabel1, outV, inV)
    ensures (outV, inV) !in g.edges ==> LinkIfAbsent(g, edgeLabel1, outV, inV).edges[(outV, inV)].count == None
  {
  }

  /** Linking touches no vertex, so it keeps the graph well formed. */
  lemma LinkIfAbsentPreservesWellFormed(g: Graph, edgeLabel: string, outV: nat, inV: nat)
    requires WellFormed(g)
    ensures WellFormed(LinkIfAbsent(g, edgeLabel, outV, inV))
  {
  }

  // ---------------------------------------------------------------------------
  // Schema
  // ---------------------------------------------------------------------------

  datatype PropertyKey = PropertyKey(name: string, dataType: string, cardinality: string)

  datatype Index = Index(name: string, propertyKeys: seq<string>, composite: bool, unique: bool)

  /**
   * A graph schema. A fetched schema object that lacks `propertyKeys` is
   * represented with an empty `propertyKeys`, which the bot treats alike.
   */
  datatype Schema = Schema(
    propertyKeys: seq<PropertyKey>,
    vertexLabels: seq<string>,
    edgeLabels: seq<string>,
    vertexIndexes: seq<Index>,
    edgeIndexes: seq<Index>)

  /**
   * The schema the bot writes when none exists: three single-valued string
   * properties, the four vertex labels, the `selects` edge label, and a
   * unique composite index on `name`.
   */
  function DefaultSchema(): (s: Schema)
    ensures |s.propertyKeys| == 3
    ensures forall k :: k in s.propertyKeys ==> k.dataType == "String" && k.cardinality == "SINGLE"
    ensures "name" in (set k | k in s.propertyKeys :: k.name)
    ensures s.edgeLabels == ["selects"]
    ensures exists ix :: ix in s.vertexIndexes && ix.propertyKeys == ["name"] && ix.unique && ix.composite
    ensures s.edgeIndexes == []
  {
    var ix := Index("vertexByName", ["name"], true, true);
    var s := Schema(
      [PropertyKey("name", "String", "SINGLE"), PropertyKey("title", "String", "SINGLE"), PropertyKey("detail", "String", "SINGLE")],
      ["person", "ingredient", "cuisine", "recipe"],
      ["selects"],
      [ix],
      []);
    assert s.propertyKeys[0].name == "name";
    assert ix in s.vertexIndexes;
    s
  }

  /**
   * The decision made on the result of fetching the schema: a schema exists
   * when the result holds at least one schema and the first one has a
   * non-empty `propertyKeys`.
   */
  predicate SchemaExists(fetched: seq<Schema>) {
    |fetched| > 0 && |fetched[0].propertyKeys| > 0
  }

  /**
   * The schema list after initialisation: left as it is when a schema exists,
   * replaced by the default schema otherwise. Either way a schema exists
   * afterwards, and initialising twice writes nothing the second time.
   */
  function SchemaAfterInit(fetched: seq<Schema>): (r: seq<Schema>)
    ensures SchemaExists(r)
    ensures SchemaExists(fetched) ==> r == fetched
    ensures !SchemaExists(fetched) ==> r == [DefaultSchema()]
  {
    if SchemaExists(fetched) then fetched else [DefaultSchema()]
  }

  lemma SchemaInitIdempotent(fetched: seq<Schema>)
    ensures SchemaAfterInit(SchemaAfterInit(fetched)) == SchemaAfterInit(fetched)
  {
  }
}
