# Sous-chef recipe bot: a Dafny model of its graph bookkeeping

The sous-chef is a Slack bot that suggests recipes. A user talks to it in a
direct message. A conversation service tells the bot what was asked: the
user's favourites, recipes for some ingredients, recipes for a cuisine, or
one recipe chosen from the list last shown. The bot keeps a property graph
with four kinds of vertices (`person`, `ingredient`, `cuisine` and `recipe`)
and `selects` edges between them. Each edge counts how often the request
was made. The graph serves as a cache of recipe lists and recipe steps, and
as the source of favourites and recommendations. An optional notification
client reports every turn to a dashboard over HTTP.

This project models that bookkeeping. The graph service becomes an
in-memory value:

- vertices are keyed by (label, name) and carry fresh ids;
- edges are keyed by the ordered pair (outV, inV) and carry an optional
  `count`.

Modules, one per file:

| module | file | what it holds |
|---|---|---|
| `Optional` | optional.dfy | the `Option` datatype |
| `JsStrings` | js_strings.dfy | the JavaScript string operations used: `trim`, ASCII `toLowerCase`, `split`, `join`, `indexOf`, `lastIndexOf`, clamping `substring`, the default string order of `sort`, decimal rendering |
| `CanonicalKeys` | canonical_keys.dfy | the unique names of ingredient, cuisine and recipe vertices; the in-place trim loop and in-place sort of the ingredient terms |
| `Escaping` | escaping.dfy | the quote and newline escapes applied before storage, and the newline decode applied when a recipe is served |
| `PropertyGraph` | property_graph.dfy | the graph value, the add-if-not-exists vertex, the counted edge, the uncounted edge, and the schema decision |
| `GraphQueries` | graph_queries.dfy | the post-processing of recommendation paths and of favourites |
| `RecipeStore` | recipe_store.dfy | `GraphRecipeStore`: the store used by the bot |
| `LegacyGraph` | legacy_graph.dfy | `RecipeGraph`: the older store, whose edges carry no counter and whose edge source is `state.lastGraphVertex` |
| `ReplyText` | reply_text.dfy | the start reply, the numbered list reply and the formatted recipe steps |
| `Chef` | chef.dfy | `SousChef`: the message filter, the per-user state map, the dispatch and the turn handlers |
| `Notifications` | notifications.dfy | `SnsClient`: the URL parsing of the constructor and the notification payloads |

Everything the outside world answers during a turn is passed in as a
parameter:

- the conversation response;
- the favourites and recommendation traversals;
- the catalogue's match list, recipe information and steps;
- the parse of a stored match list.

A JavaScript promise that rejects because `state.user` or
`state.lastGraphVertex` is unset is modelled as a `None` result (or
`ok == false`). It happens after the writes the source performs before the
failing step.

## Model

| member | source | states |
|---|---|---|
| JsStrings.TrimStart | GraphRecipeStore.js:146 | the result is a suffix of the input that does not start with white space, and only white space was dropped |
| JsStrings.TrimEnd | GraphRecipeStore.js:146 | the result is a prefix of the input that does not end with white space, and only white space was dropped |
| JsStrings.Trim | GraphRecipeStore.js:146 | the trimmed text neither starts nor ends with white space and has no character the input lacks |
| JsStrings.TrimOfTrimmed | GraphRecipeStore.js:148 | a text that neither starts nor ends with white space is its own trim |
| JsStrings.TrimIdempotent | GraphRecipeStore.js:148 | trimming twice is trimming once |
| JsStrings.TrimStartSkipsWhitespace | GraphRecipeStore.js:146 | leading white space never changes the start-trimmed text |
| JsStrings.TrimEndSkipsWhitespace | GraphRecipeStore.js:146 | trailing white space never changes the end-trimmed text |
| JsStrings.TrimStartAppend | GraphRecipeStore.js:146 | once a non-blank character is seen, the start trim keeps everything after it |
| JsStrings.TrimIgnoresPadding | GraphRecipeStore.js:208 | padding with white space on either side does not change the trim |
| JsStrings.ToLower | GraphRecipeStore.js:146 | the length is kept and each character is lowered on its own |
| JsStrings.ToLowerIsLowerCase | GraphRecipeStore.js:208 | a lowered text is lower case |
| JsStrings.LowerCaseFixed | GraphRecipeStore.js:208 | lowering a lower-case text changes nothing |
| JsStrings.ToLowerAppend | GraphRecipeStore.js:146 | lowering distributes over concatenation |
| JsStrings.LowerCharKeepsWhitespace | GraphRecipeStore.js:146 | lowering a character never makes or unmakes white space |
| JsStrings.TrimStartToLower | GraphRecipeStore.js:146 | start-trimming and lowering commute |
| JsStrings.TrimEndToLower | GraphRecipeStore.js:146 | end-trimming and lowering commute |
| JsStrings.TrimToLower | GraphRecipeStore.js:208 | trimming and lowering commute, so the order of the two calls does not matter |
| JsStrings.SplitOn | GraphRecipeStore.js:146 | a split gives at least one piece, no piece holds the separator, and every character comes from the input; `JoinSplit` ties the pieces back to the text |
| JsStrings.SplitWithoutSeparator | GraphRecipeStore.js:146 | a text without the separator splits into itself alone |
| JsStrings.SplitPrefix | GraphRecipeStore.js:146 | text before the first separator joins the first piece |
| JsStrings.SplitJoin | GraphRecipeStore.js:151 | splitting a join of separator-free pieces gives the pieces back |
| JsStrings.JoinSplit | GraphRecipeStore.js:146 | joining the pieces of a split with the separator gives the text back, for every text |
| JsStrings.Join | GraphRecipeStore.js:151 | `join`: the pieces with one separator between neighbours; `SplitJoin` and `JoinToLower` state its properties |
| JsStrings.JoinToLower | GraphRecipeStore.js:151 | lowering a join is joining the lowered pieces |
| JsStrings.IndexFrom | SnsClient.js:16 | the result is -1 when no occurrence starts at or after `from`, and otherwise the first such occurrence |
| JsStrings.IndexOf | SnsClient.js:16 | the result is -1 exactly when there is no occurrence, and otherwise the first occurrence |
| JsStrings.IndexOfFirst | SnsClient.js:20 | the first occurrence is the one found |
| JsStrings.IndexOfChar | SnsClient.js:27 | searching for one character gives -1 exactly when it is absent, and otherwise its first position |
| JsStrings.IndexOfCharAt | SnsClient.js:27 | the first position of a character is the one found |
| JsStrings.LastIndexOf | GraphRecipeStore.js:62 | the result is -1 or a position of the character, and no later position holds it |
| JsStrings.LastIndexOfAppend | GraphRecipeStore.js:62 | text without the character appended after it does not move its last position |
| JsStrings.Clamp | SnsClient.js:29 | an index is kept when it lies in 0..length, and otherwise moved to 0 or to the length, whichever is nearer |
| JsStrings.Substring | SnsClient.js:27-31 | `substring` with two ends, clamped to the text and swapped when out of order; `SubstringCases` states its cases |
| JsStrings.SubstringFrom | SnsClient.js:18 | `substring` with one end: from the clamped end to the end of the text |
| JsStrings.SubstringCases | SnsClient.js:18-30 | ends in order give the text between them, ends out of order are swapped, a negative start reads as 0 and an end past the text as its length |
| JsStrings.LexLe | GraphRecipeStore.js:150 | the default order of `sort` on strings: character by character, a proper prefix first; its four order lemmas follow |
| JsStrings.LexLeReflexive | GraphRecipeStore.js:150 | the default sort order is reflexive |
| JsStrings.LexLeTotal | GraphRecipeStore.js:150 | the default sort order is total |
| JsStrings.LexLeAntisymmetric | GraphRecipeStore.js:150 | the default sort order is antisymmetric |
| JsStrings.LexLeTransitive | GraphRecipeStore.js:150 | the default sort order is transitive |
| JsStrings.ConcatPieceInFrame | SousChef.js:283-285 | each piece of a concatenation sits, framed by a header and a trailer, right after the pieces before it |
| JsStrings.ConcatPieceAt | SousChef.js:111-112 | each piece of a concatenation sits right after the pieces before it |
| JsStrings.ConcatStep | SousChef.js:112 | appending one piece extends the concatenation by that piece |
| JsStrings.ConcatAppend | SousChef.js:112 | concatenation distributes over sequence append |
| JsStrings.DecimalText | SousChef.js:268-269 | the decimal rendering of a natural number, most significant digit first; `DecimalTextDigits` and `DecimalRoundTrip` state its properties |
| JsStrings.IntText | SousChef.js:268-269 | the rendering of an integer in a template: a minus sign before a negative number's digits |
| JsStrings.DigitChar | SousChef.js:135 | a digit renders as the character with that digit value |
| JsStrings.DecimalTextDigits | SousChef.js:135 | the rendered number is non-empty and made of digits only |
| JsStrings.DecimalRoundTrip | SousChef.js:135 | the rendered number reads back as the number |
| CanonicalKeys.TrimmedPiecesAreCanonical | GraphRecipeStore.js:146-148 | every trimmed piece of a lowered text is trimmed, lower case and comma-free |
| CanonicalKeys.Terms | GraphRecipeStore.js:146-149 | there is at least one term, and every term is trimmed, lower case and comma-free |
| CanonicalKeys.InsertPermutes | GraphRecipeStore.js:150 | inserting adds exactly the one element |
| CanonicalKeys.InsertSorted | GraphRecipeStore.js:150 | inserting into a sorted list keeps it sorted |
| CanonicalKeys.SortStringsCorrect | GraphRecipeStore.js:150 | the reference sort is sorted and a permutation of its input |
| CanonicalKeys.SortedUnique | GraphRecipeStore.js:150 | two sorted permutations of one multiset are equal |
| CanonicalKeys.SwapAdjacent | GraphRecipeStore.js:150 | swapping neighbours exchanges exactly those two slots and keeps the multiset |
| CanonicalKeys.InsertLast | GraphRecipeStore.js:150 | sinking the next slot into the sorted prefix extends the sorted prefix and keeps the multiset |
| CanonicalKeys.SortInPlace | GraphRecipeStore.js:150 | the array is sorted in place and holds a permutation of its old contents |
| CanonicalKeys.TrimSlots | GraphRecipeStore.js:147-149 | every slot is replaced by its own trim |
| CanonicalKeys.IngredientKey | GraphRecipeStore.js:145-152 | the unique name of an ingredient list: its terms (split on commas, trimmed, lower case) sorted and joined with commas; `IngredientKeyOrderInvariant`, `IngredientKeyIgnoresCaseAndPadding` and `IngredientKeyIdempotent` state its properties |
| CanonicalKeys.UniqueIngredientsName | GraphRecipeStore.js:145-152 | the loop and in-place sort compute the ingredient key: the sorted, trimmed, lower-case comma terms joined with commas |
| CanonicalKeys.JoinEnds | GraphRecipeStore.js:151 | a join starts with its first piece or a comma, and ends with its last piece or a comma |
| CanonicalKeys.TrimmedEnds | GraphRecipeStore.js:148 | a non-empty trimmed text has no white space at either end |
| CanonicalKeys.JoinOfTrimmedIsTrimmed | GraphRecipeStore.js:151 | a join whose outer pieces are trimmed is trimmed |
| CanonicalKeys.JoinOfLowerIsLower | GraphRecipeStore.js:151 | a join of lower-case pieces is lower case |
| CanonicalKeys.JoinOfCanonicalTerms | GraphRecipeStore.js:151 | a join of canonical terms is trimmed and lower case, and splits back into the terms |
| CanonicalKeys.IngredientKeyOrderInvariant | RecipeGraph.js:78-85 | texts with the same multiset of terms get the same key, so reordering the terms does not change the key |
| CanonicalKeys.IngredientKeyIgnoresCaseAndPadding | GraphRecipeStore.js:145-152 | outer white space and upper case do not change the ingredient key |
| CanonicalKeys.TermsOfCanonicalJoin | GraphRecipeStore.js:146-149 | the terms of a join of canonical terms are those terms |
| CanonicalKeys.SortedTermsAreCanonical | GraphRecipeStore.js:150 | the sorted terms are non-empty and canonical |
| CanonicalKeys.IngredientKeyIdempotent | GraphRecipeStore.js:145-152 | the ingredient key of an ingredient key is itself |
| CanonicalKeys.NameKey | GraphRecipeStore.js:207-209 | the cuisine and recipe key is trimmed and lower case |
| CanonicalKeys.NameKeyIdempotent | GraphRecipeStore.js:264-266 | the key of a key is itself |
| CanonicalKeys.NameKeyIgnoresCaseAndPadding | RecipeGraph.js:108-110 | outer white space and upper case do not change the key |
| Escaping.EscapeQuotesShape | GraphRecipeStore.js:173 | every quote of the escaped text follows a backslash, the text grows by one per quote, and only backslashes are added |
| Escaping.UnescapeEscapeQuotes | GraphRecipeStore.js:289 | undoing the quote escape gives the original text back |
| Escaping.EscapeQuotesInjective | GraphRecipeStore.js:230 | two different texts never escape to the same stored text |
| Escaping.EscapeQuotes | GraphRecipeStore.js:289 | the quote escape of every stored title and detail (also lines 173 and 230, and RecipeGraph.js lines 94, 119, 144-145): a backslash before every quote; `EscapeQuotesShape` and `UnescapeEscapeQuotes` state its properties |
| Escaping.EscapeNewlinesShape | GraphRecipeStore.js:290 | the escaped text holds no line feed, each line feed became three characters, and a text without one is unchanged |
| Escaping.EscapeNewlinesConflates | GraphRecipeStore.js:290 | a line feed and the three characters it is written as escape to the same text |
| Escaping.EscapeNewlines | GraphRecipeStore.js:290 | every line feed becomes backslash, backslash, `n`; `EscapeNewlinesShape` and `EscapeNewlinesConflates` state its properties |
| Escaping.DecodeNewlinesShape | SousChef.js:256 | the decode never lengthens, leaves a text without backslashes as it is, and leaves no backslash-`n` pair |
| Escaping.DecodeWithoutEscapes | SousChef.js:256 | a text without backslash-`n` pairs is left unchanged by the decode |
| Escaping.DecodeNewlinesIdempotent | SousChef.js:256 | decoding twice is decoding once |
| Escaping.DecodeNewlines | SousChef.js:256 | every backslash-`n` pair becomes a line feed, left to right without overlaps; `DecodeNewlinesShape`, `DecodeWithoutEscapes` and `DecodeNewlinesIdempotent` state its properties |
| PropertyGraph.LabelName | GraphRecipeStore.js:106-111 | every vertex label is one of the schema's vertex labels |
| PropertyGraph.EmptyGraph | GraphRecipeStore.js:37-58 | the empty graph is well formed |
| PropertyGraph.Lookup | GraphRecipeStore.js:453-468 | a vertex is found exactly when one is stored under the label and name, and it carries them |
| PropertyGraph.Upsert | GraphRecipeStore.js:477-503 | an existing vertex is returned and nothing is written; otherwise exactly one vertex with every attribute of the draft and a fresh id is added, and edges are untouched |
| PropertyGraph.UpsertPreservesWellFormed | GraphRecipeStore.js:477-503 | add-if-not-exists keeps vertices under their own key with distinct ids, and the returned vertex is the stored one |
| PropertyGraph.UpsertFirstWriteWins | GraphRecipeStore.js:477-503 | a second add under the same label and name changes nothing and returns the first vertex, whose title and detail stay those first written |
| PropertyGraph.BumpEdge | GraphRecipeStore.js:511-551 | an existing edge gets its old count plus one (a missing count read as 0); otherwise the supplied edge is created; no other edge or vertex changes |
| PropertyGraph.BumpSelectsCounts | GraphRecipeStore.js:190-198 | recording a request adds exactly one to that pair's count and no other count moves |
| PropertyGraph.BumpTimesCounts | GraphRecipeStore.js:511-551 | n updates on a fresh pair give `count == n`, and every other edge and every vertex stays as it was |
| PropertyGraph.LinkIfAbsent | RecipeGraph.js:205-230 | an edge is created without a counter only when none joins the pair; otherwise the graph is unchanged |
| PropertyGraph.LinkIfAbsentIdempotent | RecipeGraph.js:205-230 | linking twice leaves exactly the first edge, with no counter |
| PropertyGraph.LinkIfAbsentPreservesWellFormed | RecipeGraph.js:205-230 | linking keeps the graph well formed |
| PropertyGraph.DefaultSchema | GraphRecipeStore.js:99-120 | three single-valued string property keys including `name`, the `selects` edge label, a unique composite index on `name`, no edge index |
| PropertyGraph.SchemaAfterInit | GraphRecipeStore.js:74-93 | an existing schema with property keys is kept; otherwise the default schema is written; either way one exists afterwards |
| PropertyGraph.SchemaInitIdempotent | GraphRecipeStore.js:78-79 | initialising the schema a second time writes nothing |
| GraphQueries.HitIds | GraphRecipeStore.js:379-380 | the ids of the paths, in order |
| GraphQueries.RecIds | GraphRecipeStore.js:387 | the ids of the recommendations, in order |
| GraphQueries.FirstOccurrencesFacts | GraphRecipeStore.js:381-393 | the first occurrences hold exactly the elements of the list, each once |
| GraphQueries.Take | GraphRecipeStore.js:383-385 | a prefix of at most `count` elements, and of exactly that many when the list is long enough |
| GraphQueries.FindId | GraphRecipeStore.js:381 | the index of an entry with the id, or -1 exactly when no entry has it |
| GraphQueries.Recommend | GraphRecipeStore.js:378-397 | the reference for the recommendation loop: each path in turn either bumps the entry with its id or, while fewer than `count` entries exist, appends a new one with count 1; `RecommendProperties` states its properties |
| GraphQueries.RecommendIds | GraphRecipeStore.js:378-397 | the recommended ids are the first `count` distinct path ids, in order of first appearance |
| GraphQueries.RecommendCounts | GraphRecipeStore.js:378-397 | each entry's `recommendedUserCount` is the number of paths carrying its id |
| GraphQueries.RecommendProperties | GraphRecipeStore.js:378-397 | at most `count` entries, distinct ids in order of first appearance, every path's id present when it fits, each count positive and equal to the number of paths with that id |
| GraphQueries.RecommendExample | GraphRecipeStore.js:378-397 | a worked case: a repeated id is counted twice and a third new id is not admitted past `count` |
| GraphQueries.RecommendStep | GraphRecipeStore.js:378-397 | the result after one more path is the old result updated by that path |
| GraphQueries.RecommendDistinct | GraphRecipeStore.js:381-393 | the recommended ids are pairwise distinct |
| GraphQueries.FindIdOfDistinct | GraphRecipeStore.js:381 | among distinct ids, the lookup finds the only entry with the id |
| GraphQueries.AdmitPath | GraphRecipeStore.js:379-396 | one iteration: the entry found through the hash gets one more user, or a new entry is appended and indexed while fewer than `count` are admitted |
| GraphQueries.GetRecommendedRecipes | GraphRecipeStore.js:367-405 | the loop computes the reference recommendation for the paths, and an absent result gives an empty list |
| GraphQueries.Summaries | GraphRecipeStore.js:319-325 | one summary per vertex, in order, with its id and title |
| GraphQueries.FavoriteRecipes | GraphRecipeStore.js:316-330 | the favourites are the summaries of the traversal, or an empty list when it found nothing |
| RecipeStore.UpdatedGraphUrl | GraphRecipeStore.js:60-63 | the URL ends with the graph id, after a prefix of the old URL that ends at its last slash |
| RecipeStore.UpdatedGraphUrlIdempotent | GraphRecipeStore.js:60-63 | updating the URL twice is updating it once, for a graph id without slashes |
| RecipeStore.GraphRecipeStore.constructor | GraphRecipeStore.js:10-13 | the store starts on the given graph id and client state |
| RecipeStore.GraphRecipeStore.InitGraph | GraphRecipeStore.js:37-58 | the graph id is created when missing, the URL points at it, and nothing else changes |
| RecipeStore.GraphRecipeStore.UpdateGraphUrl | GraphRecipeStore.js:60-63 | only the URL changes, to the updated URL |
| RecipeStore.GraphRecipeStore.InitGraphSchema | GraphRecipeStore.js:65-97 | the schema is written only when none with property keys exists; the old fetched schema is resolved |
| RecipeStore.GraphRecipeStore.AddVertexIfNotExists | GraphRecipeStore.js:477-503 | the graph and the returned vertex are the add-if-not-exists of the draft |
| RecipeStore.GraphRecipeStore.AddUpdateEdge | GraphRecipeStore.js:511-551 | the graph becomes the counted-edge update of the draft |
| RecipeStore.GraphRecipeStore.AddUser | GraphRecipeStore.js:129-137 | the person vertex named by the user id is found or created and returned |
| RecipeStore.GraphRecipeStore.RecordRequestForUser | GraphRecipeStore.js:247-255 | the user's `selects` edge to the vertex is bumped; without a user nothing is written and the call fails |
| RecipeStore.GraphRecipeStore.RecordRecipeRequestForUser | GraphRecipeStore.js:418-442 | the user's edge to the recipe is bumped, and the ingredient or cuisine edge too when that vertex is given; without a user nothing is written |
| RecipeStore.GraphRecipeStore.FindIngredient | GraphRecipeStore.js:159-161 | the ingredient vertex under the ingredient key, if any |
| RecipeStore.GraphRecipeStore.FindCuisine | GraphRecipeStore.js:216-218 | the cuisine vertex under the cuisine key, if any |
| RecipeStore.GraphRecipeStore.FindRecipe | GraphRecipeStore.js:273-275 | the recipe vertex under the recipe key, if any |
| RecipeStore.GraphRecipeStore.AddIngredient | GraphRecipeStore.js:170-181 | the ingredient vertex is added if absent, then the user's count for it is bumped; without a user the vertex stays written and the call fails |
| RecipeStore.GraphRecipeStore.AddCuisine | GraphRecipeStore.js:227-238 | the cuisine vertex is added if absent, then the user's count for it is bumped; without a user the vertex stays written and the call fails |
| RecipeStore.GraphRecipeStore.AddRecipe | GraphRecipeStore.js:286-300 | the recipe vertex is added if absent, then the recipe request is recorded; without a user the vertex stays written and the call fails |
| RecipeStore.GraphRecipeStore.FindFavoriteRecipesForUser | GraphRecipeStore.js:308-333 | the favourites are the summaries of the traversal, and empty when nothing was found; without a user the call fails |
| RecipeStore.IngredientDraft | GraphRecipeStore.js:170-173 | an ingredient vertex under the ingredient key whose detail unescapes to the match list text |
| RecipeStore.CuisineDraft | GraphRecipeStore.js:227-230 | a cuisine vertex under the cuisine key whose detail unescapes to the match list text |
| RecipeStore.RecipeDraft | GraphRecipeStore.js:286-290 | a recipe vertex under the recipe key whose title unescapes to the trimmed title and whose detail holds no line feed |
| RecipeStore.RecipeRequestRecorded | GraphRecipeStore.js:418-442 | the graph after a recipe request: the user's `selects` edge to the recipe bumped, then the ingredient or cuisine edge to it when one is given; `RecipeRequestCounts` states its effect |
| RecipeStore.RecipeRequestCounts | GraphRecipeStore.js:418-442 | a recipe request adds one to the user's count and, when given, one to the ingredient or cuisine count for the recipe; no other count moves |
| LegacyGraph.GraphState.constructor | RecipeGraph.js:66-74 | a fresh turn state has no last vertex |
| LegacyGraph.LegacyRecipeDraft | RecipeGraph.js:141-145 | the recipe key, a title that unescapes to the trimmed title, and a detail with only quotes escaped, so line feeds are kept |
| LegacyGraph.LinkedTwice | RecipeGraph.js:177-230 | adding the same vertex twice from the same source leaves one vertex and one uncounted edge |
| LegacyGraph.RecipeGraph.constructor | RecipeGraph.js:3-5 | the older store starts on the given client state |
| LegacyGraph.RecipeGraph.InitGraph | RecipeGraph.js:18-57 | corrected behaviour (see Findings): the default schema is written only when none with property keys exists, and the resolved schema is the one in force |
| LegacyGraph.RecipeGraph.InitGraphAsWritten | RecipeGraph.js:7-62 | as written: an existing schema is resolved; with none, nothing is written and nothing is resolved, because the write runs where `this` is not the graph |
| LegacyGraph.InitGraphAsWrittenMissesSchema | RecipeGraph.js:22-43 | the empty schema list holds no schema, and the intended initialisation of it is exactly the default schema |
| LegacyGraph.RecipeGraph.InitGraphAsWrittenOnEmptyService | RecipeGraph.js:13-45 | on a service without a schema, initGraph as written resolves nothing and the service still holds no schema |
| LegacyGraph.RecipeGraph.AddVertexIfNotExists | RecipeGraph.js:177-203 | the graph and the returned vertex are the add-if-not-exists of the draft |
| LegacyGraph.RecipeGraph.AddEdgeIfNotExists | RecipeGraph.js:205-230 | an uncounted edge is created only when none joins the pair |
| LegacyGraph.RecipeGraph.AddUserVertex | RecipeGraph.js:66-74 | the last vertex becomes the found or created person vertex |
| LegacyGraph.RecipeGraph.AddIngredientsVertex | RecipeGraph.js:91-104 | the ingredient vertex is added if absent and linked from the last vertex, and returned; the last vertex is not changed |
| LegacyGraph.RecipeGraph.AddCuisineVertex | RecipeGraph.js:116-129 | the cuisine vertex is added if absent and linked from the last vertex, and returned; the last vertex is not changed |
| LegacyGraph.RecipeGraph.AddRecipeVertex | RecipeGraph.js:141-155 | the recipe vertex is added if absent and linked from the last vertex, and returned; the last vertex is not changed |
| LegacyGraph.RecipeGraph.LinkFromLast | RecipeGraph.js:96-103 | the vertex is linked from the last vertex and returned; without a last vertex nothing is linked and the call fails |
| ReplyText.StartReplyText | SousChef.js:110-113 | the start reply: every output text followed by a line feed, concatenated in order; `StartReplyLine` and `StartReplyLength` state its shape |
| ReplyText.StartLines | SousChef.js:111-113 | each output text followed by a line feed, in order |
| ReplyText.StartReply | SousChef.js:110-113 | the loop builds the concatenation of the output texts, each followed by a line feed |
| ReplyText.StartReplyLine | SousChef.js:111-112 | output text k and its line feed stand right after the earlier lines |
| ReplyText.StartReplyLength | SousChef.js:110-113 | the reply is as long as the texts plus one line feed each |
| ReplyText.ListReply | SousChef.js:133-138 | the loop builds the header, one numbered line per recipe and the prompt |
| ReplyText.ListReplyText | SousChef.js:133-137 | the list reply: the header, line `(i+1).title` for each recipe in order, and the prompt; `ListReplyShape` and `RecipeLineNumber` state its properties |
| ReplyText.ListReplyShape | SousChef.js:133-138 | the reply starts with the header, ends with the prompt, and recipe k's line stands after the earlier lines |
| ReplyText.RecipeLineNumber | SousChef.js:135 | the line of recipe k starts with the number k+1 and a dot |
| ReplyText.JoinSnoc | SousChef.js:274-276 | joining one more name adds a comma and the name |
| ReplyText.TerminatedJoin | SousChef.js:274-282 | comma-terminated names with the last comma cut off are the names joined with commas |
| ReplyText.MakeFormattedSteps | SousChef.js:266-293 | the loops build the header, one block per step (or the no-instructions line) and the closing line |
| ReplyText.FormattedSteps | SousChef.js:267-291 | the formatted steps: the header, one block per step or the no-instructions line, and the start-over line; `FormattedStepsShape`, `FormattedStepsBlock`, `StepBlockNumber` and `EquipmentListed` state its properties |
| ReplyText.FormattedStepsShape | SousChef.js:267-291 | the text starts with the header and ends with the start-over line; with no steps the middle is the no-instructions line |
| ReplyText.FormattedStepsBlock | SousChef.js:272-286 | block k stands right after the header and the earlier blocks |
| ReplyText.StepBlockNumber | SousChef.js:283 | block k starts with `*Step ` and the number k+1 |
| ReplyText.EquipmentListed | SousChef.js:273-282 | the equipment text splits back into the names, ends with the last name (no trailing comma), and is "None" only when that is the one name |
| ReplyText.JoinEndsWithLast | SousChef.js:281 | a comma join ends with its last name |
| Chef.Dispatch | SousChef.js:68-86 | favourites, then ingredients, then a first cuisine entity, then selection, else start, each exactly when the earlier ones fail; a missing or zero selection is -1 |
| Chef.TurnOf | SousChef.js:67-86 | one turn: the answered context is stored, then the route's handler acts as its own row states (start, favourites, ingredients, cuisine, selection) |
| Chef.ListRouteOutcome | SousChef.js:142-179 | an ingredient or cuisine turn: upsert, the user's edge bumped, then the stored recipes remembered and listed, or the turn failed with no change to the state |
| Chef.TurnUserVertex | SousChef.js:109-124 | a turn never replaces the user vertex, a start turn always leaves one and no other turn makes one; without one, every turn but start and an invalid selection fails |
| Chef.StartTurnAddsUserOnce | SousChef.js:114-123 | a start turn repeated leaves the graph and the state as the first one did |
| Chef.ShouldProcess | SousChef.js:32-33 | a message event on a direct channel (name starting with `D`) without a bot id |
| Chef.FirstEntityIsCuisine | SousChef.js:74 | the response has entities and the first one is a cuisine |
| Chef.IsValidSelection | SousChef.js:221 | a selection from 1 to 5 |
| Chef.StoredRecipes | SousChef.js:167 | the recipes parsed from a vertex's stored detail, or none when the detail is missing or does not parse (the parser is a parameter) |
| Chef.SelectedRecipe | SousChef.js:224-225 | the recipe at position selection-1 of the recipes last listed, exactly when the list is that long |
| Chef.UserState.constructor | SousChef.js:54-56 | a new state carries the user id and nothing else |
| Chef.SousChef.constructor | SousChef.js:9-20 | the bot starts with an empty state map |
| Chef.SousChef.OnMessage | SousChef.js:31-40 | a message that passes the filter (direct channel, no bot id) has exactly the effect of `TurnOf` on the sender; any other leaves the map, every state's fields and the graph unchanged; other users' states are never touched |
| Chef.SousChef.StateFor | SousChef.js:52-58 | the sender's state is reused when present, and created empty and added otherwise |
| Chef.SousChef.ProcessSlackMessage | SousChef.js:48-94 | the sender has exactly one state afterwards; the graph, the sender's user vertex, context and chosen ingredient or cuisine, and the reply are exactly `TurnOf` of the state before the turn, on every route; other users' states are unchanged |
| Chef.SousChef.RouteTurn | SousChef.js:68-86 | with the answered context stored, the graph, the sender's fields and the reply are exactly `TurnOf` of their values before the handler ran |
| Chef.SousChef.HandleStartMessage | SousChef.js:109-124 | the reply is the output texts; the user vertex is added only when the state has none |
| Chef.SousChef.HandleFavoritesMessage | SousChef.js:126-140 | the favourites are stored in the context and listed, and the ingredient or cuisine is cleared; without a user the turn fails |
| Chef.SousChef.StoreIngredientRequest | SousChef.js:146-165 | the ingredient vertex is added if absent and the user's count for it is bumped, by either branch |
| Chef.SousChef.StoreCuisineRequest | SousChef.js:185-204 | the cuisine vertex is added if absent and the user's count for it is bumped, by either branch |
| Chef.SousChef.ListTurn | SousChef.js:166-178 | the stored recipes are put in the context and listed, and the vertex becomes the current ingredient or cuisine |
| Chef.SousChef.HandleIngredientsMessage | SousChef.js:142-179 | the ingredient request is recorded, its stored recipes are listed and remembered; without a user the turn fails after the vertex is written |
| Chef.SousChef.HandleCuisineMessage | SousChef.js:181-218 | the cuisine request is recorded, its stored recipes are listed and remembered; without a user the turn fails after the vertex is written |
| Chef.SousChef.StoreRecipeRequest | SousChef.js:226-252 | the recipe vertex, with the formatted steps as detail, is added if absent and the recipe request is recorded, by either branch |
| Chef.SousChef.ServeSelection | SousChef.js:226-258 | the recipe request is recorded, the state is reset, and the reply is the stored detail with its line feeds decoded |
| Chef.SousChef.SelectionReply | SousChef.js:253-258 | the ingredient or cuisine and the context are reset and the stored detail is decoded |
| Chef.SousChef.HandleSelectionMessage | SousChef.js:220-264 | outside 1..5 the fixed reply, `selection_valid` false and no write; inside, the listed recipe is served and the state reset |
| Notifications.StripScheme | SnsClient.js:15-19 | the result is a suffix of the URL |
| Notifications.SchemeStripped | SnsClient.js:16-19 | a scheme and its `://` are stripped |
| Notifications.HostnameOf | SnsClient.js:15-34 | the host name the constructor settles on: the host part of the URL after its scheme is stripped; `HostAndPort` and `HostnameHasNoSlash` state its cases |
| Notifications.PortOf | SnsClient.js:15-34 | the port the constructor settles on: the text after the first colon, cut at the end of the host part (empty when the colon lies past it), or 80 when no colon follows the first character; `HostAndPort` and `DefaultPortIgnoresScheme` state its cases |
| Notifications.HostAndPort | SnsClient.js:20-34 | the host runs to the first slash or the colon; the port is the host's rest after the colon, or 80 without a colon |
| Notifications.HostnameHasNoSlash | SnsClient.js:20-26 | the host name holds no slash, provided the URL after its scheme does not start with one (for `/a/b` the whole text is kept as host) |
| Notifications.DefaultPortIgnoresScheme | SnsClient.js:33 | without a colon the port is 80 even for an `https` URL |
| Notifications.HostAndPortIn | SnsClient.js:27-31 | `host:port/path` gives that host and that port |
| Notifications.HostAndPortOfFullUrl | SnsClient.js:15-34 | a full URL gives its host and its port |
| Notifications.ColonInPathIn | SnsClient.js:27-31 | a colon found only in the path gives the whole host and an empty port |
| Notifications.ColonInPathGivesEmptyPort | SnsClient.js:15-34 | for a full URL, a colon only in the path gives the host and an empty port |
| Notifications.NotificationFor | SnsClient.js:62-86 | the action, message, user and recipe id as given; `ingredient` set from the vertex name for an ingredient vertex, `cuisine` otherwise, neither without a vertex |
| Notifications.SnsClient.constructor | SnsClient.js:5-36 | enabled exactly when the URL is present and non-empty, and then the host and port parsed from it |
| Notifications.SnsClient.PostMessage | SnsClient.js:58-88 | a post exactly when enabled, to the parsed host and port, on `/<apiKey>/notification`, with the notification payload |
| Notifications.SnsClient.PostOf | SnsClient.js:72-87 | the post of a notification: parsed host and port, path `/<apiKey>/notification`, query type `action` |
| Notifications.SnsClient.PostStartMessage | SnsClient.js:38-40 | the `start` notification with its message; when enabled, the whole post: to the parsed host and port, on `/<apiKey>/notification`, with query type `action` |
| Notifications.SnsClient.PostFavoritesMessage | SnsClient.js:42-44 | the `favorites` notification with its message; when enabled, the whole post: to the parsed host and port, on `/<apiKey>/notification`, with query type `action` |
| Notifications.SnsClient.PostIngredientMessage | SnsClient.js:46-48 | the `ingredient` notification naming the ingredient text; when enabled, the whole post: to the parsed host and port, on `/<apiKey>/notification`, with query type `action` |
| Notifications.SnsClient.PostCuisineMessage | SnsClient.js:50-52 | a notification with action `ingredient` naming the cuisine text; when enabled, the whole post: to the parsed host and port, on `/<apiKey>/notification`, with query type `action` |
| Notifications.SnsClient.PostRecipeMessage | SnsClient.js:54-56 | a notification with action `ingredient` naming the recipe title and carrying the recipe id; when enabled, the whole post: to the parsed host and port, on `/<apiKey>/notification`, with query type `action` |

## Findings

| source | as written | input that shows it | evidently intended | confidence | as-written member | corrected member |
|---|---|---|---|---|---|---|
| RecipeGraph.js:13-45 | the schema callback is a plain `function`, so inside it `this` is not the graph; when no schema exists, `this.graphClient.schema().set(...)` fails with a `TypeError` before reaching the service, nothing is written and the promise never settles | a graph service whose schema list is empty | write the default schema and resolve it, as GraphRecipeStore.js:69-88 does with arrow callbacks | not executed; medium: assumes the client calls the callback without binding `this` | LegacyGraph.RecipeGraph.InitGraphAsWrittenOnEmptyService (with LegacyGraph.RecipeGraph.InitGraphAsWritten) | LegacyGraph.RecipeGraph.InitGraph |

## Left out

- The graph service client is not modelled: Gremlin query strings, sessions and client errors. Traversal results are given as input lists in the order the graph engine returns them. This covers the favourites ordered by count and limited to `count`, and the recommendation paths. So `findRecommendedRecipesForIngredient` and `findRecommendedRecipesForCuisine` reduce to `GetRecommendedRecipes` over their paths.
- `findIngredientsVertex`, `findCuisineVertex` and `findRecipeVertex` of RecipeGraph.js are the same lookup as the store's `Find*` methods and are not modelled again.
- Concurrency is not modelled. Promises are modelled as sequential steps, and the counted-edge update is a read-modify-write that another turn could interleave with.
- External services are parameters: the conversation service (`sendRequestToConversation`), Slack posting, and the recipe catalogue. RecipeClient.js is not part of this model.
- `doHttpPost`, and the choice between the `http` and `https` modules, are left out. A post is returned as a value.
- `JSON.stringify` of a match list is not modelled; its text is a parameter. `JSON.parse` of a stored detail is a function parameter, and a failed parse gives no reply. `JSON.stringify` of the notification payload is left out; the payload is a datatype.
- `parseInt` is not modelled: the conversation's `selection` is already an integer.
- Logging is left out.
- JsStrings.ToLower: lowers ASCII `A`-`Z` only. Full Unicode case mapping is out of scope.
- JsStrings.LexLe: compares characters by code point. This equals the UTF-16 order of the default `sort` only within the Basic Multilingual Plane.
- CanonicalKeys.SortInPlace: `Array.prototype.sort` is modelled as an in-place insertion sort. The result is the same sorted permutation, but the engine's own algorithm is not modelled.
- Escaping.DecodeNewlinesShape: no round trip is claimed between the newline escape when a recipe is stored and the decode when it is served. A stored value passes through the graph service's own string handling, which is not part of this model. Each side is specified on its own.
- A rejected promise caused by an unset `state.user` or `state.lastGraphVertex` (a `TypeError`) is modelled as a `None` result. The error value itself is not modelled.
- A selection in 1..5 beyond the end of the listed recipes also fails with a `TypeError`. It is modelled as a `None` reply with no write.
- The process entry points (index.js, server.js, GetBotId.js) only read the environment and start the process; they are not part of this model.
