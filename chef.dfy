/**
 * The bot's turn handling (SousChef.js). Each direct message from a person is
 * sent to the conversation service; its answer decides which handler writes
 * the reply. The per-user state lives in a map of objects that the handlers
 * update in place.
 *
 * What the outside world answers in a turn is a parameter: the conversation
 * service's response, the favourites traversal, the recipe catalogue's
 * answers (the JSON text of the matching recipes, a recipe's information and
 * steps), and the parse of a stored list of recipes (`decode`). A reply of
 * `None` means the turn's promise was rejected and nothing was posted.
 */
module Chef {
  import opened Optional
  import opened JsStrings
  import opened Escaping
  import opened PropertyGraph
  import opened GraphQueries
  import opened RecipeStore
  import opened ReplyText

  // ---------------------------------------------------------------------------
  // Messages and the conversation service
  // ---------------------------------------------------------------------------

  /** A Slack message event; `botId` is set on messages a bot sent. */
  datatype SlackEvent = SlackEvent(eventType: string, channel: string, botId: Option<string>, text: string, user: string)

  /** The message filter of `run`: direct messages ("D" channels) not sent by a bot. */
  predicate ShouldProcess(event: SlackEvent) {
    && event.eventType == "message"
    && |event.channel| > 0 && event.channel[0] == 'D'
    && (event.botId.None? || event.botId.value == "")
  }

  datatype Entity = Entity(entity: string, value: string)

  /** The conversation context the bot reads and writes. */
  datatype Context = Context(isFavorites: bool, isIngredients: bool, isSelection: bool,
                             selection: Option<int>, recipes: Option<seq<RecipeSummary>>,
                             selectionValid: Option<bool>)

  datatype ConversationResponse = ConversationResponse(context: Context, outputText: seq<string>, entities: seq<Entity>)

  /** Everything the outside world answers during one turn. */
  datatype Answers = Answers(conversation: ConversationResponse, favorites: Option<seq<RecipeHit>>,
                             matchingRecipesJson: string, recipeInfo: RecipeInfo,
                             recipeSteps: Option<seq<RecipeStep>>)

  // ---------------------------------------------------------------------------
  // Dispatch
  // ---------------------------------------------------------------------------

  datatype Route = Favorites | Ingredients | CuisineRoute(cuisine: string) | Selection(selection: int) | Start

  predicate FirstEntityIsCuisine(response: ConversationResponse) {
    |response.entities| > 0 && response.entities[0].entity == "cuisine"
  }

  /**
   * The handler a response goes to, in a fixed order of priority: the
   * favourites flag, the ingredients flag, a first entity that is a cuisine,
   * the selection flag, and otherwise the start handler. A selection that is
   * missing (or 0) is passed on as -1.
   */
  function Dispatch(response: ConversationResponse): (r: Route)
    ensures r == Favorites <==> response.context.isFavorites
    ensures r == Ingredients <==> !response.context.isFavorites && response.context.isIngredients
    ensures r.CuisineRoute? <==>
              !response.context.isFavorites && !response.context.isIngredients && FirstEntityIsCuisine(response)
    ensures r.CuisineRoute? ==> r.cuisine == response.entities[0].value
    ensures r.Selection? <==>
              && !response.context.isFavorites && !response.context.isIngredients
              && !FirstEntityIsCuisine(response) && response.context.isSelection
    ensures r.Selection? && (response.context.selection.None? || response.context.selection.value == 0) ==> r.selection == -1
    ensures r.Selection? && response.context.selection.Some? && response.context.selection.value != 0 ==>
              r.selection == response.context.selection.value
    ensures r == Start <==>
              && !response.context.isFavorites && !response.context.isIngredients
              && !FirstEntityIsCuisine(response) && !response.context.isSelection
  {
    var context := response.context;
    if context.isFavorites then Favorites
    else if context.isIngredients then Ingredients
    else if FirstEntityIsCuisine(response) then CuisineRoute(response.entities[0].value)
    else if context.isSelection then
      Selection(if context.selection.Some? && context.selection.value != 0 then context.selection.value else -1)
    else Start
  }

  /** A selection is served only when it is between 1 and 5. */
  predicate IsValidSelection(selection: int) {
    1 <= selection <= 5
  }

  const InvalidSelectionReply: string := "Invalid selection! Say anything to see your choices again..."

  /** The recipes stored in an ingredient or cuisine vertex, when its detail is there and parses. */
  function StoredRecipes(vertex: Vertex, decode: string -> Option<seq<RecipeSummary>>): Option<seq<RecipeSummary>> {
    if vertex.detail.Some? then decode(vertex.detail.value) else None
  }

  /** The recipes a list request ends with: none when the turn failed for want of a user vertex. */
  function ListTurnRecipes(vertex: Vertex, user: Option<Vertex>, decode: string -> Option<seq<RecipeSummary>>): Option<seq<RecipeSummary>> {
    if user.Some? then StoredRecipes(vertex, decode) else None
  }

  /** The recipe a valid selection picks from the recipes last listed, if the list is that long. */
  function SelectedRecipe(context: Context, selection: int): (r: Option<RecipeSummary>)
    requires IsValidSelection(selection)
    ensures r.Some? <==> context.recipes.Some? && selection <= |context.recipes.value|
    ensures r.Some? ==> r.value == context.recipes.value[selection - 1]
  {
    if context.recipes.Some? && selection <= |context.recipes.value| then Some(context.recipes.value[selection - 1]) else None
  }

  // ---------------------------------------------------------------------------
  // The effect of one turn
  // ---------------------------------------------------------------------------

  /** What a turn leaves behind: the graph, the sender's remembered fields, and the reply. */
  datatype TurnOutcome = TurnOutcome(graph: Graph, user: Option<Vertex>, context: Option<Context>,
                                     ingredientCuisine: Option<Vertex>, reply: Option<string>)

  /**
   * An ingredient or cuisine turn: the vertex is upserted and, with a user
   * vertex, the user's edge to it bumped; its stored recipes then become the
   * context's recipes and the chosen vertex, and are listed.
   */
  function ListRouteOutcome(g: Graph, user: Option<Vertex>, ingredientCuisine: Option<Vertex>, context: Context,
                            draft: VertexDraft, decode: string -> Option<seq<RecipeSummary>>): TurnOutcome
  {
    var up := Upsert(g, draft);
    var graph := if user.Some? then BumpEdge(up.0, Selects(user.value.id, up.1.id)) else up.0;
    var recipes := ListTurnRecipes(up.1, user, decode);
    if recipes.Some? then TurnOutcome(graph, user, Some(context.(recipes := recipes)), Some(up.1), Some(ListReplyText(recipes.value)))
    else TurnOutcome(graph, user, Some(context), ingredientCuisine, None)
  }

  /**
   * The outcome of one processed turn, given the graph and the sender's user
   * vertex and chosen ingredient or cuisine before it: the context the
   * service answered with is stored, then the handler the response
   * dispatches to runs.
   */
  function TurnOf(g: Graph, userId: string, user: Option<Vertex>, ingredientCuisine: Option<Vertex>,
                  text: string, answers: Answers, decode: string -> Option<seq<RecipeSummary>>): TurnOutcome
  {
    var response := answers.conversation;
    var context := response.context;
    match Dispatch(response)
    case Start =>
      var reply := Some(StartReplyText(response.outputText));
      if user.Some? then TurnOutcome(g, user, Some(context), ingredientCuisine, reply)
      else
        var up := Upsert(g, VertexDraft(Person, userId, None, None));
        TurnOutcome(up.0, Some(up.1), Some(context), ingredientCuisine, reply)
    case Favorites =>
      if user.None? then TurnOutcome(g, user, Some(context), ingredientCuisine, None)
      else
        var recipes := if answers.favorites.Some? then Summaries(answers.favorites.value) else [];
        TurnOutcome(g, user, Some(context.(recipes := Some(recipes))), None, Some(ListReplyText(recipes)))
    case Ingredients =>
      ListRouteOutcome(g, user, ingredientCuisine, context, IngredientDraft(text, answers.matchingRecipesJson), decode)
    case CuisineRoute(cuisine) =>
      ListRouteOutcome(g, user, ingredientCuisine, context, CuisineDraft(cuisine, answers.matchingRecipesJson), decode)
    case Selection(selection) =>
      if !IsValidSelection(selection) then
        TurnOutcome(g, user, Some(context.(selectionValid := Some(false))), ingredientCuisine, Some(InvalidSelectionReply))
      else if SelectedRecipe(context, selection).None? then
        TurnOutcome(g, user, Some(context), ingredientCuisine, None)
      else
        var info := answers.recipeInfo;
        var recipeId := SelectedRecipe(context, selection).value.id;
        var up := Upsert(g, RecipeDraft(recipeId, info.title, FormattedSteps(info, answers.recipeSteps)));
        if user.None? then TurnOutcome(up.0, user, Some(context), ingredientCuisine, None)
        else
          TurnOutcome(RecipeRequestRecorded(up.0, up.1, ingredientCuisine, user.value), user, None, None,
                      if up.1.detail.Some? then Some(DecodeNewlines(up.1.detail.value)) else None)
  }

  /**
   * The user vertex is made by the first start turn and kept from then on:
   * a turn never replaces a user vertex, a start turn always leaves one, and
   * no other turn makes one. A turn without a user vertex fails (no reply)
   * unless it is a start turn or an invalid selection.
   */
  lemma TurnUserVertex(g: Graph, userId: string, user: Option<Vertex>, ingredientCuisine: Option<Vertex>,
                       text: string, answers: Answers, decode: string -> Option<seq<RecipeSummary>>)
    ensures var t := TurnOf(g, userId, user, ingredientCuisine, text, answers, decode);
            && (user.Some? ==> t.user == user)
            && (Dispatch(answers.conversation) == Start ==> t.user.Some?)
            && (Dispatch(answers.conversation) != Start ==> t.user == user)
    ensures var route := Dispatch(answers.conversation);
            user.None? && route != Start && !(route.Selection? && !IsValidSelection(route.selection)) ==>
              TurnOf(g, userId, user, ingredientCuisine, text, answers, decode).reply.None?
  {
  }

  /**
   * A start turn after a start turn leaves the graph alone: the user vertex
   * is added once per user, whatever the graph held before.
   */
  lemma StartTurnAddsUserOnce(g: Graph, userId: string, user: Option<Vertex>, ingredientCuisine: Option<Vertex>,
                              text: string, answers: Answers, decode: string -> Option<seq<RecipeSummary>>)
    requires Dispatch(answers.conversation) == Start
    ensures var t := TurnOf(g, userId, user, ingredientCuisine, text, answers, decode);
            var t2 := TurnOf(t.graph, userId, t.user, t.ingredientCuisine, text, answers, decode);
            t2 == t
  {
  }

  // ---------------------------------------------------------------------------
  // State
  // ---------------------------------------------------------------------------

  /** What the bot remembers about one user between turns. */
  class UserState {
    const userId: string
    var conversationContext: Option<Context>
    var user: Option<Vertex>
    var ingredientCuisine: Option<Vertex>

    constructor (userId: string)
      ensures this.userId == userId
      ensures conversationContext.None? && user.None? && ingredientCuisine.None?
    {
      this.userId := userId;
      conversationContext := None;
      user := None;
      ingredientCuisine := None;
    }
  }

  class SousChef {
    var userStateMap: map<string, UserState>
    const recipeStore: GraphRecipeStore

    /** The store is valid and every state sits under its own user id. */
    ghost predicate Valid()
      reads this, recipeStore
    {
      && recipeStore.Valid()
      && forall id :: id in userStateMap ==> userStateMap[id].userId == id
    }

    constructor (recipeStore: GraphRecipeStore)
      requires recipeStore.Valid()
      ensures this.recipeStore == recipeStore && userStateMap == map[]
      ensures Valid()
    {
      this.recipeStore := recipeStore;
      userStateMap := map[];
    }

    /**
     * The message listener of `run`: a message that passes the filter is
     * processed; any other leaves every state and the store as they were.
     */
    method OnMessage(event: SlackEvent, answers: Answers, decode: string -> Option<seq<RecipeSummary>>)
      returns (reply: Option<string>)
      requires Valid()
      modifies this, recipeStore, userStateMap.Values
      ensures Valid()
      ensures !ShouldProcess(event) ==> reply.None? && userStateMap == old(userStateMap)
      ensures !ShouldProcess(event) ==> recipeStore.graph == old(recipeStore.graph)
      ensures !ShouldProcess(event) ==> forall id :: id in old(userStateMap) ==> unchanged(old(userStateMap)[id])
      ensures ShouldProcess(event) ==> event.user in userStateMap
      ensures ShouldProcess(event) ==>
                var known := old(event.user in userStateMap);
                var state := userStateMap[event.user];
                TurnOutcome(recipeStore.graph, state.user, state.conversationContext, state.ingredientCuisine, reply)
                == TurnOf(old(recipeStore.graph), event.user,
                          if known then old(userStateMap[event.user].user) else None,
                          if known then old(userStateMap[event.user].ingredientCuisine) else None,
                          event.text, answers, decode)
      ensures forall id :: id in old(userStateMap) && id != event.user ==>
                id in userStateMap && userStateMap[id] == old(userStateMap)[id] && unchanged(old(userStateMap)[id])
    {
      if ShouldProcess(event) {
        reply := ProcessSlackMessage(event, answers, decode);
      } else {
        reply := None;
      }
    }

    /**
     * The first half of processSlackMessage: the sender's state is reused
     * when there is one, and otherwise made and remembered under the
     * sender's id.
     */
    method StateFor(messageSender: string) returns (state: UserState)
      requires Valid()
      modifies this
      ensures Valid()
      ensures messageSender in userStateMap && userStateMap[messageSender] == state
      ensures old(messageSender in userStateMap) ==> userStateMap == old(userStateMap)
      ensures !old(messageSender in userStateMap) ==>
                && userStateMap == old(userStateMap)[messageSender := state]
                && fresh(state)
                && state.conversationContext.None? && state.user.None? && state.ingredientCuisine.None?
    {
      if messageSender in userStateMap {
        state := userStateMap[messageSender];
      } else {
        state := new UserState(messageSender);
        userStateMap := userStateMap[messageSender := state];
      }
    }

    /**
     * processSlackMessage: get or create the sender's state, store the
     * conversation context the service answered with, and hand the turn to
     * the handler the response dispatches to.
     */
    method ProcessSlackMessage(event: SlackEvent, answers: Answers, decode: string -> Option<seq<RecipeSummary>>)
      returns (reply: Option<string>)
      requires Valid()
      modifies this, recipeStore, userStateMap.Values
      ensures Valid()
      ensures event.user in userStateMap
      ensures old(event.user in userStateMap) ==> userStateMap == old(userStateMap)
      ensures !old(event.user in userStateMap) ==>
                && userStateMap == old(userStateMap)[event.user := userStateMap[event.user]]
                && fresh(userStateMap[event.user])
      ensures var known := old(event.user in userStateMap);
              var state := userStateMap[event.user];
              TurnOutcome(recipeStore.graph, state.user, state.conversationContext, state.ingredientCuisine, reply)
              == TurnOf(old(recipeStore.graph), event.user,
                        if known then old(userStateMap[event.user].user) else None,
                        if known then old(userStateMap[event.user].ingredientCuisine) else None,
                        event.text, answers, decode)
      ensures forall id :: id in old(userStateMap) && id != event.user ==> unchanged(old(userStateMap)[id])
      ensures Dispatch(answers.conversation) == Start ==>
                && reply == Some(StartReplyText(answers.conversation.outputText))
                && userStateMap[event.user].user.Some?
                && userStateMap[event.user].conversationContext == Some(answers.conversation.context)
      ensures var route := Dispatch(answers.conversation);
              route.Selection? && !IsValidSelection(route.selection) ==>
                && reply == Some(InvalidSelectionReply)
                && recipeStore.graph == old(recipeStore.graph)
                && userStateMap[event.user].conversationContext == Some(answers.conversation.context.(selectionValid := Some(false)))
    {
      var state := StateFor(event.user);
      state.conversationContext := Some(answers.conversation.context);
      reply := RouteTurn(state, event.text, answers, decode);
    }

    /**
     * The second half of processSlackMessage, once the answered context is
     * stored: the handler the response dispatches to takes the turn.
     */
    method RouteTurn(state: UserState, text: string, answers: Answers, decode: string -> Option<seq<RecipeSummary>>)
      returns (reply: Option<string>)
      requires recipeStore.Valid()
      requires state.conversationContext == Some(answers.conversation.context)
      modifies state, recipeStore
      ensures recipeStore.Valid()
      ensures TurnOutcome(recipeStore.graph, state.user, state.conversationContext, state.ingredientCuisine, reply)
              == TurnOf(old(recipeStore.graph), state.userId, old(state.user), old(state.ingredientCuisine), text, answers, decode)
    {
      match Dispatch(answers.conversation)
      case Favorites =>
        reply := HandleFavoritesMessage(state, answers.favorites);
      case Ingredients =>
        reply := HandleIngredientsMessage(state, text, answers.matchingRecipesJson, decode);
      case CuisineRoute(cuisine) =>
        reply := HandleCuisineMessage(state, cuisine, answers.matchingRecipesJson, decode);
      case Selection(selection) =>
        reply := HandleSelectionMessage(state, selection, answers.recipeInfo, answers.recipeSteps);
      case Start =>
        var startReply := HandleStartMessage(state, answers.conversation);
        reply := Some(startReply);
    }

    /**
     * handleStartMessage: the reply is every output text followed by a line
     * feed; the user's vertex is added to the store only when the state has
     * none yet.
     */
    method HandleStartMessage(state: UserState, response: ConversationResponse) returns (reply: string)
      requires recipeStore.Valid()
      modifies state, recipeStore
      ensures reply == StartReplyText(response.outputText)
      ensures recipeStore.Valid()
      ensures old(state.user).Some? ==> state.user == old(state.user) && recipeStore.graph == old(recipeStore.graph)
      ensures old(state.user).None? ==>
                var (g, user) := Upsert(old(recipeStore.graph), VertexDraft(Person, state.userId, None, None));
                recipeStore.graph == g && state.user == Some(user)
      ensures state.conversationContext == old(state.conversationContext)
      ensures state.ingredientCuisine == old(state.ingredientCuisine)
    {
      reply := StartReply(response.outputText);
      if state.user.None? {
        var user := recipeStore.AddUser(state.userId);
        state.user := Some(user);
      }
    }

    /**
     * handleFavoritesMessage: the user's favourite recipes become the
     * context's recipes and are listed; the chosen ingredient or cuisine is
     * forgotten. Without a user vertex the turn fails and nothing changes.
     */
    method HandleFavoritesMessage(state: UserState, favorites: Option<seq<RecipeHit>>) returns (reply: Option<string>)
      requires state.conversationContext.Some?
      modifies state
      ensures old(state.user).None? ==>
                && reply.None?
                && state.conversationContext == old(state.conversationContext)
                && state.ingredientCuisine == old(state.ingredientCuisine)
      ensures old(state.user).Some? ==>
                var recipes := if favorites.Some? then Summaries(favorites.value) else [];
                && reply == Some(ListReplyText(recipes))
                && state.conversationContext == Some(old(state.conversationContext).value.(recipes := Some(recipes)))
                && state.ingredientCuisine.None?
      ensures state.user == old(state.user)
    {
      var found := recipeStore.FindFavoriteRecipesForUser(state.user, favorites);
      if found.None? {
        return None;
      }
      var recipes := found.value;
      state.conversationContext := Some(state.conversationContext.value.(recipes := Some(recipes)));
      state.ingredientCuisine := None;
      var response := ListReply(recipes);
      reply := Some(response);
    }

    /**
     * The first stage of handleIngredientsMessage: an ingredient already
     * stored is reused and the user's request recorded; otherwise it is added
     * with the catalogue's matching recipes. Either way the graph ends as one
     * upsert of the ingredient followed by one bump of the user's edge to it.
     * Without a user vertex the stage fails after the upsert.
     */
    method StoreIngredientRequest(message: string, matchingRecipesJson: string, user: Option<Vertex>)
      returns (stored: Option<Vertex>)
      requires recipeStore.Valid()
      modifies recipeStore
      ensures recipeStore.Valid()
      ensures var up := Upsert(old(recipeStore.graph), IngredientDraft(message, matchingRecipesJson));
              recipeStore.graph == (if user.Some? then BumpEdge(up.0, Selects(user.value.id, up.1.id)) else up.0)
      ensures var up := Upsert(old(recipeStore.graph), IngredientDraft(message, matchingRecipesJson));
              stored == (if user.Some? then Some(up.1) else None)
    {
      ghost var up := Upsert(recipeStore.graph, IngredientDraft(message, matchingRecipesJson));
      var found := recipeStore.FindIngredient(message);
      if found.Some? {
        assert up == (recipeStore.graph, found.value);
        var ok := recipeStore.RecordRequestForUser(found.value, user);
        stored := if ok then found else None;
      } else {
        stored := recipeStore.AddIngredient(message, matchingRecipesJson, user);
      }
    }

    /** The first stage of handleCuisineMessage: as for an ingredient, for a cuisine. */
    method StoreCuisineRequest(message: string, matchingRecipesJson: string, user: Option<Vertex>)
      returns (stored: Option<Vertex>)
      requires recipeStore.Valid()
      modifies recipeStore
      ensures recipeStore.Valid()
      ensures var up := Upsert(old(recipeStore.graph), CuisineDraft(message, matchingRecipesJson));
              recipeStore.graph == (if user.Some? then BumpEdge(up.0, Selects(user.value.id, up.1.id)) else up.0)
      ensures var up := Upsert(old(recipeStore.graph), CuisineDraft(message, matchingRecipesJson));
              stored == (if user.Some? then Some(up.1) else None)
    {
      ghost var up := Upsert(recipeStore.graph, CuisineDraft(message, matchingRecipesJson));
      var found := recipeStore.FindCuisine(message);
      if found.Some? {
        assert up == (recipeStore.graph, found.value);
        var ok := recipeStore.RecordRequestForUser(found.value, user);
        stored := if ok then found else None;
      } else {
        stored := recipeStore.AddCuisine(message, matchingRecipesJson, user);
      }
    }

    /**
     * The second stage shared by handleIngredientsMessage and
     * handleCuisineMessage: the vertex's stored list of recipes is parsed,
     * becomes the context's recipes, the vertex becomes the chosen ingredient
     * or cuisine, and the recipes are listed. A missing or unparsable detail
     * fails the turn before anything changes.
     */
    method ListTurn(state: UserState, vertex: Vertex, decode: string -> Option<seq<RecipeSummary>>)
      returns (reply: Option<string>)
      requires state.conversationContext.Some?
      modifies state
      ensures var recipes := StoredRecipes(vertex, decode);
              reply == (if recipes.Some? then Some(ListReplyText(recipes.value)) else None)
      ensures var recipes := StoredRecipes(vertex, decode);
              recipes.Some? ==>
                && state.conversationContext == Some(old(state.conversationContext).value.(recipes := recipes))
                && state.ingredientCuisine == Some(vertex)
      ensures StoredRecipes(vertex, decode).None? ==>
                && state.conversationContext == old(state.conversationContext)
                && state.ingredientCuisine == old(state.ingredientCuisine)
      ensures state.user == old(state.user)
    {
      if vertex.detail.None? {
        return None;
      }
      var matchingRecipes := decode(vertex.detail.value);
      if matchingRecipes.None? {
        return None;
      }
      state.conversationContext := Some(state.conversationContext.value.(recipes := matchingRecipes));
      state.ingredientCuisine := Some(vertex);
      var response := ListReply(matchingRecipes.value);
      reply := Some(response);
    }

    /**
     * handleIngredientsMessage: the ingredient is stored or reused with the
     * user's request recorded, then its stored list of recipes is parsed,
     * remembered and listed.
     */
    method HandleIngredientsMessage(state: UserState, message: string, matchingRecipesJson: string,
                                    decode: string -> Option<seq<RecipeSummary>>)
      returns (reply: Option<string>)
      requires recipeStore.Valid() && state.conversationContext.Some?
      modifies state, recipeStore
      ensures recipeStore.Valid()
      ensures var up := Upsert(old(recipeStore.graph), IngredientDraft(message, matchingRecipesJson));
              var user := old(state.user);
              recipeStore.graph == (if user.Some? then BumpEdge(up.0, Selects(user.value.id, up.1.id)) else up.0)
      ensures var up := Upsert(old(recipeStore.graph), IngredientDraft(message, matchingRecipesJson));
              var recipes := ListTurnRecipes(up.1, old(state.user), decode);
              reply == (if recipes.Some? then Some(ListReplyText(recipes.value)) else None)
      ensures var up := Upsert(old(recipeStore.graph), IngredientDraft(message, matchingRecipesJson));
              var recipes := ListTurnRecipes(up.1, old(state.user), decode);
              recipes.Some? ==>
                && state.conversationContext == Some(old(state.conversationContext).value.(recipes := recipes))
                && state.ingredientCuisine == Some(up.1)
      ensures var up := Upsert(old(recipeStore.graph), IngredientDraft(message, matchingRecipesJson));
              ListTurnRecipes(up.1, old(state.user), decode).None? ==>
                && state.conversationContext == old(state.conversationContext)
                && state.ingredientCuisine == old(state.ingredientCuisine)
      ensures state.user == old(state.user)
    {
      var stored := StoreIngredientRequest(message, matchingRecipesJson, state.user);
      if stored.None? {
        return None;
      }
      reply := ListTurn(state, stored.value, decode);
    }

    /** handleCuisineMessage: as handleIngredientsMessage, for the cuisine the service recognised. */
    method HandleCuisineMessage(state: UserState, message: string, matchingRecipesJson: string,
                                decode: string -> Option<seq<RecipeSummary>>)
      returns (reply: Option<string>)
      requires recipeStore.Valid() && state.conversationContext.Some?
      modifies state, recipeStore
      ensures recipeStore.Valid()
      ensures var up := Upsert(old(recipeStore.graph), CuisineDraft(message, matchingRecipesJson));
              var user := old(state.user);
              recipeStore.graph == (if user.Some? then BumpEdge(up.0, Selects(user.value.id, up.1.id)) else up.0)
      ensures var up := Upsert(old(recipeStore.graph), CuisineDraft(message, matchingRecipesJson));
              var recipes := ListTurnRecipes(up.1, old(state.user), decode);
              reply == (if recipes.Some? then Some(ListReplyText(recipes.value)) else None)
      ensures var up := Upsert(old(recipeStore.graph), CuisineDraft(message, matchingRecipesJson));
              var recipes := ListTurnRecipes(up.1, old(state.user), decode);
              recipes.Some? ==>
                && state.conversationContext == Some(old(state.conversationContext).value.(recipes := recipes))
                && state.ingredientCuisine == Some(up.1)
      ensures var up := Upsert(old(recipeStore.graph), CuisineDraft(message, matchingRecipesJson));
              ListTurnRecipes(up.1, old(state.user), decode).None? ==>
                && state.conversationContext == old(state.conversationContext)
                && state.ingredientCuisine == old(state.ingredientCuisine)
      ensures state.user == old(state.user)
    {
      var stored := StoreCuisineRequest(message, matchingRecipesJson, state.user);
      if stored.None? {
        return None;
      }
      reply := ListTurn(state, stored.value, decode);
    }

    /**
     * The first stage of handleSelectionMessage once the recipe id is known:
     * a stored recipe is reused, otherwise it is added with its formatted
     * steps; either way the request is recorded against the user and the
     * chosen ingredient or cuisine. Without a user vertex the stage fails
     * after the upsert.
     */
    method StoreRecipeRequest(recipeId: string, recipeInfo: RecipeInfo, recipeSteps: Option<seq<RecipeStep>>,
                              ingredientCuisine: Option<Vertex>, user: Option<Vertex>)
      returns (stored: Option<Vertex>)
      requires recipeStore.Valid()
      modifies recipeStore
      ensures recipeStore.Valid()
      ensures var up := Upsert(old(recipeStore.graph), RecipeDraft(recipeId, recipeInfo.title, FormattedSteps(recipeInfo, recipeSteps)));
              recipeStore.graph == (if user.Some? then RecipeRequestRecorded(up.0, up.1, ingredientCuisine, user.value) else up.0)
      ensures var up := Upsert(old(recipeStore.graph), RecipeDraft(recipeId, recipeInfo.title, FormattedSteps(recipeInfo, recipeSteps)));
              stored == (if user.Some? then Some(up.1) else None)
    {
      ghost var up := Upsert(recipeStore.graph, RecipeDraft(recipeId, recipeInfo.title, FormattedSteps(recipeInfo, recipeSteps)));
      var found := recipeStore.FindRecipe(recipeId);
      if found.Some? {
        assert up == (recipeStore.graph, found.value);
        var ok := recipeStore.RecordRecipeRequestForUser(found.value, ingredientCuisine, user);
        stored := if ok then found else None;
      } else {
        var recipeDetail := MakeFormattedSteps(recipeInfo, recipeSteps);
        stored := recipeStore.AddRecipe(recipeId, recipeInfo.title, recipeDetail, ingredientCuisine, user);
      }
    }

    /**
     * The part of handleSelectionMessage after the recipe id is known: the
     * recipe is stored and the request recorded; with a user vertex the
     * chosen ingredient or cuisine and the context are reset and the stored
     * detail is replied with its escaped line feeds decoded, without one the
     * turn ends with no reply and the state as it was.
     */
    method ServeSelection(state: UserState, recipeId: string, recipeInfo: RecipeInfo,
                          recipeSteps: Option<seq<RecipeStep>>)
      returns (reply: Option<string>)
      requires recipeStore.Valid()
      modifies state, recipeStore
      ensures recipeStore.Valid()
      ensures state.user == old(state.user)
      ensures var up := Upsert(old(recipeStore.graph), RecipeDraft(recipeId, recipeInfo.title, FormattedSteps(recipeInfo, recipeSteps)));
              var user := old(state.user);
              recipeStore.graph == (if user.Some? then RecipeRequestRecorded(up.0, up.1, old(state.ingredientCuisine), user.value) else up.0)
      ensures old(state.user).None? ==>
                && reply.None?
                && state.conversationContext == old(state.conversationContext)
                && state.ingredientCuisine == old(state.ingredientCuisine)
      ensures old(state.user).Some? ==> state.conversationContext.None? && state.ingredientCuisine.None?
      ensures var up := Upsert(old(recipeStore.graph), RecipeDraft(recipeId, recipeInfo.title, FormattedSteps(recipeInfo, recipeSteps)));
              old(state.user).Some? ==> reply == (if up.1.detail.Some? then Some(DecodeNewlines(up.1.detail.value)) else None)
    {
      var stored := StoreRecipeRequest(recipeId, recipeInfo, recipeSteps, state.ingredientCuisine, state.user);
      reply := SelectionReply(state, stored);
    }

    /**
     * The last stage of handleSelectionMessage: once the recipe is stored the
     * chosen ingredient or cuisine and the context are reset and the stored
     * detail is replied with its escaped line feeds decoded; when the store
     * stage failed nothing changes and there is no reply.
     */
    method SelectionReply(state: UserState, stored: Option<Vertex>) returns (reply: Option<string>)
      modifies state
      ensures state.user == old(state.user)
      ensures stored.None? ==>
                && reply.None?
                && state.conversationContext == old(state.conversationContext)
                && state.ingredientCuisine == old(state.ingredientCuisine)
      ensures stored.Some? ==> state.conversationContext.None? && state.ingredientCuisine.None?
      ensures stored.Some? ==>
                reply == (if stored.value.detail.Some? then Some(DecodeNewlines(stored.value.detail.value)) else None)
    {
      if stored.None? {
        return None;
      }
      var recipe := stored.value;
      state.ingredientCuisine := None;
      state.conversationContext := None;
      reply := if recipe.detail.Some? then Some(DecodeNewlines(recipe.detail.value)) else None;
    }

    /**
     * handleSelectionMessage. A selection outside 1..5 is answered with the
     * invalid-selection text and only marks the context; the store is not
     * touched. A valid one takes the id of that recipe in the last list: a
     * stored recipe is reused, otherwise it is added with its formatted
     * steps; the request is recorded, the chosen ingredient or cuisine and
     * the context are reset, and the stored detail is replied with its
     * escaped line feeds decoded.
     */
    method HandleSelectionMessage(state: UserState, selection: int, recipeInfo: RecipeInfo,
                                  recipeSteps: Option<seq<RecipeStep>>)
      returns (reply: Option<string>)
      requires recipeStore.Valid() && state.conversationContext.Some?
      modifies state, recipeStore
      ensures recipeStore.Valid()
      ensures state.user == old(state.user)
      ensures !IsValidSelection(selection) ==>
                && reply == Some(InvalidSelectionReply)
                && recipeStore.graph == old(recipeStore.graph)
                && state.conversationContext == Some(old(state.conversationContext).value.(selectionValid := Some(false)))
                && state.ingredientCuisine == old(state.ingredientCuisine)
      ensures IsValidSelection(selection) && SelectedRecipe(old(state.conversationContext).value, selection).None? ==>
                && reply.None?
                && recipeStore.graph == old(recipeStore.graph)
                && state.conversationContext == old(state.conversationContext)
                && state.ingredientCuisine == old(state.ingredientCuisine)
      ensures IsValidSelection(selection) && SelectedRecipe(old(state.conversationContext).value, selection).Some? ==>
                var recipeId := SelectedRecipe(old(state.conversationContext).value, selection).value.id;
                var up := Upsert(old(recipeStore.graph), RecipeDraft(recipeId, recipeInfo.title, FormattedSteps(recipeInfo, recipeSteps)));
                var user := old(state.user);
                recipeStore.graph == (if user.Some? then RecipeRequestRecorded(up.0, up.1, old(state.ingredientCuisine), user.value) else up.0)
      ensures IsValidSelection(selection) && SelectedRecipe(old(state.conversationContext).value, selection).Some? && old(state.user).None? ==>
                && reply.None?
                && state.conversationContext == old(state.conversationContext)
                && state.ingredientCuisine == old(state.ingredientCuisine)
      ensures IsValidSelection(selection) && SelectedRecipe(old(state.conversationContext).value, selection).Some? && old(state.user).Some? ==>
                state.conversationContext.None? && state.ingredientCuisine.None?
      ensures IsValidSelection(selection) && SelectedRecipe(old(state.conversationContext).value, selection).Some? && old(state.user).Some? ==>
                var recipeId := SelectedRecipe(old(state.conversationContext).value, selection).value.id;
                var up := Upsert(old(recipeStore.graph), RecipeDraft(recipeId, recipeInfo.title, FormattedSteps(recipeInfo, recipeSteps)));
                reply == (if up.1.detail.Some? then Some(DecodeNewlines(up.1.detail.value)) else None)
    {
      if selection >= 1 && selection <= 5 {
        var recipes := state.conversationContext.value.recipes;
        if recipes.None? || |recipes.value| < selection {
          return None;
        }
        reply := ServeSelection(state, recipes.value[selection - 1].id, recipeInfo, recipeSteps);
      } else {
        state.conversationContext := Some(state.conversationContext.value.(selectionValid := Some(false)));
        reply := Some(InvalidSelectionReply);
      }
    }
  }
}
