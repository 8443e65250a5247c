/**
 * The notification client (SnsClient.js): it reads the host name and port of
 * the notification service out of a configured URL, and posts one payload per
 * user action. The HTTP request itself is not modelled: a post is returned as
 * the request the client would send.
 */
module Notifications {
  import opened Optional
  import opened JsStrings
  import opened PropertyGraph

  /** A port is the text cut out of the URL, or the number chosen by default. */
  datatype Port = PortText(text: string) | PortNumber(number: nat)

  // ---------------------------------------------------------------------------
  // Reading the URL
  // ---------------------------------------------------------------------------

  /** The URL with everything through its first "://" removed, when that occurs past position 0. */
  function StripScheme(apiUrl: string): (r: string)
    ensures |r| <= |apiUrl| && r == apiUrl[|apiUrl| - |r|..]
  {
    var i := IndexOf(apiUrl, "://");
    if i > 0 then SubstringFrom(apiUrl, i + 3) else apiUrl
  }

  /** The host part before the port is cut off: up to the first '/', when that is past position 0. */
  function HostBeforePort(url: string): string {
    var i := IndexOf(url, "/");
    if i > 0 then Substring(url, 0, i) else url
  }

  /**
   * The host name cut out of a URL whose scheme is already stripped. The
   * colon is looked for in the whole URL, but the cut is made in the host
   * part.
   */
  function HostIn(url: string): string {
    var host := HostBeforePort(url);
    var i := IndexOf(url, ":");
    if i > 0 then Substring(host, 0, i) else host
  }

  /**
   * The port cut out of a URL whose scheme is already stripped. Without a
   * colon it is 80: the choice between 443 and 80 reads a field that is
   * never set.
   */
  function PortIn(url: string): Port {
    var host := HostBeforePort(url);
    var i := IndexOf(url, ":");
    if i > 0 then PortText(SubstringFrom(host, i + 1)) else PortNumber(80)
  }

  /** The host name the constructor settles on. */
  function HostnameOf(apiUrl: string): string {
    HostIn(StripScheme(apiUrl))
  }

  /** The port the constructor settles on. */
  function PortOf(apiUrl: string): Port {
    PortIn(StripScheme(apiUrl))
  }

  /** A scheme without colons, and the "://" after it, are stripped. */
  lemma SchemeStripped(scheme: string, rest: string)
    requires scheme != [] && ':' !in scheme
    ensures StripScheme(scheme + "://" + rest) == rest
  {
    var s := scheme + "://" + rest;
    assert s[|scheme|..|scheme| + 3] == "://";
    forall i | 0 <= i < |scheme|
      ensures !OccursAt(s, "://", i)
    {
      assert s[i..i + 3][0] == s[i] == scheme[i];
    }
    IndexOfFirst(s, "://", |scheme|);
    assert s[|scheme| + 3..] == rest;
  }

  /**
   * Where the host name and port come from in a stripped URL. With `end` the
   * first '/' past position 0 (or the length): without a colon the host is
   * the text before `end` and the port is 80; with a colon before `end` the
   * host stops at the colon and the port is the text between the colon and
   * `end`; with the first colon past `end` (inside the path) the host is the
   * text before `end` and the port is empty, because the cut in the shorter
   * host part is clamped.
   */
  lemma HostAndPort(url: string)
    ensures var slash := IndexOf(url, "/");
            var colon := IndexOf(url, ":");
            var end := if slash > 0 then slash else |url|;
            && end <= |url|
            && (colon <= 0 ==> HostIn(url) == url[..end] && PortIn(url) == PortNumber(80))
            && (0 < colon < end ==> HostIn(url) == url[..colon] && PortIn(url) == PortText(url[colon + 1..end]))
            && (colon > 0 && colon >= end ==> slash > 0 && HostIn(url) == url[..end] && PortIn(url) == PortText(""))
  {
    var slash := IndexOf(url, "/");
    var colon := IndexOf(url, ":");
    var end := if slash > 0 then slash else |url|;
    assert "/" == ['/'] && ":" == [':'];
    IndexOfChar(url, '/');
    IndexOfChar(url, ':');
    var host := HostBeforePort(url);
    assert host == url[..end];
    if 0 < colon < end {
      assert Substring(host, 0, colon) == url[..colon];
      assert SubstringFrom(host, colon + 1) == url[colon + 1..end];
    } else if colon > 0 {
      assert colon != end;
      assert Substring(host, 0, colon) == host;
      assert SubstringFrom(host, colon + 1) == "";
    }
  }

  /** The host name holds no '/' unless the stripped URL starts with one. */
  lemma HostnameHasNoSlash(apiUrl: string)
    requires var url := StripScheme(apiUrl); url == [] || url[0] != '/'
    ensures '/' !in HostnameOf(apiUrl)
  {
    var url := StripScheme(apiUrl);
    HostAndPort(url);
    IndexOfChar(url, '/');
    assert "/" == ['/'];
  }

  /**
   * The default port is 80 whatever the scheme: a host with neither a colon
   * nor a slash behind a secure scheme still gets port 80.
   */
  lemma DefaultPortIgnoresScheme(scheme: string, host: string)
    requires scheme != [] && ':' !in scheme
    requires ':' !in host && '/' !in host
    ensures HostnameOf(scheme + "://" + host) == host
    ensures PortOf(scheme + "://" + host) == PortNumber(80)
  {
    SchemeStripped(scheme, host);
    HostAndPort(host);
    IndexOfChar(host, '/');
    IndexOfChar(host, ':');
    assert "/" == ['/'] && ":" == [':'];
  }

  /** The host, colon, port, slash, path shape of a stripped URL. */
  lemma HostAndPortIn(host: string, port: string, path: string)
    requires host != [] && ':' !in host && '/' !in host
    requires ':' !in port && '/' !in port
    ensures HostIn(host + ":" + port + "/" + path) == host
    ensures PortIn(host + ":" + port + "/" + path) == PortText(port)
  {
    var url := host + ":" + port + "/" + path;
    var slashAt := |host| + 1 + |port|;
    assert url[|host|] == ':' && url[slashAt] == '/';
    assert forall i :: 0 <= i < |host| ==> url[i] == host[i];
    assert forall i :: |host| < i < slashAt ==> url[i] == port[i - |host| - 1];
    assert IndexOf(url, ":") == |host| by {
      IndexOfCharAt(url, ':', |host|);
    }
    assert IndexOf(url, "/") == slashAt by {
      IndexOfCharAt(url, '/', slashAt);
    }
    assert HostBeforePort(url) == url[..slashAt];
    assert url[..slashAt][..|host|] == host;
    assert url[..slashAt][|host| + 1..] == port;
  }

  /** A URL of the usual shape: scheme, host, colon, port, path. */
  lemma HostAndPortOfFullUrl(scheme: string, host: string, port: string, path: string)
    requires scheme != [] && ':' !in scheme
    requires host != [] && ':' !in host && '/' !in host
    requires ':' !in port && '/' !in port
    ensures HostnameOf(scheme + "://" + host + ":" + port + "/" + path) == host
    ensures PortOf(scheme + "://" + host + ":" + port + "/" + path) == PortText(port)
  {
    var url := host + ":" + port + "/" + path;
    assert scheme + "://" + host + ":" + port + "/" + path == scheme + "://" + url;
    SchemeStripped(scheme, url);
    HostAndPortIn(host, port, path);
  }

  /** A colon inside the path of a stripped URL, and none in the host. */
  lemma ColonInPathIn(host: string, path: string, rest: string)
    requires host != [] && ':' !in host && '/' !in host
    requires ':' !in path
    ensures HostIn(host + "/" + path + ":" + rest) == host
    ensures PortIn(host + "/" + path + ":" + rest) == PortText("")
  {
    var url := host + "/" + path + ":" + rest;
    var colonAt := |host| + 1 + |path|;
    assert url[|host|] == '/' && url[colonAt] == ':';
    assert forall i :: 0 <= i < |host| ==> url[i] == host[i];
    assert forall i :: |host| < i < colonAt ==> url[i] == path[i - |host| - 1];
    assert IndexOf(url, "/") == |host| by {
      IndexOfCharAt(url, '/', |host|);
    }
    assert IndexOf(url, ":") == colonAt by {
      IndexOfCharAt(url, ':', colonAt);
    }
    assert HostBeforePort(url) == host;
  }

  /**
   * A colon inside the path (and none in the host) still produces a port:
   * the empty text, while the host name is the whole host.
   */
  lemma ColonInPathGivesEmptyPort(scheme: string, host: string, path: string, rest: string)
    requires scheme != [] && ':' !in scheme
    requires host != [] && ':' !in host && '/' !in host
    requires ':' !in path
    ensures HostnameOf(scheme + "://" + host + "/" + path + ":" + rest) == host
    ensures PortOf(scheme + "://" + host + "/" + path + ":" + rest) == PortText("")
  {
    var url := host + "/" + path + ":" + rest;
    assert scheme + "://" + host + "/" + path + ":" + rest == scheme + "://" + url;
    SchemeStripped(scheme, url);
    ColonInPathIn(host, path, rest);
  }

  // ---------------------------------------------------------------------------
  // Payloads
  // ---------------------------------------------------------------------------

  /** The `state` object of a notification; an absent field is left out of the JSON. */
  datatype NotificationState = NotificationState(user: string, ingredient: Option<string>,
                                                 cuisine: Option<string>, recipe: Option<string>)

  datatype Notification = Notification(action: string, message: string, state: NotificationState)

  /** The body: a user query of type "action" and the notification. */
  datatype Payload = Payload(userQueryType: string, notification: Notification)

  /** The request the client sends. */
  datatype HttpPost = HttpPost(hostname: string, port: Port, path: string, body: Payload)

  /**
   * The notification for a user action: the ingredient field carries the
   * chosen vertex's name when it is an ingredient, the cuisine field when it
   * is anything else, and neither when nothing was chosen.
   */
  function NotificationFor(action: string, userId: string, ingredientCuisine: Option<Vertex>,
                           message: string, recipeId: Option<string>): (n: Notification)
    ensures n.action == action && n.message == message
    ensures n.state.user == userId && n.state.recipe == recipeId
    ensures n.state.ingredient.Some? <==> ingredientCuisine.Some? && ingredientCuisine.value.kind == Ingredient
    ensures n.state.cuisine.Some? <==> ingredientCuisine.Some? && ingredientCuisine.value.kind != Ingredient
    ensures n.state.ingredient.None? || n.state.cuisine.None?
    ensures n.state.ingredient.Some? ==> n.state.ingredient.value == ingredientCuisine.value.name
    ensures n.state.cuisine.Some? ==> n.state.cuisine.value == ingredientCuisine.value.name
  {
    var ingredient := if ingredientCuisine.Some? && ingredientCuisine.value.kind == Ingredient
                      then Some(ingredientCuisine.value.name) else None;
    var cuisine := if ingredientCuisine.Some? && ingredientCuisine.value.kind != Ingredient
                   then Some(ingredientCuisine.value.name) else None;
    Notification(action, message, NotificationState(userId, ingredient, cuisine, recipeId))
  }

  class SnsClient {
    var enabled: bool
    var apiKey: string
    /** Unset (`None`) when the client is disabled. */
    var hostname: Option<string>
    var port: Option<Port>

    predicate Valid()
      reads this
    {
      enabled <==> hostname.Some? && port.Some?
    }

    /**
     * A missing or empty URL disables the client. Otherwise the scheme is
     * stripped, the host name is cut at the first slash, and the port is cut
     * out of it at the first colon of the stripped URL.
     */
    constructor (apiUrl: Option<string>, apiKey: string)
      ensures enabled <==> apiUrl.Some? && apiUrl.value != ""
      ensures enabled ==> hostname == Some(HostnameOf(apiUrl.value)) && port == Some(PortOf(apiUrl.value))
      ensures enabled ==> this.apiKey == apiKey
      ensures Valid()
    {
      enabled := apiUrl.Some? && apiUrl.value != "";
      this.apiKey := if apiUrl.Some? && apiUrl.value != "" then apiKey else "";
      hostname := None;
      port := None;
      new;
      if enabled {
        var url := apiUrl.value;
        var index := IndexOf(apiUrl.value, "://");
        if index > 0 {
          url := SubstringFrom(apiUrl.value, index + 3);
        }
        index := IndexOf(url, "/");
        if index > 0 {
          hostname := Some(Substring(url, 0, index));
        } else {
          hostname := Some(url);
        }
        index := IndexOf(url, ":");
        if index > 0 {
          port := Some(PortText(SubstringFrom(hostname.value, index + 1)));
          hostname := Some(Substring(hostname.value, 0, index));
        } else {
          port := Some(PortNumber(80));
        }
      }
    }

    /** The post of a notification to "/<api key>/notification" on the parsed host and port. */
    function PostOf(n: Notification): HttpPost
      reads this
      requires Valid() && enabled
    {
      HttpPost(hostname.value, port.value, "/" + apiKey + "/notification", Payload("action", n))
    }

    /**
     * postMessage: nothing when the client is disabled; otherwise a post to
     * "/<api key>/notification" on the parsed host and port, whose body is the
     * notification for the action.
     */
    method PostMessage(action: string, userId: string, ingredientCuisine: Option<Vertex>,
                       message: string, recipeId: Option<string>) returns (post: Option<HttpPost>)
      requires Valid()
      ensures post.Some? <==> enabled
      ensures post.Some? ==> post.value.hostname == hostname.value && post.value.port == port.value
      ensures post.Some? ==> post.value.path == "/" + apiKey + "/notification"
      ensures post.Some? ==> post.value.body == Payload("action", NotificationFor(action, userId, ingredientCuisine, message, recipeId))
      ensures enabled ==> post == Some(PostOf(NotificationFor(action, userId, ingredientCuisine, message, recipeId)))
    {
      if !enabled {
        return None;
      }
      var ingredient: Option<string> := None;
      var cuisine: Option<string> := None;
      if ingredientCuisine.Some? {
        if ingredientCuisine.value.kind == Ingredient {
          ingredient := Some(ingredientCuisine.value.name);
        } else {
          cuisine := Some(ingredientCuisine.value.name);
        }
      }
      var body := Payload("action", Notification(action, message, NotificationState(userId, ingredient, cuisine, recipeId)));
      post := Some(HttpPost(hostname.value, port.value, "/" + apiKey + "/notification", body));
    }

    /** postStartMessage. */
    method PostStartMessage(userId: string, ingredientCuisine: Option<Vertex>) returns (post: Option<HttpPost>)
      requires Valid()
      ensures post.Some? <==> enabled
      ensures enabled ==> post == Some(PostOf(NotificationFor("start", userId, ingredientCuisine,
                               userId + " started a new conversation.", None)))
    {
      post := PostMessage("start", userId, ingredientCuisine, userId + " started a new conversation.", None);
    }

    /** postFavoritesMessage. */
    method PostFavoritesMessage(userId: string, ingredientCuisine: Option<Vertex>) returns (post: Option<HttpPost>)
      requires Valid()
      ensures post.Some? <==> enabled
      ensures enabled ==> post == Some(PostOf(NotificationFor("favorites", userId, ingredientCuisine,
                               userId + " requested their favorite recipes.", None)))
    {
      post := PostMessage("favorites", userId, ingredientCuisine, userId + " requested their favorite recipes.", None);
    }

    /** postIngredientMessage. */
    method PostIngredientMessage(userId: string, ingredientCuisine: Option<Vertex>, ingredientStr: string)
      returns (post: Option<HttpPost>)
      requires Valid()
      ensures post.Some? <==> enabled
      ensures enabled ==> post == Some(PostOf(NotificationFor("ingredient", userId, ingredientCuisine,
                               userId + " requested recipes for ingredient '" + ingredientStr + "'.", None)))
    {
      post := PostMessage("ingredient", userId, ingredientCuisine,
                          userId + " requested recipes for ingredient '" + ingredientStr + "'.", None);
    }

    /** postCuisineMessage: sent with the action "ingredient". */
    method PostCuisineMessage(userId: string, ingredientCuisine: Option<Vertex>, cuisineStr: string)
      returns (post: Option<HttpPost>)
      requires Valid()
      ensures post.Some? <==> enabled
      ensures enabled ==> post == Some(PostOf(NotificationFor("ingredient", userId, ingredientCuisine,
                               userId + " requested recipes for cuisine '" + cuisineStr + "'.", None)))
    {
      post := PostMessage("ingredient", userId, ingredientCuisine,
                          userId + " requested recipes for cuisine '" + cuisineStr + "'.", None);
    }

    /** postRecipeMessage: sent with the action "ingredient", and the only one carrying a recipe id. */
    method PostRecipeMessage(userId: string, ingredientCuisine: Option<Vertex>, recipeId: string, recipeTitle: string)
      returns (post: Option<HttpPost>)
      requires Valid()
      ensures post.Some? <==> enabled
      ensures enabled ==> post == Some(PostOf(NotificationFor("ingredient", userId, ingredientCuisine,
                               userId + " selected recipe '" + recipeTitle + "'.", Some(recipeId))))
    {
      post := PostMessage("ingredient", userId, ingredientCuisine,
                          userId + " selected recipe '" + recipeTitle + "'.", Some(recipeId));
    }
  }
}
