/**
 * The API client: it holds the auth token and the default options sent with
 * every request, assembles each request from a base URL, a path and the
 * caller's options, and hands it to the transport.
 *
 * The transport (the HTTP client underneath) is a function from the request
 * descriptor it receives to the response it gives back.
 */
module Client {
  import opened Options

  const BaseUrl: string := "https://api.pinboard.in/v1/"

  /** What the client hands to the transport: method, full URI and query options. */
  datatype RequestDescriptor = RequestDescriptor(httpMethod: string, uri: string, query: OptionSet)

  datatype Response = Response(status: int, body: string)

  /** A call's outcome: the response, or the error raised for a status other than 200. */
  datatype Outcome = Ok(response: Response) | BadStatus(status: int)

  /** The defaults a client sends with the given token. */
  function DefaultOptions(token: string): OptionSet
  {
    map["auth_token" := Str(token), "format" := Str("json")]
  }

  /**
   * PHP's array union `user + defaults`: every key of either side, the left
   * side's value where both have the key.
   */
  function ArrayUnion(user: OptionSet, defaults: OptionSet): (merged: OptionSet)
    ensures merged.Keys == user.Keys + defaults.Keys
    ensures forall k :: k in user ==> merged[k] == user[k]
    ensures forall k :: k in defaults && k !in user ==> merged[k] == defaults[k]
  {
    defaults + user
  }

  class Client {
    const transport: RequestDescriptor -> Response
    const baseUrl: string
    var token: string
    var defaultOption: OptionSet

    /** The default options always carry the current token and the json format. */
    ghost predicate Valid()
      reads this
    {
      defaultOption == DefaultOptions(token)
    }

    constructor (token: string, transport: RequestDescriptor -> Response)
      ensures Valid()
      ensures this.token == token && this.transport == transport && baseUrl == BaseUrl
      ensures defaultOption == map["auth_token" := Str(token), "format" := Str("json")]
    {
      this.transport := transport;
      this.baseUrl := BaseUrl;
      this.token := token;
      this.defaultOption := map["auth_token" := Str(token), "format" := Str("json")];
    }

    /** Replaces the token, and the token among the default options; the format stays. */
    method SetToken(token: string)
      requires Valid()
      modifies this
      ensures Valid()
      ensures this.token == token
      ensures defaultOption == old(defaultOption)["auth_token" := Str(token)]
      ensures defaultOption["format"] == old(defaultOption)["format"]
    {
      this.token := token;
      this.defaultOption := this.defaultOption["auth_token" := Str(this.token)];
    }

    /**
     * request: the URI is the base URL followed by the path, and the query is
     * the caller's options with the defaults filling the keys the caller left
     * out. Returns what was sent and what came back.
     */
    method Request(httpMethod: string, path: string, userOption: OptionSet) returns (sent: RequestDescriptor, response: Response)
      ensures sent.httpMethod == httpMethod && sent.uri == baseUrl + path
      ensures sent.query.Keys == userOption.Keys + defaultOption.Keys
      ensures forall k :: k in userOption ==> sent.query[k] == userOption[k]
      ensures forall k :: k in defaultOption && k !in userOption ==> sent.query[k] == defaultOption[k]
      ensures response == transport(sent)
    {
      var uri := baseUrl + path;
      var option := ArrayUnion(userOption, defaultOption);
      sent := RequestDescriptor(httpMethod, uri, option);
      response := transport(sent);
    }

    /** lastUpdatePosts: GET posts/update with the default options only; anything but 200 is an error. */
    method LastUpdatePosts() returns (sent: RequestDescriptor, outcome: Outcome)
      ensures sent == RequestDescriptor("GET", baseUrl + "posts/update", defaultOption)
      ensures Valid() ==> sent.query == map["auth_token" := Str(token), "format" := Str("json")]
      ensures outcome.Ok? <==> transport(sent).status == 200
      ensures outcome.Ok? ==> outcome.response == transport(sent)
      ensures outcome.BadStatus? ==> outcome.status == transport(sent).status
    {
      var response;
      sent, response := Request("GET", "posts/update", map[]);
      assert sent.query == defaultOption;
      if response.status != 200 {
        return sent, BadStatus(response.status);
      }
      return sent, Ok(response);
    }
  }

  /**
   * The merge against a client's defaults: the caller's auth_token and format
   * win; otherwise the client's token and "json" are sent; no other key is added.
   */
  lemma CallerOverridesDefaults(user: OptionSet, token: string)
    ensures ArrayUnion(user, DefaultOptions(token)).Keys == user.Keys + {"auth_token", "format"}
    ensures ArrayUnion(user, DefaultOptions(token))["auth_token"]
            == if "auth_token" in user then user["auth_token"] else Str(token)
    ensures ArrayUnion(user, DefaultOptions(token))["format"]
            == if "format" in user then user["format"] else Str("json")
  {
  }

  /** lastUpdatePosts against a transport answering 200, before and after setToken. */
  method LastUpdatePostsExample()
  {
    var body := "\"{\"update_time\":\"2020-05-13T15:37:07Z\"}";
    var c := new Client("token", (d: RequestDescriptor) => Response(200, body));
    var sent, outcome := c.LastUpdatePosts();
    assert sent.uri == "https://api.pinboard.in/v1/posts/update";
    assert outcome == Ok(Response(200, body));

    c.SetToken("other");
    sent, outcome := c.LastUpdatePosts();
    assert sent.query["auth_token"] == Str("other") && sent.query["format"] == Str("json");
  }

  /** lastUpdatePosts against a transport answering 503. */
  method BadStatusExample()
  {
    var failing := new Client("token", (d: RequestDescriptor) => Response(503, ""));
    var sent, outcome := failing.LastUpdatePosts();
    assert outcome == BadStatus(503);
  }

  /** A caller's auth_token wins over the client's; the format is filled in. */
  method RequestMergeExample()
  {
    var c := new Client("token", (d: RequestDescriptor) => Response(200, ""));
    var sent, response := c.Request("GET", "posts/recent", map["auth_token" := Str("mine"), "count" := Int(3)]);
    assert sent.query["auth_token"] == Str("mine") && sent.query["format"] == Str("json");
  }
}
