/** The `PCWOAuth` client: credentials and server choice fixed at
    construction, and an ordered list of endpoint fragments that the fluent
    methods extend and the terminal operations join. */
module Client {
  import opened QueryText
  import opened Decimal

  const LiveHost: string := "http://www.peoplescollection.wales"
  const StagingHost: string := "http://staging.peoplescollection.wales"
  const ApiVersion: string := "v1"

  /** The host the constructor picks: the live one exactly for the server
      name "live", the staging one for every other name. */
  function ServerHost(server: string): (host: string)
    ensures host == LiveHost <==> server == "live"
    ensures host == StagingHost <==> server != "live"
  {
    if server == "live" then LiveHost else StagingHost
  }

  /** The base URL the HTTP client is configured with for a given host. */
  function BaseUrl(host: string): (url: string)
    ensures |url| == |host| + 9
    ensures url[..|host|] == host && url[|host|..] == "/rest/v1/"
  {
    host + "/rest/" + ApiVersion + "/"
  }

  /** A GET request as handed to the HTTP client: a path relative to the
      base URL. Signing and sending it are outside the model. */
  datatype GetRequest = GetRequest(baseUrl: string, path: string)

  /** `$location[key]`: a missing key reads as PHP's null, whose string
      form is empty. */
  function LocationField(location: map<string, string>, key: string): (value: string)
    ensures key in location ==> value == location[key]
    ensures key !in location ==> value == ""
  {
    if key in location then location[key] else ""
  }

  /** The fragment `getByLocation` appends: latitude, longitude and radius,
      in that order. */
  function LocationFragment(location: map<string, string>): (fragment: string) {
    "item?lat=" + LocationField(location, "lat") +
    "&lon=" + LocationField(location, "lon") +
    "&radius=" + LocationField(location, "radius")
  }

  /** The `foreach` loop shared by `tags`, `what`, `when` and `learn`: one
      `&<facet>[<key>]=<value>` per entry, appended in iteration order. */
  method BuildFilterQuery(facet: string, pairs: KeyValues) returns (query: string)
    ensures query == FilterQuery(facet, pairs)
  {
    query := "";
    for i := 0 to |pairs|
      invariant query == FilterQuery(facet, pairs[..i])
    {
      var (key, value) := pairs[i];
      assert pairs[..i + 1] == pairs[..i] + [(key, value)];
      FilterQuerySnoc(facet, pairs[..i], key, value);
      query := query + "&" + facet + "[" + key + "]=" + value;
    }
    assert pairs[..|pairs|] == pairs;
  }

  class PCWOAuth {
    // API keys
    const consumerKey: string
    const consumerSecret: string
    const token: string
    const tokenSecret: string

    // the chosen host, live or staging
    const server: string

    // base URL of the HTTP client
    var baseUrl: string

    // the endpoint fragments collected during method chaining
    var apiEndpoints: seq<string>

    /** The relative URL the collected fragments stand for. */
    function Query(): (query: string)
      reads this
    {
      Concat(apiEndpoints)
    }

    constructor (consumerKey: string, consumerSecret: string, token: string,
                 tokenSecret: string, server: string)
      ensures this.consumerKey == consumerKey && this.consumerSecret == consumerSecret
      ensures this.token == token && this.tokenSecret == tokenSecret
      ensures this.server == ServerHost(server)
      ensures baseUrl == BaseUrl(ServerHost(server))
      ensures apiEndpoints == []
    {
      this.consumerKey := consumerKey;
      this.consumerSecret := consumerSecret;
      this.token := token;
      this.tokenSecret := tokenSecret;
      if server == "live" {
        this.server := LiveHost;
      } else {
        this.server := StagingHost;
      }
      baseUrl := "";
      apiEndpoints := [];
      new;
      SetUpGuzzle();
    }

    /** Configures the HTTP client's base URL from the chosen host. */
    method SetUpGuzzle()
      modifies this`baseUrl
      ensures baseUrl == BaseUrl(server)
    {
      baseUrl := BaseUrl(server);
    }

    /** A GET of a caller-supplied path, bypassing the fragment list. */
    method GetRawQuery(endPoint: string) returns (request: GetRequest)
      ensures request.baseUrl == baseUrl && request.path == endPoint
    {
      request := GetRequest(baseUrl, endPoint);
    }

    /** `$this->api_endpoints[] = fragment`. */
    method AppendEndpoint(fragment: string)
      modifies this`apiEndpoints
      ensures apiEndpoints == old(apiEndpoints) + [fragment]
      ensures Query() == old(Query()) + fragment
    {
      ConcatSnoc(apiEndpoints, fragment);
      apiEndpoints := apiEndpoints + [fragment];
    }

    method GetDiscover() returns (r: PCWOAuth)
      modifies this`apiEndpoints
      ensures r == this
      ensures apiEndpoints == old(apiEndpoints) + ["discover/?"]
      ensures Query() == old(Query()) + "discover/?"
    {
      AppendEndpoint("discover/?");
      r := this;
    }

    method GetCollection(id: string := "") returns (r: PCWOAuth)
      modifies this`apiEndpoints
      ensures r == this
      ensures apiEndpoints == old(apiEndpoints) + ["collection/" + id + "?"]
      ensures Query() == old(Query()) + "collection/" + id + "?"
    {
      AppendEndpoint("collection/" + id + "?");
      r := this;
    }

    method GetTrail(id: string := "") returns (r: PCWOAuth)
      modifies this`apiEndpoints
      ensures r == this
      ensures apiEndpoints == old(apiEndpoints) + ["trail/" + id + "?"]
      ensures Query() == old(Query()) + "trail/" + id + "?"
    {
      AppendEndpoint("trail/" + id + "?");
      r := this;
    }

    method GetStory(id: string := "") returns (r: PCWOAuth)
      modifies this`apiEndpoints
      ensures r == this
      ensures apiEndpoints == old(apiEndpoints) + ["story/" + id + "?"]
      ensures Query() == old(Query()) + "story/" + id + "?"
    {
      AppendEndpoint("story/" + id + "?");
      r := this;
    }

    method GetItem(id: string := "") returns (r: PCWOAuth)
      modifies this`apiEndpoints
      ensures r == this
      ensures apiEndpoints == old(apiEndpoints) + ["item/" + id + "?"]
      ensures Query() == old(Query()) + "item/" + id + "?"
    {
      AppendEndpoint("item/" + id + "?");
      r := this;
    }

    method ItemQuery(query: string) returns (r: PCWOAuth)
      modifies this`apiEndpoints
      ensures r == this
      ensures apiEndpoints == old(apiEndpoints) + ["item?query=" + query]
      ensures Query() == old(Query()) + "item?query=" + query
    {
      AppendEndpoint("item?query=" + query);
      r := this;
    }

    method GetByLocation(location: map<string, string> := map[]) returns (r: PCWOAuth)
      modifies this`apiEndpoints
      ensures r == this
      ensures apiEndpoints == old(apiEndpoints) + [LocationFragment(location)]
      ensures Query() == old(Query()) + LocationFragment(location)
    {
      AppendEndpoint(LocationFragment(location));
      r := this;
    }

    method GetUserItems(userId: string) returns (r: PCWOAuth)
      modifies this`apiEndpoints
      ensures r == this
      ensures apiEndpoints == old(apiEndpoints) + ["item?userId=" + userId]
      ensures Query() == old(Query()) + "item?userId=" + userId
    {
      AppendEndpoint("item?userId=" + userId);
      r := this;
    }

    method GetItemsByCreator(creator: string) returns (r: PCWOAuth)
      modifies this`apiEndpoints
      ensures r == this
      ensures apiEndpoints == old(apiEndpoints) + ["item?byCreator=" + creator]
      ensures Query() == old(Query()) + "item?byCreator=" + creator
    {
      AppendEndpoint("item?byCreator=" + creator);
      r := this;
    }

    method Limit(limit: int) returns (r: PCWOAuth)
      modifies this`apiEndpoints
      ensures r == this
      ensures apiEndpoints == old(apiEndpoints) + ["&limit=" + IntToDecimal(limit)]
      ensures Query() == old(Query()) + "&limit=" + IntToDecimal(limit)
    {
      AppendEndpoint("&limit=" + IntToDecimal(limit));
      r := this;
    }

    method Offset(offset: int) returns (r: PCWOAuth)
      modifies this`apiEndpoints
      ensures r == this
      ensures apiEndpoints == old(apiEndpoints) + ["&offset=" + IntToDecimal(offset)]
      ensures Query() == old(Query()) + "&offset=" + IntToDecimal(offset)
    {
      AppendEndpoint("&offset=" + IntToDecimal(offset));
      r := this;
    }

    method ListFacet(facetType: string) returns (r: PCWOAuth)
      modifies this`apiEndpoints
      ensures r == this
      ensures apiEndpoints == old(apiEndpoints) + ["facet?type=" + facetType]
      ensures Query() == old(Query()) + "facet?type=" + facetType
    {
      AppendEndpoint("facet?type=" + facetType);
      r := this;
    }

    method GetItemsCreatedAfter(date: string) returns (r: PCWOAuth)
      modifies this`apiEndpoints
      ensures r == this
      ensures apiEndpoints == old(apiEndpoints) + ["item?createdAfter=" + date]
      ensures Query() == old(Query()) + "item?createdAfter=" + date
    {
      AppendEndpoint("item?createdAfter=" + date);
      r := this;
    }

    method GetItemsCreatedBefore(date: string) returns (r: PCWOAuth)
      modifies this`apiEndpoints
      ensures r == this
      ensures apiEndpoints == old(apiEndpoints) + ["item?createdBefore=" + date]
      ensures Query() == old(Query()) + "item?createdBefore=" + date
    {
      AppendEndpoint("item?createdBefore=" + date);
      r := this;
    }

    method Tags(tags: KeyValues := []) returns (r: PCWOAuth)
      modifies this`apiEndpoints
      ensures r == this
      ensures apiEndpoints == old(apiEndpoints) + [FilterQuery("containsTag", tags)]
      ensures Query() == old(Query()) + FilterQuery("containsTag", tags)
    {
      var tagQuery := BuildFilterQuery("containsTag", tags);
      AppendEndpoint(tagQuery);
      r := this;
    }

    method What(what: KeyValues := []) returns (r: PCWOAuth)
      modifies this`apiEndpoints
      ensures r == this
      ensures apiEndpoints == old(apiEndpoints) + [FilterQuery("what", what)]
      ensures Query() == old(Query()) + FilterQuery("what", what)
    {
      var whatQuery := BuildFilterQuery("what", what);
      AppendEndpoint(whatQuery);
      r := this;
    }

    method When(when: KeyValues := []) returns (r: PCWOAuth)
      modifies this`apiEndpoints
      ensures r == this
      ensures apiEndpoints == old(apiEndpoints) + [FilterQuery("when", when)]
      ensures Query() == old(Query()) + FilterQuery("when", when)
    {
      var whenQuery := BuildFilterQuery("when", when);
      AppendEndpoint(whenQuery);
      r := this;
    }

    method Learn(learn: KeyValues := []) returns (r: PCWOAuth)
      modifies this`apiEndpoints
      ensures r == this
      ensures apiEndpoints == old(apiEndpoints) + [FilterQuery("learn", learn)]
      ensures Query() == old(Query()) + FilterQuery("learn", learn)
    {
      var learnQuery := BuildFilterQuery("learn", learn);
      AppendEndpoint(learnQuery);
      r := this;
    }

    method ItemType(itemType: string) returns (r: PCWOAuth)
      modifies this`apiEndpoints
      ensures r == this
      ensures apiEndpoints == old(apiEndpoints) + ["&itemType=" + itemType]
      ensures Query() == old(Query()) + "&itemType=" + itemType
    {
      AppendEndpoint("&itemType=" + itemType);
      r := this;
    }

    /** Joins the fragments in insertion order and requests the result;
        the fragment list is left as it was. */
    method Get() returns (request: GetRequest)
      ensures request.baseUrl == baseUrl
      ensures request.path == Concat(apiEndpoints)
    {
      var queryEndPoint := "";
      for i := 0 to |apiEndpoints|
        invariant queryEndPoint == Concat(apiEndpoints[..i])
      {
        assert apiEndpoints[..i + 1] == apiEndpoints[..i] + [apiEndpoints[i]];
        ConcatSnoc(apiEndpoints[..i], apiEndpoints[i]);
        queryEndPoint := queryEndPoint + apiEndpoints[i];
      }
      assert apiEndpoints[..|apiEndpoints|] == apiEndpoints;
      request := GetRequest(baseUrl, queryEndPoint);
    }

    /** Joins the fragments in insertion order and returns the result;
        the fragment list is left as it was. */
    method ShowQuery() returns (queryEndPoint: string)
      ensures queryEndPoint == Concat(apiEndpoints)
    {
      queryEndPoint := "";
      for i := 0 to |apiEndpoints|
        invariant queryEndPoint == Concat(apiEndpoints[..i])
      {
        assert apiEndpoints[..i + 1] == apiEndpoints[..i] + [apiEndpoints[i]];
        ConcatSnoc(apiEndpoints[..i], apiEndpoints[i]);
        queryEndPoint := queryEndPoint + apiEndpoints[i];
      }
      assert apiEndpoints[..|apiEndpoints|] == apiEndpoints;
    }
  }
}
