/** Client code driving `PCWOAuth` through documented call sequences, with
    what each sequence produces stated as postconditions. */
module Usage {
  import opened QueryText
  import opened Decimal
  import opened Client

  /** `getRawQuery('discover/?')` and `getDiscover()->get()` on a fresh
      client request the same path against the same base URL. */
  method ChainedAndRawDiscoverAgree(consumerKey: string, consumerSecret: string,
                                    token: string, tokenSecret: string, server: string)
    returns (chained: GetRequest, raw: GetRequest)
    ensures chained == raw
    ensures raw.path == "discover/?"
    ensures raw.baseUrl == ServerHost(server) + "/rest/v1/"
  {
    var c := new PCWOAuth(consumerKey, consumerSecret, token, tokenSecret, server);
    var d := new PCWOAuth(consumerKey, consumerSecret, token, tokenSecret, server);
    var same := c.GetDiscover();
    chained := same.Get();
    raw := d.GetRawQuery("discover/?");
  }

  /** The terminal calls leave the fragments in place: showing twice gives
      the same text, `get` requests that text, and a later fluent call
      extends the old query instead of starting a new one. */
  method TerminalCallsKeepFragments(c: PCWOAuth, n: int)
    returns (first: string, second: string, sent: GetRequest, extended: string)
    modifies c
    ensures first == second == sent.path == old(c.Query())
    ensures extended == first + "&limit=" + IntToDecimal(n)
    ensures c.apiEndpoints == old(c.apiEndpoints) + ["&limit=" + IntToDecimal(n)]
  {
    first := c.ShowQuery();
    second := c.ShowQuery();
    sent := c.Get();
    var same := c.Limit(n);
    extended := c.ShowQuery();
  }

  /** The id of `getCollection` sits between `collection/` and `?`; the
      default id is empty. */
  method CollectionIds(server: string) returns (byDefault: string, withId: string)
    ensures byDefault == "collection/?"
    ensures withId == "collection/42?"
  {
    var c := new PCWOAuth("", "", "", "", server);
    var same := c.GetCollection();
    byDefault := c.ShowQuery();
    var d := new PCWOAuth("", "", "", "", server);
    same := d.GetCollection("42");
    withId := d.ShowQuery();
  }

  /** `limit` and `offset` write the integer in decimal, negative values
      included. */
  method LimitAndOffsetText(server: string) returns (query: string)
    ensures query == "discover/?&limit=5&offset=-3"
  {
    var c := new PCWOAuth("", "", "", "", server);
    var same := c.GetDiscover();
    same := c.Limit(5);
    same := c.Offset(-3);
    query := c.ShowQuery();
  }

  /** The fragment a map filter builds for a two-entry map: the first
      entry, then the second. */
  lemma TwoEntryFragment(facet: string, key1: string, value1: string,
                         key2: string, value2: string)
    ensures FilterQuery(facet, [(key1, value1), (key2, value2)]) ==
            FilterEntry(facet, key1, value1) + FilterEntry(facet, key2, value2)
  {
    FilterQuerySmall(facet, key1, value1);
    FilterQuerySnoc(facet, [(key1, value1)], key2, value2);
    assert [(key1, value1)] + [(key2, value2)] == [(key1, value1), (key2, value2)];
  }

  /** `tags` writes one `&containsTag[key]=value` per entry, in order, as a
      single fragment after the ones before it. */
  method TagsInOrder(server: string, key1: string, value1: string,
                     key2: string, value2: string) returns (fragments: seq<string>)
    ensures fragments == ["item?query=castle",
                          "&containsTag[" + key1 + "]=" + value1 +
                          "&containsTag[" + key2 + "]=" + value2]
  {
    var c := new PCWOAuth("", "", "", "", server);
    var same := c.ItemQuery("castle");
    same := c.Tags([(key1, value1), (key2, value2)]);
    TwoEntryFragment("containsTag", key1, value1, key2, value2);
    assert "&" + "containsTag" + "[" == "&containsTag[";
    fragments := c.apiEndpoints;
    assert fragments[0] == "item?query=castle";
    assert fragments[1] == "&containsTag[" + key1 + "]=" + value1 + "&containsTag[" + key2 + "]=" + value2;
  }

  /** A map filter with no entries still appends a fragment, the empty one,
      so the query text does not change. */
  method EmptyFilterAppendsEmptyFragment(c: PCWOAuth) returns (before: string, after: string)
    modifies c
    ensures c.apiEndpoints == old(c.apiEndpoints) + [""]
    ensures before == after
  {
    before := c.ShowQuery();
    FilterQuerySmall("what", "", "");
    var same := c.What();
    after := c.ShowQuery();
  }

  /** The two base URLs a client can be configured with. */
  method BaseUrls() returns (live: string, staging: string, misspelt: string)
    ensures live == "http://www.peoplescollection.wales/rest/v1/"
    ensures staging == "http://staging.peoplescollection.wales/rest/v1/"
    ensures misspelt == staging
  {
    var c := new PCWOAuth("", "", "", "", "live");
    live := c.baseUrl;
    var d := new PCWOAuth("", "", "", "", "staging");
    staging := d.baseUrl;
    var e := new PCWOAuth("", "", "", "", "Live");
    misspelt := e.baseUrl;
  }
}
