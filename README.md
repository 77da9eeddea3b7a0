# PCWOAuth query builder, modelled in Dafny

`PCWOAuth` is a small PHP client for the People's Collection Wales REST API.
A client is built with four OAuth1 credentials and a server name. The server
name picks the live or the staging host, and the base URL is
`<host>/rest/v1/`. After that the caller chains fluent calls such as
`getDiscover()`, `getCollection($id)`, `limit($n)` and `tags([...])`. Each
call appends exactly one string fragment to the private list
`api_endpoints` and returns the same object. `showQuery()` joins the
fragments in insertion order into the relative URL. `get()` does the same
join and sends a signed GET for that path. Neither call empties the list, so
a reused client keeps extending its old query.

The model has four modules:

- `Decimal` (Decimal.dfy): how PHP writes an `int` in decimal, used by
  `limit` and `offset`. It comes with a parser and a round-trip proof.
- `QueryText` (QueryText.dfy): `Concat`, the in-order join of fragments, and
  `FilterQuery`, the fragment that the map filters build. The lemmas say
  how joining splits and appends.
- `Client` (Client.dfy): the class `PCWOAuth`. Its mutable state is the
  field `apiEndpoints: seq<string>`. Each fluent method has
  `modifies this`apiEndpoints`, so nothing else can change. It states the
  exact fragment appended and the new value of `Query()` (the join). It
  returns `this`. `ShowQuery` and `Get` join the fragments with a loop,
  and each loop is proved equal to `Concat`. The four map filters share
  one loop, `BuildFilterQuery`.
- `Usage` (Usage.dfy): client code that drives the class through the
  documented call sequences and states what they produce.

A PHP array passed to `tags`, `what`, `when` or `learn` is modelled as a
sequence of (key, value) pairs, which keeps PHP's iteration order. The
`$location` array of `getByLocation` is only read by key, so it is
modelled as a `map<string, string>`. A missing key reads as `""`, because
PHP's null becomes the empty string.

## Model

| member | source | states |
|---|---|---|
| `Client.ServerHost` | src/PCWOAuth/PCWOAuth.php:45-49 | the live host is picked exactly when the server name equals `live`, and the staging host exactly when it does not |
| `Client.BaseUrl` | src/PCWOAuth/PCWOAuth.php:61 | the base URL is the host followed by `/rest/v1/` |
| `Client.PCWOAuth.constructor` | src/PCWOAuth/PCWOAuth.php:37-53 | keeps the four credentials, stores the host chosen by `ServerHost`, sets the base URL `BaseUrl(host)` and starts with no fragments |
| `Client.PCWOAuth.SetUpGuzzle` | src/PCWOAuth/PCWOAuth.php:59-61 | sets the base URL to `BaseUrl(server)`, server + `/rest/` + `v1` + `/`, and changes nothing else |
| `Client.PCWOAuth.AppendEndpoint` | src/PCWOAuth/PCWOAuth.php:95 | `$this->api_endpoints[] = …`, the statement every fluent method uses: appends exactly the one fragment at the end, keeps every earlier fragment, and extends the joined query by that fragment |
| `Client.PCWOAuth.GetRawQuery` | src/PCWOAuth/PCWOAuth.php:83-87 | requests the caller's path against the base URL, without reading or changing the fragments |
| `Client.PCWOAuth.GetDiscover` | src/PCWOAuth/PCWOAuth.php:93-97 | appends `discover/?` and nothing else, extends the query by it and returns the same instance |
| `Client.PCWOAuth.GetCollection` | src/PCWOAuth/PCWOAuth.php:105-109 | appends `collection/` + id + `?` (default id empty), extends the query by it and returns the same instance |
| `Client.PCWOAuth.GetTrail` | src/PCWOAuth/PCWOAuth.php:117-121 | appends `trail/` + id + `?` (default id empty) and returns the same instance |
| `Client.PCWOAuth.GetStory` | src/PCWOAuth/PCWOAuth.php:129-133 | appends `story/` + id + `?` (default id empty) and returns the same instance |
| `Client.PCWOAuth.GetItem` | src/PCWOAuth/PCWOAuth.php:141-145 | appends `item/` + id + `?` (default id empty) and returns the same instance |
| `Client.PCWOAuth.ItemQuery` | src/PCWOAuth/PCWOAuth.php:152-156 | appends `item?query=` + query and returns the same instance |
| `Client.LocationField` | src/PCWOAuth/PCWOAuth.php:165-167 | `$location[key]` gives the stored value when the key is present, and the empty string (PHP's null as text) when it is missing |
| `Client.PCWOAuth.GetByLocation` | src/PCWOAuth/PCWOAuth.php:163-169 | appends `item?lat=…&lon=…&radius=…` with the three location values in that order (a missing one empty) and returns the same instance |
| `Client.PCWOAuth.GetUserItems` | src/PCWOAuth/PCWOAuth.php:176-180 | appends `item?userId=` + id and returns the same instance |
| `Client.PCWOAuth.GetItemsByCreator` | src/PCWOAuth/PCWOAuth.php:187-191 | appends `item?byCreator=` + creator and returns the same instance |
| `Client.PCWOAuth.Limit` | src/PCWOAuth/PCWOAuth.php:197-201 | appends `&limit=` + the decimal form of n (negative values kept) and returns the same instance |
| `Client.PCWOAuth.Offset` | src/PCWOAuth/PCWOAuth.php:207-211 | appends `&offset=` + the decimal form of n (negative values kept) and returns the same instance |
| `Client.PCWOAuth.ListFacet` | src/PCWOAuth/PCWOAuth.php:218-222 | appends `facet?type=` + type, without checking the type, and returns the same instance |
| `Client.PCWOAuth.GetItemsCreatedAfter` | src/PCWOAuth/PCWOAuth.php:229-233 | appends `item?createdAfter=` + date and returns the same instance |
| `Client.PCWOAuth.GetItemsCreatedBefore` | src/PCWOAuth/PCWOAuth.php:240-244 | appends `item?createdBefore=` + date and returns the same instance |
| `Client.PCWOAuth.Tags` | src/PCWOAuth/PCWOAuth.php:251-261 | appends one fragment, the `containsTag` filter text of the map (empty for an empty map), and returns the same instance |
| `Client.PCWOAuth.What` | src/PCWOAuth/PCWOAuth.php:269-279 | appends one fragment, the `what` filter text of the map, and returns the same instance |
| `Client.PCWOAuth.When` | src/PCWOAuth/PCWOAuth.php:287-297 | appends one fragment, the `when` filter text of the map, and returns the same instance |
| `Client.PCWOAuth.Learn` | src/PCWOAuth/PCWOAuth.php:305-315 | appends one fragment, the `learn` filter text of the map, and returns the same instance |
| `Client.PCWOAuth.ItemType` | src/PCWOAuth/PCWOAuth.php:323-327 | appends `&itemType=` + type and returns the same instance |
| `Client.BuildFilterQuery` | src/PCWOAuth/PCWOAuth.php:253-257 | the loop builds `&<facet>[k]=v` for each entry, in iteration order, joined with nothing between (`FilterQuery`) |
| `Client.PCWOAuth.Get` | src/PCWOAuth/PCWOAuth.php:336-352 | requests the in-order join of all fragments against the base URL and leaves the fragments unchanged |
| `Client.PCWOAuth.ShowQuery` | src/PCWOAuth/PCWOAuth.php:359-371 | returns the in-order join of all fragments and leaves them unchanged |
| `QueryText.ConcatSnoc` | src/PCWOAuth/PCWOAuth.php:366-368 | appending one fragment extends the joined query by exactly that fragment |
| `QueryText.ConcatAppend` | src/PCWOAuth/PCWOAuth.php:366-368 | the join of two fragment lists placed end to end is the join of the first followed by the join of the second |
| `QueryText.ConcatSplit` | src/PCWOAuth/PCWOAuth.php:366-368 | each fragment appears whole in the query, after the fragments before it and before those after it, with no separator |
| `QueryText.FilterQuerySnoc` | src/PCWOAuth/PCWOAuth.php:255-257 | one more map entry extends the filter fragment by exactly `&<facet>[k]=v` |
| `QueryText.FilterQueryAppend` | src/PCWOAuth/PCWOAuth.php:255-257 | the filter fragment of a map split in two is the fragment of the first part followed by that of the second |
| `QueryText.FilterQuerySmall` | src/PCWOAuth/PCWOAuth.php:253-259 | an empty map gives the empty fragment, and a one-entry map gives just that entry |
| `Decimal.NatToDecimal` | src/PCWOAuth/PCWOAuth.php:199 | a non-negative integer is written as decimal digits, at least one, with a leading `0` only for zero |
| `Decimal.IntToDecimal` | src/PCWOAuth/PCWOAuth.php:199 | the text starts with `-` exactly for negative values, followed by digits without a leading zero |
| `Decimal.NatToDecimalRoundTrip` | src/PCWOAuth/PCWOAuth.php:199 | parsing the digits of n gives back n |
| `Decimal.IntToDecimalRoundTrip` | src/PCWOAuth/PCWOAuth.php:199 | parsing the text `limit`/`offset` embed gives back the integer, negative values included |
| `Decimal.IntToDecimalInjective` | src/PCWOAuth/PCWOAuth.php:207-209 | distinct integers give distinct `&limit=`/`&offset=` texts |
| `Usage.ChainedAndRawDiscoverAgree` | src/PCWOAuth/PCWOAuth.php:83-96 | `getDiscover()->get()` on a fresh client and `getRawQuery('discover/?')` send the same request, `discover/?` against `<host>/rest/v1/` |
| `Usage.TerminalCallsKeepFragments` | src/PCWOAuth/PCWOAuth.php:336-371 | two `showQuery` calls return the same text, `get` sends that text, and a later `limit` extends the old query instead of starting a new one |
| `Usage.CollectionIds` | src/PCWOAuth/PCWOAuth.php:105-109 | the default id gives `collection/?`, and id `42` gives `collection/42?` |
| `Usage.LimitAndOffsetText` | src/PCWOAuth/PCWOAuth.php:197-211 | `getDiscover()->limit(5)->offset(-3)` shows `discover/?&limit=5&offset=-3` |
| `Usage.TwoEntryFragment` | src/PCWOAuth/PCWOAuth.php:251-261 | a two-entry map gives the first entry's text followed by the second's |
| `Usage.TagsInOrder` | src/PCWOAuth/PCWOAuth.php:251-261 | `itemQuery('castle')->tags([k1 => v1, k2 => v2])` holds two fragments, the second `&containsTag[k1]=v1&containsTag[k2]=v2` |
| `Usage.EmptyFilterAppendsEmptyFragment` | src/PCWOAuth/PCWOAuth.php:269-279 | `what()` with no entries appends one empty fragment and leaves the query text as it was |
| `Usage.BaseUrls` | src/PCWOAuth/PCWOAuth.php:45-61 | `live` gives `http://www.peoplescollection.wales/rest/v1/`, `staging` and any other name such as `Live` give `http://staging.peoplescollection.wales/rest/v1/` |

## Left out

- Client.PCWOAuth.SetUpGuzzle: models only the base URL. Building the Guzzle `Client`, creating the `Oauth1` subscriber and attaching it are calls into a foreign library, and so is OAuth1 signing itself (HMAC-SHA1, RFC 5849).
- Client.PCWOAuth.Get: returns the request it would send, a path and a base URL. Sending it and returning the response body are I/O, and the errors the HTTP client raises are not modelled.
- Client.PCWOAuth.GetRawQuery: returns the request it would send, for the same reason as `Get`.
- A `GetRequest` keeps the base URL and the relative path apart. How the HTTP client resolves the path against the base URL is not modelled.
- Client.PCWOAuth.Limit: takes a Dafny `int`. PHP's `(int)` cast of other values (strings, floats, null) is not modelled, and neither is the 64-bit range of PHP integers.
- Client.PCWOAuth.Offset: takes a Dafny `int`, for the same reason as `Limit`.
- Client.ServerHost: compares the server name with plain string equality. PHP's loose `==` would also accept some other values that compare equal to `'live'`, and that is not modelled.
- Client.PCWOAuth.GetByLocation: location values are strings. PHP's string form of floats, and the notice it raises for a missing key, are not modelled.
- Ids, query strings, dates and types are modelled as strings. PHP would turn an integer id into its decimal text first.
- A PHP array cannot hold the same key twice, but a sequence of pairs can. A sequence with a repeated key stands for no PHP array: in `FilterQuery` each repeated pair appears again, whereas PHP collapses a repeated key in an array literal to one entry, at the first position with the last value. The model does not forbid such sequences and does not model that collapse. Integer keys of a PHP array are expected as their decimal text here.
- The credentials are stored, but no part of the model reads them, because only the OAuth1 signing uses them.
- The code does no URL encoding and no check of fragment order, and the model adds neither. Any value is embedded in its fragment as it is.
