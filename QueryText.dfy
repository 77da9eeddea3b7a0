/** The string-level meaning of the query builder: joining the collected
    endpoint fragments, and the single fragment built by the map filters
    (`tags`, `what`, `when`, `learn`). */
module QueryText {

  /** A PHP array iterated by `foreach ($a as $key => $value)`: its entries
      as (key, value) pairs, in iteration order. */
  type KeyValues = seq<(string, string)>

  /** Fragments joined in order, with nothing between them. Defined by
      appending the last fragment, the way a `foreach` loop appends. */
  function Concat(fragments: seq<string>): (joined: string)
    decreases |fragments|
  {
    if fragments == [] then ""
    else Concat(fragments[..|fragments| - 1]) + fragments[|fragments| - 1]
  }

  lemma ConcatSnoc(fragments: seq<string>, last: string)
    ensures Concat(fragments + [last]) == Concat(fragments) + last
  {
  }

  /** Joining is a homomorphism from sequence concatenation to string
      concatenation. */
  lemma {:induction false} ConcatAppend(a: seq<string>, b: seq<string>)
    ensures Concat(a + b) == Concat(a) + Concat(b)
    decreases |b|
  {
    if b == [] {
      assert a + b == a;
    } else {
      var init := b[..|b| - 1];
      assert a + b == (a + init) + [b[|b| - 1]];
      ConcatSnoc(a + init, b[|b| - 1]);
      ConcatAppend(a, init);
      ConcatSnoc(init, b[|b| - 1]);
      assert init + [b[|b| - 1]] == b;
    }
  }

  /** Every fragment stands in the joined string exactly where it belongs:
      after the join of the fragments before it and before the join of
      those after it, with no separator on either side. */
  lemma {:induction false} ConcatSplit(fragments: seq<string>, i: nat)
    requires i < |fragments|
    ensures Concat(fragments) ==
            Concat(fragments[..i]) + fragments[i] + Concat(fragments[i + 1..])
  {
    var before, here, after := fragments[..i], [fragments[i]], fragments[i + 1..];
    assert fragments == before + (here + after);
    ConcatAppend(before, here + after);
    ConcatAppend(here, after);
    ConcatSnoc([], fragments[i]);
    assert [] + here == here;
  }

  /** One entry of a map filter: `&<facet>[<key>]=<value>`. */
  function FilterEntry(facet: string, key: string, value: string): (entry: string) {
    "&" + facet + "[" + key + "]=" + value
  }

  function FilterEntries(facet: string, pairs: KeyValues): (entries: seq<string>) {
    seq(|pairs|, i requires 0 <= i < |pairs| => FilterEntry(facet, pairs[i].0, pairs[i].1))
  }

  /** The fragment a map filter appends: its entries joined in iteration order. */
  function FilterQuery(facet: string, pairs: KeyValues): (fragment: string) {
    Concat(FilterEntries(facet, pairs))
  }

  /** Extending the map by one entry extends the fragment by that entry. */
  lemma FilterQuerySnoc(facet: string, pairs: KeyValues, key: string, value: string)
    ensures FilterQuery(facet, pairs + [(key, value)]) ==
            FilterQuery(facet, pairs) + FilterEntry(facet, key, value)
  {
    assert FilterEntries(facet, pairs + [(key, value)]) ==
           FilterEntries(facet, pairs) + [FilterEntry(facet, key, value)];
    ConcatSnoc(FilterEntries(facet, pairs), FilterEntry(facet, key, value));
  }

  /** The fragment of a map split in two is the fragment of the first part
      followed by that of the second. */
  lemma FilterQueryAppend(facet: string, a: KeyValues, b: KeyValues)
    ensures FilterQuery(facet, a + b) == FilterQuery(facet, a) + FilterQuery(facet, b)
  {
    assert FilterEntries(facet, a + b) == FilterEntries(facet, a) + FilterEntries(facet, b);
    ConcatAppend(FilterEntries(facet, a), FilterEntries(facet, b));
  }

  /** An empty map gives the empty fragment; a one-entry map gives its entry. */
  lemma FilterQuerySmall(facet: string, key: string, value: string)
    ensures FilterQuery(facet, []) == ""
    ensures FilterQuery(facet, [(key, value)]) == FilterEntry(facet, key, value)
  {
  }
}
