/** The collection list shown in the marketplace view: which collections of
    the response are kept, when a fetch is skipped, and how the sort selector's
    `"field-DIR"` value is split into the fetch's arguments. */
module Collections {
  import opened Outcomes
  import opened Text

  datatype Collection = Collection(name: string, imageUrl: Option<string>)

  /** Collections never shown, by name. */
  const EXCLUSION_LIST: seq<string> := ["CryptoPunks"]

  predicate NotExcluded(c: Collection) {
    c.name !in EXCLUSION_LIST
  }

  /** `collection.image_url` is truthy. */
  predicate HasImageUrl(c: Collection) {
    Truthy(c.imageUrl)
  }

  /** `a` is `b` with some elements dropped, the rest in their original order. */
  predicate IsSubsequence<T(==)>(a: seq<T>, b: seq<T>)
    decreases |b|
  {
    a == [] || (b != [] && ((a[0] == b[0] && IsSubsequence(a[1..], b[1..])) || IsSubsequence(a, b[1..])))
  }

  /** `Array.prototype.filter`: keeps every copy of each element satisfying
      `keep` and no other element, in order. */
  function Filter<T(==,!new)>(s: seq<T>, keep: T -> bool): (r: seq<T>)
    ensures forall x :: x in r <==> x in s && keep(x)
    ensures forall x :: multiset(r)[x] == if keep(x) then multiset(s)[x] else 0
    ensures IsSubsequence(r, s)
    decreases |s|
  {
    if s == [] then []
    else
      var rest := Filter(s[1..], keep);
      assert s == [s[0]] + s[1..];
      assert multiset(s) == multiset{s[0]} + multiset(s[1..]);
      if keep(s[0]) then
        assert ([s[0]] + rest)[1..] == rest;
        assert multiset([s[0]] + rest) == multiset{s[0]} + multiset(rest);
        [s[0]] + rest
      else rest
  }

  /** What the view shows of a response: the response filtered first by the
      exclusion list and then by the image URL. */
  function Shown(response: seq<Collection>): (r: seq<Collection>)
    ensures forall c :: c in r <==> c in response && c.name != "CryptoPunks" && HasImageUrl(c)
    ensures forall c :: multiset(r)[c] == if c.name != "CryptoPunks" && HasImageUrl(c) then multiset(response)[c] else 0
    ensures IsSubsequence(r, response)
  {
    var once := Filter(response, NotExcluded);
    var r := Filter(once, HasImageUrl);
    SubsequenceTransitive(r, once, response);
    r
  }

  lemma {:induction false} SubsequenceTransitive<T>(a: seq<T>, b: seq<T>, c: seq<T>)
    requires IsSubsequence(a, b) && IsSubsequence(b, c)
    ensures IsSubsequence(a, c)
    decreases |c|
  {
    if a != [] {
      assert b != [] && c != [];
      if b[0] == c[0] && IsSubsequence(b[1..], c[1..]) {
        if a[0] == b[0] && IsSubsequence(a[1..], b[1..]) {
          SubsequenceTransitive(a[1..], b[1..], c[1..]);
        } else {
          SubsequenceTransitive(a, b[1..], c[1..]);
        }
      } else {
        SubsequenceTransitive(a, b, c[1..]);
      }
    }
  }

  /** The two filter passes select the same list, in the same order, as one
      pass with both conditions. */
  lemma {:induction false} ShownIsSingleFilter(response: seq<Collection>)
    ensures Shown(response) == Filter(response, c => NotExcluded(c) && HasImageUrl(c))
    decreases |response|
  {
    if response != [] {
      ShownIsSingleFilter(response[1..]);
    }
  }

  /** The saga leaves the list alone when it is already loaded and the request
      names neither a sort field nor a direction. */
  predicate SkipFetch(collections: Remote<seq<Collection>>, sortBy: Option<string>, direction: Option<string>) {
    collections.Loaded? && !Truthy(direction) && !Truthy(sortBy)
  }

  /** A request with a sort field or a direction is always fetched. */
  lemma SortedRequestFetches(collections: Remote<seq<Collection>>, sortBy: Option<string>, direction: Option<string>)
    ensures SkipFetch(collections, sortBy, direction) <==>
            collections.Loaded? && (sortBy == None || sortBy == Some("")) && (direction == None || direction == Some(""))
  {
  }

  /** `payload.split('-')[0]`: the sort field, the text before the first `-`
      (the whole selector when it has none); always present, possibly empty. */
  function SortBy(payload: string): (field: string)
    ensures '-' !in field
    ensures StartsWith(payload, field) && (|field| == |payload| || payload[|field|] == '-')
  {
    SplitFirstPart(payload, '-');
    Split(payload, '-')[0]
  }

  /** `payload.split('-')[1]`: the direction, the text after the first `-` up
      to the next `-` or the end; `undefined` when there is no `-`. */
  function SortDirection(payload: string): (direction: Option<string>)
    ensures direction.Some? ==> '-' !in direction.value
    ensures direction.None? <==> '-' !in payload
    ensures direction.Some? ==>
              var upTo := SortBy(payload) + "-" + direction.value;
              StartsWith(payload, upTo) && (|upTo| == |payload| || payload[|upTo|] == '-')
  {
    var parts := Split(payload, '-');
    SinglePartIffNoSeparator(payload, '-');
    SplitSecondPart(payload, '-');
    if |parts| == 1 then None else Some(parts[1])
  }

  /** A selector value written as field, `-`, direction is read back as that
      field and that direction. */
  lemma SortRoundTrip(field: string, direction: string)
    requires '-' !in field && '-' !in direction
    ensures SortBy(field + "-" + direction) == field
    ensures SortDirection(field + "-" + direction) == Some(direction)
  {
    SplitJoin([field, direction], '-');
    assert Join([field, direction], '-') == field + "-" + direction;
  }
}
