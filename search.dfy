/** The product search box: the query is cut to 100 characters and
    stripped of the LIKE wildcards and quoting characters before it reaches
    the `ilike` filter; at most five products are returned. */
module Search {
  import opened Common
  import opened Catalog

  const MIN_QUERY: nat := 2
  const MAX_QUERY: nat := 100
  const MAX_RESULTS: nat := 5

  /** The class [%_\\'";\-\-\/\*] of the replace. */
  predicate Dropped(c: char) {
    c == '%' || c == '_' || c == '\\' || c == '\'' || c == '"' || c == ';' || c == '-' || c == '/' || c == '*'
  }

  /** `rawQuery.slice(0, 100).replace(/[...]/g, '').trim()`. */
  function Sanitize(raw: string): (q: string)
    ensures |q| <= MAX_QUERY && |q| <= |raw|
    ensures forall i :: 0 <= i < |q| ==> !Dropped(q[i]) && q[i] in raw
  {
    var t := Take(raw, MAX_QUERY);
    var r := RemoveAll(t, Dropped);
    TrimKeeps(r);
    assert forall i :: 0 <= i < |Trim(r)| ==> Trim(r)[i] in raw by {
      forall i | 0 <= i < |Trim(r)|
        ensures Trim(r)[i] in raw
      {
        var c := Trim(r)[i];
        assert c in r;
        assert c in t;
      }
    }
    Trim(r)
  }

  /** A query that is already clean, short and trimmed passes unchanged. */
  lemma SanitizeClean(raw: string)
    requires |raw| <= MAX_QUERY && forall i :: 0 <= i < |raw| ==> !Dropped(raw[i])
    requires raw == "" || (!IsSpace(raw[0]) && !IsSpace(raw[|raw| - 1]))
    ensures Sanitize(raw) == raw
  {
    RemoveAllNothing(raw, Dropped);
    TrimNoop(raw);
  }

  /** Sanitising is idempotent. */
  lemma SanitizeIdempotent(raw: string)
    ensures Sanitize(Sanitize(raw)) == Sanitize(raw)
  {
    SanitizeClean(Sanitize(raw));
  }

  /** Wildcards around a clean word are stripped: '%admin%' becomes 'admin'. */
  lemma WildcardsRemoved(w: string)
    requires |w| <= MAX_QUERY - 2 && forall i :: 0 <= i < |w| ==> !Dropped(w[i])
    requires w == "" || (!IsSpace(w[0]) && !IsSpace(w[|w| - 1]))
    ensures Sanitize("%" + w + "%") == w
  {
    var s := "%" + w + "%";
    assert Take(s, MAX_QUERY) == s;
    RemoveAllAppend("%" + w, "%", Dropped);
    RemoveAllAppend("%", w, Dropped);
    RemoveAllNothing(w, Dropped);
    assert RemoveAll("%", Dropped) == "";
    TrimNoop(w);
  }

  /** An over-long run of one letter is cut to 100 of it: 200 'a's become 100. */
  lemma LongQueryCut(n: nat)
    requires n >= MAX_QUERY
    ensures Sanitize(Repeat('a', n)) == Repeat('a', MAX_QUERY)
  {
    var a := Repeat('a', MAX_QUERY);
    assert Take(Repeat('a', n), MAX_QUERY) == a;
    RemoveAllNothing(a, Dropped);
    TrimNoop(a);
  }

  /** `ilike('name', '%q%')`: a case-insensitive substring match (ASCII). */
  predicate NameMatches(p: Product, q: string) {
    Contains(ToLower(p.name), ToLower(q))
  }

  function Matching(products: seq<Product>, q: string): (r: seq<Product>)
    ensures |r| <= |products|
    ensures forall i :: 0 <= i < |r| ==> r[i] in products && NameMatches(r[i], q)
    ensures forall i :: 0 <= i < |products| && NameMatches(products[i], q) ==> products[i] in r
  {
    if |products| == 0 then []
    else if NameMatches(products[0], q) then [products[0]] + Matching(products[1..], q)
    else Matching(products[1..], q)
  }

  datatype Reply = Reply(status: int, products: seq<Product>, query: Option<string>)

  /** `GET ?q=`: the table is scanned in its stored order; `queryOk` is
      false when the query errors. `query` is the string sent to the filter. */
  function SearchProducts(products: seq<Product>, rawQuery: Option<string>, queryOk: bool): (r: Reply)
    ensures (rawQuery.None? || |rawQuery.value| < MIN_QUERY) ==> r == Reply(200, [], None)
    ensures r.query.Some? <==> rawQuery.Some? && |rawQuery.value| >= MIN_QUERY &&
                               |Sanitize(rawQuery.value)| >= MIN_QUERY
    ensures r.query.Some? ==> r.query.value == Sanitize(rawQuery.value)
    ensures r.query.None? ==> r == Reply(200, [], None)
    ensures r.query.Some? && !queryOk ==> r.status == 500 && r.products == []
    ensures r.status == 200 ==> |r.products| <= MAX_RESULTS
    ensures r.query.Some? && queryOk ==>
              r.status == 200 && r.products == Take'(Matching(products, r.query.value), MAX_RESULTS)
  {
    if rawQuery.None? || |rawQuery.value| < MIN_QUERY then Reply(200, [], None)
    else
      var q := Sanitize(rawQuery.value);
      if |q| < MIN_QUERY then Reply(200, [], None)
      else if !queryOk then Reply(500, [], Some(q))
      else Reply(200, Take'(Matching(products, q), MAX_RESULTS), Some(q))
  }

  /** `.limit(n)`: the first n rows. */
  function Take'(xs: seq<Product>, n: nat): (r: seq<Product>)
    ensures |r| == if |xs| <= n then |xs| else n
    ensures r == xs[..|r|]
  {
    if |xs| <= n then xs else xs[..n]
  }
}
