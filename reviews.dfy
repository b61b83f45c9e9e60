/** Product reviews: the GET query built from the URL parameters, the POST
    validation and the one-review-per-(user, product) upsert, and the
    owner-or-admin DELETE. The `product_reviews` table is a class whose row
    map the handlers update in place; row ids are allocated from a counter. */
module Reviews {
  import opened Common
  import opened Auth

  const MAX_COMMENT: nat := 1000

  // ---------------------------------------------------------------------
  // GET: the query the handler builds

  datatype Column = HelpfulCount | Rating | CreatedAt
  datatype Ordering = Ordering(column: Column, ascending: bool)

  /** `.eq('product_id', …)`, `.eq('rating', …)` when filtering, `.order(…)` */
  datatype Query = Query(productId: string, rating: Option<int>, order: Ordering)

  /** The `sort` parameter: helpful, highest and lowest have their own
      orderings, anything else (the default 'recent' included) is newest
      first. */
  function SortOrdering(sort: string): (o: Ordering)
    ensures sort == "helpful" ==> o == Ordering(HelpfulCount, false)
    ensures sort == "highest" ==> o == Ordering(Rating, false)
    ensures sort == "lowest" ==> o == Ordering(Rating, true)
    ensures sort !in ["helpful", "highest", "lowest"] ==> o == Ordering(CreatedAt, false)
    ensures o.ascending ==> o.column == Rating
  {
    if sort == "helpful" then Ordering(HelpfulCount, false)
    else if sort == "highest" then Ordering(Rating, false)
    else if sort == "lowest" then Ordering(Rating, true)
    else Ordering(CreatedAt, false)
  }

  /** `parseInt(rating || '0')`, kept only when positive. */
  function RatingFilter(rating: Option<string>): (r: Option<int>)
    ensures r.Some? <==> ParseInt(OrElse(rating, Some("0")).value).Some? && ParseInt(OrElse(rating, Some("0")).value).value > 0
    ensures r.Some? ==> r == ParseInt(OrElse(rating, Some("0")).value) && r.value > 0
  {
    var r := ParseInt(OrElse(rating, Some("0")).value);
    if r.Some? && r.value > 0 then r else None
  }

  /** The GET parameters to the query; None is the 400 for a missing
      productId. */
  function BuildQuery(productId: Option<string>, sort: Option<string>, rating: Option<string>): (q: Option<Query>)
    ensures q.None? <==> NonEmpty(productId).None?
    ensures q.Some? ==> q.value == Query(productId.value, RatingFilter(rating), SortOrdering(OrElse(sort, Some("recent")).value))
  {
    if NonEmpty(productId).None? then None
    else Some(Query(productId.value, RatingFilter(rating), SortOrdering(OrElse(sort, Some("recent")).value)))
  }

  /** Without a rating parameter nothing is filtered and the order is newest
      first. */
  lemma DefaultQuery(productId: string)
    requires productId != ""
    ensures BuildQuery(Some(productId), None, None) == Some(Query(productId, None, Ordering(CreatedAt, false)))
  {
    var zero := OrElse(None, Some("0")).value;
    assert zero == "0";
    ParseIntOfNat(0);
    assert NatToString(0) == "0";
    assert ParseInt(zero) == Some(0);
    assert RatingFilter(None).None?;
    var recent := OrElse(None, Some("recent")).value;
    assert recent == "recent";
    assert recent != "helpful" && recent != "highest" && recent != "lowest";
    assert SortOrdering(recent) == Ordering(CreatedAt, false);
  }

  /** A 'rating=4' parameter filters on 4. */
  lemma FilterOnRating(productId: string, n: nat)
    requires productId != "" && n > 0
    ensures BuildQuery(Some(productId), None, Some(NatToString(n))).value.rating == Some(n)
  {
    ParseIntOfNat(n);
  }

  datatype Stats = Stats(avgRating: int, totalReviews: nat, distribution: seq<nat>)

  /** `stats || { avg_rating: 0, total_reviews: 0, distribution: {5..1: 0} }` */
  function StatsOrDefault(stats: Option<Stats>): (s: Stats)
    ensures stats.Some? ==> s == stats.value
    ensures stats.None? ==> s.avgRating == 0 && s.totalReviews == 0 && |s.distribution| == 5 &&
                            forall i :: 0 <= i < 5 ==> s.distribution[i] == 0
  {
    if stats.Some? then stats.value else Stats(0, 0, [0, 0, 0, 0, 0])
  }

  // ---------------------------------------------------------------------
  // POST: validation

  /** `parseInt(rating, 10)` accepted when it is an integer in 1..5 (a
      leading integer part is enough: '4.5' and '4 stars' are 4). The rating
      is given as its string form. */
  function ParseRating(rating: Option<string>): (r: Option<int>)
    ensures r.Some? ==> 1 <= r.value <= 5
    ensures r.Some? <==> NonEmpty(rating).Some? && ParseInt(rating.value).Some? && 1 <= ParseInt(rating.value).value <= 5
  {
    if NonEmpty(rating).None? then None
    else match ParseInt(rating.value)
      case Some(n) => if 1 <= n <= 5 then Some(n) else None
      case None => None
  }

  /** Every star count 1..5 is accepted as itself, and 0 and 6 are refused. */
  lemma RatingRoundTrip(n: nat)
    ensures 1 <= n <= 5 ==> ParseRating(Some(NatToString(n))) == Some(n)
    ensures n == 0 || n > 5 ==> ParseRating(Some(NatToString(n))).None?
  {
    ParseIntOfNat(n);
  }

  /** `full_name || email.split('@')[0] || 'Usuario'` */
  function DisplayName(fullName: Option<string>, email: Option<string>): (name: string)
    ensures name != ""
    ensures NonEmpty(fullName).Some? ==> name == fullName.value
    ensures NonEmpty(fullName).None? && email.Some? && BeforeFirst(email.value, '@') != "" ==>
              name == BeforeFirst(email.value, '@')
    ensures '@' in name ==> NonEmpty(fullName) == Some(name)
  {
    OrElse(fullName, OrElse(if email.Some? then Some(BeforeFirst(email.value, '@')) else None, Some("Usuario"))).value
  }

  /** The local part of an address names the reviewer. */
  lemma DisplayNameOfEmail(local: string, domain: string)
    requires local != "" && '@' !in local
    ensures DisplayName(None, Some(local + "@" + domain)) == local
  {
    var e := local + "@" + domain;
    assert e[|local|] == '@';
    assert forall i :: 0 <= i < |local| ==> e[i] == local[i];
    assert BeforeFirst(e, '@') == local;
  }

  datatype Review = Review(productId: string, userId: string, userName: string, rating: int,
                           comment: string, helpfulCount: nat)

  datatype PostBody = PostBody(productId: Option<string>, rating: Option<string>, comment: Option<string>)

  /** The test of the body, before any read: the parsed rating, or None for
      the 400. */
  function ValidatePost(b: PostBody): (r: Option<int>)
    ensures r.Some? <==> NonEmpty(b.productId).Some? && ParseRating(b.rating).Some? &&
                         (NonEmpty(b.comment).Some? ==> |b.comment.value| <= MAX_COMMENT)
    ensures r.Some? ==> r == ParseRating(b.rating)
  {
    if NonEmpty(b.productId).None? || NonEmpty(b.rating).None? then None
    else if ParseRating(b.rating).None? then None
    else if NonEmpty(b.comment).Some? && |b.comment.value| > MAX_COMMENT then None
    else ParseRating(b.rating)
  }

  /** `comment || ''` */
  function CommentText(c: Option<string>): string {
    OrElse(c, Some("")).value
  }

  // ---------------------------------------------------------------------
  // The table

  class ReviewTable {
    var rows: map<nat, Review>
    var nextId: nat

    /** Ids come from the counter, and the table's unique key is
        (product, user). */
    predicate Valid()
      reads this
    {
      (forall k :: k in rows ==> k < nextId) &&
      (forall a, b :: (a in rows && b in rows && rows[a].productId == rows[b].productId &&
                       rows[a].userId == rows[b].userId) ==> a == b)
    }

    /** The user's review of the product, if any. */
    predicate HasReview(productId: string, userId: string, k: nat)
      reads this
    {
      k in rows && rows[k].productId == productId && rows[k].userId == userId
    }

    constructor()
      ensures Valid() && rows == map[]
    {
      rows := map[];
      nextId := 0;
    }

    /** `.eq('product_id', …).eq('user_id', …).single()` */
    method FindExisting(productId: string, userId: string) returns (k: Option<nat>)
      requires Valid()
      ensures k.Some? ==> HasReview(productId, userId, k.value)
      ensures k.None? ==> forall j :: j in rows ==> !HasReview(productId, userId, j)
    {
      if j :| j in rows && HasReview(productId, userId, j) {
        return Some(j);
      }
      return None;
    }

    /** The update of an existing review: rating, comment and author name
        are replaced, product, user and helpful count kept. */
    method Rewrite(k: nat, rating: int, comment: string, userName: string)
      requires Valid() && k in rows
      modifies this
      ensures Valid()
      ensures rows == old(rows)[k := old(rows)[k].(rating := rating, comment := comment, userName := userName)]
      ensures nextId == old(nextId)
    {
      rows := rows[k := rows[k].(rating := rating, comment := comment, userName := userName)];
    }

    /** The insert of a review for a pair that has none yet, under the next
        id. */
    method Add(r: Review)
      requires Valid() && forall j :: j in rows ==> !HasReview(r.productId, r.userId, j)
      modifies this
      ensures Valid()
      ensures old(nextId) !in old(rows) && rows == old(rows)[old(nextId) := r] && nextId == old(nextId) + 1
    {
      rows := rows[nextId := r];
      nextId := nextId + 1;
    }

    /** POST. `bodyOk` is false when the body is not JSON (the parse throws
        into the 500 answer), `writeOk` is the outcome of the update or
        insert; `fullName` the caller's `users.full_name`. Status 200 for an
        update, 201 for a new review. */
    method Post(id: Identity, header: Option<string>, bodyOk: bool, b: PostBody, fullName: Option<string>,
                writeOk: bool)
        returns (status: int)
      requires Valid()
      modifies this
      ensures Valid()
      ensures !Authenticate(id, header, RequirePresent).Authenticated? ==> status == 401 && unchanged(this)
      ensures Authenticate(id, header, RequirePresent).Authenticated? && !bodyOk ==> status == 500 && unchanged(this)
      ensures Authenticate(id, header, RequirePresent).Authenticated? && bodyOk && ValidatePost(b).None? ==>
                status == 400 && unchanged(this)
      ensures status != 200 && status != 201 ==> unchanged(this)
      ensures status == 200 || status == 201 ==>
                Authenticate(id, header, RequirePresent).Authenticated? && bodyOk && ValidatePost(b).Some? && writeOk
      // an existing review of this user for this product is rewritten in place
      ensures status == 200 ==>
                exists k :: old(HasReview(b.productId.value, Authenticate(id, header, RequirePresent).user.id, k)) &&
                  rows == old(rows)[k := old(rows)[k].(rating := ValidatePost(b).value, comment := CommentText(b.comment),
                    userName := DisplayName(fullName, Authenticate(id, header, RequirePresent).user.email))] &&
                  nextId == old(nextId)
      // otherwise one row is added under a fresh id
      ensures status == 201 ==>
                (forall j :: j in old(rows) ==> !old(HasReview(b.productId.value, Authenticate(id, header, RequirePresent).user.id, j))) &&
                old(nextId) !in old(rows) && nextId == old(nextId) + 1 &&
                rows == old(rows)[old(nextId) := Review(b.productId.value, Authenticate(id, header, RequirePresent).user.id,
                  DisplayName(fullName, Authenticate(id, header, RequirePresent).user.email), ValidatePost(b).value,
                  CommentText(b.comment), 0)]
    {
      var auth := Authenticate(id, header, RequirePresent);
      if !auth.Authenticated? {
        return 401;
      }
      if !bodyOk {
        return 500;
      }
      var rating := ValidatePost(b);
      if rating.None? {
        return 400;
      }
      var user := auth.user;
      var productId := b.productId.value;
      var userName := DisplayName(fullName, user.email);
      var existing := FindExisting(productId, user.id);
      if !writeOk {
        return 500;
      }
      match existing {
        case Some(k) =>
          Rewrite(k, rating.value, CommentText(b.comment), userName);
          status := 200;
        case None =>
          Add(Review(productId, user.id, userName, rating.value, CommentText(b.comment), 0));
          status := 201;
      }
    }

    /** DELETE: the author or an admin may remove a review. */
    method Delete(id: Identity, header: Option<string>, reviewId: Option<nat>, deleteOk: bool)
        returns (status: int)
      requires Valid()
      modifies this
      ensures Valid()
      ensures !Authenticate(id, header, RequirePresent).Authenticated? ==> status == 401 && unchanged(this)
      ensures Authenticate(id, header, RequirePresent).Authenticated? && reviewId.None? ==> status == 400 && unchanged(this)
      ensures (Authenticate(id, header, RequirePresent).Authenticated? && reviewId.Some? &&
               reviewId.value !in old(rows)) ==> status == 404 && unchanged(this)
      ensures (Authenticate(id, header, RequirePresent).Authenticated? && reviewId.Some? && reviewId.value in old(rows) &&
               old(rows)[reviewId.value].userId != Authenticate(id, header, RequirePresent).user.id &&
               !IsAdmin(id, Authenticate(id, header, RequirePresent).user.id)) ==> status == 403 && unchanged(this)
      ensures status == 200 ==> reviewId.Some? && reviewId.value in old(rows) && deleteOk &&
                                (old(rows)[reviewId.value].userId == Authenticate(id, header, RequirePresent).user.id ||
                                 IsAdmin(id, Authenticate(id, header, RequirePresent).user.id)) &&
                                rows == old(rows) - {reviewId.value}
      ensures status != 200 ==> unchanged(this)
      ensures nextId == old(nextId)
    {
      var auth := Authenticate(id, header, RequirePresent);
      if !auth.Authenticated? {
        return 401;
      }
      if reviewId.None? {
        return 400;
      }
      var k := reviewId.value;
      if k !in rows {
        return 404;
      }
      if rows[k].userId != auth.user.id && !IsAdmin(id, auth.user.id) {
        return 403;
      }
      if !deleteOk {
        return 500;
      }
      rows := rows - {k};
      status := 200;
    }
  }

  /** Posting twice keeps one review per (user, product): the second post
      updates the row the first one created. */
  method PostTwice(t: ReviewTable, id: Identity, header: Option<string>, b1: PostBody, b2: PostBody, fullName: Option<string>)
      returns (s1: int, s2: int)
    requires t.Valid()
    requires b1.productId == b2.productId
    modifies t
    ensures t.Valid()
    ensures s1 == 201 && (s2 == 200 || s2 == 201) ==> s2 == 200 && |t.rows| == |old(t.rows)| + 1
  {
    s1 := t.Post(id, header, true, b1, fullName, true);
    ghost var afterFirst := t.rows;
    ghost var firstId := old(t.nextId);
    s2 := t.Post(id, header, true, b2, fullName, true);
    if s1 == 201 && (s2 == 200 || s2 == 201) {
      assert t.HasReview(b2.productId.value, Authenticate(id, header, RequirePresent).user.id, firstId) by {
        assert firstId in afterFirst;
      }
      assert s2 == 200;
    }
  }
}
