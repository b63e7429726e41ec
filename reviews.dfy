/** The review controller: a customer reviews a menu item at most once;
    reviews are listed per user and per item; an admin deletes them. */
module Reviews {
  import opened Common
  import opened Models
  import opened Store
  import opened Auth
  import opened Queries
  import opened Sorting

  datatype ReviewBody = ReviewBody(menuItemId: Option<Id>, rating: Option<int>, comment: Option<string>)

  /** A review by this user of this item exists. */
  predicate Reviewed(rs: seq<Review>, user: Id, menuItem: Id) {
    exists i :: 0 <= i < |rs| && rs[i].user == user && rs[i].menuItem == menuItem
  }

  ghost predicate AllReviewsValid(rs: seq<Review>) {
    forall i :: 0 <= i < |rs| ==> ReviewValid(rs[i])
  }

  /** `createReview`: 400 without an item id or with a falsy rating (0
      included), 404 for an unknown item, the schema's validation error for a
      rating outside 1..5, 400 for a second review of the same item by the
      same user (the unique index); otherwise the review is appended. */
  method CreateReview(db: Db, caller: Caller, body: ReviewBody, newId: Id, now: Time) returns (reply: Reply<Review>)
    modifies db`reviews
    ensures !Truthy(body.menuItemId) ==> reply == Fail(400, "menuItemId is required")
    ensures Truthy(body.menuItemId) && (body.rating.None? || body.rating == Some(0)) ==>
              reply == Fail(400, "rating is required")
    ensures Truthy(body.menuItemId) && body.rating.Some? && body.rating != Some(0) ==>
              var item := body.menuItemId.value;
              var rating := body.rating.value;
              if FindFirst(db.menu, (m: MenuItem) => m.id == item).None? then reply == Fail(404, "Menu item not found")
              else if caller.userId == "" || !(1 <= rating <= 5) then reply == Thrown(500)
              else if Reviewed(old(db.reviews), caller.userId, item) then
                reply == Fail(400, "You already reviewed this item")
              else reply == Ok(201, Review(newId, caller.userId, item, rating, OrElse(body.comment, ""), now))
    ensures reply.Ok? ==> db.reviews == old(db.reviews) + [reply.value]
    ensures !reply.Ok? ==> db.reviews == old(db.reviews)
    ensures ReviewsUnique(old(db.reviews)) ==> ReviewsUnique(db.reviews)
    ensures AllReviewsValid(old(db.reviews)) ==> AllReviewsValid(db.reviews)
  {
    if !Truthy(body.menuItemId) {
      return Fail(400, "menuItemId is required");
    }
    if body.rating.None? || body.rating == Some(0) {
      return Fail(400, "rating is required");
    }
    var item := body.menuItemId.value;
    var rating := body.rating.value;
    if FindFirst(db.menu, (m: MenuItem) => m.id == item).None? {
      return Fail(404, "Menu item not found");
    }
    if caller.userId == "" || !(1 <= rating <= 5) {
      return Thrown(500);
    }
    if Reviewed(db.reviews, caller.userId, item) {
      return Fail(400, "You already reviewed this item");
    }
    var review := Review(newId, caller.userId, item, rating, OrElse(body.comment, ""), now);
    db.reviews := db.reviews + [review];
    reply := Ok(201, review);
  }

  function ReviewBy(userId: Id): Review -> bool {
    (x: Review) => x.user == userId
  }

  function ReviewOf(menuId: Id): Review -> bool {
    (x: Review) => x.menuItem == menuId
  }

  /** `getMyReviews`: exactly the caller's reviews, each as often as stored,
      newest first. */
  function MyReviews(rs: seq<Review>, caller: Caller): (r: seq<Review>)
    ensures multiset(r) == multiset(Filter(rs, ReviewBy(caller.userId)))
    ensures Descending(r, ReviewCreated)
    ensures forall i :: 0 <= i < |r| ==> r[i].user == caller.userId && r[i] in rs
    ensures forall i :: 0 <= i < |rs| && rs[i].user == caller.userId ==> rs[i] in r
  {
    FindSortedDesc(rs, ReviewBy(caller.userId), ReviewCreated)
  }

  /** `getReviewsByMenuItem`: exactly the reviews of one item, each as
      often as stored, newest first. */
  function ReviewsOfItem(rs: seq<Review>, menuId: Id): (r: seq<Review>)
    ensures multiset(r) == multiset(Filter(rs, ReviewOf(menuId)))
    ensures Descending(r, ReviewCreated)
    ensures forall i :: 0 <= i < |r| ==> r[i].menuItem == menuId && r[i] in rs
    ensures forall i :: 0 <= i < |rs| && rs[i].menuItem == menuId ==> rs[i] in r
  {
    FindSortedDesc(rs, ReviewOf(menuId), ReviewCreated)
  }

  /** `deleteReview`: 404 when no review has the id; otherwise it is removed. */
  method DeleteReview(db: Db, id: Id) returns (reply: Reply<string>)
    modifies db`reviews
    ensures match FindFirst(old(db.reviews), (r: Review) => r.id == id)
            case None => reply == Fail(404, "Review not found") && db.reviews == old(db.reviews)
            case Some(i) => reply == Ok(200, "Review deleted") && db.reviews == RemoveAt(old(db.reviews), i)
    ensures ReviewsUnique(old(db.reviews)) ==> ReviewsUnique(db.reviews)
  {
    var found := FindFirst(db.reviews, (r: Review) => r.id == id);
    if found.None? {
      return Fail(404, "Review not found");
    }
    var before := db.reviews;
    db.reviews := RemoveAt(db.reviews, found.value);
    reply := Ok(200, "Review deleted");
    if ReviewsUnique(before) {
      RemovePreservesUnique(before, found.value);
    }
  }

  lemma RemovePreservesUnique(rs: seq<Review>, k: nat)
    requires k < |rs| && ReviewsUnique(rs)
    ensures ReviewsUnique(RemoveAt(rs, k))
  {
    var r := RemoveAt(rs, k);
    forall i, j | 0 <= i < j < |r| ensures !(r[i].user == r[j].user && r[i].menuItem == r[j].menuItem) {
      var i' := if i < k then i else i + 1;
      var j' := if j < k then j else j + 1;
      assert r[i] == rs[i'] && r[j] == rs[j'] && i' < j';
    }
  }
}
