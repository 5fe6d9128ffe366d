/**
 * The collection updates of the server: registering a user, posting a gig and
 * adding a review (the file-backed branch), each a check of the request followed
 * by one insertion into a stored list, plus the completed-gigs listing that tells
 * a user which finished gigs they can still review. Reading and writing the JSON
 * files is not modelled: the lists are the fields of a `Store`.
 */
module Marketplace {
  import opened Common
  import opened Lists
  import opened Records

  /** Why a request is refused (each is a 400 response). */
  datatype Failure =
    | MissingFields
    | EmailTaken
    | PosterNotFound
    | RatingOutOfRange
    | AlreadyReviewed
    | UserNotFound

  // ---------------------------------------------------------------------------
  // Identifiers

  /** `Math.max(...ids, 0)` */
  function MaxOf(ids: seq<int>): (m: int)
    ensures m >= 0
    ensures forall i :: 0 <= i < |ids| ==> ids[i] <= m
    ensures m == 0 || m in ids
  {
    if ids == [] then 0
    else
      var rest := MaxOf(ids[1..]);
      if ids[0] > rest then ids[0] else rest
  }

  function GigId(g: Gig): int {
    g.id
  }

  function ReviewId(r: Review): int {
    r.id
  }

  /** The id `Math.max(...gigs.map(g => g.id), 0) + 1` is larger than every stored one. */
  function NextGigId(gigs: seq<Gig>): (id: int)
    ensures id >= 1
    ensures forall i :: 0 <= i < |gigs| ==> gigs[i].id < id
  {
    var ids := Map(gigs, GigId);
    assert forall i :: 0 <= i < |gigs| ==> ids[i] == gigs[i].id;
    MaxOf(ids) + 1
  }

  /** The id `Math.max(...reviews.map(r => r.id), 0) + 1` is larger than every stored one. */
  function NextReviewId(reviews: seq<Review>): (id: int)
    ensures id >= 1
    ensures forall i :: 0 <= i < |reviews| ==> reviews[i].id < id
  {
    var ids := Map(reviews, ReviewId);
    assert forall i :: 0 <= i < |reviews| ==> ids[i] == reviews[i].id;
    MaxOf(ids) + 1
  }

  /** `users.find(u => u.id === id)`: the first user with that id. */
  function FindUser(users: seq<User>, id: int): (r: Option<User>)
    ensures r.None? <==> forall i :: 0 <= i < |users| ==> users[i].id != id
    ensures r.Some? ==> r.value in users && r.value.id == id
  {
    if users == [] then None
    else if users[0].id == id then Some(users[0])
    else FindUser(users[1..], id)
  }

  // ---------------------------------------------------------------------------
  // The invariants of the stored lists

  /** Users are numbered 1, 2, 3, … in the order they registered. */
  predicate Numbered(users: seq<User>) {
    forall i :: 0 <= i < |users| ==> users[i].id == i + 1
  }

  predicate EmailInUse(users: seq<User>, email: string) {
    exists i :: 0 <= i < |users| && users[i].email == email
  }

  predicate EmailsDistinct(users: seq<User>) {
    forall i, j :: 0 <= i < j < |users| ==> users[i].email != users[j].email
  }

  predicate GigIdsDistinct(gigs: seq<Gig>) {
    forall i, j :: 0 <= i < j < |gigs| ==> gigs[i].id != gigs[j].id
  }

  predicate ReviewIdsDistinct(reviews: seq<Review>) {
    forall i, j :: 0 <= i < j < |reviews| ==> reviews[i].id != reviews[j].id
  }

  /** Some review of `gigId` by `reviewerId` about `revieweeId` is stored. */
  predicate Reviewed(reviews: seq<Review>, gigId: int, reviewerId: int, revieweeId: int) {
    exists i :: 0 <= i < |reviews| && reviews[i].gigId == gigId
      && reviews[i].reviewerId == reviewerId && reviews[i].revieweeId == revieweeId
  }

  /** A reviewer reviews a person at most once per gig. */
  predicate OneReviewPerTriple(reviews: seq<Review>) {
    forall i, j :: 0 <= i < j < |reviews| ==>
      !(reviews[i].gigId == reviews[j].gigId
        && reviews[i].reviewerId == reviews[j].reviewerId
        && reviews[i].revieweeId == reviews[j].revieweeId)
  }

  lemma NumberedIdsDistinct(users: seq<User>)
    requires Numbered(users)
    ensures forall i, j :: 0 <= i < j < |users| ==> users[i].id != users[j].id
    ensures forall i :: 0 <= i < |users| ==> FindUser(users, i + 1) == Some(users[i])
  {
    forall i | 0 <= i < |users| ensures FindUser(users, i + 1) == Some(users[i]) {
      FindNumbered(users, i);
    }
  }

  lemma {:induction false} FindNumbered(users: seq<User>, i: nat)
    requires Numbered(users) && i < |users|
    ensures FindUser(users, i + 1) == Some(users[i])
  {
    FindFirst(users, i);
  }

  lemma {:induction false} FindFirst(users: seq<User>, i: nat)
    requires i < |users|
    requires forall k :: 0 <= k < i ==> users[k].id != users[i].id
    ensures FindUser(users, users[i].id) == Some(users[i])
  {
    if i > 0 {
      FindFirst(users[1..], i - 1);
    }
  }

  // ---------------------------------------------------------------------------
  // Requests and the records they create

  /** The body of POST /api/auth/register; an empty string stands for a missing field. */
  datatype RegisterRequest = RegisterRequest(
    name: string,
    email: string,
    phone: string,
    password: string,
    userType: string,
    location: string,
    lat: Option<real>,
    lng: Option<real>)

  predicate RegistrationIncomplete(req: RegisterRequest) {
    req.name == "" || req.email == "" || req.password == "" || req.userType == ""
  }

  /** The user record a registration creates at time `now`. */
  function NewUser(req: RegisterRequest, id: int, now: int): User {
    User(
      id := id,
      name := Some(req.name),
      email := req.email,
      phone := req.phone,
      password := Some(req.password),
      userType := req.userType,
      location := Some(req.location),
      lat := req.lat,
      lng := req.lng,
      createdAt := now,
      distance := None,
      distanceKm := None)
  }

  /**
   * The body of POST /api/gigs. Strings are "" when missing; `postedBy` is
   * missing when it is the id 0 or the empty name.
   */
  datatype GigRequest = GigRequest(
    title: string,
    description: string,
    category: string,
    payment: string,
    paymentType: string,
    urgent: bool,
    postedBy: Ref,
    location: string,
    phone: string,
    lat: Option<real>,
    lng: Option<real>)

  predicate PosterMissing(who: Ref) {
    who == UserId(0) || who == Named("")
  }

  predicate GigIncomplete(req: GigRequest) {
    req.title == "" || req.description == "" || req.category == "" || req.payment == ""
    || PosterMissing(req.postedBy)
  }

  /** `users.find(u => u.id === postedBy)`: only a numeric reference can name a user. */
  function FindPoster(users: seq<User>, who: Ref): (r: Option<User>)
    ensures who.Named? ==> r.None?
    ensures r.Some? ==> r.value in users && who == UserId(r.value.id)
  {
    match who
    case UserId(id) => FindUser(users, id)
    case Named(_) => None
  }

  /** `a || b` on strings that may be missing. */
  function Either(a: string, b: string): string {
    if a != "" then a else b
  }

  /** `typeof x === 'number' ? x : fallback` */
  function NumberOr(x: Option<real>, fallback: Option<real>): Option<real> {
    if x.Some? then x else fallback
  }

  /** The gig a request creates, filling blanks from the poster's profile. */
  function NewGig(req: GigRequest, poster: User, id: int, now: int): (g: Gig)
    ensures g.id == id && g.status == "open" && g.assignedTo.None?
    ensures g.location != ""
    ensures g.postedBy == req.postedBy && g.postedByName == poster.name
    ensures req.lat.Some? ==> g.lat == req.lat
    ensures req.lat.None? ==> g.lat == poster.lat
    ensures req.lng.Some? ==> g.lng == req.lng
    ensures req.lng.None? ==> g.lng == poster.lng
    ensures req.location != "" ==> g.location == req.location
    ensures req.location == "" && OrEmpty(poster.location) != "" ==> g.location == poster.location.value
    ensures req.location == "" && OrEmpty(poster.location) == "" ==> g.location == "Bangalore, Karnataka"
    ensures g.phone == (if req.phone != "" then req.phone else poster.phone)
    ensures g.paymentType == (if req.paymentType != "" then req.paymentType else "fixed")
    ensures g.title == req.title && g.description == req.description && g.category == req.category
    ensures g.payment == req.payment && g.urgent == req.urgent && g.createdAt == now
  {
    Gig(
      id := id,
      title := req.title,
      description := req.description,
      category := req.category,
      location := Either(req.location, Either(OrEmpty(poster.location), "Bangalore, Karnataka")),
      phone := Either(req.phone, poster.phone),
      payment := req.payment,
      paymentType := Either(req.paymentType, "fixed"),
      timePosted := "Just now",
      urgent := req.urgent,
      postedBy := req.postedBy,
      postedByName := poster.name,
      status := "open",
      assignedTo := None,
      lat := NumberOr(req.lat, poster.lat),
      lng := NumberOr(req.lng, poster.lng),
      createdAt := now,
      distance := None,
      distanceKm := None)
  }

  /** The body of POST /api/reviews; an id or rating of 0 stands for a missing one. */
  datatype ReviewRequest = ReviewRequest(
    gigId: int,
    revieweeId: int,
    reviewerId: int,
    rating: real,
    comment: string)

  predicate ReviewIncomplete(req: ReviewRequest) {
    req.gigId == 0 || req.revieweeId == 0 || req.reviewerId == 0 || req.rating == 0.0
  }

  predicate RatingInRange(rating: real) {
    1.0 <= rating <= 5.0
  }

  function NewReview(req: ReviewRequest, reviewer: User, reviewee: User, id: int, now: int): Review {
    Review(
      id := id,
      gigId := req.gigId,
      revieweeId := req.revieweeId,
      reviewerId := req.reviewerId,
      revieweeName := reviewee.name,
      reviewerName := reviewer.name,
      rating := req.rating,
      comment := req.comment,
      createdAt := now)
  }

  // ---------------------------------------------------------------------------
  // The store

  class Store {
    var users: seq<User>
    var gigs: seq<Gig>
    var reviews: seq<Review>

    ghost predicate Valid()
      reads this
    {
      && Numbered(users)
      && EmailsDistinct(users)
      && GigIdsDistinct(gigs)
      && ReviewIdsDistinct(reviews)
      && OneReviewPerTriple(reviews)
    }

    /** A fresh data directory: no users, no reviews, and the seed gigs. */
    constructor (seedGigs: seq<Gig>)
      requires GigIdsDistinct(seedGigs)
      ensures Valid()
      ensures users == [] && gigs == seedGigs && reviews == []
    {
      users := [];
      gigs := seedGigs;
      reviews := [];
    }

    /**
     * POST /api/auth/register. A complete request with an unused email appends
     * one user numbered after the last and answers with it, password removed.
     */
    method Register(req: RegisterRequest, now: int) returns (r: Result<User, Failure>)
      requires Valid()
      modifies this
      ensures Valid()
      ensures gigs == old(gigs) && reviews == old(reviews)
      ensures RegistrationIncomplete(req) ==> r == Err(MissingFields) && users == old(users)
      ensures !RegistrationIncomplete(req) && EmailInUse(old(users), req.email) ==>
        r == Err(EmailTaken) && users == old(users)
      ensures !RegistrationIncomplete(req) && !EmailInUse(old(users), req.email) ==>
        var u := NewUser(req, |old(users)| + 1, now);
        users == old(users) + [u] && r == Ok(WithoutPassword(u))
    {
      if RegistrationIncomplete(req) {
        return Err(MissingFields);
      }
      if EmailInUse(users, req.email) {
        return Err(EmailTaken);
      }
      var u := NewUser(req, |users| + 1, now);
      users := users + [u];
      r := Ok(WithoutPassword(u));
    }

    /**
     * POST /api/gigs. A complete request from a known poster puts the new gig
     * first, with an id above every stored one, and leaves the others in place.
     */
    method PostGig(req: GigRequest, now: int) returns (r: Result<Gig, Failure>)
      requires Valid()
      modifies this
      ensures Valid()
      ensures users == old(users) && reviews == old(reviews)
      ensures GigIncomplete(req) ==> r == Err(MissingFields) && gigs == old(gigs)
      ensures !GigIncomplete(req) && FindPoster(old(users), req.postedBy).None? ==>
        r == Err(PosterNotFound) && gigs == old(gigs)
      ensures !GigIncomplete(req) && FindPoster(old(users), req.postedBy).Some? ==>
        var g := NewGig(req, FindPoster(old(users), req.postedBy).value, NextGigId(old(gigs)), now);
        gigs == [g] + old(gigs) && r == Ok(g)
    {
      if GigIncomplete(req) {
        return Err(MissingFields);
      }
      var poster := FindPoster(users, req.postedBy);
      if poster.None? {
        return Err(PosterNotFound);
      }
      var g := NewGig(req, poster.value, NextGigId(gigs), now);
      gigs := [g] + gigs;
      r := Ok(g);
    }

    /**
     * POST /api/reviews when the database is unavailable. A complete request
     * with a rating from 1 to 5, for a triple not yet reviewed, between two
     * known users, appends one review with an id above every stored one.
     */
    method AddReview(req: ReviewRequest, now: int) returns (r: Result<Review, Failure>)
      requires Valid()
      modifies this
      ensures Valid()
      ensures users == old(users) && gigs == old(gigs)
      ensures ReviewIncomplete(req) ==> r == Err(MissingFields) && reviews == old(reviews)
      ensures !ReviewIncomplete(req) && !RatingInRange(req.rating) ==>
        r == Err(RatingOutOfRange) && reviews == old(reviews)
      ensures (!ReviewIncomplete(req) && RatingInRange(req.rating)
        && Reviewed(old(reviews), req.gigId, req.reviewerId, req.revieweeId)) ==>
        r == Err(AlreadyReviewed) && reviews == old(reviews)
      ensures (!ReviewIncomplete(req) && RatingInRange(req.rating)
        && !Reviewed(old(reviews), req.gigId, req.reviewerId, req.revieweeId)
        && (FindUser(users, req.reviewerId).None? || FindUser(users, req.revieweeId).None?)) ==>
        r == Err(UserNotFound) && reviews == old(reviews)
      ensures r.Ok? ==>
        && reviews == old(reviews) + [r.value]
        && r.value == NewReview(req, FindUser(users, req.reviewerId).value,
                                FindUser(users, req.revieweeId).value, NextReviewId(old(reviews)), now)
      ensures r.Ok? <==>
        && !ReviewIncomplete(req) && RatingInRange(req.rating)
        && !Reviewed(old(reviews), req.gigId, req.reviewerId, req.revieweeId)
        && FindUser(users, req.reviewerId).Some? && FindUser(users, req.revieweeId).Some?
    {
      if ReviewIncomplete(req) {
        return Err(MissingFields);
      }
      if !RatingInRange(req.rating) {
        return Err(RatingOutOfRange);
      }
      if Reviewed(reviews, req.gigId, req.reviewerId, req.revieweeId) {
        return Err(AlreadyReviewed);
      }
      var reviewer := FindUser(users, req.reviewerId);
      var reviewee := FindUser(users, req.revieweeId);
      if reviewer.None? || reviewee.None? {
        return Err(UserNotFound);
      }
      var rv := NewReview(req, reviewer.value, reviewee.value, NextReviewId(reviews), now);
      reviews := reviews + [rv];
      r := Ok(rv);
    }
  }

  // ---------------------------------------------------------------------------
  // Completed gigs

  /** A completed gig as GET /api/users/:id/completed-gigs lists it. */
  datatype ReviewableGig = ReviewableGig(gig: Gig, hasReviewed: bool, canReview: bool)

  /** The gig is completed and the user posted it or was assigned to it. */
  predicate Involves(g: Gig, userId: int) {
    g.status == "completed" && (g.postedBy == UserId(userId) || g.assignedTo == Some(userId))
  }

  /** `reviews.some(r => r.gigId === gig.id && r.reviewerId === userId)` */
  predicate HasReviewed(reviews: seq<Review>, gigId: int, userId: int) {
    exists i :: 0 <= i < |reviews| && reviews[i].gigId == gigId && reviews[i].reviewerId == userId
  }

  function Annotate(reviews: seq<Review>, userId: int): Gig -> ReviewableGig {
    (g: Gig) => var done := HasReviewed(reviews, g.id, userId);
         ReviewableGig(g, done, !done)
  }

  function InvolvesUser(userId: int): Gig -> bool {
    g => Involves(g, userId)
  }

  function CompletedGigs(gigs: seq<Gig>, reviews: seq<Review>, userId: int): seq<ReviewableGig> {
    Map(Filter(gigs, InvolvesUser(userId)), Annotate(reviews, userId))
  }

  /**
   * The listing holds exactly the completed gigs the user took part in, in
   * stored order, and a gig can be reviewed exactly when the user has not yet
   * reviewed anyone for it.
   */
  lemma CompletedGigsExactly(gigs: seq<Gig>, reviews: seq<Review>, userId: int)
    ensures forall e :: e in CompletedGigs(gigs, reviews, userId) ==>
      && e.gig in gigs && Involves(e.gig, userId)
      && (e.hasReviewed <==> HasReviewed(reviews, e.gig.id, userId))
      && e.canReview == !e.hasReviewed
    ensures forall g :: g in gigs && Involves(g, userId) ==>
      Annotate(reviews, userId)(g) in CompletedGigs(gigs, reviews, userId)
  {
    FilterMembers(gigs, InvolvesUser(userId));
    MapMembers(Filter(gigs, InvolvesUser(userId)), Annotate(reviews, userId));
  }

  /** Once the user has reviewed someone for a gig, the listing no longer offers it for review. */
  lemma ReviewClosesGig(reviews: seq<Review>, rv: Review, userId: int, g: Gig)
    requires rv.gigId == g.id && rv.reviewerId == userId
    ensures !Annotate(reviews + [rv], userId)(g).canReview
  {
    assert (reviews + [rv])[|reviews|] == rv;
  }

  /** A review stored by `AddReview` closes its gig for its reviewer. */
  lemma AddedReviewClosesGig(reviews: seq<Review>, req: ReviewRequest, reviewer: User, reviewee: User,
                             id: int, now: int, g: Gig)
    requires g.id == req.gigId
    ensures !Annotate(reviews + [NewReview(req, reviewer, reviewee, id, now)], req.reviewerId)(g).canReview
  {
    ReviewClosesGig(reviews, NewReview(req, reviewer, reviewee, id, now), req.reviewerId, g);
  }
}
