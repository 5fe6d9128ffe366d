/**
 * The three entity collections of the marketplace, as the JSON records the
 * server keeps in its users, gigs and reviews stores.
 */
module Records {
  import opened Common
  import opened Geo

  /**
   * Who posted a gig: a user id, or a plain name such as the "system" poster of
   * the seed gigs. Comparisons with `===` tell the two apart.
   */
  datatype Ref = UserId(id: int) | Named(name: string)

  /**
   * A gig record. `status` is "" when the record has none. `lat`/`lng` are
   * `Some` exactly when the stored value is a JSON number. `distance` is the
   * display label (static in the seed data), and `distanceKm` is present only
   * on query results that were measured from an origin, where it may be NaN.
   */
  datatype Gig = Gig(
    id: int,
    title: string,
    description: string,
    category: string,
    location: string,
    phone: string,
    payment: string,
    paymentType: string,
    timePosted: string,
    urgent: bool,
    postedBy: Ref,
    postedByName: Option<string>,
    status: string,
    assignedTo: Option<int>,
    lat: Option<real>,
    lng: Option<real>,
    createdAt: int,
    distance: Option<string>,
    distanceKm: Option<Parsed>)

  /** A user record; `password` is `None` once it has been stripped for a response. */
  datatype User = User(
    id: int,
    name: Option<string>,
    email: string,
    phone: string,
    password: Option<string>,
    userType: string,
    location: Option<string>,
    lat: Option<real>,
    lng: Option<real>,
    createdAt: int,
    distance: Option<string>,
    distanceKm: Option<Parsed>)

  datatype Review = Review(
    id: int,
    gigId: int,
    revieweeId: int,
    reviewerId: int,
    revieweeName: Option<string>,
    reviewerName: Option<string>,
    rating: real,
    comment: string,
    createdAt: int)

  /** `u.userType === 'worker'` */
  predicate IsWorker(u: User) {
    u.userType == "worker"
  }

  /** `({ password, ...user }) => user` */
  function WithoutPassword(u: User): (r: User)
    ensures r.password == None
    ensures r.(password := u.password) == u
  {
    u.(password := None)
  }
}
