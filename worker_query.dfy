/**
 * GET /api/workers: the users whose type is "worker", narrowed by a text search
 * over name and location, then, when an origin is given, measured, limited to a
 * radius and sorted nearest first; every record leaves without its password.
 */
module WorkerQuery {
  import opened Common
  import opened Lists
  import opened Text
  import opened Ordering
  import opened Records
  import opened Geo

  /** The query parameters; an empty `search` stands for a missing one. */
  datatype Query = Query(search: string, origin: Option<Origin>, radiusKm: Option<Parsed>)

  predicate SearchActive(q: Query) {
    q.search != ""
  }

  // ---------------------------------------------------------------------------
  // The pipeline stages, as the handler chains them

  /** The lower-cased name or location, a missing one read as "", contains `term`. */
  predicate Mentions(u: User, term: string) {
    Contains(Lower(OrEmpty(u.name)), term) || Contains(Lower(OrEmpty(u.location)), term)
  }

  function MentionsTerm(term: string): User -> bool {
    u => Mentions(u, term)
  }

  /** A worker measured from `here`; without coordinates both distance fields are null. */
  function Measured(geo: Geometry, here: Point, u: User): User {
    var d := DistanceFrom(geo, here, u.lat, u.lng);
    u.(distanceKm := d, distance := if d.Some? then Label(geo, d.value) else None)
  }

  function MeasureFrom(geo: Geometry, here: Point): User -> User {
    u => Measured(geo, here, u)
  }

  function WithinRadius(maxRadius: Parsed): User -> bool {
    (u: User) => InRadius(u.distanceKm, maxRadius)
  }

  function BySearch(users: seq<User>, q: Query): seq<User> {
    FilterIf(users, SearchActive(q), MentionsTerm(Lower(q.search)))
  }

  function NearOrigin(users: seq<User>, q: Query, geo: Geometry): seq<User> {
    match q.origin
    case None => users
    case Some(o) => Filter(Map(users, MeasureFrom(geo, Here(o))), WithinRadius(MaxRadius(q.radiusKm)))
  }

  /** Everything the handler does before the sort. */
  function Stages(users: seq<User>, q: Query, geo: Geometry): seq<User> {
    NearOrigin(BySearch(Filter(users, IsWorker), q), q, geo)
  }

  // ---------------------------------------------------------------------------
  // The reference: one decision per stored user

  predicate SearchOk(q: Query, u: User) {
    SearchActive(q) ==> Mentions(u, Lower(q.search))
  }

  predicate RadiusOk(q: Query, geo: Geometry, u: User) {
    q.origin.Some? ==> InRadius(DistanceFrom(geo, Here(q.origin.value), u.lat, u.lng), MaxRadius(q.radiusKm))
  }

  /** The query keeps the stored user `u`. */
  predicate Admitted(q: Query, geo: Geometry, u: User) {
    IsWorker(u) && SearchOk(q, u) && RadiusOk(q, geo, u)
  }

  function Admits(q: Query, geo: Geometry): User -> bool {
    u => Admitted(q, geo, u)
  }

  /** How a kept worker appears before its password is removed. */
  function Shown(q: Query, geo: Geometry): User -> User {
    u => if q.origin.Some? then Measured(geo, Here(q.origin.value), u) else u
  }

  /** The workers the query keeps, in stored order, each measured when there is an origin. */
  function Selected(users: seq<User>, q: Query, geo: Geometry): seq<User> {
    Map(Filter(users, Admits(q, geo)), Shown(q, geo))
  }

  lemma StagesAppend(a: seq<User>, b: seq<User>, q: Query, geo: Geometry)
    ensures Stages(a + b, q, geo) == Stages(a, q, geo) + Stages(b, q, geo)
  {
    var a1, b1 := Filter(a, IsWorker), Filter(b, IsWorker);
    FilterAppend(a, b, IsWorker);
    assert Filter(a + b, IsWorker) == a1 + b1;
    var a2, b2 := BySearch(a1, q), BySearch(b1, q);
    FilterIfAppend(a1, b1, SearchActive(q), MentionsTerm(Lower(q.search)));
    assert BySearch(a1 + b1, q) == a2 + b2;
    if q.origin.Some? {
      FilterMapAppend(a2, b2, MeasureFrom(geo, Here(q.origin.value)), WithinRadius(MaxRadius(q.radiusKm)));
    }
    assert NearOrigin(a2 + b2, q, geo) == NearOrigin(a2, q, geo) + NearOrigin(b2, q, geo);
  }

  lemma StagesSingle(u: User, q: Query, geo: Geometry)
    ensures Stages([u], q, geo) == if Admitted(q, geo, u) then [Shown(q, geo)(u)] else []
  {
    FilterSingle(u, IsWorker);
    FilterSingle(u, MentionsTerm(Lower(q.search)));
    var s := BySearch(Filter([u], IsWorker), q);
    assert s == if IsWorker(u) && SearchOk(q, u) then [u] else [];
    if q.origin.Some? && s == [u] {
      var m := Measured(geo, Here(q.origin.value), u);
      assert Map([u], MeasureFrom(geo, Here(q.origin.value))) == [m];
      FilterSingle(m, WithinRadius(MaxRadius(q.radiusKm)));
    }
  }

  /** The chained filters of the handler keep exactly the workers the reference keeps, in the same order. */
  lemma {:induction false} StagesComputeSelected(users: seq<User>, q: Query, geo: Geometry)
    ensures Stages(users, q, geo) == Selected(users, q, geo)
    decreases |users|
  {
    if users != [] {
      var u, rest := users[0], users[1..];
      assert users == [u] + rest;
      calc {
        Stages(users, q, geo);
        { StagesAppend([u], rest, q, geo); }
        Stages([u], q, geo) + Stages(rest, q, geo);
        { StagesSingle(u, q, geo); StagesComputeSelected(rest, q, geo); }
        (if Admitted(q, geo, u) then [Shown(q, geo)(u)] else []) + Selected(rest, q, geo);
        { MapFilterCons(u, rest, Admits(q, geo), Shown(q, geo)); }
        Selected(users, q, geo);
      }
    }
  }

  // ---------------------------------------------------------------------------
  // What the response holds

  /** The record a kept user becomes in the response. */
  function Public(q: Query, geo: Geometry): User -> User {
    u => WithoutPassword(Shown(q, geo)(u))
  }

  /** A response record differs from its stored user only in the distance fields and the password. */
  lemma PublicKeepsRecord(q: Query, geo: Geometry, u: User)
    ensures Public(q, geo)(u).(distanceKm := u.distanceKm, distance := u.distance, password := u.password) == u
    ensures Public(q, geo)(u).password == None
    ensures Admitted(q, geo, Public(q, geo)(u)) == Admitted(q, geo, u)
  {
    assert Public(q, geo)(u) == WithoutPassword(Shown(q, geo)(u));
  }

  /** A stored user appears in the response exactly when the query admits it. */
  lemma PublicExactly(users: seq<User>, q: Query, geo: Geometry, u: User)
    requires u in users
    ensures Public(q, geo)(u) in Map(Selected(users, q, geo), WithoutPassword) <==> Admitted(q, geo, u)
  {
    var kept := Filter(users, Admits(q, geo));
    FilterMembers(users, Admits(q, geo));
    MapMembers(kept, Shown(q, geo));
    MapMembers(Selected(users, q, geo), WithoutPassword);
    if Public(q, geo)(u) in Map(Selected(users, q, geo), WithoutPassword) {
      var s :| s in Selected(users, q, geo) && Public(q, geo)(u) == WithoutPassword(s);
      var u' :| u' in kept && s == Shown(q, geo)(u');
      PublicKeepsRecord(q, geo, u);
      PublicKeepsRecord(q, geo, u');
    } else {
      assert Admitted(q, geo, u) ==> Shown(q, geo)(u) in Selected(users, q, geo);
    }
  }

  /** Every response record comes from a stored user the query admits. */
  lemma PublicSource(users: seq<User>, q: Query, geo: Geometry, r: User) returns (u: User)
    requires r in Map(Selected(users, q, geo), WithoutPassword)
    ensures u in users && Admitted(q, geo, u) && r == Public(q, geo)(u)
  {
    var kept := Filter(users, Admits(q, geo));
    FilterMembers(users, Admits(q, geo));
    MapMembers(kept, Shown(q, geo));
    MapMembers(Selected(users, q, geo), WithoutPassword);
    var s :| s in Selected(users, q, geo) && r == WithoutPassword(s);
    u :| u in kept && s == Shown(q, geo)(u);
  }

  /**
   * Every response record is an admitted worker without its password: of type
   * "worker", matching the search and, with an origin, inside the radius.
   */
  lemma PublicSound(users: seq<User>, q: Query, geo: Geometry, r: User)
    requires r in Map(Selected(users, q, geo), WithoutPassword)
    ensures r.userType == "worker" && r.password == None
    ensures SearchActive(q) ==> Mentions(r, Lower(q.search))
    ensures q.origin.Some? ==> InRadius(r.distanceKm, MaxRadius(q.radiusKm))
    ensures q.origin.Some? ==> Measurable(r.distanceKm)
    ensures q.origin.Some? && r.distanceKm.None? ==> r.distance.None?
  {
    var u := PublicSource(users, q, geo, r);
    PublicKeepsRecord(q, geo, u);
  }

  // ---------------------------------------------------------------------------
  // The sort

  /** The distance the nearest-first comparator reads. */
  function Distance(u: User): Option<Parsed> {
    u.distanceKm
  }

  /** With an origin, no worker the query keeps has a NaN distance. */
  lemma SelectedMeasurable(users: seq<User>, q: Query, geo: Geometry)
    requires q.origin.Some?
    ensures forall u :: u in Selected(users, q, geo) ==> Measurable(u.distanceKm)
  {
    FilterMembers(users, Admits(q, geo));
    MapMembers(Filter(users, Admits(q, geo)), Shown(q, geo));
  }

  /** Removing passwords leaves the distances, and so the distance order, as they were. */
  lemma NearestFirstWithoutPasswords(s: seq<User>)
    requires NearestFirst(s, Distance)
    ensures NearestFirst(Map(s, WithoutPassword), Distance)
  {
  }

  // ---------------------------------------------------------------------------
  // The handler

  /**
   * GET /api/workers over the stored users. Without an origin the response is
   * the admitted workers in stored order; with one it holds the same records,
   * each exactly as often, nearest first.
   */
  method ListWorkers(users: seq<User>, q: Query, geo: Geometry) returns (result: seq<User>)
    ensures multiset(result) == multiset(Map(Selected(users, q, geo), WithoutPassword))
    ensures q.origin.None? ==> result == Map(Selected(users, q, geo), WithoutPassword)
    ensures q.origin.Some? ==> NearestFirst(result, Distance)
  {
    var workers := Filter(users, IsWorker);
    workers := BySearch(workers, q);
    workers := NearOrigin(workers, q, geo);
    StagesComputeSelected(users, q, geo);
    if q.origin.Some? {
      var a := new User[|workers|](i requires 0 <= i < |workers| => workers[i]);
      assert a[..] == workers;
      SortInPlace(a, ByDistance(Distance));
      SelectedMeasurable(users, q, geo);
      forall k | 0 <= k < a.Length ensures Measurable(Distance(a[..][k])) {
        assert a[..][k] in multiset(a[..]);
      }
      NearestFirstFromOrder(a[..], Distance);
      MapPermutation(a[..], workers, WithoutPassword);
      NearestFirstWithoutPasswords(a[..]);
      workers := a[..];
    }
    result := Map(workers, WithoutPassword);
  }
}
