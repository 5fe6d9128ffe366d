/**
 * GET /api/gigs: the category filter, the text search, the distance annotation
 * with its radius filter, and the sort, applied in that order to the stored gigs.
 */
module GigQuery {
  import opened Common
  import opened Lists
  import opened Text
  import opened Ordering
  import opened Records
  import opened Geo

  /**
   * The query parameters. An empty `category`, `search` or `sort` stands for a
   * missing one (both are falsy); `origin` is present when `lat` and `lng` both
   * are, and `radiusKm` is `None` when that parameter is missing or empty.
   */
  datatype Query = Query(
    category: string,
    search: string,
    sort: string,
    origin: Option<Origin>,
    radiusKm: Option<Parsed>)

  predicate CategoryActive(q: Query) {
    q.category != "" && q.category != "all"
  }

  predicate SearchActive(q: Query) {
    q.search != ""
  }

  // ---------------------------------------------------------------------------
  // Payment as a sort key

  /**
   * `parseFloat(payment.replace(/[^\d]/g, ''))`: the number spelled by the
   * digits of the payment, or `None` where JavaScript gets NaN (no digits).
   */
  function PaymentKey(payment: string): (k: Option<nat>)
    ensures k.None? <==> forall c :: c in payment ==> !IsDigit(c)
  {
    var digits := DigitsOnly(payment);
    if digits == [] then None
    else
      assert digits[0] in digits;
      Some(ValueOf(digits))
  }

  /** A currency sign and a unit around a number do not change its key. */
  lemma PaymentKeyOfAmount(prefix: string, amount: nat, suffix: string)
    requires forall c :: c in prefix + suffix ==> !IsDigit(c)
    ensures PaymentKey(prefix + Decimal(amount) + suffix) == Some(amount)
  {
    DigitsAroundNumeral(prefix, Decimal(amount), suffix);
  }

  lemma ValueOf600()
    ensures AllDigits("600") && ValueOf("600") == 600
  {
    assert "600"[..2] == "60";
    assert "60"[..1] == "6";
    assert "6"[..0] == "";
  }

  /** A price per unit: only the amount's digits are read. */
  lemma PaymentKeyPerUnit()
    ensures PaymentKey("₹600/person") == Some(600)
  {
    DigitsAroundNumeral("₹", "600", "/person");
    assert "₹" + "600" + "/person" == "₹600/person";
    ValueOf600();
  }

  /**
   * The decimal point is stripped with every other non-digit, so the digits after
   * it are read as more digits of the whole number: an amount written
   * `whole.fraction` is worth `whole * 10^|fraction| + fraction`.
   */
  lemma PaymentKeyOfDecimal(prefix: string, whole: string, fraction: string, suffix: string)
    requires AllDigits(whole) && AllDigits(fraction)
    requires forall c :: c in prefix ==> !IsDigit(c)
    requires forall c :: c in suffix ==> !IsDigit(c)
    ensures PaymentKey(prefix + whole + "." + fraction + suffix)
         == if whole + fraction == "" then None else Some(ValueOf(whole) * Pow10(|fraction|) + ValueOf(fraction))
  {
    var payment := prefix + whole + "." + fraction + suffix;
    DigitsAroundPoint(prefix, whole, fraction, suffix);
    ValueOfAppend(whole, fraction);
    var n := ValueOf(whole) * Pow10(|fraction|) + ValueOf(fraction);
    assert DigitsOnly(payment) == whole + fraction;
    assert ValueOf(whole + fraction) == n;
  }

  /** "₹12.50" is read as 1250. */
  lemma PaymentKeyDecimalPoint()
    ensures PaymentKey("₹12.50") == Some(1250)
  {
    assert "12"[..1] == "1" && "1"[..0] == "";
    assert ValueOf("12") == 12;
    assert "50"[..1] == "5" && "5"[..0] == "";
    assert ValueOf("50") == 50;
    assert Pow10(|"50"|) == 100;
    assert "12" + "50" != "";
    assert "₹" + "12" + "." + "50" + "" == "₹12.50";
    PaymentKeyOfDecimal("₹", "12", "50", "");
  }

  /** A payment with no digits has no numeric value (NaN in JavaScript). */
  lemma PaymentKeyNoDigits()
    ensures PaymentKey("Negotiable") == None
  {
  }

  // ---------------------------------------------------------------------------
  // The pipeline stages, as the handler chains them

  function CategoryIs(category: string): Gig -> bool {
    (g: Gig) => g.category == category
  }

  /** The lower-cased title, description or category contains `term`. */
  predicate Mentions(g: Gig, term: string) {
    || Contains(Lower(g.title), term)
    || Contains(Lower(g.description), term)
    || Contains(Lower(g.category), term)
  }

  function MentionsTerm(term: string): Gig -> bool {
    g => Mentions(g, term)
  }

  /** `g.distance || null`: an empty label counts as none. */
  function StaticLabel(distance: Option<string>): Option<string> {
    if distance == Some("") then None else distance
  }

  /** `{ ...g, distanceKm: dKm, distance: dKm != null ? formatDistance(dKm) : g.distance || null }` */
  function Measured(geo: Geometry, here: Point, g: Gig): Gig {
    var d := DistanceFrom(geo, here, g.lat, g.lng);
    g.(distanceKm := d,
       distance := if d.Some? then Label(geo, d.value) else StaticLabel(g.distance))
  }

  function MeasureFrom(geo: Geometry, here: Point): Gig -> Gig {
    g => Measured(geo, here, g)
  }

  function WithinRadius(maxRadius: Parsed): Gig -> bool {
    (g: Gig) => InRadius(g.distanceKm, maxRadius)
  }

  function ByCategory(gigs: seq<Gig>, q: Query): seq<Gig> {
    FilterIf(gigs, CategoryActive(q), CategoryIs(q.category))
  }

  function BySearch(gigs: seq<Gig>, q: Query): seq<Gig> {
    FilterIf(gigs, SearchActive(q), MentionsTerm(Lower(q.search)))
  }

  function NearOrigin(gigs: seq<Gig>, q: Query, geo: Geometry): seq<Gig> {
    match q.origin
    case None => gigs
    case Some(o) => Filter(Map(gigs, MeasureFrom(geo, Here(o))), WithinRadius(MaxRadius(q.radiusKm)))
  }

  function Stages(gigs: seq<Gig>, q: Query, geo: Geometry): seq<Gig> {
    NearOrigin(BySearch(ByCategory(gigs, q), q), q, geo)
  }

  // ---------------------------------------------------------------------------
  // The reference: one decision per stored gig

  predicate CategoryOk(q: Query, g: Gig) {
    CategoryActive(q) ==> g.category == q.category
  }

  predicate SearchOk(q: Query, g: Gig) {
    SearchActive(q) ==> Mentions(g, Lower(q.search))
  }

  predicate RadiusOk(q: Query, geo: Geometry, g: Gig) {
    q.origin.Some? ==> InRadius(DistanceFrom(geo, Here(q.origin.value), g.lat, g.lng), MaxRadius(q.radiusKm))
  }

  /** The query keeps the stored gig `g`. */
  predicate Admitted(q: Query, geo: Geometry, g: Gig) {
    CategoryOk(q, g) && SearchOk(q, g) && RadiusOk(q, geo, g)
  }

  function Admits(q: Query, geo: Geometry): Gig -> bool {
    g => Admitted(q, geo, g)
  }

  /** How a kept gig appears in the response. */
  function Shown(q: Query, geo: Geometry): Gig -> Gig {
    g => if q.origin.Some? then Measured(geo, Here(q.origin.value), g) else g
  }

  /** The gigs the query keeps, in stored order, each as the response shows it. */
  function Selected(gigs: seq<Gig>, q: Query, geo: Geometry): seq<Gig> {
    Map(Filter(gigs, Admits(q, geo)), Shown(q, geo))
  }

  lemma StagesAppend(a: seq<Gig>, b: seq<Gig>, q: Query, geo: Geometry)
    ensures Stages(a + b, q, geo) == Stages(a, q, geo) + Stages(b, q, geo)
  {
    var a1, b1 := ByCategory(a, q), ByCategory(b, q);
    FilterIfAppend(a, b, CategoryActive(q), CategoryIs(q.category));
    assert ByCategory(a + b, q) == a1 + b1;
    var a2, b2 := BySearch(a1, q), BySearch(b1, q);
    FilterIfAppend(a1, b1, SearchActive(q), MentionsTerm(Lower(q.search)));
    assert BySearch(a1 + b1, q) == a2 + b2;
    if q.origin.Some? {
      FilterMapAppend(a2, b2, MeasureFrom(geo, Here(q.origin.value)), WithinRadius(MaxRadius(q.radiusKm)));
    }
    assert NearOrigin(a2 + b2, q, geo) == NearOrigin(a2, q, geo) + NearOrigin(b2, q, geo);
  }

  lemma StagesSingle(g: Gig, q: Query, geo: Geometry)
    ensures Stages([g], q, geo) == if Admitted(q, geo, g) then [Shown(q, geo)(g)] else []
  {
    FilterSingle(g, CategoryIs(q.category));
    FilterSingle(g, MentionsTerm(Lower(q.search)));
    var s := BySearch(ByCategory([g], q), q);
    assert s == if CategoryOk(q, g) && SearchOk(q, g) then [g] else [];
    if q.origin.Some? && s == [g] {
      var m := Measured(geo, Here(q.origin.value), g);
      assert Map([g], MeasureFrom(geo, Here(q.origin.value))) == [m];
      FilterSingle(m, WithinRadius(MaxRadius(q.radiusKm)));
    }
  }

  /** The chained filters of the handler keep exactly the gigs the reference keeps, in the same order. */
  lemma {:induction false} StagesComputeSelected(gigs: seq<Gig>, q: Query, geo: Geometry)
    ensures Stages(gigs, q, geo) == Selected(gigs, q, geo)
    decreases |gigs|
  {
    if gigs != [] {
      var g, rest := gigs[0], gigs[1..];
      assert gigs == [g] + rest;
      calc {
        Stages(gigs, q, geo);
        { StagesAppend([g], rest, q, geo); }
        Stages([g], q, geo) + Stages(rest, q, geo);
        { StagesSingle(g, q, geo); StagesComputeSelected(rest, q, geo); }
        (if Admitted(q, geo, g) then [Shown(q, geo)(g)] else []) + Selected(rest, q, geo);
        { MapFilterCons(g, rest, Admits(q, geo), Shown(q, geo)); }
        Selected(gigs, q, geo);
      }
    }
  }

  // ---------------------------------------------------------------------------
  // What the reference keeps

  /** Measuring a gig changes only its two distance fields. */
  lemma ShownKeepsRecord(q: Query, geo: Geometry, g: Gig)
    ensures Shown(q, geo)(g).(distanceKm := g.distanceKm, distance := g.distance) == g
    ensures Admitted(q, geo, Shown(q, geo)(g)) == Admitted(q, geo, g)
  {
  }

  /** A stored gig appears in the result exactly when the query admits it. */
  lemma SelectedExactly(gigs: seq<Gig>, q: Query, geo: Geometry, g: Gig)
    requires g in gigs
    ensures Shown(q, geo)(g) in Selected(gigs, q, geo) <==> Admitted(q, geo, g)
  {
    FilterMembers(gigs, Admits(q, geo));
    MapMembers(Filter(gigs, Admits(q, geo)), Shown(q, geo));
    if Shown(q, geo)(g) in Selected(gigs, q, geo) {
      var g' :| g' in Filter(gigs, Admits(q, geo)) && Shown(q, geo)(g) == Shown(q, geo)(g');
      ShownKeepsRecord(q, geo, g);
      ShownKeepsRecord(q, geo, g');
    }
  }

  /**
   * Every gig of the result is a stored gig the query admits, shown with its
   * distance fields replaced, and it passes each filter of the handler.
   */
  lemma SelectedSound(gigs: seq<Gig>, q: Query, geo: Geometry, r: Gig)
    requires r in Selected(gigs, q, geo)
    ensures exists g :: g in gigs && Admitted(q, geo, g) && r == Shown(q, geo)(g)
    ensures q.origin.None? ==> r in gigs
    ensures CategoryActive(q) ==> r.category == q.category
    ensures SearchActive(q) ==> Mentions(r, Lower(q.search))
    ensures q.origin.Some? ==> InRadius(r.distanceKm, MaxRadius(q.radiusKm))
    ensures q.origin.Some? ==> (r.distanceKm.Some? <==> r.lat.Some? && r.lng.Some?)
    ensures q.origin.Some? ==> Measurable(r.distanceKm)
  {
    FilterMembers(gigs, Admits(q, geo));
    MapMembers(Filter(gigs, Admits(q, geo)), Shown(q, geo));
    var g :| g in Filter(gigs, Admits(q, geo)) && r == Shown(q, geo)(g);
    assert Admitted(q, geo, g);
  }

  /**
   * With an origin, a gig without coordinates is never dropped by the radius:
   * it is kept with no `distanceKm` and its stored label, if it has one.
   */
  lemma UnlocatedGigsKept(gigs: seq<Gig>, q: Query, geo: Geometry, g: Gig)
    requires g in gigs && q.origin.Some?
    requires g.lat.None? || g.lng.None?
    requires CategoryOk(q, g) && SearchOk(q, g)
    ensures Shown(q, geo)(g) in Selected(gigs, q, geo)
    ensures Shown(q, geo)(g).distanceKm.None?
    ensures Shown(q, geo)(g).distance == StaticLabel(g.distance)
  {
    SelectedExactly(gigs, q, geo, g);
  }

  /** With an origin, no gig of the result has a NaN distance. */
  lemma SelectedMeasurable(gigs: seq<Gig>, q: Query, geo: Geometry)
    requires q.origin.Some?
    ensures forall r :: r in Selected(gigs, q, geo) ==> Measurable(r.distanceKm)
  {
    forall r | r in Selected(gigs, q, geo) ensures Measurable(r.distanceKm) {
      SelectedSound(gigs, q, geo, r);
    }
  }

  /**
   * A gig whose distance comes out NaN is dropped: `NaN <= maxRadius` is false
   * and NaN is not null, whatever the radius.
   */
  lemma NaNDistanceDropped(gigs: seq<Gig>, q: Query, geo: Geometry, g: Gig)
    requires g in gigs && q.origin.Some?
    requires DistanceFrom(geo, Here(q.origin.value), g.lat, g.lng) == Some(Parsed.NaN)
    ensures Shown(q, geo)(g) !in Selected(gigs, q, geo)
    ensures Shown(q, geo)(g).distance.None?
  {
    SelectedExactly(gigs, q, geo, g);
  }

  /** A radius that is not a number admits no measured gig: only gigs without coordinates remain. */
  lemma NaNRadiusKeepsOnlyUnlocated(gigs: seq<Gig>, q: Query, geo: Geometry, r: Gig)
    requires q.origin.Some? && MaxRadius(q.radiusKm) == Parsed.NaN
    requires r in Selected(gigs, q, geo)
    ensures r.distanceKm.None? && (r.lat.None? || r.lng.None?)
  {
    SelectedSound(gigs, q, geo, r);
  }

  // ---------------------------------------------------------------------------
  // The sort

  /** Which comparator the handler sorts with. */
  datatype SortMode = PriceLow | PriceHigh | Nearest | Newest

  /** "distance" sorts by distance only when an origin was given; anything else sorts newest first. */
  function ModeOf(q: Query): SortMode {
    if q.sort == "price-low" then PriceLow
    else if q.sort == "price-high" then PriceHigh
    else if q.sort == "distance" && q.origin.Some? then Nearest
    else Newest
  }

  /** The payment as a number: NaN when it has no digits. */
  function PriceKey(g: Gig): Number {
    match PaymentKey(g.payment)
    case None => Number.NaN
    case Some(n) => Finite(n as real)
  }

  /** `(a, b) => price(b) - price(a)` is `(a, b) => key(a) - key(b)` with the price negated. */
  function NegatedPriceKey(g: Gig): Number {
    match PaymentKey(g.payment)
    case None => Number.NaN
    case Some(n) => Finite(-(n as real))
  }

  /** The distance the nearest-first comparator reads. */
  function Distance(g: Gig): Option<Parsed> {
    g.distanceKm
  }

  /** `(a, b) => date(b) - date(a)` is `(a, b) => key(a) - key(b)` with the time negated. */
  function AgeKey(g: Gig): Number {
    Finite(-(g.createdAt as real))
  }

  function KeyFor(m: SortMode): Gig -> Number {
    match m
    case PriceLow => PriceKey
    case PriceHigh => NegatedPriceKey
    case Nearest => ByDistance(Distance)
    case Newest => AgeKey
  }

  predicate Priced(g: Gig) {
    PaymentKey(g.payment).Some?
  }

  predicate NewestFirst(s: seq<Gig>) {
    forall i, j :: 0 <= i < j < |s| ==> s[i].createdAt >= s[j].createdAt
  }

  predicate CheapestFirst(s: seq<Gig>)
  {
    forall i, j :: 0 <= i < j < |s| && Priced(s[i]) && Priced(s[j]) ==>
      PaymentKey(s[i].payment).value <= PaymentKey(s[j].payment).value
  }

  predicate DearestFirst(s: seq<Gig>)
  {
    forall i, j :: 0 <= i < j < |s| && Priced(s[i]) && Priced(s[j]) ==>
      PaymentKey(s[i].payment).value >= PaymentKey(s[j].payment).value
  }

  lemma NewestFirstFromOrder(s: seq<Gig>)
    requires AdjacentInOrder(s, AgeKey)
    ensures NewestFirst(s)
  {
    OrderedFromAdjacent(s, AgeKey);
    forall i, j | 0 <= i < j < |s| ensures s[i].createdAt >= s[j].createdAt {
      assert InOrder(AgeKey(s[i]), AgeKey(s[j]));
    }
  }

  lemma CheapestFirstFromOrder(s: seq<Gig>)
    requires forall k :: 0 <= k < |s| ==> Priced(s[k])
    requires AdjacentInOrder(s, PriceKey)
    ensures CheapestFirst(s)
  {
    OrderedFromAdjacent(s, PriceKey);
    forall i, j | 0 <= i < j < |s|
      ensures PaymentKey(s[i].payment).value <= PaymentKey(s[j].payment).value
    {
      assert InOrder(PriceKey(s[i]), PriceKey(s[j]));
    }
  }

  lemma DearestFirstFromOrder(s: seq<Gig>)
    requires forall k :: 0 <= k < |s| ==> Priced(s[k])
    requires AdjacentInOrder(s, NegatedPriceKey)
    ensures DearestFirst(s)
  {
    OrderedFromAdjacent(s, NegatedPriceKey);
    forall i, j | 0 <= i < j < |s|
      ensures PaymentKey(s[i].payment).value >= PaymentKey(s[j].payment).value
    {
      assert InOrder(NegatedPriceKey(s[i]), NegatedPriceKey(s[j]));
    }
  }

  // ---------------------------------------------------------------------------
  // The handler

  /**
   * GET /api/gigs over the stored gigs: the filters in the handler's order, then
   * the sort in place. The response holds the admitted gigs as `Selected` shows
   * them, each exactly as often, ordered by the requested comparator.
   */
  method ListGigs(gigs: seq<Gig>, q: Query, geo: Geometry) returns (result: seq<Gig>)
    ensures multiset(result) == multiset(Selected(gigs, q, geo))
    ensures AdjacentInOrder(result, KeyFor(ModeOf(q)))
    ensures ModeOf(q) == Newest ==> NewestFirst(result)
    ensures ModeOf(q) == Nearest ==> NearestFirst(result, Distance)
    ensures ModeOf(q) == PriceLow && (forall k :: 0 <= k < |result| ==> Priced(result[k])) ==> CheapestFirst(result)
    ensures ModeOf(q) == PriceHigh && (forall k :: 0 <= k < |result| ==> Priced(result[k])) ==> DearestFirst(result)
  {
    var filtered := gigs;
    filtered := ByCategory(filtered, q);
    filtered := BySearch(filtered, q);
    filtered := NearOrigin(filtered, q, geo);
    StagesComputeSelected(gigs, q, geo);

    var a := new Gig[|filtered|](i requires 0 <= i < |filtered| => filtered[i]);
    assert a[..] == filtered;
    var key := KeyFor(ModeOf(q));
    SortInPlace(a, key);
    result := a[..];

    match ModeOf(q)
    case Newest => NewestFirstFromOrder(result);
    case Nearest =>
      SelectedMeasurable(gigs, q, geo);
      forall k | 0 <= k < |result| ensures Measurable(Distance(result[k])) {
        assert result[k] in multiset(result);
      }
      NearestFirstFromOrder(result, Distance);
    case PriceLow =>
      if forall k :: 0 <= k < |result| ==> Priced(result[k]) {
        CheapestFirstFromOrder(result);
      }
    case PriceHigh =>
      if forall k :: 0 <= k < |result| ==> Priced(result[k]) {
        DearestFirstFromOrder(result);
      }
  }
}
