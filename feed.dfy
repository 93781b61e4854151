/**
 * The feed page (app/feed/page.tsx): the listing query, the geolocation
 * fallback, and the ranking effect that filters the listings by title and
 * category and, once a viewer location is known, annotates each with its
 * distance and sorts by it.
 *
 * The great-circle distance is a collaborator the model does not compute: a
 * function from the viewer's and the listing's coordinates to an integer
 * distance, which is all the sort needs.
 */
module Feed {
  import opened Wrappers
  import opened Database
  import opened Seqs
  import opened Text

  datatype Coordinate = Coordinate(lat: real, lng: real)

  /** `calculateDistance(viewer, listing)`. */
  type DistanceFn = (Coordinate, Coordinate) -> int

  /** A listing as the feed shows it: `distance` is absent until a viewer location is known. */
  datatype FeedEntry = FeedEntry(product: Product, distance: Option<int>)

  function Position(p: Product): Coordinate
  {
    Coordinate(p.latitude, p.longitude)
  }

  // ---------------------------------------------------------------------------
  // The listing query: active rows, newest first.

  /** The sort key of `order('created_at', { ascending: false })`. */
  function Recency(p: Product): int
  {
    -(p.createdAt as int)
  }

  predicate IsActive(p: Product)
  {
    p.status == Active
  }

  function ActiveListings(table: seq<Product>): seq<Product>
  {
    SortBy(Filter(table, IsActive), Recency)
  }

  /** The feed query returns exactly the active rows, with their multiplicities, newest first. */
  lemma ActiveListingsSpec(table: seq<Product>)
    ensures forall p :: multiset(ActiveListings(table))[p] == if p.status == Active then multiset(table)[p] else 0
    ensures forall p :: p in ActiveListings(table) <==> p in table && p.status == Active
    ensures forall i, j :: 0 <= i < j < |ActiveListings(table)| ==>
              ActiveListings(table)[i].createdAt >= ActiveListings(table)[j].createdAt
  {
    var r := ActiveListings(table);
    assert multiset(r) == multiset(Filter(table, IsActive));
    forall p ensures p in r <==> p in table && p.status == Active {
      assert p in r <==> p in multiset(r);
    }
    forall i, j | 0 <= i < j < |r| ensures r[i].createdAt >= r[j].createdAt {
      assert Recency(r[i]) <= Recency(r[j]);
    }
  }

  // ---------------------------------------------------------------------------
  // The ranking effect.

  /** The search filter: the lower-cased title contains the lower-cased query. */
  predicate TitleMatches(query: string, p: Product)
  {
    Contains(Lower(p.title), Lower(query))
  }

  /**
   * A listing survives the two filters. An empty query or category is falsy in
   * JavaScript, and then that filter is not applied.
   */
  predicate Survives(query: string, category: string, p: Product)
  {
    (query == "" || TitleMatches(query, p)) && (category == "" || p.category == category)
  }

  function MatchesQuery(query: string): Product -> bool
  {
    (p: Product) => TitleMatches(query, p)
  }

  function InCategory(category: string): Product -> bool
  {
    (p: Product) => p.category == category
  }

  function ByQuery(ps: seq<Product>, query: string): seq<Product>
  {
    if query == "" then ps else Filter(ps, MatchesQuery(query))
  }

  function ByCategory(ps: seq<Product>, category: string): seq<Product>
  {
    if category == "" then ps else Filter(ps, InCategory(category))
  }

  /** The list after the two filters and before any distance is attached. */
  function Filtered(ps: seq<Product>, query: string, category: string): seq<Product>
  {
    ByCategory(ByQuery(ps, query), category)
  }

  /** The listings as they stand when no location is known: no distance attached. */
  function Unranked(ps: seq<Product>): (r: seq<FeedEntry>)
    ensures |r| == |ps|
  {
    seq(|ps|, i requires 0 <= i < |ps| => FeedEntry(ps[i], None))
  }

  /** `filtered.map(p => ({ ...p, distance: calculateDistance(...) }))`. */
  function Annotate(ps: seq<Product>, here: Coordinate, distance: DistanceFn): (r: seq<FeedEntry>)
    ensures |r| == |ps|
  {
    seq(|ps|, i requires 0 <= i < |ps| => FeedEntry(ps[i], Some(distance(here, Position(ps[i])))))
  }

  /** The comparator `a.distance - b.distance`, as a sort key. */
  function DistanceKey(e: FeedEntry): int
  {
    if e.distance.Some? then e.distance.value else 0
  }

  /** The distance of each listing from `here`, as a sort key on listings. */
  function DistanceFrom(distance: DistanceFn, here: Coordinate): Product -> int
  {
    (p: Product) => distance(here, Position(p))
  }

  /** The ranking effect's value of `filtered`, a function of its four inputs. */
  function Rank(ps: seq<Product>, query: string, category: string,
                location: Option<Coordinate>, distance: DistanceFn): seq<FeedEntry>
  {
    var f := Filtered(ps, query, category);
    match location
    case None => Unranked(f)
    case Some(here) => SortBy(Annotate(f, here, distance), DistanceKey)
  }

  /** The listings of a ranked list, without their annotation. */
  function Products(es: seq<FeedEntry>): (r: seq<Product>)
    ensures |r| == |es|
  {
    seq(|es|, i requires 0 <= i < |es| => es[i].product)
  }

  /** The card's distance line: the formatted distance, or a fixed text when there is none. */
  function LocationLabel(e: FeedEntry, format: int -> string): string
  {
    if e.distance.Some? then format(e.distance.value) else "Location unavailable"
  }

  // ---------------------------------------------------------------------------
  // Properties of the ranking.

  /** The survivors of the filters are exactly the listings that pass both, with their multiplicities. */
  lemma FilteredSpec(ps: seq<Product>, query: string, category: string)
    ensures forall p :: multiset(Filtered(ps, query, category))[p]
                      == if Survives(query, category, p) then multiset(ps)[p] else 0
  {
  }

  /** Filtering keeps the survivors' relative order, so a newest-first list stays newest first. */
  lemma FilteredKeepsOrder(ps: seq<Product>, query: string, category: string)
    ensures IsSubseq(Filtered(ps, query, category), ps)
    ensures SortedBy(ps, Recency) ==> SortedBy(Filtered(ps, query, category), Recency)
  {
    var q := ByQuery(ps, query);
    var f := Filtered(ps, query, category);
    if query == "" {
      SubseqReflexive(ps);
    } else {
      FilterIsSubseq(ps, MatchesQuery(query));
    }
    if category == "" {
      SubseqReflexive(q);
    } else {
      FilterIsSubseq(q, InCategory(category));
    }
    SubseqTransitive(f, q, ps);
    if SortedBy(ps, Recency) {
      SubseqSorted(f, ps, Recency);
    }
  }

  /** A list whose every element survives the filters passes through them unchanged. */
  lemma FilteredAllSurvive(ps: seq<Product>, query: string, category: string)
    requires forall i :: 0 <= i < |ps| ==> Survives(query, category, ps[i])
    ensures Filtered(ps, query, category) == ps
  {
    if query != "" {
      FilterAll(ps, MatchesQuery(query));
    }
    if category != "" {
      FilterAll(ps, InCategory(category));
    }
  }

  lemma {:induction false} AnnotateInsert(x: Product, t: seq<Product>, here: Coordinate, distance: DistanceFn)
    ensures InsertBy(FeedEntry(x, Some(distance(here, Position(x)))), Annotate(t, here, distance), DistanceKey)
         == Annotate(InsertBy(x, t, DistanceFrom(distance, here)), here, distance)
  {
    var key := DistanceFrom(distance, here);
    if t == [] || key(x) <= key(t[0]) {
    } else {
      AnnotateInsert(x, t[1..], here, distance);
      assert Annotate(t, here, distance)[1..] == Annotate(t[1..], here, distance);
    }
  }

  /**
   * Annotating and then sorting by distance is sorting the listings by their
   * distance and then annotating them.
   */
  lemma {:induction false} SortAnnotated(ps: seq<Product>, here: Coordinate, distance: DistanceFn)
    ensures SortBy(Annotate(ps, here, distance), DistanceKey)
         == Annotate(SortBy(ps, DistanceFrom(distance, here)), here, distance)
  {
    if ps != [] {
      var key := DistanceFrom(distance, here);
      assert Annotate(ps, here, distance)[1..] == Annotate(ps[1..], here, distance);
      SortAnnotated(ps[1..], here, distance);
      AnnotateInsert(ps[0], SortBy(ps[1..], key), here, distance);
    }
  }

  lemma ProductsAnnotate(ps: seq<Product>, here: Coordinate, distance: DistanceFn)
    ensures Products(Annotate(ps, here, distance)) == ps
  {
  }

  /**
   * Without a viewer location the ranking attaches no distance, keeps the
   * filtered order, and every card reads "Location unavailable".
   */
  lemma RankWithoutLocation(ps: seq<Product>, query: string, category: string,
                            distance: DistanceFn, format: int -> string)
    ensures Products(Rank(ps, query, category, None, distance)) == Filtered(ps, query, category)
    ensures forall e :: e in Rank(ps, query, category, None, distance) ==>
              e.distance == None && LocationLabel(e, format) == "Location unavailable"
  {
    var f := Filtered(ps, query, category);
    assert Products(Unranked(f)) == f;
  }

  /**
   * With a viewer location the ranked listings are a permutation of the filtered
   * ones, each carries its own distance, they are in non-decreasing order of
   * distance, and listings at equal distance keep their filtered order.
   */
  lemma RankWithLocation(ps: seq<Product>, query: string, category: string,
                         here: Coordinate, distance: DistanceFn)
    ensures var r := Rank(ps, query, category, Some(here), distance);
            var f := Filtered(ps, query, category);
            && multiset(Products(r)) == multiset(f)
            && (forall i :: 0 <= i < |r| ==> r[i].distance == Some(distance(here, Position(r[i].product))))
            && (forall i, j :: 0 <= i < j < |r| ==> r[i].distance.value <= r[j].distance.value)
            && (forall k :: KeyClass(Products(r), DistanceFrom(distance, here), k)
                         == KeyClass(f, DistanceFrom(distance, here), k))
  {
    var f := Filtered(ps, query, category);
    var key := DistanceFrom(distance, here);
    var sorted := SortBy(f, key);
    SortAnnotated(f, here, distance);
    var r := Rank(ps, query, category, Some(here), distance);
    assert r == Annotate(sorted, here, distance);
    ProductsAnnotate(sorted, here, distance);
    forall i, j | 0 <= i < j < |r| ensures r[i].distance.value <= r[j].distance.value {
      assert key(sorted[i]) <= key(sorted[j]);
    }
    forall k ensures KeyClass(Products(r), key, k) == KeyClass(f, key, k) {
      SortByStable(f, key, k);
    }
  }

  /** The survivors are exactly the listings that pass the search and category filters, whatever the location. */
  lemma RankSurvivors(ps: seq<Product>, query: string, category: string,
                      location: Option<Coordinate>, distance: DistanceFn)
    ensures forall p :: p in Products(Rank(ps, query, category, location, distance))
                        <==> p in ps && Survives(query, category, p)
  {
    var f := Filtered(ps, query, category);
    var r := Products(Rank(ps, query, category, location, distance));
    if location.Some? {
      RankWithLocation(ps, query, category, location.value, distance);
    } else {
      RankWithoutLocation(ps, query, category, distance, n => "");
    }
    assert multiset(r) == multiset(f);
    forall p ensures p in r <==> p in ps && Survives(query, category, p) {
      assert p in r <==> p in multiset(r);
      assert p in f <==> p in multiset(f);
    }
  }

  /** With both filters empty, the ranking only annotates and sorts the fetched list. */
  lemma RankNoFilters(ps: seq<Product>, location: Option<Coordinate>, distance: DistanceFn)
    ensures multiset(Products(Rank(ps, "", "", location, distance))) == multiset(ps)
    ensures location == None ==> Products(Rank(ps, "", "", location, distance)) == ps
  {
    if location.Some? {
      RankWithLocation(ps, "", "", location.value, distance);
    } else {
      RankWithoutLocation(ps, "", "", distance, n => "");
    }
  }

  /** Matching is case-insensitive: the query's ASCII case does not change the ranking. */
  lemma RankIgnoresQueryCase(ps: seq<Product>, query: string, category: string,
                             location: Option<Coordinate>, distance: DistanceFn)
    ensures Rank(ps, query, category, location, distance) == Rank(ps, Lower(query), category, location, distance)
  {
    LowerIdempotent(query);
    if query != "" {
      FilterAgree(ps, MatchesQuery(query), MatchesQuery(Lower(query)));
    }
  }

  /** Ranking the listings of a ranked list again yields the same list. */
  lemma RerankIsIdentity(ps: seq<Product>, query: string, category: string,
                         location: Option<Coordinate>, distance: DistanceFn)
    ensures var r := Rank(ps, query, category, location, distance);
            Rank(Products(r), query, category, location, distance) == r
  {
    var f := Filtered(ps, query, category);
    var r := Rank(ps, query, category, location, distance);
    RankSurvivors(ps, query, category, location, distance);
    FilteredAllSurvive(Products(r), query, category);
    match location
    case None =>
      RankWithoutLocation(ps, query, category, distance, n => "");
    case Some(here) =>
      var key := DistanceFrom(distance, here);
      SortAnnotated(f, here, distance);
      ProductsAnnotate(SortBy(f, key), here, distance);
      SortAnnotated(SortBy(f, key), here, distance);
      SortByIdempotent(f, key);
  }

  /** Each card's distance line is the formatted distance of its listing once a location is known. */
  lemma RankLabels(ps: seq<Product>, query: string, category: string,
                   here: Coordinate, distance: DistanceFn, format: int -> string)
    ensures var r := Rank(ps, query, category, Some(here), distance);
            forall i :: 0 <= i < |r| ==>
              LocationLabel(r[i], format) == format(distance(here, Position(r[i].product)))
  {
    RankWithLocation(ps, query, category, here, distance);
  }

  // ---------------------------------------------------------------------------
  // The page state.

  /** The reply to `navigator.geolocation.getCurrentPosition`. */
  /** The geolocation answer: no API, a position, or the error callback (denied, unavailable or timed out). */
  datatype GeoReply = Unsupported | Granted(position: Coordinate) | Error

  /** A value the category picker can produce: "" for all categories, or one of the fixed ones. */
  predicate CategoryChoice(c: string)
  {
    c == "" || c in Categories
  }

  class FeedPage {
    var products: seq<Product>
    var filteredProducts: seq<FeedEntry>
    var loading: bool
    var userLocation: Option<Coordinate>
    var searchQuery: string
    var selectedCategory: string
    /** The distance collaborator the page ranks with. */
    const distance: DistanceFn

    constructor (distance: DistanceFn)
      ensures products == [] && filteredProducts == [] && loading
      ensures userLocation == None && searchQuery == "" && selectedCategory == ""
      ensures CategoryChoice(selectedCategory)
      ensures this.distance == distance
    {
      products := [];
      filteredProducts := [];
      loading := true;
      userLocation := None;
      searchQuery := "";
      selectedCategory := "";
      this.distance := distance;
    }

    /**
     * The mount effect's location request: a granted position is taken as is, a
     * denied or failed request becomes (0, 0) rather than "unknown", and without the API the
     * location stays unknown.
     */
    method LocateViewer(reply: GeoReply)
      modifies this`userLocation
      ensures reply.Granted? ==> userLocation == Some(reply.position)
      ensures reply.Error? ==> userLocation == Some(Coordinate(0.0, 0.0))
      ensures reply.Unsupported? ==> userLocation == old(userLocation)
    {
      match reply
      case Granted(position) =>
        userLocation := Some(position);
      case Error =>
        userLocation := Some(Coordinate(0.0, 0.0));
      case Unsupported =>
    }

    /**
     * The listing fetch: on success both lists take the query's rows, still
     * unranked; loading ends whether or not the query succeeded.
     */
    method FetchProducts(table: seq<Product>, ok: bool)
      modifies this`products, this`filteredProducts, this`loading
      ensures !loading
      ensures ok ==> products == ActiveListings(table) && filteredProducts == Unranked(products)
      ensures !ok ==> products == old(products) && filteredProducts == old(filteredProducts)
    {
      if ok {
        var rows := ActiveListings(table);
        products := rows;
        filteredProducts := Unranked(rows);
      }
      loading := false;
    }

    method SetSearchQuery(query: string)
      modifies this`searchQuery
      ensures searchQuery == query
    {
      searchQuery := query;
    }

    /** The picker offers "All Categories" (the empty value) and the fixed categories only. */
    method SetSelectedCategory(category: string)
      requires CategoryChoice(category)
      modifies this`selectedCategory
      ensures selectedCategory == category
    {
      selectedCategory := category;
    }

    /**
     * The ranking effect, which runs after any change of its four inputs; it
     * replaces `filteredProducts` and nothing else.
     */
    method RankingEffect()
      modifies this`filteredProducts
      ensures filteredProducts == Rank(products, searchQuery, selectedCategory, userLocation, distance)
    {
      filteredProducts := Rank(products, searchQuery, selectedCategory, userLocation, distance);
    }
  }

  /** Right after a successful fetch the grid shows exactly the fetched listings, newest first. */
  lemma FetchedListsAgree(table: seq<Product>)
    ensures Products(Unranked(ActiveListings(table))) == ActiveListings(table)
    ensures forall e :: e in Unranked(ActiveListings(table)) ==> e.distance == None
  {
  }
}
