/** The recommendation block of the storefront: four id lists fetched from
    analytics, each shown as a panel that resolves its ids to products. */
module RecommendationContainer {
  import opened Wrappers
  import opened Types
  import opened Recommendations
  import AnalyticsService

  /** One `RecommendationSection`: its products, loading flag and error. */
  class SectionState {
    var products: seq<Product>
    var loading: bool
    var error: Option<string>

    constructor ()
      ensures products == [] && loading && error == None
    {
      products, loading, error := [], true, None;
    }

    /** The section's effect: a non-empty id list is resolved (the products
        replace the old ones, the error is cleared); an empty one only ends
        loading, without any lookup. */
    method Load(productIds: seq<int>, maxItems: int, lookup: int -> Result<Product, string>)
      modifies this
      ensures !loading
      ensures |productIds| > 0 ==> products == PanelProducts(productIds, maxItems, lookup) && error == None
      ensures |productIds| == 0 ==> products == old(products) && error == old(error)
    {
      if |productIds| > 0 {
        loading := true;
        error := None;
        var limitedIds := Take(productIds, maxItems);
        products := Settled.Resolve(limitedIds, lookup);
        loading := false;
      } else {
        loading := false;
      }
    }

    function View(maxItems: int): (r: View)
      reads this
      ensures r == PanelView(loading, error, products, maxItems)
      ensures r.Grid? ==> |r.products| > 0
    {
      PanelView(loading, error, products, maxItems)
    }
  }

  /** A fresh section given no ids shows the empty message. */
  method EmptySectionMessage(maxItems: int, lookup: int -> Result<Product, string>) returns (view: View)
    ensures view == Message(NoRecommendations)
  {
    var section := new SectionState();
    section.Load([], maxItems, lookup);
    view := section.View(maxItems);
  }

  /** A fresh section whose lookups all fail also shows the empty message. */
  method FailedLookupsMessage(productIds: seq<int>, maxItems: int, lookup: int -> Result<Product, string>) returns (view: View)
    requires forall id :: lookup(id).Err?
    ensures view == Message(NoRecommendations)
  {
    var section := new SectionState();
    section.Load(productIds, maxItems, lookup);
    if |productIds| > 0 {
      var outcomes := Settled.Lookups(Take(productIds, maxItems), lookup);
      assert forall k :: 0 <= k < |outcomes| ==> outcomes[k].Err? by {
        forall k | 0 <= k < |outcomes| ensures outcomes[k].Err? {
          var id := Take(productIds, maxItems)[k];
          assert outcomes[k] == lookup(id);
          assert lookup(id).Err?;
        }
      }
      Settled.NoneFulfilled(outcomes);
    }
    view := section.View(maxItems);
  }

  /** A section's product click: a view is recorded only for a signed-in
      user; navigation always follows. */
  method SectionClick(analytics: AnalyticsService.AnalyticsService, product: Product, userId: Option<string>, timestamp: nat, suffix: string)
    returns (posted: Option<AnalyticsService.Event>, navigateTo: Route)
    modifies analytics.session`analyticsSessionId
    ensures navigateTo == ProductPage(product.id)
    ensures posted.Some? <==> Truthy(userId)
    ensures posted.Some? ==> posted.value.userId == userId
    ensures !Truthy(userId) ==> analytics.session.analyticsSessionId == old(analytics.session.analyticsSessionId)
  {
    posted, navigateTo := ClickProduct(analytics, product, Truthy(userId), userId.GetOr(""), timestamp, suffix);
  }

  /** The analytics reads the block issues, with their limits. */
  datatype Call =
    | TrendingCall(limit: nat)
    | UserRecommendationsCall(userId: string, limit: nat)
    | SimilarCall(productId: string, limit: nat)
    | FrequentlyBoughtCall(productId: string, limit: nat)

  datatype Kind = RecommendedForYou | SimilarProducts | FrequentlyBoughtTogether | TrendingNow

  function Rank(kind: Kind): nat {
    match kind
    case RecommendedForYou => 0
    case SimilarProducts => 1
    case FrequentlyBoughtTogether => 2
    case TrendingNow => 3
  }

  function Title(kind: Kind): string {
    match kind
    case RecommendedForYou => "Recommended for You"
    case SimilarProducts => "Similar Products"
    case FrequentlyBoughtTogether => "Frequently Bought Together"
    case TrendingNow => "Trending Now"
  }

  /** A section as the block places it: its kind, its ids and its size. */
  datatype Panel = Panel(kind: Kind, productIds: seq<int>, maxItems: nat)

  predicate Ordered(panels: seq<Panel>) {
    forall i, j :: 0 <= i < j < |panels| ==> Rank(panels[i].kind) < Rank(panels[j].kind)
  }

  function Shown(shown: bool, panel: Panel): (r: seq<Panel>)
    ensures |r| <= 1
    ensures forall x :: x in r <==> shown && x == panel
  {
    if shown then [panel] else []
  }

  /** Some panel in the list has the given kind. */
  predicate HasKind(panels: seq<Panel>, kind: Kind) {
    panels != [] && (panels[0].kind == kind || HasKind(panels[1..], kind))
  }

  lemma {:induction false} HasKindConcat(a: seq<Panel>, b: seq<Panel>, kind: Kind)
    ensures HasKind(a + b, kind) <==> HasKind(a, kind) || HasKind(b, kind)
  {
    if a != [] {
      assert (a + b)[1..] == a[1..] + b;
      HasKindConcat(a[1..], b, kind);
    } else {
      assert a + b == b;
    }
  }

  lemma HasKindShown(shown: bool, panel: Panel, kind: Kind)
    ensures HasKind(Shown(shown, panel), kind) <==> shown && panel.kind == kind
  {
    if shown {
      assert Shown(shown, panel)[1..] == [];
    }
  }

  /** A panel of rank k placed before panels of higher rank keeps the order. */
  lemma PrependOrdered(part: seq<Panel>, rest: seq<Panel>, k: nat)
    requires |part| <= 1 && forall x :: x in part ==> Rank(x.kind) == k
    requires Ordered(rest) && forall x :: x in rest ==> Rank(x.kind) > k
    ensures Ordered(part + rest) && forall x :: x in part + rest ==> Rank(x.kind) >= k
  {
    var r := part + rest;
    forall i, j | 0 <= i < j < |r| ensures Rank(r[i].kind) < Rank(r[j].kind) {
      if i < |part| {
        assert r[i] in part && r[j] == rest[j - |part|] && rest[j - |part|] in rest;
      } else {
        assert r[i] == rest[i - |part|] && r[j] == rest[j - |part|];
      }
    }
  }

  lemma OrderedFour(b0: bool, x0: Panel, b1: bool, x1: Panel, b2: bool, x2: Panel, b3: bool, x3: Panel)
    requires Rank(x0.kind) == 0 && Rank(x1.kind) == 1 && Rank(x2.kind) == 2 && Rank(x3.kind) == 3
    ensures Ordered(Shown(b0, x0) + (Shown(b1, x1) + (Shown(b2, x2) + Shown(b3, x3))))
  {
    var p3 := Shown(b3, x3);
    var p2 := Shown(b2, x2) + p3;
    PrependOrdered(Shown(b2, x2), p3, 2);
    var p1 := Shown(b1, x1) + p2;
    PrependOrdered(Shown(b1, x1), p2, 1);
    PrependOrdered(Shown(b0, x0), p1, 0);
  }

  lemma KindsOfFour(b0: bool, x0: Panel, b1: bool, x1: Panel, b2: bool, x2: Panel, b3: bool, x3: Panel, kind: Kind)
    ensures HasKind(Shown(b0, x0) + (Shown(b1, x1) + (Shown(b2, x2) + Shown(b3, x3))), kind) <==>
      (b0 && x0.kind == kind) || (b1 && x1.kind == kind) || (b2 && x2.kind == kind) || (b3 && x3.kind == kind)
  {
    HasKindConcat(Shown(b2, x2), Shown(b3, x3), kind);
    HasKindConcat(Shown(b1, x1), Shown(b2, x2) + Shown(b3, x3), kind);
    HasKindConcat(Shown(b0, x0), Shown(b1, x1) + (Shown(b2, x2) + Shown(b3, x3)), kind);
    HasKindShown(b0, x0, kind);
    HasKindShown(b1, x1, kind);
    HasKindShown(b2, x2, kind);
    HasKindShown(b3, x3, kind);
  }

  class ContainerState {
    var trendingProducts: seq<int>
    var userRecommendations: seq<int>
    var similarProducts: seq<int>
    var frequentlyBought: seq<int>
    var loading: bool

    constructor ()
      ensures trendingProducts == [] && userRecommendations == [] && similarProducts == [] && frequentlyBought == []
      ensures loading
    {
      trendingProducts, userRecommendations, similarProducts, frequentlyBought := [], [], [], [];
      loading := true;
    }

    /** `fetchRecommendations`. Trending comes first; its failure ends the
        fetch. User recommendations are fetched for a signed-in user and a
        failure keeps the old list. Similar and frequently-bought ids are
        fetched together on a product page, and are stored only when both
        arrive. `calls` lists the reads issued. */
    method FetchRecommendations(userId: Option<string>, currentProductId: Option<string>,
                                trending: Result<seq<int>, ApiError>, userRecs: Result<seq<int>, ApiError>,
                                similar: Result<seq<int>, ApiError>, frequent: Result<seq<int>, ApiError>)
      returns (calls: seq<Call>)
      modifies this
      ensures !loading
      ensures trending.Err? ==>
        calls == [TrendingCall(8)] &&
        trendingProducts == old(trendingProducts) && userRecommendations == old(userRecommendations) &&
        similarProducts == old(similarProducts) && frequentlyBought == old(frequentlyBought)
      ensures trending.Ok? ==>
        trendingProducts == trending.value &&
        calls == [TrendingCall(8)] +
          (if Truthy(userId) then [UserRecommendationsCall(userId.value, 6)] else []) +
          (if Truthy(currentProductId) then [SimilarCall(currentProductId.value, 4), FrequentlyBoughtCall(currentProductId.value, 4)] else []) &&
        userRecommendations == (if Truthy(userId) && userRecs.Ok? then userRecs.value else old(userRecommendations)) &&
        (Truthy(currentProductId) && similar.Ok? && frequent.Ok? ==>
          similarProducts == similar.value && frequentlyBought == frequent.value) &&
        (!(Truthy(currentProductId) && similar.Ok? && frequent.Ok?) ==>
          similarProducts == old(similarProducts) && frequentlyBought == old(frequentlyBought))
    {
      loading := true;
      calls := [TrendingCall(8)];
      if trending.Ok? {
        trendingProducts := trending.value;
        if Truthy(userId) {
          calls := calls + [UserRecommendationsCall(userId.value, 6)];
          if userRecs.Ok? {
            userRecommendations := userRecs.value;
          }
        }
        if Truthy(currentProductId) {
          calls := calls + [SimilarCall(currentProductId.value, 4), FrequentlyBoughtCall(currentProductId.value, 4)];
          if similar.Ok? && frequent.Ok? {
            similarProducts := similar.value;
            frequentlyBought := frequent.value;
          }
        }
      }
      loading := false;
    }

    /** The panels shown after loading, in the block's fixed order:
        recommended for you, similar, frequently bought together, trending. */
    function Panels(userId: Option<string>, currentProductId: Option<string>): (r: seq<Panel>)
      reads this
      ensures |r| <= 4
    {
      Shown(Truthy(userId) && |userRecommendations| > 0, Panel(RecommendedForYou, userRecommendations, 4)) +
      (Shown(Truthy(currentProductId) && |similarProducts| > 0, Panel(SimilarProducts, similarProducts, 4)) +
       (Shown(Truthy(currentProductId) && |frequentlyBought| > 0, Panel(FrequentlyBoughtTogether, frequentlyBought, 4)) +
        Shown(|trendingProducts| > 0, Panel(TrendingNow, trendingProducts, 6))))
    }

    /** The panels never appear out of that order. */
    lemma PanelsOrdered(userId: Option<string>, currentProductId: Option<string>)
      ensures Ordered(Panels(userId, currentProductId))
    {
      OrderedFour(Truthy(userId) && |userRecommendations| > 0, Panel(RecommendedForYou, userRecommendations, 4),
                  Truthy(currentProductId) && |similarProducts| > 0, Panel(SimilarProducts, similarProducts, 4),
                  Truthy(currentProductId) && |frequentlyBought| > 0, Panel(FrequentlyBoughtTogether, frequentlyBought, 4),
                  |trendingProducts| > 0, Panel(TrendingNow, trendingProducts, 6));
    }

    lemma PanelKinds(userId: Option<string>, currentProductId: Option<string>, kind: Kind)
      ensures HasKind(Panels(userId, currentProductId), kind) <==>
        (Truthy(userId) && |userRecommendations| > 0 && kind == RecommendedForYou) ||
        (Truthy(currentProductId) && |similarProducts| > 0 && kind == SimilarProducts) ||
        (Truthy(currentProductId) && |frequentlyBought| > 0 && kind == FrequentlyBoughtTogether) ||
        (|trendingProducts| > 0 && kind == TrendingNow)
    {
      KindsOfFour(Truthy(userId) && |userRecommendations| > 0, Panel(RecommendedForYou, userRecommendations, 4),
                  Truthy(currentProductId) && |similarProducts| > 0, Panel(SimilarProducts, similarProducts, 4),
                  Truthy(currentProductId) && |frequentlyBought| > 0, Panel(FrequentlyBoughtTogether, frequentlyBought, 4),
                  |trendingProducts| > 0, Panel(TrendingNow, trendingProducts, 6), kind);
    }

    /** Each panel is shown exactly when its context is present and its
        list is non-empty. */
    lemma PanelPresence(userId: Option<string>, currentProductId: Option<string>)
      ensures HasKind(Panels(userId, currentProductId), RecommendedForYou) <==> Truthy(userId) && |userRecommendations| > 0
      ensures HasKind(Panels(userId, currentProductId), SimilarProducts) <==> Truthy(currentProductId) && |similarProducts| > 0
      ensures HasKind(Panels(userId, currentProductId), FrequentlyBoughtTogether) <==> Truthy(currentProductId) && |frequentlyBought| > 0
      ensures HasKind(Panels(userId, currentProductId), TrendingNow) <==> |trendingProducts| > 0
    {
      PanelKinds(userId, currentProductId, RecommendedForYou);
      PanelKinds(userId, currentProductId, SimilarProducts);
      PanelKinds(userId, currentProductId, FrequentlyBoughtTogether);
      PanelKinds(userId, currentProductId, TrendingNow);
    }

    /** A shown panel carries its own list, and the sizes 4, 4, 4 and 6. */
    lemma PanelContents(userId: Option<string>, currentProductId: Option<string>, p: Panel)
      requires p in Panels(userId, currentProductId)
      ensures |p.productIds| > 0 && p.maxItems == (if p.kind == TrendingNow then 6 else 4)
      ensures p.kind == RecommendedForYou ==> Truthy(userId) && p.productIds == userRecommendations
      ensures p.kind == SimilarProducts ==> Truthy(currentProductId) && p.productIds == similarProducts
      ensures p.kind == FrequentlyBoughtTogether ==> Truthy(currentProductId) && p.productIds == frequentlyBought
      ensures p.kind == TrendingNow ==> p.productIds == trendingProducts
    {
      var p3 := Shown(|trendingProducts| > 0, Panel(TrendingNow, trendingProducts, 6));
      var p2 := Shown(Truthy(currentProductId) && |frequentlyBought| > 0, Panel(FrequentlyBoughtTogether, frequentlyBought, 4));
      var p1 := Shown(Truthy(currentProductId) && |similarProducts| > 0, Panel(SimilarProducts, similarProducts, 4));
      var p0 := Shown(Truthy(userId) && |userRecommendations| > 0, Panel(RecommendedForYou, userRecommendations, 4));
      assert p in p0 || p in p1 || p in p2 || p in p3;
    }
  }

  /** Signed out and off any product page, only trending can show. */
  method AnonymousOnlyTrending(trending: Result<seq<int>, ApiError>, userRecs: Result<seq<int>, ApiError>,
                               similar: Result<seq<int>, ApiError>, frequent: Result<seq<int>, ApiError>)
    returns (calls: seq<Call>, panels: seq<Panel>)
    ensures calls == [TrendingCall(8)]
    ensures forall p :: p in panels ==> p.kind == TrendingNow
  {
    var block := new ContainerState();
    calls := block.FetchRecommendations(None, None, trending, userRecs, similar, frequent);
    panels := block.Panels(None, None);
    forall p | p in panels ensures p.kind == TrendingNow {
      block.PanelContents(None, None, p);
    }
  }
}
