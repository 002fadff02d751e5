/** The analytics client: a get-or-create session id in session storage,
    fire-and-forget recorders, and reads that rethrow with a per-operation
    message. */
module AnalyticsService {
  import opened Wrappers
  import opened Storage
  import opened SessionIds

  /** What a recorder posts. The ISO timestamp the page-view and search events
      carry is not modelled. */
  datatype Event =
    | ProductView(productId: string, userId: Option<string>, sessionId: string)
    | CategoryView(categoryId: string, userId: Option<string>, sessionId: string)
    | PageView(page: string, userId: Option<string>, sessionId: string)
    | SearchEvent(query: string, userId: Option<string>, sessionId: string, resultsCount: Option<int>)

  /** The analytics reads, each with its own fallback message. */
  datatype Read =
    | TrendingProducts | MostViewedProducts | PopularProductsByCategory
    | UserMostViewedProducts | BrowsingHistory | SessionProductViews
    | UserRecommendations | FrequentlyBoughtTogether | SimilarProducts
    | ProductViewAnalytics | SiteAnalytics

  function Fallback(read: Read): string {
    match read
    case TrendingProducts => "Failed to fetch trending products"
    case MostViewedProducts => "Failed to fetch most viewed products"
    case PopularProductsByCategory => "Failed to fetch popular products by category"
    case UserMostViewedProducts => "Failed to fetch user most viewed products"
    case BrowsingHistory => "Failed to fetch browsing history"
    case SessionProductViews => "Failed to fetch session product views"
    case UserRecommendations => "Failed to fetch user recommendations"
    case FrequentlyBoughtTogether => "Failed to fetch frequently bought together"
    case SimilarProducts => "Failed to fetch similar products"
    case ProductViewAnalytics => "Failed to fetch product analytics"
    case SiteAnalytics => "Failed to fetch site analytics"
  }

  /** Every read: the data on success, else an error that is never empty and
      carries the backend message or the read's own fallback. */
  function ReadOutcome<T>(read: Read, answer: Result<T, ApiError>): (r: Result<T, string>)
    ensures r.Ok? <==> answer.Ok?
    ensures r.Ok? ==> r.value == answer.value
    ensures r.Err? ==> r.error == MessageOr(answer.error, Fallback(read)) && r.error != ""
  {
    Rethrow(answer, Fallback(read))
  }

  class AnalyticsService {
    const session: SessionStorage

    constructor (session: SessionStorage)
      ensures this.session == session
    {
      this.session := session;
    }

    /** `getSessionId`: the stored id when it is truthy, otherwise a new id
        from the clock reading and the random suffix, which is stored. */
    method GetSessionId(timestamp: nat, suffix: string) returns (id: string)
      modifies session`analyticsSessionId
      ensures Truthy(old(session.analyticsSessionId)) ==>
        id == old(session.analyticsSessionId).value && session.analyticsSessionId == old(session.analyticsSessionId)
      ensures !Truthy(old(session.analyticsSessionId)) ==> id == GeneratedSessionId(timestamp, suffix)
      // Afterwards the returned id is the stored one, and it is truthy.
      ensures session.analyticsSessionId == Some(id) && id != ""
    {
      var stored := session.analyticsSessionId;
      if !Truthy(stored) {
        id := GeneratedSessionId(timestamp, suffix);
        session.analyticsSessionId := Some(id);
      } else {
        id := stored.value;
      }
    }

    /** `getCurrentSessionId`: the same get-or-create, so it may write. */
    method GetCurrentSessionId(timestamp: nat, suffix: string) returns (id: string)
      modifies session`analyticsSessionId
      ensures Truthy(old(session.analyticsSessionId)) ==> id == old(session.analyticsSessionId).value
      ensures !Truthy(old(session.analyticsSessionId)) ==> id == GeneratedSessionId(timestamp, suffix)
      ensures session.analyticsSessionId == Some(id) && id != ""
    {
      id := GetSessionId(timestamp, suffix);
    }

    /** The `sessionId || this.getSessionId()` of the view recorders: the
        caller's id when truthy, and then storage is not touched. */
    method ViewSessionId(sessionId: Option<string>, timestamp: nat, suffix: string) returns (id: string)
      modifies session`analyticsSessionId
      ensures Truthy(sessionId) ==> id == sessionId.value && session.analyticsSessionId == old(session.analyticsSessionId)
      ensures !Truthy(sessionId) && Truthy(old(session.analyticsSessionId)) ==> id == old(session.analyticsSessionId).value
      ensures !Truthy(sessionId) && !Truthy(old(session.analyticsSessionId)) ==> id == GeneratedSessionId(timestamp, suffix)
      ensures !Truthy(sessionId) ==> session.analyticsSessionId == Some(id)
    {
      if Truthy(sessionId) {
        id := sessionId.value;
      } else {
        id := GetSessionId(timestamp, suffix);
      }
    }

    /** `recordProductView`. Whatever the post's outcome it returns normally,
        so the outcome is not an input; the posted event is the result. */
    method RecordProductView(productId: string, userId: Option<string>, sessionId: Option<string>, timestamp: nat, suffix: string)
      returns (posted: Event)
      modifies session`analyticsSessionId
      ensures posted.ProductView? && posted.productId == productId && posted.userId == userId
      ensures Truthy(sessionId) ==> posted.sessionId == sessionId.value && session.analyticsSessionId == old(session.analyticsSessionId)
      ensures !Truthy(sessionId) && Truthy(old(session.analyticsSessionId)) ==>
        posted.sessionId == old(session.analyticsSessionId).value
      ensures !Truthy(sessionId) && !Truthy(old(session.analyticsSessionId)) ==>
        posted.sessionId == GeneratedSessionId(timestamp, suffix)
      ensures !Truthy(sessionId) ==> session.analyticsSessionId == Some(posted.sessionId)
    {
      var id := ViewSessionId(sessionId, timestamp, suffix);
      posted := ProductView(productId, userId, id);
    }

    /** `recordCategoryView`. */
    method RecordCategoryView(categoryId: string, userId: Option<string>, sessionId: Option<string>, timestamp: nat, suffix: string)
      returns (posted: Event)
      modifies session`analyticsSessionId
      ensures posted.CategoryView? && posted.categoryId == categoryId && posted.userId == userId
      ensures Truthy(sessionId) ==> posted.sessionId == sessionId.value && session.analyticsSessionId == old(session.analyticsSessionId)
      ensures !Truthy(sessionId) && Truthy(old(session.analyticsSessionId)) ==>
        posted.sessionId == old(session.analyticsSessionId).value
      ensures !Truthy(sessionId) && !Truthy(old(session.analyticsSessionId)) ==>
        posted.sessionId == GeneratedSessionId(timestamp, suffix)
      ensures !Truthy(sessionId) ==> session.analyticsSessionId == Some(posted.sessionId)
    {
      var id := ViewSessionId(sessionId, timestamp, suffix);
      posted := CategoryView(categoryId, userId, id);
    }

    /** `trackPageView`: always the stored or created id. */
    method TrackPageView(page: string, userId: Option<string>, timestamp: nat, suffix: string)
      returns (posted: Event)
      modifies session`analyticsSessionId
      ensures posted == PageView(page, userId, posted.sessionId)
      ensures session.analyticsSessionId == Some(posted.sessionId)
      ensures Truthy(old(session.analyticsSessionId)) ==> posted.sessionId == old(session.analyticsSessionId).value
      ensures !Truthy(old(session.analyticsSessionId)) ==> posted.sessionId == GeneratedSessionId(timestamp, suffix)
    {
      var id := GetSessionId(timestamp, suffix);
      posted := PageView(page, userId, id);
    }

    /** `trackSearch`. */
    method TrackSearch(query: string, userId: Option<string>, resultsCount: Option<int>, timestamp: nat, suffix: string)
      returns (posted: Event)
      modifies session`analyticsSessionId
      ensures posted == SearchEvent(query, userId, posted.sessionId, resultsCount)
      ensures session.analyticsSessionId == Some(posted.sessionId)
      ensures Truthy(old(session.analyticsSessionId)) ==> posted.sessionId == old(session.analyticsSessionId).value
      ensures !Truthy(old(session.analyticsSessionId)) ==> posted.sessionId == GeneratedSessionId(timestamp, suffix)
    {
      var id := GetSessionId(timestamp, suffix);
      posted := SearchEvent(query, userId, id, resultsCount);
    }
  }

  /** Once an id exists, every later call returns it, whatever the clock and
      the random suffix then say. */
  method SessionIdIsStable(service: AnalyticsService, t1: nat, s1: string, t2: nat, s2: string)
    returns (first: string, second: string)
    modifies service.session`analyticsSessionId
    ensures first == second
  {
    first := service.GetSessionId(t1, s1);
    second := service.GetSessionId(t2, s2);
  }
}
