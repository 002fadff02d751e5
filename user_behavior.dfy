/** The behaviour-tracking client: a session id that is written only after the
    backend accepted the session start and removed only after it accepted the
    end, recorders that never fail, and reads that treat 404 as "nothing yet". */
module UserBehaviorService {
  import opened Wrappers
  import opened Storage
  import opened SessionIds

  /** What a recorder posts. The session id is the stored one, which may be
      missing (the purchase recorder sends none at all); the ISO timestamp is
      not modelled. */
  datatype Activity =
    | Browsing(page: string, userId: Option<string>, sessionId: Option<string>)
    | Search(query: string, resultsCount: int, userId: Option<string>, sessionId: Option<string>)
    | Purchase(customer: string, orderId: string, totalAmount: int)
    | Interaction(productId: string, interactionType: string, userId: Option<string>, sessionId: Option<string>)

  /** The request a session operation sends. */
  datatype SessionRequest = StartRequest(sessionId: string, userId: Option<string>) | EndRequest(sessionId: string)

  /** `getUserPreferences`: no preferences yet (404) is `null`. */
  function GetUserPreferences<P>(answer: Result<P, ApiError>): (r: Result<Option<P>, string>)
    ensures answer.Ok? ==> r == Ok(Some(answer.value))
    ensures r == Ok(None) <==> answer.Err? && answer.error.status == Some(404)
    ensures r.Err? ==> r.error == MessageOr(answer.error, "Failed to fetch user preferences")
  {
    NotFoundAsNull(answer, "Failed to fetch user preferences")
  }

  /** `getSessionData`: an unknown session (404) is `null`. */
  function GetSessionData<S>(answer: Result<S, ApiError>): (r: Result<Option<S>, string>)
    ensures answer.Ok? ==> r == Ok(Some(answer.value))
    ensures r == Ok(None) <==> answer.Err? && answer.error.status == Some(404)
    ensures r.Err? ==> r.error == MessageOr(answer.error, "Failed to fetch session data")
  {
    NotFoundAsNull(answer, "Failed to fetch session data")
  }

  class UserBehaviorService {
    const session: SessionStorage

    constructor (session: SessionStorage)
      ensures this.session == session
    {
      this.session := session;
    }

    /** `getSessionId` / `getCurrentSessionId`: a pure read of
        'user_behavior_session_id'; the analytics key is another field. */
    function GetSessionId(): (id: Option<string>)
      reads session
      ensures id == session.userBehaviorSessionId
    {
      session.userBehaviorSessionId
    }

    /** `startSession`: the generated id is returned either way, and stored only
        when the start request succeeded. */
    method StartSession(userId: Option<string>, timestamp: nat, suffix: string, answer: Result<(), ApiError>)
      returns (id: string, request: SessionRequest)
      modifies session`userBehaviorSessionId
      ensures id == GeneratedSessionId(timestamp, suffix)
      ensures request == StartRequest(id, userId)
      ensures answer.Ok? ==> session.userBehaviorSessionId == Some(id)
      ensures answer.Err? ==> session.userBehaviorSessionId == old(session.userBehaviorSessionId)
    {
      id := GeneratedSessionId(timestamp, suffix);
      request := StartRequest(id, userId);
      if answer.Ok? {
        session.userBehaviorSessionId := Some(id);
      }
    }

    /** `endSession`: nothing is sent when no id is stored; the id is removed
        only when the end request succeeded. */
    method EndSession(answer: Result<(), ApiError>) returns (request: Option<SessionRequest>)
      modifies session`userBehaviorSessionId
      ensures !Truthy(old(session.userBehaviorSessionId)) ==>
        request == None && session.userBehaviorSessionId == old(session.userBehaviorSessionId)
      ensures Truthy(old(session.userBehaviorSessionId)) ==>
        request == Some(EndRequest(old(session.userBehaviorSessionId).value))
      ensures Truthy(old(session.userBehaviorSessionId)) && answer.Ok? ==> session.userBehaviorSessionId == None
      ensures answer.Err? ==> session.userBehaviorSessionId == old(session.userBehaviorSessionId)
    {
      var sessionId := GetSessionId();
      if !Truthy(sessionId) {
        return None;
      }
      request := Some(EndRequest(sessionId.value));
      if answer.Ok? {
        session.userBehaviorSessionId := None;
      }
    }

    /** `ensureSession`: a stored id is returned with no request; otherwise a
        session is started. */
    method EnsureSession(userId: Option<string>, timestamp: nat, suffix: string, answer: Result<(), ApiError>)
      returns (id: string, request: Option<SessionRequest>)
      modifies session`userBehaviorSessionId
      ensures Truthy(old(session.userBehaviorSessionId)) ==>
        id == old(session.userBehaviorSessionId).value && request == None &&
        session.userBehaviorSessionId == old(session.userBehaviorSessionId)
      ensures !Truthy(old(session.userBehaviorSessionId)) ==>
        id == GeneratedSessionId(timestamp, suffix) && request == Some(StartRequest(id, userId))
      ensures !Truthy(old(session.userBehaviorSessionId)) && answer.Ok? ==> session.userBehaviorSessionId == Some(id)
      ensures answer.Err? ==> session.userBehaviorSessionId == old(session.userBehaviorSessionId)
    {
      var stored := GetSessionId();
      if Truthy(stored) {
        id := stored.value;
        request := None;
      } else {
        var start;
        id, start := StartSession(userId, timestamp, suffix, answer);
        request := Some(start);
      }
    }

    /** `recordBrowsingActivity`: never fails, so the post's outcome is not an
        input; storage is only read. */
    function RecordBrowsingActivity(page: string, userId: Option<string>): (posted: Activity)
      reads session
      ensures posted == Browsing(page, userId, session.userBehaviorSessionId)
    {
      Browsing(page, userId, GetSessionId())
    }

    /** `recordSearchActivity`. */
    function RecordSearchActivity(query: string, resultsCount: int, userId: Option<string>): (posted: Activity)
      reads session
      ensures posted == Search(query, resultsCount, userId, session.userBehaviorSessionId)
    {
      Search(query, resultsCount, userId, GetSessionId())
    }

    /** `recordProductInteraction`. */
    function RecordProductInteraction(productId: string, interactionType: string, userId: Option<string>): (posted: Activity)
      reads session
      ensures posted == Interaction(productId, interactionType, userId, session.userBehaviorSessionId)
    {
      Interaction(productId, interactionType, userId, GetSessionId())
    }
  }

  /** `recordPurchaseBehavior`: no session id is sent. */
  function RecordPurchaseBehavior(userId: string, orderId: string, totalAmount: int): (posted: Activity)
    ensures posted == Purchase(userId, orderId, totalAmount)
  {
    Purchase(userId, orderId, totalAmount)
  }

  /** A session started successfully is what `ensureSession` then returns,
      without a second start request. */
  method StartThenEnsure(service: UserBehaviorService, userId: Option<string>, t1: nat, s1: string, t2: nat, s2: string,
                         answer: Result<(), ApiError>)
    returns (started: string, ensured: string, second: Option<SessionRequest>)
    modifies service.session`userBehaviorSessionId
    ensures started == GeneratedSessionId(t1, s1)
    ensures ensured == started && second == None
  {
    var first;
    started, first := service.StartSession(userId, t1, s1, Ok(()));
    ensured, second := service.EnsureSession(userId, t2, s2, answer);
  }

  /** A successful end followed by `ensureSession` starts a fresh session. */
  method EndThenEnsure(service: UserBehaviorService, userId: Option<string>, t: nat, s: string, answer: Result<(), ApiError>)
    returns (ensured: string, request: Option<SessionRequest>)
    modifies service.session`userBehaviorSessionId
    ensures ensured == GeneratedSessionId(t, s) && request == Some(StartRequest(ensured, userId))
  {
    var ended := service.EndSession(Ok(()));
    ensured, request := service.EnsureSession(userId, t, s, answer);
  }
}
