/** Browser storage as the core uses it: one field per storage key. */
module Storage {
  import opened Wrappers
  import opened Types

  /** A key holding a JSON document: absent, holding text that does not parse,
      or holding a document that parses to a value. An empty stored string reads
      like an absent key everywhere in the core, so the two are one case. */
  datatype Slot<T> = Absent | Unparseable | Saved(value: T)

  /** `localStorage`, restricted to the keys of the core. */
  class LocalStorage {
    /** 'shopping_cart': the guest cart. */
    var shoppingCart: Slot<seq<LocalCartItem>>
    /** 'authToken': the bearer token, stored as plain text. */
    var authToken: Option<string>
    /** 'user': the signed-in user record. */
    var user: Slot<User>

    constructor ()
      ensures shoppingCart == Absent && authToken == None && user == Absent
    {
      shoppingCart, authToken, user := Absent, None, Absent;
    }
  }

  /** `sessionStorage`, restricted to the keys of the core. */
  class SessionStorage {
    /** 'analytics_session_id' */
    var analyticsSessionId: Option<string>
    /** 'user_behavior_session_id' */
    var userBehaviorSessionId: Option<string>

    constructor ()
      ensures analyticsSessionId == None && userBehaviorSessionId == None
    {
      analyticsSessionId, userBehaviorSessionId := None, None;
    }
  }
}
