/**
 * The foreign services the account entity talks to, reduced to the state it can observe:
 * the signed-in auth user, the document store of account records and the log of
 * callable functions (`functions().httpsCallable(name)(payload)`) it has invoked.
 * Whether a foreign call succeeds is a parameter of the operation that makes it.
 */
module Backend {
  import opened Base
  import opened JsValues

  /** `auth().currentUser`: its uid and display name, which is null (None) until one is set. */
  datatype AuthUser = AuthUser(uid: string, displayName: Option<string>)

  /** One invocation of a callable function, by name, with its payload. */
  datatype ServiceCall = ServiceCall(name: string, payload: Record)

  class AuthSession {
    var currentUser: Option<AuthUser>

    constructor (current: Option<AuthUser>)
      ensures currentUser == current
    {
      currentUser := current;
    }
  }

  /** The account documents, keyed by (collection, id). */
  class RemoteStore {
    var records: map<(string, string), Record>

    constructor (initial: map<(string, string), Record>)
      ensures records == initial
    {
      records := initial;
    }
  }

  class Gateway {
    var log: seq<ServiceCall>

    constructor ()
      ensures log == []
    {
      log := [];
    }
  }
}
