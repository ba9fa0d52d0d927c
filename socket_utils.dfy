/**
 * utils/socketUtils.ts: reads of the store's socket and thin delegations to
 * the store's socket operations.
 */
module SocketUtils {
  import opened Wrappers
  import opened JsText
  import opened Auth

  /** `getSocket()`: the store's current socket, looked up on every call. */
  function GetSocket(store: AuthStore): Socket?
    reads store
  {
    store.socket
  }

  /** `isSocketConnected()`: a socket is held and it is connected. */
  predicate IsSocketConnected(store: AuthStore)
    reads store, store.socket
  {
    store.socket != null && store.socket.connected
  }

  /**
   * A connected socket is the one live socket of the store: reporting
   * "connected" never refers to a handle the store has already replaced.
   */
  lemma ConnectedIsTheLiveSocket(store: AuthStore)
    requires store.Valid()
    ensures IsSocketConnected(store) ==> store.Live() == {GetSocket(store)}
    ensures !IsSocketConnected(store) ==> forall s :: s in store.Live() ==> !s.connected
  {
    store.AtMostOneLive();
  }

  /** `connectSocket()`: exactly the store's `connectSocket`. */
  method ConnectSocket(store: AuthStore, document: Option<string>)
    requires store.Valid()
    modifies store, store.socket
    ensures store.Valid()
    ensures store.Connected(document, old(store.socket)) && store.pendingConnects == old(store.pendingConnects)
  {
    store.ConnectSocket(document);
  }

  /** `disconnectSocket()`: exactly the store's `disconnectSocket`; afterwards nothing is connected. */
  method DisconnectSocket(store: AuthStore)
    requires store.Valid()
    modifies store, store.socket
    ensures store.Valid()
    ensures store.Disconnected(old(store.socket))
    ensures store.isAuthenticated == old(store.isAuthenticated)
    ensures store.pendingConnects == old(store.pendingConnects)
    ensures GetSocket(store) == null && !IsSocketConnected(store)
  {
    store.DisconnectSocket();
  }

  /** `updateSocketToken()`: exactly the store's `updateSocketToken`. */
  method UpdateSocketToken(store: AuthStore, document: Option<string>)
    requires store.Valid()
    modifies store, store.socket
    ensures store.Valid()
    ensures store.TokenUpdated(document, old(store.socket))
    ensures old(store.socket) == null ==> unchanged(store)
    ensures !IsSocketConnected(store)
  {
    store.UpdateSocketToken(document);
  }

  /** After a logout through `clearAuth`, `isSocketConnected()` is false. */
  method ClearAuthThenCheck(store: AuthStore) returns (connected: bool)
    requires store.Valid()
    modifies store, store.socket
    ensures store.Valid() && !store.isAuthenticated
    ensures connected == IsSocketConnected(store) && !connected
  {
    store.ClearAuth();
    connected := IsSocketConnected(store);
  }

  /**
   * Login, the deferred connect, and the server's acknowledgement: the
   * store reports a connected socket with the server's id, and it is the
   * only live one.
   */
  method LoginAndHandshake(token: string, sid: string) returns (store: AuthStore)
    requires token != "" && '=' !in token && ';' !in token && !IsWhitespace(token[|token| - 1])
    ensures store.Valid() && store.isAuthenticated
    ensures IsSocketConnected(store) && GetSocket(store).id == Some(sid)
    ensures store.Live() == {GetSocket(store)}
  {
    var decode := (s: string) => s;
    store := new AuthStore(decode);
    store.SetIsAuthenticated(true);
    AccessTokenOfSingleCookie(token, decode);
    store.FirePendingConnect(Some(AccessTokenName + "=" + token));
    store.socket.Acknowledge(sid);
    ConnectedIsTheLiveSocket(store);
  }
}
