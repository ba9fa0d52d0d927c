/**
 * The session store of store/authStore.ts: the `isAuthenticated` flag, the
 * socket it owns, the cookie reader that finds the access token, and the
 * five operations that change the two fields.
 *
 * The socket library is replaced by abstract handles (class Socket). The
 * `setTimeout(() => get().connectSocket(), 0)` of a login becomes a pending
 * connect that the environment fires later with FirePendingConnect; the store
 * never looks at `isAuthenticated` when it fires.
 */
module Auth {
  import opened Wrappers
  import opened JsText

  const AccessTokenName := "access-token"
  const BearerPrefix := "Bearer "

  // ---------------------------------------------------------------------
  // Reading the access token from `document.cookie`
  // ---------------------------------------------------------------------

  /**
   * What one `;`-separated cookie entry yields: the entry is trimmed and
   * split on `=`; the destructuring `[name, value]` keeps the first two
   * pieces, and the entry counts only when `name` is exactly
   * `access-token` and `value` is present and non-empty.
   */
  function EntryToken(entry: string): Option<string>
  {
    var parts := Split(Trim(entry), '=');
    if parts[0] == AccessTokenName && |parts| >= 2 && parts[1] != "" then Some(parts[1]) else None
  }

  /** The (still URI-encoded) value of the first entry that yields a token. */
  function FirstToken(entries: seq<string>): Option<string>
  {
    if entries == [] then None
    else if EntryToken(entries[0]).Some? then EntryToken(entries[0])
    else FirstToken(entries[1..])
  }

  /**
   * The result of `getAccessToken()`: None when there is no `document`,
   * otherwise the decoded value of the first access-token entry.
   */
  function AccessToken(document: Option<string>, decode: string -> string): Option<string>
  {
    match document
    case None => None
    case Some(cookie) =>
      match FirstToken(Split(cookie, ';'))
      case None => None
      case Some(raw) => Some(decode(raw))
  }

  /**
   * The `auth.token` handshake field a new socket gets, or None when
   * `connectSocket` gives up because the token is null or "".
   */
  function BearerAuth(token: Option<string>): (r: Option<string>)
    ensures r.Some? <==> Truthy(token)
    ensures r.Some? ==> StartsWith(r.value, BearerPrefix) && r.value[|BearerPrefix|..] == token.value
  {
    if Truthy(token) then Some(BearerPrefix + token.value) else None
  }

  /** One step of the scan: the entry at `i` decides, or the scan moves on. */
  lemma FirstTokenStep(entries: seq<string>, i: nat)
    requires i < |entries|
    ensures FirstToken(entries[i..]) ==
      if EntryToken(entries[i]).Some? then EntryToken(entries[i]) else FirstToken(entries[i + 1..])
  {
    assert entries[i..][1..] == entries[i + 1..];
  }

  /** `getAccessToken`: the `for` loop over the entries with its early return. */
  method GetAccessToken(document: Option<string>, decode: string -> string) returns (token: Option<string>)
    ensures token == AccessToken(document, decode)
  {
    if document.Some? {
      var cookies := Split(document.value, ';');
      for i := 0 to |cookies|
        invariant FirstToken(cookies) == FirstToken(cookies[i..])
      {
        FirstTokenStep(cookies, i);
        var parts := Split(Trim(cookies[i]), '=');
        var name := parts[0];
        var value := if |parts| >= 2 then Some(parts[1]) else None;
        if name == AccessTokenName && Truthy(value) {
          return Some(decode(value.value));
        }
      }
    }
    return None;
  }

  /**
   * The first matching entry wins: FirstToken gives `v` exactly when some
   * entry yields `v` and no earlier entry yields anything. Entries with an
   * empty value are skipped and the scan goes on.
   */
  lemma {:induction false} FirstTokenIsFirstMatch(entries: seq<string>, v: string)
    ensures FirstToken(entries) == Some(v) <==>
      exists i :: 0 <= i < |entries| && EntryToken(entries[i]) == Some(v)
        && forall j :: 0 <= j < i ==> EntryToken(entries[j]).None?
  {
    if entries != [] {
      FirstTokenIsFirstMatch(entries[1..], v);
      if EntryToken(entries[0]).None? {
        if FirstToken(entries) == Some(v) {
          var i :| 0 <= i < |entries[1..]| && EntryToken(entries[1..][i]) == Some(v)
            && forall j :: 0 <= j < i ==> EntryToken(entries[1..][j]).None?;
          assert EntryToken(entries[i + 1]) == Some(v);
          forall j | 0 <= j < i + 1 ensures EntryToken(entries[j]).None? {
            if j > 0 { assert entries[j] == entries[1..][j - 1]; }
          }
        }
        if exists i :: 0 <= i < |entries| && EntryToken(entries[i]) == Some(v)
            && forall j :: 0 <= j < i ==> EntryToken(entries[j]).None? {
          var i :| 0 <= i < |entries| && EntryToken(entries[i]) == Some(v)
            && forall j :: 0 <= j < i ==> EntryToken(entries[j]).None?;
          assert i > 0;
          assert EntryToken(entries[1..][i - 1]) == Some(v);
          forall j | 0 <= j < i - 1 ensures EntryToken(entries[1..][j]).None? {
            assert entries[1..][j] == entries[j + 1];
          }
        }
      }
    }
  }

  /** No token is found exactly when no entry yields one. */
  lemma {:induction false} FirstTokenNone(entries: seq<string>)
    ensures FirstToken(entries).None? <==> forall i :: 0 <= i < |entries| ==> EntryToken(entries[i]).None?
  {
    if entries != [] {
      FirstTokenNone(entries[1..]);
      assert forall i :: 1 <= i < |entries| ==> entries[i] == entries[1..][i - 1];
    }
  }

  /**
   * Only the text between the first and the second `=` is the value: an
   * entry `access-token=v` (optionally followed by `=` and anything) yields
   * `v` when `v` is non-empty and holds no `=`.
   */
  lemma EntryTokenValue(v: string, tail: string)
    requires v != "" && '=' !in v
    requires IsTrimmed(AccessTokenName + "=" + v + tail)
    requires tail == "" || tail[0] == '='
    ensures EntryToken(AccessTokenName + "=" + v + tail) == Some(v)
  {
    var entry := AccessTokenName + "=" + v + tail;
    TrimOfTrimmed(entry);
    assert '=' !in AccessTokenName;
    SplitPair(AccessTokenName, v, tail);
  }

  /** A cookie consisting of the single entry `access-token=v` yields the decoded `v`. */
  lemma AccessTokenOfSingleCookie(v: string, decode: string -> string)
    requires v != "" && '=' !in v && ';' !in v && !IsWhitespace(v[|v| - 1])
    ensures AccessToken(Some(AccessTokenName + "=" + v), decode) == Some(decode(v))
  {
    var cookie := AccessTokenName + "=" + v;
    assert cookie + "" == cookie;
    EntryTokenValue(v, "");
    assert ';' !in cookie by {
      assert forall k :: 0 <= k < |cookie| ==> cookie[k] in AccessTokenName || cookie[k] == '=' || cookie[k] in v;
    }
    SplitNoSeparator(cookie, ';');
  }

  // ---------------------------------------------------------------------
  // Socket handles
  // ---------------------------------------------------------------------

  /**
   * An abstract socket.io client handle. `connected` and `id` are what the
   * server side decides, set by the environment through Acknowledge and Drop;
   * `disconnected` records that `disconnect()` was called on the handle.
   */
  class Socket {
    const auth: string
    var connected: bool
    var disconnected: bool
    var id: Option<string>

    /** A handle is connected only while nobody has called `disconnect()` on it. */
    ghost predicate Valid()
      reads this
    {
      connected ==> !disconnected
    }

    /** `io(url, { auth: { token: auth } })`: a new handle, not yet connected. */
    constructor (auth: string)
      ensures Valid()
      ensures this.auth == auth && !connected && !disconnected && id == None
    {
      this.auth := auth;
      connected, disconnected, id := false, false, None;
    }

    /** `socket.disconnect()`: idempotent; the handle is closed for good. */
    method Disconnect()
      modifies this
      ensures Valid()
      ensures disconnected && !connected && id == None
    {
      disconnected, connected, id := true, false, None;
    }

    /** The server accepts the handshake and assigns `sid` (an environment event). */
    method Acknowledge(sid: string)
      requires !disconnected
      modifies this
      ensures Valid()
      ensures connected && id == Some(sid) && !disconnected
    {
      connected, id := true, Some(sid);
    }

    /** The connection is lost or closed by the server (an environment event). */
    method Drop()
      requires Valid()
      modifies this
      ensures Valid()
      ensures !connected && id == None && disconnected == old(disconnected)
    {
      connected, id := false, None;
    }
  }

  // ---------------------------------------------------------------------
  // The store
  // ---------------------------------------------------------------------

  class AuthStore {
    var isAuthenticated: bool
    var socket: Socket?
    /** Deferred `connectSocket` calls scheduled by logins and not yet fired. */
    var pendingConnects: nat
    /** Every socket this store has ever created. */
    ghost var created: set<Socket>
    /** `decodeURIComponent`, an abstract total function here. */
    const decode: string -> string

    /**
     * The store's invariant: the held socket is one the store created, and
     * every other socket it created has been disconnected. So at most one
     * created socket is live, and a live one is the one in `socket`.
     */
    ghost predicate Valid()
      reads this, created
    {
      && (socket != null ==> socket in created)
      && (forall s :: s in created ==> s.Valid())
      && (forall s :: s in created && s != socket ==> s.disconnected)
    }

    /** The created sockets on which `disconnect()` has not been called. */
    ghost function Live(): set<Socket>
      reads this, created
    {
      set s | s in created && !s.disconnected
    }

    /** The initial state: logged out, no socket, nothing pending. */
    constructor (decode: string -> string)
      ensures Valid()
      ensures !isAuthenticated && socket == null && pendingConnects == 0 && created == {}
      ensures this.decode == decode
    {
      isAuthenticated, socket, pendingConnects := false, null, 0;
      created := {};
      this.decode := decode;
    }

    /** At most one created socket is live, and if one is, it is the held one. */
    lemma AtMostOneLive()
      requires Valid()
      ensures |Live()| <= 1
      ensures Live() != {} ==> socket != null && Live() == {socket}
    {
      if socket == null {
        assert Live() == {};
      } else {
        assert Live() <= {socket};
        if !socket.disconnected {
          assert Live() == {socket};
        } else {
          assert Live() == {};
        }
      }
    }

    /** The state `disconnectSocket` leaves: no socket, the one held before (`prev`) disconnected. */
    twostate predicate Disconnected(prev: Socket?)
      reads this, prev
    {
      && socket == null && created == old(created)
      && (prev != null ==> prev.disconnected && !prev.connected && prev.id == None)
    }

    /**
     * The state `connectSocket` leaves. With no usable token nothing
     * changes. With one, the old socket (if any) is disconnected and a fresh,
     * not yet connected socket authenticated with "Bearer " + token is held.
     */
    twostate predicate Connected(document: Option<string>, prev: Socket?)
      reads this, socket, prev
    {
      && isAuthenticated == old(isAuthenticated)
      && match BearerAuth(AccessToken(document, decode))
        case None =>
          && socket == prev && created == old(created)
          && (prev != null ==> unchanged(prev))
        case Some(auth) =>
          && socket != null && fresh(socket) && created == old(created) + {socket}
          && socket.auth == auth && !socket.connected && !socket.disconnected && socket.id == None
          && (prev != null ==> prev.disconnected && !prev.connected && prev.id == None)
    }

    /**
     * The state `updateSocketToken` leaves. Without a socket (`prev` null)
     * nothing changes. Otherwise the old socket is disconnected; a usable
     * token replaces it by a fresh, not yet connected socket, and without
     * one the disconnected socket stays in the store.
     */
    twostate predicate TokenUpdated(document: Option<string>, prev: Socket?)
      reads this, socket, prev
    {
      && isAuthenticated == old(isAuthenticated) && pendingConnects == old(pendingConnects)
      && (prev == null ==> socket == null && created == old(created))
      && (prev != null ==>
            && prev.disconnected && !prev.connected && prev.id == None
            && match BearerAuth(AccessToken(document, decode))
              case None => socket == prev && created == old(created)
              case Some(auth) =>
                && socket != null && fresh(socket) && created == old(created) + {socket}
                && socket.auth == auth && !socket.connected && !socket.disconnected && socket.id == None)
    }

    /** `connectSocket()`. */
    method ConnectSocket(document: Option<string>)
      requires Valid()
      modifies this, socket
      ensures Valid()
      ensures Connected(document, old(socket)) && pendingConnects == old(pendingConnects)
    {
      var token := GetAccessToken(document, decode);
      if !Truthy(token) {
        return;
      }
      if socket != null {
        socket.Disconnect();
      }
      var newSocket := new Socket(BearerPrefix + token.value);
      socket := newSocket;
      created := created + {newSocket};
    }

    /** `disconnectSocket()`: a no-op when there is no socket. */
    method DisconnectSocket()
      requires Valid()
      modifies this, socket
      ensures Valid()
      ensures Disconnected(old(socket))
      ensures isAuthenticated == old(isAuthenticated) && pendingConnects == old(pendingConnects)
      ensures old(socket) == null ==> unchanged(this)
    {
      if socket != null {
        socket.Disconnect();
        socket := null;
      }
    }

    /**
     * `setIsAuthenticated(b)`. A login (false to true) sets the flag and
     * schedules one deferred connect, creating no socket now. A logout
     * (true to false) disconnects the socket before the flag drops. A call
     * with the current value only sets the flag.
     */
    method SetIsAuthenticated(b: bool)
      requires Valid()
      modifies this, socket
      ensures Valid()
      ensures isAuthenticated == b
      ensures !old(isAuthenticated) && b ==>
        && pendingConnects == old(pendingConnects) + 1
        && socket == old(socket) && created == old(created) && (socket != null ==> unchanged(socket))
      ensures old(isAuthenticated) && !b ==> Disconnected(old(socket)) && pendingConnects == old(pendingConnects)
      ensures old(isAuthenticated) == b ==> unchanged(this) && (socket != null ==> unchanged(socket))
    {
      if !isAuthenticated && b {
        isAuthenticated := b;
        pendingConnects := pendingConnects + 1;
      } else if isAuthenticated && !b {
        DisconnectSocket();
        isAuthenticated := b;
      } else {
        isAuthenticated := b;
      }
    }

    /** `clearAuth()`: from any state, ends logged out with no socket. */
    method ClearAuth()
      requires Valid()
      modifies this, socket
      ensures Valid()
      ensures !isAuthenticated && Disconnected(old(socket)) && pendingConnects == old(pendingConnects)
    {
      DisconnectSocket();
      isAuthenticated := false;
    }

    /**
     * `updateSocketToken()`: nothing without a socket; otherwise the socket
     * is disconnected and `connectSocket` runs. When no token is found the
     * disconnected socket stays in the store.
     */
    method UpdateSocketToken(document: Option<string>)
      requires Valid()
      modifies this, socket
      ensures Valid()
      ensures TokenUpdated(document, old(socket))
      ensures old(socket) == null ==> unchanged(this)
    {
      var current := socket;
      if current != null {
        current.Disconnect();
        ConnectSocket(document);
      }
    }

    /**
     * The timer of an earlier login fires: `get().connectSocket()` runs,
     * whatever `isAuthenticated` is now.
     */
    method FirePendingConnect(document: Option<string>)
      requires Valid() && pendingConnects > 0
      modifies this, socket
      ensures Valid()
      ensures Connected(document, old(socket)) && pendingConnects == old(pendingConnects) - 1
    {
      pendingConnects := pendingConnects - 1;
      ConnectSocket(document);
    }
  }

  /**
   * A login immediately followed by a logout, then the login's timer fires
   * while the cookie holds `access-token=<token>`: the store ends logged
   * out yet holding a live socket, because the deferred connect does not
   * re-check the flag.
   */
  method LateConnectAfterLogout(token: string) returns (store: AuthStore)
    requires token != "" && '=' !in token && ';' !in token && !IsWhitespace(token[|token| - 1])
    ensures store.Valid()
    ensures !store.isAuthenticated && store.socket != null && !store.socket.disconnected
    ensures store.socket.auth == BearerPrefix + token
  {
    var decode := (s: string) => s;
    store := new AuthStore(decode);
    store.SetIsAuthenticated(true);
    store.SetIsAuthenticated(false);
    AccessTokenOfSingleCookie(token, decode);
    store.FirePendingConnect(Some(AccessTokenName + "=" + token));
  }
}
