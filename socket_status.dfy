/**
 * components/SocketStatus.tsx: the badge that shows the socket's state.
 * Its two state variables, `socketStatus` and `socketId`, are rewritten by
 * the effect that runs when `isAuthenticated` changes, by the store
 * subscription that effect installs, and by the socket's event listeners.
 */
module SocketStatus {
  import opened Wrappers
  import opened JsText
  import opened Auth

  /** The four values `socketStatus` can take. */
  datatype Status = Disconnected | Connecting | Connected | Error

  /** The text the badge shows for a status. */
  function Name(s: Status): string
  {
    match s
    case Disconnected => "disconnected"
    case Connecting => "connecting"
    case Connected => "connected"
    case Error => "error"
  }

  /** `statusColors[socketStatus]`. */
  function Color(s: Status): string
  {
    match s
    case Connected => "bg-green-500"
    case Connecting => "bg-yellow-500"
    case Disconnected => "bg-red-500"
    case Error => "bg-red-700"
  }

  /** `socket.connected ? 'connected' : 'connecting'`: the status of a held socket. */
  function HeldStatus(connected: bool): (r: Status)
    ensures r == Connected || r == Connecting
    ensures r == Connected <==> connected
  {
    if connected then Connected else Connecting
  }

  /** `socket.id || null`: an absent or empty id becomes null. */
  function IdOrNull(id: Option<string>): (r: Option<string>)
    ensures r.Some? <==> Truthy(id)
    ensures r.Some? ==> r == id
  {
    if Truthy(id) then id else None
  }

  /** `socketId.substring(0, 5)`: the first five characters, or all of a shorter id. */
  function ShortId(id: string): (r: string)
    ensures |r| == if |id| < 5 then |id| else 5
    ensures r == id[..|r|]
  {
    if |id| < 5 then id else id[..5]
  }

  /** What the component renders when it renders anything. */
  datatype Badge = Badge(color: string, text: string)

  class SocketStatusView {
    const showConnectionStatus: bool
    var socketStatus: Status
    var socketId: Option<string>
    /** Whether the store subscription of the current effect run is installed. */
    var subscribed: bool

    /** The initial render: disconnected, no id, no subscription yet. */
    constructor (showConnectionStatus: bool)
      ensures this.showConnectionStatus == showConnectionStatus
      ensures socketStatus == Disconnected && socketId == None && !subscribed
    {
      this.showConnectionStatus := showConnectionStatus;
      socketStatus, socketId, subscribed := Disconnected, None, false;
    }

    /**
     * The effect, run on mount and whenever `isAuthenticated` changes. The
     * previous run's subscription is removed first. Unauthenticated: the
     * badge is reset and nothing is subscribed. Authenticated: the store is
     * subscribed to and the initial status is read from the held socket,
     * or is `connecting` (keeping the id) when there is none yet.
     */
    method RunEffect(store: AuthStore)
      modifies this
      ensures subscribed == store.isAuthenticated
      ensures !store.isAuthenticated ==> socketStatus == Disconnected && socketId == None
      ensures store.isAuthenticated && store.socket != null ==>
        socketStatus == HeldStatus(store.socket.connected) && socketId == IdOrNull(store.socket.id)
      ensures store.isAuthenticated && store.socket == null ==>
        socketStatus == Connecting && socketId == old(socketId)
    {
      subscribed := false;
      if !store.isAuthenticated {
        socketStatus := Disconnected;
        socketId := None;
        return;
      }
      subscribed := true;
      var initialSocket := store.socket;
      if initialSocket != null {
        socketStatus := HeldStatus(initialSocket.connected);
        socketId := IdOrNull(initialSocket.id);
      } else if store.isAuthenticated {
        socketStatus := Connecting;
      }
    }

    /**
     * The subscription callback, run on every change of the store. Without
     * a subscription it is not called, so nothing changes.
     */
    method OnStoreChange(store: AuthStore)
      modifies this
      ensures subscribed == old(subscribed)
      ensures !subscribed ==> socketStatus == old(socketStatus) && socketId == old(socketId)
      ensures subscribed && store.socket != null ==>
        socketStatus == HeldStatus(store.socket.connected) && socketId == IdOrNull(store.socket.id)
      ensures subscribed && store.socket == null ==> socketStatus == Disconnected && socketId == None
    {
      if !subscribed {
        return;
      }
      var socket := store.socket;
      if socket != null {
        socketStatus := HeldStatus(socket.connected);
        socketId := IdOrNull(socket.id);
      } else {
        socketStatus := Disconnected;
        socketId := None;
      }
    }

    /** The `connect` listener: connected, with the socket's id as it is. */
    method OnConnect(socket: Socket)
      modifies this
      ensures socketStatus == Connected && socketId == socket.id && subscribed == old(subscribed)
    {
      socketStatus := Connected;
      socketId := socket.id;
    }

    /** The `disconnect` listener: disconnected; the id stays. */
    method OnDisconnect()
      modifies this
      ensures socketStatus == Disconnected && socketId == old(socketId) && subscribed == old(subscribed)
    {
      socketStatus := Disconnected;
    }

    /** The `connect_error` listener: error; the id stays. */
    method OnConnectError()
      modifies this
      ensures socketStatus == Error && socketId == old(socketId) && subscribed == old(subscribed)
    {
      socketStatus := Error;
    }

    /**
     * What the component renders: nothing when `showConnectionStatus` is
     * false, otherwise a badge coloured by the status whose text names the
     * status and, when the id is non-empty, its first five characters.
     */
    function Render(): (r: Option<Badge>)
      reads this
      ensures r.None? <==> !showConnectionStatus
      ensures r.Some? ==> r.value.color == Color(socketStatus)
      ensures r.Some? ==> StartsWith(r.value.text, "Socket: " + Name(socketStatus) + " ")
      ensures r.Some? && Truthy(socketId) ==>
        var shown := ShortId(socketId.value);
        && |shown| <= 5 && shown == socketId.value[..|shown|]
        && r.value.text == "Socket: " + Name(socketStatus) + " (" + shown + "...)"
      ensures r.Some? && !Truthy(socketId) ==> r.value.text == "Socket: " + Name(socketStatus) + " "
    {
      if !showConnectionStatus then None
      else
        var prefix := "Socket: " + Name(socketStatus) + " ";
        var idPart := if Truthy(socketId) then "(" + ShortId(socketId.value) + "...)" else "";
        assert (prefix + idPart)[..|prefix|] == prefix;
        Some(Badge(Color(socketStatus), prefix + idPart))
    }
  }
}
