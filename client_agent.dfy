/**
 * The client's session agent: the state a browser tab keeps about its session
 * (who hosts, what the host shows, what this tab shows, and whether it follows
 * the host), the handlers for the server's events and the actions the
 * interface calls.
 *
 * Each handler and action is first a function from the old state to the new
 * one (and, for actions, the message sent to the server); the `SessionAgent`
 * class holds the same state in fields and its methods are proved to follow
 * those functions. The properties of the sync state machine are lemmas about
 * the functions.
 */
module ClientAgent {
  import opened Wrappers
  import opened Protocol

  /** `connectionStatus`. */
  datatype Status = Disconnected | Connecting | Connected | ConnectError

  /** `fetchTrigger`: the content the agent has asked to load. */
  datatype FetchRequest = FetchRequest(ctype: string, id: string)

  /** The errors the agent shows; `ErrorText` gives each one's wording. */
  datatype AgentError =
    | ConnectionLost
    | HostSessionNotFound(tried: string)
    | ParticipantSessionNotFound(tried: string)
    | UsernameTaken(tried: string)
    | ServerMessage(message: string)

  /** The text set into `error`. */
  function ErrorText(e: AgentError): string {
    match e
    case ConnectionLost => "Connection lost. Attempting to reconnect..."
    case HostSessionNotFound(tried) => "Session \"" + tried + "\" not found on server. Please try Rejoin Session again or start a new session."
    case ParticipantSessionNotFound(tried) => "Session \"" + tried + "\" not found. Please wait for the host to start/rejoin the session, then try rejoining again using the button in the header."
    case UsernameTaken(tried) => "Username \"" + tried + "\" is already taken. Please choose another."
    case ServerMessage(message) => message
  }

  /** The agent's state, field for field. */
  datatype AgentState = AgentState(
    socketId: SocketId,
    connectionStatus: Status,
    sessionId: Option<string>,
    username: Option<string>,
    isHost: bool,
    hostSelectedContentInfo: Option<ContentInfo>,
    currentContentInfo: Option<ContentInfo>,
    currentFullContent: Option<FullContent>,
    currentIndex: int,
    latestHostIndex: int,
    isSyncedToHost: bool,
    participants: seq<Participant>,
    error: Option<AgentError>,
    fetchTrigger: Option<FetchRequest>)

  /** The result of an action: the new state and the message emitted, if any. */
  datatype Outcome = Outcome(state: AgentState, msg: Option<ClientMessage>)

  /** The state before any connection or session. */
  function Initial(socketId: SocketId): (s: AgentState)
    ensures !InSession(s) && !IsConnected(s) && s.isSyncedToHost && !s.isHost
    ensures s.currentIndex == 0 && s.latestHostIndex == 0 && Mirrors(s)
  {
    AgentState(socketId, Disconnected, None, None, false, None, None, None, 0, 0, true, [], None, None)
  }

  /** `sessionId` is truthy. */
  predicate InSession(s: AgentState) {
    Truthy(s.sessionId)
  }

  predicate IsConnected(s: AgentState) {
    s.connectionStatus == Connected
  }

  /** The view shows what the host shows, at the host's index. */
  predicate Mirrors(s: AgentState) {
    s.currentContentInfo == s.hostSelectedContentInfo && s.currentIndex == s.latestHostIndex
  }

  /** The view shows the host's content, and the host's index whenever there is content. */
  predicate Follows(s: AgentState) {
    s.currentContentInfo == s.hostSelectedContentInfo
    && (s.hostSelectedContentInfo.Some? ==> s.currentIndex == s.latestHostIndex)
  }

  function FetchFor(info: ContentInfo): FetchRequest {
    FetchRequest(info.ctype, info.id)
  }

  /** Show `info`: record it and request its load, or clear the loaded body and the request. */
  function ShowContent(s: AgentState, info: Option<ContentInfo>): (r: AgentState)
    ensures r.currentContentInfo == info
    ensures info.Some? ==> r.fetchTrigger == Some(FetchFor(info.value)) && r.currentFullContent == s.currentFullContent
    ensures info.None? ==> r.fetchTrigger.None? && r.currentFullContent.None?
    ensures r.(currentContentInfo := s.currentContentInfo, fetchTrigger := s.fetchTrigger,
               currentFullContent := s.currentFullContent) == s
  {
    match info
    case Some(c) => s.(currentContentInfo := info, fetchTrigger := Some(FetchFor(c)))
    case None => s.(currentContentInfo := None, currentFullContent := None, fetchTrigger := None)
  }

  // ---------------------------------------------------------------------------
  // Connection
  // ---------------------------------------------------------------------------

  /** The `connect` listener: connected under a (possibly new) socket id, error cleared. */
  function AfterConnect(s: AgentState, id: SocketId): (r: AgentState)
    ensures IsConnected(r) && r.socketId == id && r.error.None?
    ensures r.(socketId := s.socketId, connectionStatus := s.connectionStatus, error := s.error) == s
  {
    s.(socketId := id, connectionStatus := Connected, error := None)
  }

  /**
   * The `disconnect` listener: the participant list is dropped and an error shown
   * unless the client itself closed the connection; the session, the content and
   * the indices are kept.
   */
  function AfterDisconnect(s: AgentState, reason: string): (r: AgentState)
    ensures !IsConnected(r) && r.participants == []
    ensures r.error == (if reason != "io client disconnect" then Some(ConnectionLost) else s.error)
    ensures r.sessionId == s.sessionId && r.isHost == s.isHost && r.isSyncedToHost == s.isSyncedToHost
    ensures r.currentContentInfo == s.currentContentInfo && r.hostSelectedContentInfo == s.hostSelectedContentInfo
    ensures r.currentIndex == s.currentIndex && r.latestHostIndex == s.latestHostIndex
  {
    var r := s.(connectionStatus := Disconnected, participants := []);
    if reason != "io client disconnect" then r.(error := Some(ConnectionLost)) else r
  }

  // ---------------------------------------------------------------------------
  // Server events
  // ---------------------------------------------------------------------------

  /** `session-created`: this client hosts a fresh session with nothing selected. */
  function AfterSessionCreated(s: AgentState, sid: string, user: string): (r: AgentState)
    ensures r.sessionId == Some(sid) && r.username == Some(user)
    ensures r.isHost && r.isSyncedToHost && r.currentIndex == 0
    ensures r.hostSelectedContentInfo.None? && r.currentContentInfo.None? && r.currentFullContent.None?
    ensures r.fetchTrigger.None? && r.participants == [] && r.error.None?
    ensures Follows(r)
    ensures r.latestHostIndex == s.latestHostIndex && r.connectionStatus == s.connectionStatus
  {
    s.(sessionId := Some(sid), username := Some(user), isHost := true, isSyncedToHost := true,
       hostSelectedContentInfo := None, currentContentInfo := None, currentFullContent := None,
       currentIndex := 0, participants := [], error := None, fetchTrigger := None)
  }

  /**
   * `session-joined`: adopt the host's content and index and follow the host; a
   * load is requested when content is selected.
   */
  function AfterSessionJoined(s: AgentState, sid: string, user: string, userIsHost: bool,
                              hostContent: Option<ContentInfo>, hostIndex: int, contentSelected: bool): (r: AgentState)
    ensures r.sessionId == Some(sid) && r.username == Some(user) && r.isHost == userIsHost
    ensures r.isSyncedToHost && Mirrors(r)
    ensures r.hostSelectedContentInfo == hostContent && r.currentIndex == hostIndex
    ensures r.fetchTrigger.Some? <==> contentSelected && hostContent.Some?
    ensures r.fetchTrigger.Some? ==> r.fetchTrigger.value == FetchFor(hostContent.value)
    ensures r.fetchTrigger.None? ==> r.currentFullContent.None?
    ensures r.participants == [] && r.error.None?
    ensures r.socketId == s.socketId && r.connectionStatus == s.connectionStatus
  {
    var base := s.(sessionId := Some(sid), username := Some(user), isHost := userIsHost,
                   hostSelectedContentInfo := hostContent, latestHostIndex := hostIndex, isSyncedToHost := true,
                   currentContentInfo := hostContent, currentIndex := hostIndex, error := None, participants := []);
    if contentSelected && hostContent.Some? then base.(fetchTrigger := Some(FetchFor(hostContent.value)))
    else base.(currentFullContent := None, fetchTrigger := None)
  }

  /**
   * `session-not-found`: an error worded for host or participant, and an empty
   * participant list; the last known session and view are kept.
   */
  function AfterSessionNotFound(s: AgentState, tried: string): (r: AgentState)
    ensures r.participants == [] && r.error.Some?
    ensures r.error.value == if s.isHost then HostSessionNotFound(tried) else ParticipantSessionNotFound(tried)
    ensures r.(participants := s.participants, error := s.error) == s
  {
    s.(error := Some(if s.isHost then HostSessionNotFound(tried) else ParticipantSessionNotFound(tried)), participants := [])
  }

  /** `username-taken`: an error, and the username cleared so the interface asks again. */
  function AfterUsernameTaken(s: AgentState, tried: string): (r: AgentState)
    ensures r.username.None? && r.error == Some(UsernameTaken(tried))
    ensures r.(username := s.username, error := s.error) == s
  {
    s.(error := Some(UsernameTaken(tried)), username := None)
  }

  /**
   * `host_content_updated`: the host's content and index are always recorded; the
   * view changes only while following the host.
   */
  function AfterHostContentUpdated(s: AgentState, info: Option<ContentInfo>, idx: int): (r: AgentState)
    ensures r.hostSelectedContentInfo == info && r.latestHostIndex == idx && r.error.None?
    ensures r.isSyncedToHost == s.isSyncedToHost
    ensures s.isSyncedToHost ==> Mirrors(r)
    ensures !s.isSyncedToHost ==>
      r.currentContentInfo == s.currentContentInfo && r.currentIndex == s.currentIndex
      && r.currentFullContent == s.currentFullContent && r.fetchTrigger == s.fetchTrigger
    ensures s.isSyncedToHost ==> r.fetchTrigger == (if info.Some? then Some(FetchFor(info.value)) else None)
  {
    var base := s.(hostSelectedContentInfo := info, latestHostIndex := idx, error := None);
    if s.isSyncedToHost then ShowContent(base.(currentIndex := idx), info) else base
  }

  /** `host_index_updated`: the host's index is always recorded; the view moves only while following. */
  function AfterHostIndexUpdated(s: AgentState, idx: int): (r: AgentState)
    ensures r.latestHostIndex == idx
    ensures r.currentIndex == if s.isSyncedToHost then idx else s.currentIndex
    ensures r.(latestHostIndex := s.latestHostIndex, currentIndex := s.currentIndex) == s
  {
    if s.isSyncedToHost then s.(latestHostIndex := idx, currentIndex := idx) else s.(latestHostIndex := idx)
  }

  /** `update_participants`. */
  function AfterUpdateParticipants(s: AgentState, ps: seq<Participant>): (r: AgentState)
    ensures r.participants == ps && r.(participants := s.participants) == s
  {
    s.(participants := ps)
  }

  function IdOf(info: Option<ContentInfo>): Option<string> {
    match info case Some(c) => Some(c.id) case None => None
  }

  function TypeOf(info: Option<ContentInfo>): Option<string> {
    match info case Some(c) => Some(c.ctype) case None => None
  }

  /**
   * `host_transferred`: this client is host exactly when it is the new host; the
   * new host follows the host state again and, when its view differs from the
   * host's content by id or type, switches to the host's content.
   */
  function AfterHostTransferred(s: AgentState, newHostId: SocketId, ps: seq<Participant>): (r: AgentState)
    ensures r.participants == ps
    ensures r.isHost <==> s.socketId == newHostId
    ensures s.socketId != newHostId ==> r == s.(participants := ps, isHost := false)
    ensures s.socketId == newHostId ==>
      && r.isSyncedToHost
      && IdOf(r.currentContentInfo) == IdOf(r.hostSelectedContentInfo)
      && TypeOf(r.currentContentInfo) == TypeOf(r.hostSelectedContentInfo)
    ensures r.hostSelectedContentInfo == s.hostSelectedContentInfo
    ensures r.currentIndex == s.currentIndex && r.latestHostIndex == s.latestHostIndex
  {
    var base := s.(participants := ps, isHost := s.socketId == newHostId);
    if s.socketId != newHostId then base
    else
      var synced := base.(isSyncedToHost := true);
      if IdOf(s.currentContentInfo) != IdOf(s.hostSelectedContentInfo)
         || TypeOf(s.currentContentInfo) != TypeOf(s.hostSelectedContentInfo)
      then ShowContent(synced, s.hostSelectedContentInfo)
      else synced
  }

  /** The `error` event. */
  function AfterServerError(s: AgentState, message: string): (r: AgentState)
    ensures r.error == Some(ServerMessage(message)) && r.(error := s.error) == s
  {
    s.(error := Some(ServerMessage(message)))
  }

  /** The agent's reaction to each event the server emits. */
  function OnEvent(s: AgentState, e: Event): (r: AgentState)
    ensures e.HostIndexUpdated? ==> r.latestHostIndex == e.currentIndex
    ensures e.HostContentUpdated? ==>
      r.latestHostIndex == e.currentIndex && r.hostSelectedContentInfo == e.selectedContent
  {
    match e
    case SessionCreated(sid, user, _, _) => AfterSessionCreated(s, sid, user)
    case SessionJoined(sid, user, isHost, content, _, idx, selected) =>
      AfterSessionJoined(s, sid, user, isHost, content, idx, selected)
    case ServerError(message) => AfterServerError(s, message)
    case UpdateParticipants(_, ps) => AfterUpdateParticipants(s, ps)
    case HostContentUpdated(_, content, idx) => AfterHostContentUpdated(s, content, idx)
    case HostIndexUpdated(_, idx) => AfterHostIndexUpdated(s, idx)
    case HostTransferred(_, newHostId, ps) => AfterHostTransferred(s, newHostId, ps)
  }

  // ---------------------------------------------------------------------------
  // Actions
  // ---------------------------------------------------------------------------

  /** `createSession(user)`: sent only when connected and a name is given. */
  function CreateSession(s: AgentState, user: Option<string>): (o: Outcome)
    ensures o.msg.Some? <==> IsConnected(s) && Truthy(user)
    ensures o.msg.Some? ==> o.msg.value == CreateSessionMsg(user.value) && o.state == s.(error := None)
    ensures o.msg.None? ==> o.state == s
  {
    if IsConnected(s) && Truthy(user) then Outcome(s.(error := None), Some(CreateSessionMsg(user.value)))
    else Outcome(s, None)
  }

  /** `joinSession(id, user, asHost)`: sent only when connected and both id and name are given. */
  function JoinSession(s: AgentState, id: Option<string>, user: Option<string>, asHost: bool): (o: Outcome)
    ensures o.msg.Some? <==> IsConnected(s) && Truthy(id) && Truthy(user)
    ensures o.msg.Some? ==> o.msg.value == JoinSessionMsg(id.value, user.value, asHost) && o.state == s.(error := None)
    ensures o.msg.None? ==> o.state == s
  {
    if IsConnected(s) && Truthy(id) && Truthy(user) then
      Outcome(s.(error := None), Some(JoinSessionMsg(id.value, user.value, asHost)))
    else Outcome(s, None)
  }

  /**
   * `selectContentAsHost(info)`: a connected host in a session sends its choice;
   * a deselection also clears the view at once, a selection waits for the echo.
   */
  function SelectAsHost(s: AgentState, info: Option<ContentInfo>): (o: Outcome)
    ensures o.msg.Some? <==> IsConnected(s) && s.isHost && InSession(s)
    ensures o.msg.Some? ==> o.msg.value == SelectContentMsg(s.sessionId.value, info) && o.state.error.None?
    ensures o.msg.Some? && info.Some? ==> o.state == s.(error := None)
    ensures o.msg.Some? && info.None? ==> o.state == ShowContent(s.(error := None), None)
    ensures o.msg.None? ==> o.state == s
  {
    if IsConnected(s) && s.isHost && InSession(s) then
      var cleared := s.(error := None);
      Outcome(if info.Some? then cleared else ShowContent(cleared, None), Some(SelectContentMsg(s.sessionId.value, info)))
    else Outcome(s, None)
  }

  /**
   * `selectContentLocally(info)`: show `info`; a connected participant in a
   * session stops following the host. A deselection leaves the sync flag alone.
   */
  function SelectLocally(s: AgentState, info: Option<ContentInfo>): (r: AgentState)
    ensures r.currentContentInfo == info
    ensures r.fetchTrigger == (if info.Some? then Some(FetchFor(info.value)) else None)
    ensures r.isSyncedToHost == (s.isSyncedToHost && !(info.Some? && InSession(s) && IsConnected(s) && !s.isHost))
    ensures r.hostSelectedContentInfo == s.hostSelectedContentInfo
    ensures r.currentIndex == s.currentIndex && r.latestHostIndex == s.latestHostIndex
    ensures r.currentFullContent == s.currentFullContent
  {
    match info
    case Some(c) =>
      var shown := s.(error := None, currentContentInfo := info, fetchTrigger := Some(FetchFor(c)));
      if InSession(s) && IsConnected(s) && !s.isHost then shown.(isSyncedToHost := false) else shown
    case None => s.(currentContentInfo := None, fetchTrigger := None)
  }

  /**
   * `syncToHost()`: a participant follows the host again, showing the host's
   * content at the latest host index (or nothing); the host is left unchanged.
   */
  function SyncToHost(s: AgentState): (r: AgentState)
    ensures s.isHost ==> r == s
    ensures !s.isHost ==> r.isSyncedToHost && Follows(r) && r.error.None?
    ensures !s.isHost ==> r.hostSelectedContentInfo == s.hostSelectedContentInfo && r.latestHostIndex == s.latestHostIndex
    ensures !s.isHost && s.hostSelectedContentInfo.None? ==> r.currentIndex == s.currentIndex
    ensures !s.isHost ==>
      r.fetchTrigger == (if s.hostSelectedContentInfo.Some? then Some(FetchFor(s.hostSelectedContentInfo.value)) else None)
  {
    if s.isHost then s
    else
      var synced := s.(error := None, isSyncedToHost := true);
      match s.hostSelectedContentInfo
      case Some(_) => ShowContent(synced.(currentIndex := s.latestHostIndex), s.hostSelectedContentInfo)
      case None => ShowContent(synced, None)
  }

  /**
   * The last index local navigation accepts: `totalAyahs - 1` when the loaded
   * content has a non-zero ayah count, else the last line of a dua, else 0.
   */
  function MaxIndex(fc: Option<FullContent>): (m: int)
    ensures m >= 0
    ensures fc.Some? && fc.value.totalAyahs.Some? && fc.value.totalAyahs.value > 0 ==> m == fc.value.totalAyahs.value - 1
    ensures fc.Some? && (fc.value.totalAyahs.None? || fc.value.totalAyahs.value == 0)
            && fc.value.verses.Some? && fc.value.verses.value.DuaLines? && |fc.value.verses.value.arabic| > 0
            ==> m == |fc.value.verses.value.arabic| - 1
    ensures fc.None? ==> m == 0
    ensures fc.Some? && (fc.value.totalAyahs.None? || fc.value.totalAyahs.value == 0)
            && !(fc.value.verses.Some? && fc.value.verses.value.DuaLines? && |fc.value.verses.value.arabic| > 0)
            ==> m == 0
  {
    if fc.Some? && fc.value.totalAyahs.Some? && fc.value.totalAyahs.value != 0 then fc.value.totalAyahs.value - 1
    else if fc.Some? && fc.value.verses.Some? && fc.value.verses.value.DuaLines? && |fc.value.verses.value.arabic| != 0
    then |fc.value.verses.value.arabic| - 1
    else 0
  }

  /** An index local navigation accepts: a number in [0, MaxIndex]. */
  predicate InRange(s: AgentState, idx: JsIndex) {
    idx.Number? && 0 <= idx.n <= MaxIndex(s.currentFullContent)
  }

  /**
   * `updateHostIndex(i)`: the host moves its own view to an in-range index and,
   * when connected in a session, tells the server. Anything else is ignored.
   */
  function UpdateHostIndex(s: AgentState, idx: JsIndex): (o: Outcome)
    ensures !(s.isHost && InRange(s, idx)) ==> o == Outcome(s, None)
    ensures s.isHost && InRange(s, idx) ==> o.state == s.(currentIndex := idx.n)
    ensures 0 <= o.state.currentIndex <= MaxIndex(s.currentFullContent) || o.state == s
    ensures o.msg.Some? <==> s.isHost && InRange(s, idx) && IsConnected(s) && InSession(s)
    ensures o.msg.Some? ==> o.msg.value == HostUpdateIndexMsg(s.sessionId.value, idx.n)
  {
    if s.isHost && InRange(s, idx) then
      Outcome(s.(currentIndex := idx.n),
              if IsConnected(s) && InSession(s) then Some(HostUpdateIndexMsg(s.sessionId.value, idx.n)) else None)
    else Outcome(s, None)
  }

  /**
   * `updateLocalIndex(i)`: a participant moves its own view to an in-range index
   * and, in a session, stops following the host. Anything else is ignored.
   */
  function UpdateLocalIndex(s: AgentState, idx: JsIndex): (r: AgentState)
    ensures !(!s.isHost && InRange(s, idx)) ==> r == s
    ensures !s.isHost && InRange(s, idx) ==> r.currentIndex == idx.n
    ensures r.isSyncedToHost == (s.isSyncedToHost && !(!s.isHost && InRange(s, idx) && InSession(s)))
    ensures r.(currentIndex := s.currentIndex, isSyncedToHost := s.isSyncedToHost) == s
  {
    if !s.isHost && InRange(s, idx) then
      var moved := s.(currentIndex := idx.n);
      if InSession(s) then moved.(isSyncedToHost := false) else moved
    else s
  }

  // ---------------------------------------------------------------------------
  // The sync state machine over a stream of host broadcasts
  // ---------------------------------------------------------------------------

  /** The two broadcasts a host's choices reach participants by. */
  datatype Broadcast = ContentChange(info: Option<ContentInfo>, idx: int) | IndexChange(idx: int)

  function ApplyBroadcast(s: AgentState, b: Broadcast): AgentState {
    match b
    case ContentChange(info, idx) => AfterHostContentUpdated(s, info, idx)
    case IndexChange(idx) => AfterHostIndexUpdated(s, idx)
  }

  /** The state after receiving `bs` in order. */
  function ApplyAll(s: AgentState, bs: seq<Broadcast>): AgentState
    decreases |bs|
  {
    if bs == [] then s else ApplyAll(ApplyBroadcast(s, bs[0]), bs[1..])
  }

  /** The host index after `bs`, starting from `start`. */
  function LastHostIndex(start: int, bs: seq<Broadcast>): int
    decreases |bs|
  {
    if bs == [] then start else LastHostIndex(bs[0].idx, bs[1..])
  }

  /** The host content after `bs`, starting from `start`. */
  function LastHostContent(start: Option<ContentInfo>, bs: seq<Broadcast>): Option<ContentInfo>
    decreases |bs|
  {
    if bs == [] then start
    else LastHostContent(if bs[0].ContentChange? then bs[0].info else start, bs[1..])
  }

  /**
   * While a client browses on its own, host broadcasts never move its view; it
   * still records where the host is.
   */
  lemma {:induction false} UnsyncedViewFrozen(s: AgentState, bs: seq<Broadcast>)
    requires !s.isSyncedToHost
    ensures var r := ApplyAll(s, bs);
      && !r.isSyncedToHost
      && r.currentContentInfo == s.currentContentInfo && r.currentIndex == s.currentIndex
      && r.currentFullContent == s.currentFullContent && r.fetchTrigger == s.fetchTrigger
      && r.latestHostIndex == LastHostIndex(s.latestHostIndex, bs)
      && r.hostSelectedContentInfo == LastHostContent(s.hostSelectedContentInfo, bs)
    decreases |bs|
  {
    if bs != [] {
      UnsyncedViewFrozen(ApplyBroadcast(s, bs[0]), bs[1..]);
    }
  }

  /** While a client follows the host, every broadcast keeps its view on the host's. */
  lemma {:induction false} SyncedViewFollows(s: AgentState, bs: seq<Broadcast>)
    requires s.isSyncedToHost && Follows(s)
    ensures var r := ApplyAll(s, bs);
      && r.isSyncedToHost && Follows(r)
      && r.latestHostIndex == LastHostIndex(s.latestHostIndex, bs)
      && r.hostSelectedContentInfo == LastHostContent(s.hostSelectedContentInfo, bs)
      && (bs != [] ==> Mirrors(r))
    decreases |bs|
  {
    if bs != [] {
      var t := ApplyBroadcast(s, bs[0]);
      assert Mirrors(t);
      SyncedViewFollows(t, bs[1..]);
    }
  }

  /**
   * A participant that browsed away and then syncs lands on the host's latest
   * content and index, however many broadcasts it let pass.
   */
  lemma SyncAfterBroadcastsCatchesUp(s: AgentState, bs: seq<Broadcast>)
    requires !s.isHost && !s.isSyncedToHost
    ensures var r := SyncToHost(ApplyAll(s, bs));
      && r.isSyncedToHost
      && r.currentContentInfo == LastHostContent(s.hostSelectedContentInfo, bs)
      && (r.currentContentInfo.Some? ==> r.currentIndex == LastHostIndex(s.latestHostIndex, bs))
  {
    UnsyncedViewFrozen(s, bs);
    assert !ApplyAll(s, bs).isHost by { HostFlagUnchanged(s, bs); }
  }

  /** Broadcasts never change who hosts. */
  lemma {:induction false} HostFlagUnchanged(s: AgentState, bs: seq<Broadcast>)
    ensures ApplyAll(s, bs).isHost == s.isHost
    decreases |bs|
  {
    if bs != [] {
      HostFlagUnchanged(ApplyBroadcast(s, bs[0]), bs[1..]);
    }
  }

  /**
   * A participant whose connection dropped and who picks content keeps its sync
   * flag, yet its view no longer shows the host's content: "synced" does not
   * imply "shows the host's content".
   */
  lemma OfflineLocalSelectionKeepsSyncFlag(s: AgentState, info: ContentInfo)
    requires InSession(s) && !IsConnected(s) && !s.isHost && s.isSyncedToHost
    requires s.hostSelectedContentInfo != Some(info)
    ensures var r := SelectLocally(s, Some(info));
      r.isSyncedToHost && !Follows(r)
  {
  }

  /** A participant's accepted local move always stops following inside a session and never outside one. */
  lemma LocalMoveUnsyncsOnlyInSession(s: AgentState, n: int)
    requires !s.isHost && 0 <= n <= MaxIndex(s.currentFullContent)
    ensures UpdateLocalIndex(s, Number(n)).currentIndex == n
    ensures UpdateLocalIndex(s, Number(n)).isSyncedToHost <==> s.isSyncedToHost && !InSession(s)
  {
  }

  // ---------------------------------------------------------------------------
  // The agent object
  // ---------------------------------------------------------------------------

  /** The `SocketProvider`'s state, one field per state variable. */
  class SessionAgent {
    var socketId: SocketId
    var connectionStatus: Status
    var sessionId: Option<string>
    var username: Option<string>
    var isHost: bool
    var hostSelectedContentInfo: Option<ContentInfo>
    var currentContentInfo: Option<ContentInfo>
    var currentFullContent: Option<FullContent>
    var currentIndex: int
    var latestHostIndex: int
    var isSyncedToHost: bool
    var participants: seq<Participant>
    var error: Option<AgentError>
    /** Whether (and what) the agent has asked to load; the loading itself is outside the model. */
    ghost var fetchTrigger: Option<FetchRequest>

    ghost function State(): AgentState
      reads this
    {
      AgentState(socketId, connectionStatus, sessionId, username, isHost, hostSelectedContentInfo,
                 currentContentInfo, currentFullContent, currentIndex, latestHostIndex, isSyncedToHost,
                 participants, error, fetchTrigger)
    }

    constructor(id: SocketId)
      ensures State() == Initial(id)
    {
      socketId, connectionStatus, sessionId, username, isHost := id, Disconnected, None, None, false;
      hostSelectedContentInfo, currentContentInfo, currentFullContent := None, None, None;
      currentIndex, latestHostIndex, isSyncedToHost := 0, 0, true;
      participants, error := [], None;
      fetchTrigger := None;
    }

    /** Show `info`, requesting its load, or clear the view. */
    method Show(info: Option<ContentInfo>)
      modifies this
      ensures State() == ShowContent(old(State()), info)
    {
      currentContentInfo := info;
      if info.Some? {
        fetchTrigger := Some(FetchFor(info.value));
      } else {
        currentFullContent := None;
        fetchTrigger := None;
      }
    }

    method HandleConnect(id: SocketId)
      modifies this
      ensures State() == AfterConnect(old(State()), id)
    {
      socketId := id;
      connectionStatus := Connected;
      error := None;
    }

    method HandleDisconnect(reason: string)
      modifies this
      ensures State() == AfterDisconnect(old(State()), reason)
    {
      connectionStatus := Disconnected;
      participants := [];
      if reason != "io client disconnect" {
        error := Some(ConnectionLost);
      }
    }

    method HandleSessionCreated(sid: string, user: string)
      modifies this
      ensures State() == AfterSessionCreated(old(State()), sid, user)
    {
      ghost var s0 := old(State());
      sessionId, username, isHost, isSyncedToHost := Some(sid), Some(user), true, true;
      assert State() == s0.(sessionId := Some(sid), username := Some(user), isHost := true, isSyncedToHost := true);
      hostSelectedContentInfo, currentContentInfo, currentFullContent := None, None, None;
      currentIndex, participants, error, fetchTrigger := 0, [], None, None;
    }

    method HandleSessionJoined(sid: string, user: string, userIsHost: bool,
                               hostContent: Option<ContentInfo>, hostIndex: int, contentSelected: bool)
      modifies this
      ensures State() == AfterSessionJoined(old(State()), sid, user, userIsHost, hostContent, hostIndex, contentSelected)
    {
      ghost var base := old(State()).(sessionId := Some(sid), username := Some(user), isHost := userIsHost,
        hostSelectedContentInfo := hostContent, latestHostIndex := hostIndex, isSyncedToHost := true,
        currentContentInfo := hostContent, currentIndex := hostIndex, error := None, participants := []);
      sessionId, username, isHost := Some(sid), Some(user), userIsHost;
      hostSelectedContentInfo, latestHostIndex, isSyncedToHost := hostContent, hostIndex, true;
      currentContentInfo, currentIndex, error, participants := hostContent, hostIndex, None, [];
      assert State() == base;
      if contentSelected && hostContent.Some? {
        fetchTrigger := Some(FetchFor(hostContent.value));
        assert State() == base.(fetchTrigger := Some(FetchFor(hostContent.value)));
      } else {
        currentFullContent := None;
        fetchTrigger := None;
        assert State() == base.(currentFullContent := None, fetchTrigger := None);
      }
    }

    method HandleSessionNotFound(tried: string)
      modifies this
      ensures State() == AfterSessionNotFound(old(State()), tried)
    {
      if isHost {
        error := Some(HostSessionNotFound(tried));
      } else {
        error := Some(ParticipantSessionNotFound(tried));
      }
      participants := [];
    }

    method HandleUsernameTaken(tried: string)
      modifies this
      ensures State() == AfterUsernameTaken(old(State()), tried)
    {
      error := Some(UsernameTaken(tried));
      username := None;
    }

    method HandleHostContentUpdated(info: Option<ContentInfo>, idx: int)
      modifies this
      ensures State() == AfterHostContentUpdated(old(State()), info, idx)
    {
      hostSelectedContentInfo, latestHostIndex, error := info, idx, None;
      if isSyncedToHost {
        currentIndex := idx;
        Show(info);
      }
    }

    method HandleHostIndexUpdated(idx: int)
      modifies this
      ensures State() == AfterHostIndexUpdated(old(State()), idx)
    {
      latestHostIndex := idx;
      if isSyncedToHost {
        currentIndex := idx;
      }
    }

    method HandleUpdateParticipants(ps: seq<Participant>)
      modifies this
      ensures State() == AfterUpdateParticipants(old(State()), ps)
    {
      participants := ps;
    }

    method HandleHostTransferred(newHostId: SocketId, ps: seq<Participant>)
      modifies this
      ensures State() == AfterHostTransferred(old(State()), newHostId, ps)
    {
      participants := ps;
      var amINewHost := socketId == newHostId;
      isHost := amINewHost;
      if amINewHost {
        isSyncedToHost := true;
        if IdOf(currentContentInfo) != IdOf(hostSelectedContentInfo)
           || TypeOf(currentContentInfo) != TypeOf(hostSelectedContentInfo) {
          Show(hostSelectedContentInfo);
        }
      }
    }

    method HandleServerError(message: string)
      modifies this
      ensures State() == AfterServerError(old(State()), message)
    {
      error := Some(ServerMessage(message));
    }

    /** Dispatch a server event to its listener. */
    method Receive(e: Event)
      modifies this
      ensures State() == OnEvent(old(State()), e)
    {
      match e
      case SessionCreated(sid, user, _, _) => HandleSessionCreated(sid, user);
      case SessionJoined(sid, user, userIsHost, content, _, idx, selected) =>
        HandleSessionJoined(sid, user, userIsHost, content, idx, selected);
      case ServerError(message) => HandleServerError(message);
      case UpdateParticipants(_, ps) => HandleUpdateParticipants(ps);
      case HostContentUpdated(_, content, idx) => HandleHostContentUpdated(content, idx);
      case HostIndexUpdated(_, idx) => HandleHostIndexUpdated(idx);
      case HostTransferred(_, newHostId, ps) => HandleHostTransferred(newHostId, ps);
    }

    method CreateSessionAction(user: Option<string>) returns (msg: Option<ClientMessage>)
      modifies this
      ensures Outcome(State(), msg) == CreateSession(old(State()), user)
    {
      msg := None;
      if connectionStatus == Connected && Truthy(user) {
        error := None;
        msg := Some(CreateSessionMsg(user.value));
      }
    }

    method JoinSessionAction(id: Option<string>, user: Option<string>, asHost: bool) returns (msg: Option<ClientMessage>)
      modifies this
      ensures Outcome(State(), msg) == JoinSession(old(State()), id, user, asHost)
    {
      msg := None;
      if connectionStatus == Connected && Truthy(id) && Truthy(user) {
        error := None;
        msg := Some(JoinSessionMsg(id.value, user.value, asHost));
      }
    }

    method SelectContentAsHost(info: Option<ContentInfo>) returns (msg: Option<ClientMessage>)
      modifies this
      ensures Outcome(State(), msg) == SelectAsHost(old(State()), info)
    {
      msg := None;
      if connectionStatus == Connected && isHost && Truthy(sessionId) {
        error := None;
        msg := Some(SelectContentMsg(sessionId.value, info));
        if info.None? {
          Show(None);
        }
      }
    }

    method SelectContentLocally(info: Option<ContentInfo>)
      modifies this
      ensures State() == SelectLocally(old(State()), info)
    {
      if info.Some? {
        error := None;
        currentContentInfo := info;
        if Truthy(sessionId) && connectionStatus == Connected && !isHost {
          isSyncedToHost := false;
        }
        fetchTrigger := Some(FetchFor(info.value));
      } else {
        currentContentInfo := None;
        fetchTrigger := None;
      }
    }

    method SyncToHostAction()
      modifies this
      ensures State() == SyncToHost(old(State()))
    {
      if !isHost && hostSelectedContentInfo.Some? {
        error := None;
        isSyncedToHost := true;
        currentIndex := latestHostIndex;
        Show(hostSelectedContentInfo);
      } else if !isHost && hostSelectedContentInfo.None? {
        error := None;
        isSyncedToHost := true;
        Show(None);
      }
    }

    method UpdateHostIndexAction(idx: JsIndex) returns (msg: Option<ClientMessage>)
      modifies this
      ensures Outcome(State(), msg) == UpdateHostIndex(old(State()), idx)
    {
      msg := None;
      if isHost && idx.Number? {
        var maxIndex := MaxIndex(currentFullContent);
        if idx.n >= 0 && idx.n <= maxIndex {
          currentIndex := idx.n;
          if connectionStatus == Connected && Truthy(sessionId) {
            msg := Some(HostUpdateIndexMsg(sessionId.value, idx.n));
          }
        }
      }
    }

    method UpdateLocalIndexAction(idx: JsIndex)
      modifies this
      ensures State() == UpdateLocalIndex(old(State()), idx)
    {
      if !isHost && idx.Number? {
        var maxIndex := MaxIndex(currentFullContent);
        if idx.n >= 0 && idx.n <= maxIndex {
          currentIndex := idx.n;
          if Truthy(sessionId) {
            isSyncedToHost := false;
          }
        }
      }
    }
  }
}
