/**
 * The session screen's decision logic: stepping through phrases, the host's
 * auto-advance tick, what picking content or pressing Back does in each
 * situation, and which phrase is on screen. The screen keeps a few flags of its
 * own (browsing the selection page, auto-advance, the share dialog, a local
 * error) and drives the session agent through its actions.
 */
module ClientApp {
  import opened Wrappers
  import opened Protocol
  import opened ClientAgent

  /** The screen's own flags beside the agent's state. */
  datatype ViewState = ViewState(
    agent: AgentState,
    isBrowsingLocally: bool,
    autoAdvance: bool,
    showShareDialog: bool,
    localError: Option<string>)

  /** The result of a screen action: the new state and the message sent, if any. */
  datatype AppOutcome = AppOutcome(view: ViewState, msg: Option<ClientMessage>)

  // ---------------------------------------------------------------------------
  // Navigation
  // ---------------------------------------------------------------------------

  /**
   * `totalPhrases` of the navigation code: the ayah count when the loaded content
   * has one (even 0), else the number of Arabic lines of a dua, else 0.
   */
  function TotalPhrases(fc: Option<FullContent>): (n: int)
    ensures n >= 0
    ensures fc.Some? && fc.value.totalAyahs.Some? ==> n == fc.value.totalAyahs.value
    ensures fc.None? ==> n == 0
  {
    match fc
    case None => 0
    case Some(c) =>
      if c.totalAyahs.Some? then c.totalAyahs.value
      else if c.verses.Some? && c.verses.value.DuaLines? then |c.verses.value.arabic|
      else 0
  }

  /** Which agent action `navigate` calls, with which index. */
  datatype Move = NoMove | HostMove(n: int) | LocalMove(n: int)

  /**
   * `navigate(direction)`: a move to `currentIndex + direction` when content is
   * loaded and the target lies in [0, totalPhrases); a host moves everyone, a
   * participant moves alone. Out-of-range moves are dropped, not clamped.
   */
  function NavigateTarget(s: AgentState, direction: int): (m: Move)
    ensures m != NoMove <==>
      s.currentFullContent.Some? && 0 <= s.currentIndex + direction < TotalPhrases(s.currentFullContent)
    ensures m.HostMove? ==> s.isHost && m.n == s.currentIndex + direction
    ensures m.LocalMove? ==> !s.isHost && m.n == s.currentIndex + direction
  {
    var total := TotalPhrases(s.currentFullContent);
    if s.currentFullContent.None? || total == 0 then NoMove
    else
      var n := s.currentIndex + direction;
      if 0 <= n < total then (if s.isHost then HostMove(n) else LocalMove(n)) else NoMove
  }

  /** The state after `navigate(direction)`, and the message a host's move sends. */
  function Navigate(s: AgentState, direction: int): Outcome {
    match NavigateTarget(s, direction)
    case NoMove => Outcome(s, None)
    case HostMove(n) => UpdateHostIndex(s, Number(n))
    case LocalMove(n) => Outcome(UpdateLocalIndex(s, Number(n)), None)
  }

  /** Every move `navigate` asks for passes the agent's own range check. */
  lemma NavigateTargetAccepted(s: AgentState, direction: int)
    requires NavigateTarget(s, direction) != NoMove
    ensures InRange(s, Number(s.currentIndex + direction))
  {
  }

  /**
   * `navigate` moves the index by exactly `direction` or not at all, and the view
   * moves exactly when the target is in range.
   */
  lemma NavigateMovesByDirection(s: AgentState, direction: int)
    ensures var r := Navigate(s, direction).state;
      r.currentIndex == (if NavigateTarget(s, direction) != NoMove then s.currentIndex + direction else s.currentIndex)
    ensures NavigateTarget(s, direction) == NoMove ==> Navigate(s, direction) == Outcome(s, None)
  {
    if NavigateTarget(s, direction) != NoMove {
      NavigateTargetAccepted(s, direction);
    }
  }

  // ---------------------------------------------------------------------------
  // Auto-advance
  // ---------------------------------------------------------------------------

  /** The interval exists: auto-advance on, host, in a session, content loaded with phrases. */
  predicate AutoAdvanceActive(v: ViewState) {
    v.autoAdvance && v.agent.isHost && InSession(v.agent) && v.agent.currentFullContent.Some?
    && TotalPhrases(v.agent.currentFullContent) > 0
  }

  /** One tick of the interval: step forward by one before the last phrase, else switch off. */
  function Tick(v: ViewState): AppOutcome {
    var total := TotalPhrases(v.agent.currentFullContent);
    if v.agent.currentIndex < total - 1 then
      var o := UpdateHostIndex(v.agent, Number(v.agent.currentIndex + 1));
      AppOutcome(v.(agent := o.state), o.msg)
    else AppOutcome(v.(autoAdvance := false), None)
  }

  /** A tick advances by exactly one before the last phrase and switches auto-advance off at it. */
  lemma TickStep(v: ViewState)
    requires AutoAdvanceActive(v) && v.agent.currentIndex >= 0
    ensures var total := TotalPhrases(v.agent.currentFullContent);
      var r := Tick(v);
      && (v.agent.currentIndex < total - 1 ==>
            r.view == v.(agent := v.agent.(currentIndex := v.agent.currentIndex + 1))
            && (r.msg.Some? <==> IsConnected(v.agent)))
      && (v.agent.currentIndex >= total - 1 ==> r.view == v.(autoAdvance := false) && r.msg.None?)
  {
  }

  /** `k` ticks in a row. */
  function Ticks(v: ViewState, k: nat): ViewState
    decreases k
  {
    if k == 0 then v else Ticks(Tick(v).view, k - 1)
  }

  /** From index i, k ticks with i + k still before the last phrase land on i + k, still advancing. */
  lemma {:induction false} AutoAdvanceRun(v: ViewState, k: nat)
    requires AutoAdvanceActive(v) && v.agent.currentIndex >= 0
    requires v.agent.currentIndex + k <= TotalPhrases(v.agent.currentFullContent) - 1
    ensures Ticks(v, k).agent.currentIndex == v.agent.currentIndex + k
    ensures AutoAdvanceActive(Ticks(v, k))
    ensures Ticks(v, k).agent.currentFullContent == v.agent.currentFullContent
    decreases k
  {
    if k > 0 {
      TickStep(v);
      AutoAdvanceRun(Tick(v).view, k - 1);
    }
  }

  /** Once on the last phrase, the next tick switches auto-advance off and leaves the index there. */
  lemma AutoAdvanceStopsAtEnd(v: ViewState)
    requires AutoAdvanceActive(v)
    requires v.agent.currentIndex == TotalPhrases(v.agent.currentFullContent) - 1
    ensures !Tick(v).view.autoAdvance && Tick(v).view.agent == v.agent
  {
  }

  // ---------------------------------------------------------------------------
  // Picking content and going back
  // ---------------------------------------------------------------------------

  /** `handleContentSelection(info)`. */
  function ContentSelection(v: ViewState, info: Option<ContentInfo>): (o: AppOutcome)
    ensures info.None? ==> o == AppOutcome(v, None)
    ensures info.Some? ==> o.view.localError.None?
    ensures o.msg.Some? <==> info.Some? && InSession(v.agent) && v.agent.isHost && IsConnected(v.agent)
    ensures o.msg.Some? ==> o.msg.value == SelectContentMsg(v.agent.sessionId.value, info) && o.view.showShareDialog
  {
    if info.None? then AppOutcome(v, None)
    else
      var w := v.(localError := None);
      var s := v.agent;
      if !InSession(s) then AppOutcome(w.(agent := SelectLocally(s, info)), None)
      else if s.isHost && IsConnected(s) then
        var h := SelectAsHost(s, info);
        AppOutcome(w.(agent := h.state, showShareDialog := true), h.msg)
      else if v.isBrowsingLocally then AppOutcome(w.(agent := SelectLocally(s, info), isBrowsingLocally := false), None)
      else if !s.isHost && IsConnected(s) then
        AppOutcome(w.(agent := SelectLocally(s, info), isBrowsingLocally := true), None)
      else if !s.isHost then AppOutcome(w.(agent := SelectLocally(s, info)), None)
      else AppOutcome(w, None)
  }

  /** A connected participant in a session who picks content shows it and stops following the host. */
  lemma ParticipantSelectionUnsyncs(v: ViewState, info: ContentInfo)
    requires InSession(v.agent) && !v.agent.isHost && IsConnected(v.agent)
    ensures var r := ContentSelection(v, Some(info)).view;
      && r.agent.currentContentInfo == Some(info)
      && !r.agent.isSyncedToHost
      && r.isBrowsingLocally == !v.isBrowsingLocally
  {
  }

  /** Outside a session, picking content only shows it: no message, no sync change, no mode change. */
  lemma SelectionOutsideSessionIsLocal(v: ViewState, info: ContentInfo)
    requires !InSession(v.agent)
    ensures var o := ContentSelection(v, Some(info));
      && o.msg.None?
      && o.view.agent.currentContentInfo == Some(info)
      && o.view.agent.isSyncedToHost == v.agent.isSyncedToHost
      && o.view.isBrowsingLocally == v.isBrowsingLocally
  {
  }

  /** A disconnected host that is not browsing cannot pick content: only the local error is cleared. */
  lemma DisconnectedHostSelectionIgnored(v: ViewState, info: ContentInfo)
    requires InSession(v.agent) && v.agent.isHost && !IsConnected(v.agent) && !v.isBrowsingLocally
    ensures ContentSelection(v, Some(info)) == AppOutcome(v.(localError := None), None)
  {
  }

  /** A disconnected reader in a session who is browsing, or who is a participant, picks content locally and stops browsing. */
  lemma DisconnectedSelectionIsLocal(v: ViewState, info: ContentInfo)
    requires InSession(v.agent) && !IsConnected(v.agent) && (v.isBrowsingLocally || !v.agent.isHost)
    ensures var o := ContentSelection(v, Some(info));
      && o.msg.None?
      && o.view.agent.currentContentInfo == Some(info)
      && !o.view.isBrowsingLocally
      && o.view.agent.isSyncedToHost == v.agent.isSyncedToHost
  {
  }

  /** `handleBack()`. */
  function Back(v: ViewState): (o: AppOutcome)
    ensures o.view.localError.None?
    ensures o.msg.Some? ==> InSession(v.agent) && v.agent.isHost && IsConnected(v.agent)
    ensures o.msg.Some? && v.agent.currentContentInfo.Some? ==>
      o.msg.value == SelectContentMsg(v.agent.sessionId.value, None) && o.view.agent.currentContentInfo.None?
    ensures o.msg.Some? && v.agent.currentContentInfo.None? ==> o.msg.value == LeaveSessionMsg(v.agent.sessionId.value)
    ensures InSession(v.agent) && v.agent.isHost && IsConnected(v.agent) ==> o.msg.Some?
    ensures !InSession(v.agent) && v.agent.currentContentInfo.Some? ==>
      o.msg.None? && o.view.agent.currentContentInfo.None? && o.view.isBrowsingLocally == v.isBrowsingLocally
  {
    var w := v.(localError := None);
    var s := v.agent;
    if !InSession(s) && s.currentContentInfo.Some? then AppOutcome(w.(agent := SelectLocally(s, None)), None)
    else if InSession(s) && s.currentContentInfo.Some? then
      if s.isHost && IsConnected(s) then
        var h := SelectAsHost(s, None);
        AppOutcome(w.(agent := h.state), h.msg)
      else if v.isBrowsingLocally then
        AppOutcome(w.(isBrowsingLocally := false,
                      agent := if IsConnected(s) then SyncToHost(s) else SelectLocally(s, None)), None)
      else if !s.isHost && IsConnected(s) then AppOutcome(w.(isBrowsingLocally := true), None)
      else if !s.isHost then AppOutcome(w.(agent := SelectLocally(s, None)), None)
      else AppOutcome(w, None)
    else if InSession(s) && s.isHost && IsConnected(s) then
      AppOutcome(w, Some(LeaveSessionMsg(s.sessionId.value)))
    else if InSession(s) && !s.isHost && v.isBrowsingLocally then
      AppOutcome(w.(isBrowsingLocally := false, agent := if IsConnected(s) then SyncToHost(s) else s), None)
    else AppOutcome(w, None)
  }

  /** A connected, browsing participant pressing Back returns to the host's content and index. */
  lemma BackFromBrowsingResyncs(v: ViewState)
    requires InSession(v.agent) && !v.agent.isHost && IsConnected(v.agent) && v.isBrowsingLocally
    ensures var r := Back(v).view;
      && !r.isBrowsingLocally && r.agent.isSyncedToHost && Follows(r.agent) && Back(v).msg.None?
  {
  }

  /** A connected participant following the host who presses Back on content opens the selection page and keeps following. */
  lemma BackFromSyncedContentStartsBrowsing(v: ViewState)
    requires InSession(v.agent) && !v.agent.isHost && IsConnected(v.agent) && !v.isBrowsingLocally
    requires v.agent.currentContentInfo.Some?
    ensures Back(v) == AppOutcome(v.(localError := None, isBrowsingLocally := true), None)
  {
  }

  /** A disconnected browsing participant pressing Back on content clears the view instead of syncing. */
  lemma BackWhileDisconnectedClears(v: ViewState)
    requires InSession(v.agent) && !IsConnected(v.agent) && v.isBrowsingLocally
    requires v.agent.currentContentInfo.Some?
    ensures var r := Back(v).view;
      !r.isBrowsingLocally && r.agent.currentContentInfo.None? && r.agent.isSyncedToHost == v.agent.isSyncedToHost
  {
  }

  // ---------------------------------------------------------------------------
  // The phrase on screen
  // ---------------------------------------------------------------------------

  datatype Phrase = Phrase(arabic: string, transliteration: string, translation: string)

  const EmptyPhrase := Phrase("", "", "")

  /** `list[i] || ''`: the entry at i, or '' when there is none. */
  function LineAt(lines: seq<string>, i: int): string {
    if 0 <= i < |lines| then lines[i] else ""
  }

  /**
   * `currentPhraseData`: the phrase at `currentIndex`, read according to the
   * selected content's type; empty unless content is loaded, has a non-zero
   * `totalAyahs` and the index is below it.
   */
  function CurrentPhrase(s: AgentState): (p: Phrase)
    ensures s.currentFullContent.None? ==> p == EmptyPhrase
    ensures s.currentFullContent.Some? && s.currentIndex >= s.currentFullContent.value.totalAyahs.GetOr(0) ==> p == EmptyPhrase
    ensures p != EmptyPhrase ==>
      && s.currentContentInfo.Some?
      && s.currentFullContent.value.verses.Some?
      && 0 <= s.currentIndex < s.currentFullContent.value.totalAyahs.GetOr(0)
      && (s.currentContentInfo.value.ctype == "quran" ==>
            s.currentFullContent.value.verses.value.VerseList?
            && s.currentIndex < |s.currentFullContent.value.verses.value.list|)
      && (s.currentContentInfo.value.ctype == "dua" ==> s.currentFullContent.value.verses.value.DuaLines?)
  {
    if s.currentFullContent.None? then EmptyPhrase
    else
      var fc := s.currentFullContent.value;
      var total := fc.totalAyahs.GetOr(0);
      if total == 0 || s.currentIndex >= total then EmptyPhrase
      else if s.currentContentInfo.Some? && s.currentContentInfo.value.ctype == "quran" then
        match fc.verses
        case Some(VerseList(list)) =>
          if 0 <= s.currentIndex < |list| then
            var verse := list[s.currentIndex];
            Phrase(verse.arabic, verse.transliteration, verse.translation)
          else EmptyPhrase
        case _ => EmptyPhrase
      else if s.currentContentInfo.Some? && s.currentContentInfo.value.ctype == "dua" then
        match fc.verses
        case Some(DuaLines(a, t, tr)) =>
          Phrase(LineAt(a, s.currentIndex), LineAt(t, s.currentIndex), LineAt(tr, s.currentIndex))
        case _ => EmptyPhrase
      else EmptyPhrase
  }

  /** For loaded quran content, the phrase shown is the merged verse at the current index. */
  lemma QuranPhraseIsVerse(s: AgentState, list: seq<Verse>)
    requires s.currentContentInfo.Some? && s.currentContentInfo.value.ctype == "quran"
    requires s.currentFullContent == Some(FullContent(Some(|list|), Some(VerseList(list))))
    requires 0 <= s.currentIndex < |list|
    ensures CurrentPhrase(s) == Phrase(list[s.currentIndex].arabic, list[s.currentIndex].transliteration,
                                       list[s.currentIndex].translation)
  {
  }

  // ---------------------------------------------------------------------------
  // The screen object
  // ---------------------------------------------------------------------------

  /** The session screen: its own flags and the agent it drives. */
  class AppView {
    const agent: SessionAgent
    var isBrowsingLocally: bool
    var autoAdvance: bool
    var showShareDialog: bool
    var localError: Option<string>

    ghost function View(): ViewState
      reads this, agent
    {
      ViewState(agent.State(), isBrowsingLocally, autoAdvance, showShareDialog, localError)
    }

    constructor(a: SessionAgent)
      ensures agent == a && !isBrowsingLocally && !autoAdvance && !showShareDialog && localError.None?
    {
      agent := a;
      isBrowsingLocally, autoAdvance, showShareDialog, localError := false, false, false, None;
    }

    /** `navigate(direction)`. */
    method NavigateAction(direction: int) returns (msg: Option<ClientMessage>)
      modifies agent
      ensures Outcome(agent.State(), msg) == Navigate(old(agent.State()), direction)
    {
      var total := TotalPhrases(agent.currentFullContent);
      msg := None;
      if agent.currentFullContent.None? || total == 0 {
        return;
      }
      var newIndex := agent.currentIndex + direction;
      if newIndex >= 0 && newIndex < total {
        if agent.isHost {
          msg := agent.UpdateHostIndexAction(Number(newIndex));
        } else {
          agent.UpdateLocalIndexAction(Number(newIndex));
        }
      }
    }

    /** One firing of the auto-advance interval. */
    method TickAction() returns (msg: Option<ClientMessage>)
      modifies this, agent
      ensures AppOutcome(View(), msg) == Tick(old(View()))
    {
      var total := TotalPhrases(agent.currentFullContent);
      if agent.currentIndex < total - 1 {
        msg := agent.UpdateHostIndexAction(Number(agent.currentIndex + 1));
      } else {
        autoAdvance := false;
        msg := None;
      }
    }

    /** `handleContentSelection(info)`. */
    method HandleContentSelection(info: Option<ContentInfo>) returns (msg: Option<ClientMessage>)
      modifies this, agent
      ensures AppOutcome(View(), msg) == ContentSelection(old(View()), info)
    {
      msg := None;
      if info.None? {
        return;
      }
      localError := None;
      if !Truthy(agent.sessionId) {
        agent.SelectContentLocally(info);
      } else if agent.isHost && agent.connectionStatus == Connected {
        msg := agent.SelectContentAsHost(info);
        showShareDialog := true;
      } else if isBrowsingLocally {
        agent.SelectContentLocally(info);
        isBrowsingLocally := false;
      } else if !agent.isHost && agent.connectionStatus == Connected {
        agent.SelectContentLocally(info);
        isBrowsingLocally := true;
      } else if !agent.isHost {
        agent.SelectContentLocally(info);
      }
    }

    /** `handleBack()`. */
    method HandleBack() returns (msg: Option<ClientMessage>)
      modifies this, agent
      ensures AppOutcome(View(), msg) == Back(old(View()))
    {
      localError := None;
      msg := None;
      var inSession := Truthy(agent.sessionId);
      var connected := agent.connectionStatus == Connected;
      if !inSession && agent.currentContentInfo.Some? {
        agent.SelectContentLocally(None);
        return;
      }
      if inSession && agent.currentContentInfo.Some? {
        if agent.isHost && connected {
          msg := agent.SelectContentAsHost(None);
        } else if isBrowsingLocally {
          isBrowsingLocally := false;
          if connected {
            agent.SyncToHostAction();
          } else {
            agent.SelectContentLocally(None);
          }
        } else if !agent.isHost && connected {
          isBrowsingLocally := true;
        } else if !agent.isHost {
          agent.SelectContentLocally(None);
        }
        return;
      } else if inSession && agent.isHost && connected {
        msg := Some(LeaveSessionMsg(agent.sessionId.value));
        return;
      } else if inSession && !agent.isHost && isBrowsingLocally {
        isBrowsingLocally := false;
        if connected {
          agent.SyncToHostAction();
        }
        return;
      }
    }
  }
}
