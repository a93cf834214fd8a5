/**
 * The values that travel between the session server and its clients: content
 * references, participant records, verse data, and the events each side emits.
 */
module Protocol {
  import opened Wrappers

  /** A connection identifier (`socket.id`). */
  type SocketId = string

  /**
   * A pointer to content, never the text itself: `{type, id, title, totalAyahs}`.
   * The server fills `totalAyahs` for quran content only.
   */
  datatype ContentInfo = ContentInfo(ctype: string, id: string, title: string, totalAyahs: Option<nat>)

  /** One entry of a session's `participants` array. */
  datatype Participant = Participant(id: SocketId, name: string, isHost: bool)

  /** One merged verse: `{ayah, arabic, transliteration, translation}`. */
  datatype Verse = Verse(ayah: nat, arabic: string, transliteration: string, translation: string)

  /**
   * The `verses` of fetched content: quran content carries an array of merged verses,
   * a dua carries three parallel arrays of lines.
   */
  datatype Verses =
    | VerseList(list: seq<Verse>)
    | DuaLines(arabic: seq<string>, transliteration: seq<string>, translation: seq<string>)

  /** The fetched body of the content a client is viewing (`currentFullContent`). */
  datatype FullContent = FullContent(totalAyahs: Option<nat>, verses: Option<Verses>)

  /** An index argument as JavaScript sees it: a number, or anything whose `typeof` is not 'number'. */
  datatype JsIndex = Number(n: int) | NotANumber

  /** The `contentInfo` of a `select_content` message: `null`, or an object whose fields may be missing. */
  datatype SelectPayload =
    | NullContent
    | RawContent(ctype: Option<string>, id: Option<string>, title: Option<string>)

  /** Events the server emits, either to the calling socket or to a session's room. */
  datatype Event =
    | SessionCreated(sessionId: string, username: string, isHost: bool, userId: SocketId)
    | SessionJoined(sessionId: string, username: string, isHost: bool, hostSelectedContent: Option<ContentInfo>,
                    userId: SocketId, currentIndex: int, contentSelected: bool)
    | ServerError(message: string)
    | UpdateParticipants(room: string, participants: seq<Participant>)
    | HostContentUpdated(room: string, selectedContent: Option<ContentInfo>, currentIndex: int)
    | HostIndexUpdated(room: string, currentIndex: int)
    | HostTransferred(room: string, newHostId: SocketId, participants: seq<Participant>)

  /** Messages a client emits to the server. */
  datatype ClientMessage =
    | CreateSessionMsg(username: string)
    | JoinSessionMsg(sessionId: string, username: string, isHostAttemptingRejoin: bool)
    | SelectContentMsg(sessionId: string, contentInfo: Option<ContentInfo>)
    | HostUpdateIndexMsg(sessionId: string, newIndex: int)
    | LeaveSessionMsg(sessionId: string)

  /** JavaScript truthiness of an optional string: present and not empty. */
  predicate Truthy(s: Option<string>) {
    s.Some? && s.value != ""
  }

  /** `a || b` on an optional string. */
  function OrElse(a: Option<string>, b: string): string {
    if Truthy(a) then a.value else b
  }
}
