/**
 * The session server's registry: a map from session id to session, kept in
 * insertion order (the order a JavaScript `Map` enumerates its entries), and
 * one method per socket handler that changes it. Each handler returns the
 * events it emits, in emission order; which sockets a room reaches is outside
 * the model.
 *
 * The invariant the registry is built around: a non-empty session has exactly
 * one participant flagged `isHost`, and that participant's id is `hostId`.
 * Every handler keeps it as long as no socket appears twice in one session;
 * `join-session` does not stop a socket from joining twice, and
 * `DuplicateJoinThenTransferFlagsTwoHosts` shows what that leads to.
 */
module SessionServer {
  import opened Wrappers
  import opened Protocol
  import ServerQuran

  /** One entry of the `sessions` map. */
  datatype Session = Session(
    id: string,
    hostId: SocketId,
    participants: seq<Participant>,
    selectedContent: Option<ContentInfo>,
    currentIndex: int)

  // ---------------------------------------------------------------------------
  // Counting hosts and ids
  // ---------------------------------------------------------------------------

  /** The number of participant records flagged `isHost`. */
  function HostCount(ps: seq<Participant>): nat
    decreases |ps|
  {
    if ps == [] then 0 else (if ps[0].isHost then 1 else 0) + HostCount(ps[1..])
  }

  /** The number of participant records carrying socket id `id`. */
  function IdCount(ps: seq<Participant>, id: SocketId): nat
    decreases |ps|
  {
    if ps == [] then 0 else (if ps[0].id == id then 1 else 0) + IdCount(ps[1..], id)
  }

  /** `participants.some(p => p.id === id)`. */
  predicate Includes(ps: seq<Participant>, id: SocketId) {
    exists i :: 0 <= i < |ps| && ps[i].id == id
  }

  /** No socket id appears twice among the participants. */
  predicate UniqueIds(ps: seq<Participant>) {
    forall i, j :: 0 <= i < j < |ps| ==> ps[i].id != ps[j].id
  }

  /** The single-host invariant of a session. */
  predicate SingleHost(s: Session) {
    |s.participants| > 0 ==>
      && HostCount(s.participants) == 1
      && forall i :: 0 <= i < |s.participants| && s.participants[i].isHost ==> s.participants[i].id == s.hostId
  }

  lemma {:induction false} HostCountAppend(a: seq<Participant>, b: seq<Participant>)
    ensures HostCount(a + b) == HostCount(a) + HostCount(b)
    decreases |a|
  {
    if a == [] {
      assert a + b == b;
    } else {
      assert (a + b)[1..] == a[1..] + b;
      HostCountAppend(a[1..], b);
    }
  }

  /** A sequence has no host record exactly when its host count is zero. */
  lemma {:induction false} NoHostIff(ps: seq<Participant>)
    ensures HostCount(ps) == 0 <==> forall i :: 0 <= i < |ps| ==> !ps[i].isHost
    decreases |ps|
  {
    if ps != [] {
      NoHostIff(ps[1..]);
      assert forall i :: 1 <= i < |ps| ==> ps[i] == ps[1..][i - 1];
    }
  }

  /** A socket id is absent exactly when it is counted zero times. */
  lemma {:induction false} IdCountZeroIff(ps: seq<Participant>, id: SocketId)
    ensures IdCount(ps, id) == 0 <==> !Includes(ps, id)
    decreases |ps|
  {
    if ps != [] {
      IdCountZeroIff(ps[1..], id);
      if Includes(ps, id) && ps[0].id != id {
        var i :| 0 <= i < |ps| && ps[i].id == id;
        assert ps[1..][i - 1].id == id;
      }
      if Includes(ps[1..], id) {
        var i :| 0 <= i < |ps[1..]| && ps[1..][i].id == id;
        assert ps[i + 1].id == id;
      }
    }
  }

  /** Without duplicates a socket id is counted at most once; a duplicate is counted at least twice. */
  lemma {:induction false} UniqueIdsIff(ps: seq<Participant>)
    ensures UniqueIds(ps) <==> forall id :: IdCount(ps, id) <= 1
    decreases |ps|
  {
    if ps != [] {
      UniqueIdsIff(ps[1..]);
      IdCountZeroIff(ps[1..], ps[0].id);
      if UniqueIds(ps) {
        assert UniqueIds(ps[1..]) by {
          forall i, j | 0 <= i < j < |ps[1..]| ensures ps[1..][i].id != ps[1..][j].id {
            assert ps[1..][i] == ps[i + 1] && ps[1..][j] == ps[j + 1];
          }
        }
        assert !Includes(ps[1..], ps[0].id) by {
          forall i | 0 <= i < |ps[1..]| ensures ps[1..][i].id != ps[0].id {
            assert ps[1..][i] == ps[i + 1];
          }
        }
        forall id ensures IdCount(ps, id) <= 1 {
          assert IdCount(ps[1..], id) <= 1;
        }
      } else {
        var i, j :| 0 <= i < j < |ps| && ps[i].id == ps[j].id;
        IdCountTwo(ps, ps[i].id, i, j);
      }
    }
  }

  /** Two records of the same id are counted twice. */
  lemma {:induction false} IdCountTwo(ps: seq<Participant>, id: SocketId, a: int, b: int)
    requires 0 <= a < b < |ps| && ps[a].id == id && ps[b].id == id
    ensures IdCount(ps, id) >= 2
    decreases |ps|
  {
    if a == 0 {
      IdCountZeroIff(ps[1..], id);
      assert ps[1..][b - 1].id == id;
    } else {
      IdCountTwo(ps[1..], id, a - 1, b - 1);
    }
  }

  // ---------------------------------------------------------------------------
  // create-session and join-session
  // ---------------------------------------------------------------------------

  /** The session `create-session` stores: the caller alone, as host, no content, index 0. */
  function NewSession(sid: string, caller: SocketId, username: string): (s: Session)
    ensures SingleHost(s) && UniqueIds(s.participants)
    ensures s.id == sid && s.hostId == caller && s.participants == [Participant(caller, username, true)]
    ensures s.selectedContent.None? && s.currentIndex == 0
  {
    Session(sid, caller, [Participant(caller, username, true)], None, 0)
  }

  /** `session.participants.push({id, name, isHost: false})`; nothing else of the session changes. */
  function Joined(s: Session, caller: SocketId, username: string): (r: Session)
    ensures |r.participants| == |s.participants| + 1
    ensures r.participants[..|s.participants|] == s.participants
    ensures r.participants[|s.participants|] == Participant(caller, username, false)
    ensures r.id == s.id && r.hostId == s.hostId
    ensures r.selectedContent == s.selectedContent && r.currentIndex == s.currentIndex
  {
    s.(participants := s.participants + [Participant(caller, username, false)])
  }

  /** Joining adds no host, so a non-empty session keeps its single host. */
  lemma JoinKeepsSingleHost(s: Session, caller: SocketId, username: string)
    requires SingleHost(s) && |s.participants| > 0
    ensures SingleHost(Joined(s, caller, username))
  {
    var r := Joined(s, caller, username);
    HostCountAppend(s.participants, [Participant(caller, username, false)]);
    assert r.participants == s.participants + [Participant(caller, username, false)];
    forall i | 0 <= i < |r.participants| && r.participants[i].isHost
      ensures r.participants[i].id == s.hostId
    {
      assert i < |s.participants| && r.participants[i] == s.participants[i];
    }
  }

  /** Ids stay distinct after a join exactly when the joining socket was not already in the session. */
  lemma JoinKeepsUniqueIdsIff(s: Session, caller: SocketId, username: string)
    ensures UniqueIds(Joined(s, caller, username).participants)
        <==> UniqueIds(s.participants) && !Includes(s.participants, caller)
  {
    var ps := s.participants;
    var r := Joined(s, caller, username).participants;
    assert forall i :: 0 <= i < |ps| ==> r[i] == ps[i];
    if Includes(ps, caller) {
      var i :| 0 <= i < |ps| && ps[i].id == caller;
      assert r[i].id == r[|ps|].id;
    }
  }

  // ---------------------------------------------------------------------------
  // select_content
  // ---------------------------------------------------------------------------

  /** A `contentInfo` object whose `type`, `id` and `title` are all truthy. */
  predicate WellFormed(p: SelectPayload) {
    p.RawContent? && Truthy(p.ctype) && Truthy(p.id) && Truthy(p.title)
  }

  /** The `{type, id, title, totalAyahs}` record the server stores for a selection. */
  function StoredContent(t: string, id: string, title: string, metadata: seq<ServerQuran.SurahMeta>): (c: ContentInfo)
    ensures c.ctype == t && c.id == id && c.title == title
    ensures c.totalAyahs.Some? <==> t == "quran"
    ensures t == "quran" && ServerQuran.FindMeta(metadata, id).Some? ==>
      c.totalAyahs.value == ServerQuran.FindMeta(metadata, id).value.totalAyahs
    ensures t == "quran" && ServerQuran.FindMeta(metadata, id).None? ==> c.totalAyahs.value == 0
  {
    var total :=
      if t == "quran" then
        Some(match ServerQuran.FindMeta(metadata, id) case Some(m) => m.totalAyahs case None => 0)
      else None;
    ContentInfo(t, id, title, total)
  }

  /** The session after an accepted `select_content`: index back to 0, content cleared or stored. */
  function AfterSelect(s: Session, p: SelectPayload, metadata: seq<ServerQuran.SurahMeta>): (r: Session)
    requires p.NullContent? || WellFormed(p)
    ensures r.currentIndex == 0
    ensures r.id == s.id && r.hostId == s.hostId && r.participants == s.participants
    ensures r.selectedContent.None? <==> p.NullContent?
    ensures p.RawContent? ==> r.selectedContent == Some(StoredContent(p.ctype.value, p.id.value, p.title.value, metadata))
  {
    match p
    case NullContent => s.(selectedContent := None, currentIndex := 0)
    case RawContent(t, id, title) =>
      s.(selectedContent := Some(StoredContent(t.value, id.value, title.value, metadata)), currentIndex := 0)
  }

  // ---------------------------------------------------------------------------
  // host_update_index
  // ---------------------------------------------------------------------------

  /** The session shows quran content whose length the server recorded. */
  predicate QuranWithLength(s: Session) {
    s.selectedContent.Some? && s.selectedContent.value.ctype == "quran" && s.selectedContent.value.totalAyahs.Some?
  }

  /**
   * The index `host_update_index` stores, or None when it ignores the message:
   * a non-number or a negative index is ignored; for quran content of known
   * length an index past the end is pulled back to the last ayah; any other
   * index is stored as sent.
   */
  function AcceptedIndex(s: Session, idx: JsIndex): (r: Option<int>)
    ensures r.None? <==> idx.NotANumber? || idx.n < 0
    ensures r.Some? ==> r.value <= idx.n
    ensures r.Some? && !QuranWithLength(s) ==> r.value == idx.n
    ensures r.Some? && QuranWithLength(s) ==>
      var total := s.selectedContent.value.totalAyahs.value;
      && (idx.n < total ==> r.value == idx.n)
      && (total >= 1 ==> 0 <= r.value < total)
      && (total == 0 ==> r.value == -1)
  {
    match idx
    case NotANumber => None
    case Number(n) =>
      if n < 0 then None
      else if QuranWithLength(s) && n >= s.selectedContent.value.totalAyahs.value then
        Some(s.selectedContent.value.totalAyahs.value - 1)
      else Some(n)
  }

  // ---------------------------------------------------------------------------
  // transfer_host
  // ---------------------------------------------------------------------------

  /** `participants.map(p => ({...p, isHost: p.id === target}))`. */
  function MarkHost(ps: seq<Participant>, target: SocketId): (r: seq<Participant>)
    ensures |r| == |ps|
    ensures forall i :: 0 <= i < |ps| ==>
      r[i].id == ps[i].id && r[i].name == ps[i].name && (r[i].isHost <==> ps[i].id == target)
    decreases |ps|
  {
    if ps == [] then [] else [ps[0].(isHost := ps[0].id == target)] + MarkHost(ps[1..], target)
  }

  /** After marking, the number of hosts is the number of records of the target. */
  lemma {:induction false} MarkHostCount(ps: seq<Participant>, target: SocketId)
    ensures HostCount(MarkHost(ps, target)) == IdCount(ps, target)
    decreases |ps|
  {
    if ps != [] {
      MarkHostCount(ps[1..], target);
      assert MarkHost(ps, target)[1..] == MarkHost(ps[1..], target);
    }
  }

  /** The session after `transfer_host` to `target`. */
  function Transferred(s: Session, target: SocketId): (r: Session)
    ensures r.hostId == target
    ensures |r.participants| == |s.participants|
    ensures forall i :: 0 <= i < |s.participants| ==>
      r.participants[i].id == s.participants[i].id && r.participants[i].name == s.participants[i].name
      && (r.participants[i].isHost <==> s.participants[i].id == target)
    ensures r.id == s.id && r.selectedContent == s.selectedContent && r.currentIndex == s.currentIndex
  {
    s.(hostId := target, participants := MarkHost(s.participants, target))
  }

  /** With distinct ids, a transfer to a participant keeps a single host and distinct ids. */
  lemma TransferKeepsInvariants(s: Session, target: SocketId)
    requires UniqueIds(s.participants) && Includes(s.participants, target)
    ensures SingleHost(Transferred(s, target)) && UniqueIds(Transferred(s, target).participants)
  {
    var r := Transferred(s, target);
    UniqueIdsIff(s.participants);
    IdCountZeroIff(s.participants, target);
    TransferSingleHostIff(s, target);
    assert forall i :: 0 <= i < |r.participants| ==> r.participants[i].id == s.participants[i].id;
  }

  /** A transfer to a participant leaves a single host exactly when that participant's id appears once. */
  lemma TransferSingleHostIff(s: Session, target: SocketId)
    requires Includes(s.participants, target)
    ensures SingleHost(Transferred(s, target)) <==> IdCount(s.participants, target) == 1
  {
    MarkHostCount(s.participants, target);
  }

  // ---------------------------------------------------------------------------
  // disconnect
  // ---------------------------------------------------------------------------

  /** `participants.findIndex(p => p.id === id)`: the first record of `id`, or -1. */
  function FindIndex(ps: seq<Participant>, id: SocketId): (r: int)
    ensures -1 <= r < |ps|
    ensures r == -1 <==> !Includes(ps, id)
    ensures r >= 0 ==> ps[r].id == id && forall j :: 0 <= j < r ==> ps[j].id != id
    decreases |ps|
  {
    if ps == [] then -1
    else if ps[0].id == id then 0
    else
      var r := FindIndex(ps[1..], id);
      assert Includes(ps, id) ==> Includes(ps[1..], id) by {
        if Includes(ps, id) {
          var i :| 0 <= i < |ps| && ps[i].id == id;
          assert ps[1..][i - 1].id == id;
        }
      }
      assert r >= 0 ==> ps[r + 1] == ps[1..][r];
      if r == -1 then -1 else r + 1
  }

  /**
   * The session after the disconnecting socket's first record is spliced out:
   * the others keep their order; if the host left and someone remains, the
   * first remaining participant becomes host.
   */
  function AfterLeave(s: Session, caller: SocketId): (r: Session)
    requires Includes(s.participants, caller)
    ensures |r.participants| == |s.participants| - 1
    ensures r.id == s.id && r.selectedContent == s.selectedContent && r.currentIndex == s.currentIndex
    ensures var p := FindIndex(s.participants, caller);
      forall i :: 0 <= i < |r.participants| ==>
        var q := s.participants[if i < p then i else i + 1];
        && r.participants[i].id == q.id && r.participants[i].name == q.name
        && (r.participants[i].isHost <==> q.isHost || (i == 0 && caller == s.hostId))
    ensures caller == s.hostId && |r.participants| > 0 ==> r.hostId == r.participants[0].id
    ensures caller != s.hostId || |r.participants| == 0 ==> r.hostId == s.hostId
  {
    var p := FindIndex(s.participants, caller);
    var rest := s.participants[..p] + s.participants[p + 1..];
    assert forall i :: 0 <= i < |rest| ==> rest[i] == s.participants[if i < p then i else i + 1];
    if caller == s.hostId && |rest| > 0 then
      s.(hostId := rest[0].id, participants := rest[0 := rest[0].(isHost := true)])
    else
      s.(participants := rest)
  }

  /** The events of a `disconnect` that removed a record from session `room`. */
  function LeaveEvents(room: string, s: Session, caller: SocketId): (es: seq<Event>)
    requires Includes(s.participants, caller)
    ensures var r := AfterLeave(s, caller);
      && |es| >= 1
      && es[|es| - 1] == UpdateParticipants(room, r.participants)
      && (|es| == 2 <==> caller == s.hostId && |r.participants| > 0)
      && (|es| == 2 ==> es[0] == HostTransferred(room, r.hostId, r.participants))
  {
    var r := AfterLeave(s, caller);
    (if caller == s.hostId && |r.participants| > 0 then [HostTransferred(room, r.hostId, r.participants)] else [])
    + [UpdateParticipants(room, r.participants)]
  }

  lemma HostCountRemove(ps: seq<Participant>, p: int)
    requires 0 <= p < |ps|
    ensures HostCount(ps) == HostCount(ps[..p] + ps[p + 1..]) + (if ps[p].isHost then 1 else 0)
  {
    var before, after := ps[..p], ps[p + 1..];
    assert ps == (before + [ps[p]]) + after;
    HostCountAppend(before + [ps[p]], after);
    HostCountAppend(before, [ps[p]]);
    HostCountAppend(before, after);
    assert HostCount([ps[p]]) == if ps[p].isHost then 1 else 0;
  }

  /** The record a departing host removes is its host record, when its id appears once. */
  lemma HostRemovesHostRecord(s: Session, caller: SocketId)
    requires SingleHost(s) && |s.participants| > 0
    requires caller == s.hostId && IdCount(s.participants, caller) == 1
    requires Includes(s.participants, caller)
    ensures s.participants[FindIndex(s.participants, caller)].isHost
  {
    var ps := s.participants;
    var p := FindIndex(ps, caller);
    NoHostIff(ps);
    var h :| 0 <= h < |ps| && ps[h].isHost;
    if h < p {
      IdCountTwo(ps, caller, h, p);
    } else if p < h {
      IdCountTwo(ps, caller, p, h);
    }
  }

  /** When the host leaves, its first remaining participant becomes the one host. */
  lemma PromoteFirst(rest: seq<Participant>, top: seq<Participant>)
    requires |rest| > 0 && HostCount(rest) == 0
    requires top == rest[0 := rest[0].(isHost := true)]
    ensures HostCount(top) == 1
    ensures forall i :: 0 <= i < |top| && top[i].isHost ==> i == 0
  {
    assert top == [rest[0].(isHost := true)] + rest[1..];
    HostCountAppend([rest[0].(isHost := true)], rest[1..]);
    NoHostIff(rest);
  }

  /**
   * A disconnect keeps a single host, provided that when the host leaves its id
   * appears only once (so the record removed is the host's own).
   */
  lemma DisconnectKeepsSingleHost(s: Session, caller: SocketId)
    requires SingleHost(s)
    requires Includes(s.participants, caller)
    requires caller == s.hostId ==> IdCount(s.participants, caller) == 1
    ensures SingleHost(AfterLeave(s, caller))
  {
    var ps := s.participants;
    var p := FindIndex(ps, caller);
    var rest := ps[..p] + ps[p + 1..];
    HostCountRemove(ps, p);
    if caller == s.hostId {
      HostRemovesHostRecord(s, caller);
      if |rest| > 0 {
        PromoteFirst(rest, rest[0 := rest[0].(isHost := true)]);
      }
    } else {
      forall i | 0 <= i < |rest| ensures rest[i] == ps[if i < p then i else i + 1] {
      }
    }
  }

  /** A disconnect keeps participant ids distinct. */
  lemma DisconnectKeepsUniqueIds(s: Session, caller: SocketId)
    requires UniqueIds(s.participants)
    requires Includes(s.participants, caller)
    ensures UniqueIds(AfterLeave(s, caller).participants)
  {
  }

  /** With distinct ids, a disconnect keeps a single host and distinct ids. */
  lemma LeaveKeepsInvariants(s: Session, caller: SocketId)
    requires SingleHost(s) && UniqueIds(s.participants)
    requires Includes(s.participants, caller)
    ensures SingleHost(AfterLeave(s, caller)) && UniqueIds(AfterLeave(s, caller).participants)
  {
    UniqueIdsIff(s.participants);
    IdCountZeroIff(s.participants, caller);
    DisconnectKeepsSingleHost(s, caller);
    DisconnectKeepsUniqueIds(s, caller);
  }

  /**
   * `join-session` does not check whether the socket is already a participant.
   * A socket that joins twice has two records; a transfer to it then flags both.
   */
  lemma DuplicateJoinThenTransferFlagsTwoHosts()
    ensures
      var s := Joined(Joined(NewSession("abc123", "h", "Host"), "p", "Ali"), "p", "Ali");
      && SingleHost(s)
      && Includes(s.participants, "p")
      && !SingleHost(Transferred(s, "p"))
  {
    var s0 := NewSession("abc123", "h", "Host");
    var s1 := Joined(s0, "p", "Ali");
    var s := Joined(s1, "p", "Ali");
    JoinKeepsSingleHost(s0, "p", "Ali");
    JoinKeepsSingleHost(s1, "p", "Ali");
    assert s.participants[1].id == "p" && s.participants[2].id == "p";
    assert s.participants == [Participant("h", "Host", true), Participant("p", "Ali", false), Participant("p", "Ali", false)];
    assert IdCount(s.participants[2..], "p") == 1;
    assert IdCount(s.participants[1..], "p") == 2;
    TransferSingleHostIff(s, "p");
  }

  // ---------------------------------------------------------------------------
  // The first session holding a socket, and key removal
  // ---------------------------------------------------------------------------

  /** No session listed under `keys` holds a record of `caller`. */
  predicate NoneHolds(keys: seq<string>, sessions: map<string, Session>, caller: SocketId)
    requires forall k :: k in keys ==> k in sessions
  {
    forall k :: k in keys ==> !Includes(sessions[k].participants, caller)
  }

  /** The position of the first key, in enumeration order, whose session holds a record of `caller`, or -1. */
  function FirstHolding(keys: seq<string>, sessions: map<string, Session>, caller: SocketId): (r: int)
    requires forall k :: k in keys ==> k in sessions
    ensures -1 <= r < |keys|
    ensures r == -1 <==> NoneHolds(keys, sessions, caller)
    ensures r >= 0 ==> Includes(sessions[keys[r]].participants, caller) && NoneHolds(keys[..r], sessions, caller)
    decreases |keys|
  {
    if keys == [] then -1
    else if FindIndex(sessions[keys[0]].participants, caller) != -1 then 0
    else
      var r := FirstHolding(keys[1..], sessions, caller);
      assert r >= 0 ==> keys[..r + 1] == [keys[0]] + keys[1..][..r];
      if r == -1 then -1 else r + 1
  }

  /** `keys` with every occurrence of `k` removed (a `Map.delete` seen through the enumeration order). */
  function RemoveKey(keys: seq<string>, k: string): (r: seq<string>)
    ensures forall x :: x in r <==> x in keys && x != k
    ensures (forall i, j :: 0 <= i < j < |keys| ==> keys[i] != keys[j]) ==>
            (forall i, j :: 0 <= i < j < |r| ==> r[i] != r[j])
    decreases |keys|
  {
    if keys == [] then []
    else if keys[0] == k then RemoveKey(keys[1..], k)
    else
      var rest := RemoveKey(keys[1..], k);
      assert (forall i, j :: 0 <= i < j < |keys| ==> keys[i] != keys[j]) ==>
             (forall i, j :: 0 <= i < j < |keys[1..]| ==> keys[1..][i] != keys[1..][j]) && keys[0] !in rest by {
        if forall i, j :: 0 <= i < j < |keys| ==> keys[i] != keys[j] {
          forall j | 0 <= j < |keys[1..]| ensures keys[1..][j] != keys[0] {
            assert keys[1..][j] == keys[j + 1];
          }
        }
      }
      [keys[0]] + rest
  }

  /** The map and its enumeration order agree; every stored session is keyed by its id and non-empty. */
  ghost predicate Registry(m: map<string, Session>, order: seq<string>) {
    && (forall i, j :: 0 <= i < j < |order| ==> order[i] != order[j])
    && (forall k :: k in m <==> k in order)
    && (forall k :: k in m ==> m[k].id == k && |m[k].participants| > 0)
  }

  /** Storing a non-empty session under its own id, appending a new key to the order. */
  lemma StoreKeepsRegistry(m: map<string, Session>, order: seq<string>, k: string, r: Session)
    requires Registry(m, order)
    requires r.id == k && |r.participants| > 0
    ensures Registry(m[k := r], if k in m then order else order + [k])
  {
  }

  /** Deleting a key from the map and from the order. */
  lemma DeleteKeepsRegistry(m: map<string, Session>, order: seq<string>, k: string)
    requires Registry(m, order)
    ensures Registry(m - {k}, RemoveKey(order, k))
  {
  }

  /** Every session of the map has a single host. */
  ghost predicate AllSingleHost(m: map<string, Session>) {
    forall k :: k in m ==> SingleHost(m[k])
  }

  /** No session of the map holds two records of one socket. */
  ghost predicate AllUniqueIds(m: map<string, Session>) {
    forall k :: k in m ==> UniqueIds(m[k].participants)
  }

  /** Storing a session that keeps both invariants keeps them for the whole map. */
  lemma StoreKeepsInvariants(m: map<string, Session>, k: string, r: Session)
    ensures AllSingleHost(m) && SingleHost(r) ==> AllSingleHost(m[k := r])
    ensures AllUniqueIds(m) && UniqueIds(r.participants) ==> AllUniqueIds(m[k := r])
  {
  }

  /** Deleting a session keeps both invariants. */
  lemma DeleteKeepsInvariants(m: map<string, Session>, k: string)
    ensures AllSingleHost(m) ==> AllSingleHost(m - {k})
    ensures AllUniqueIds(m) ==> AllUniqueIds(m - {k})
  {
  }

  // ---------------------------------------------------------------------------
  // The registry
  // ---------------------------------------------------------------------------

  /** The server process: its metadata list and its `sessions` map. */
  class Server {
    const quranMetadata: seq<ServerQuran.SurahMeta>
    var sessions: map<string, Session>
    /** The keys of `sessions` in insertion order. */
    var order: seq<string>

    /** The map and its enumeration order agree; every stored session is keyed by its id and non-empty. */
    ghost predicate Valid()
      reads this
    {
      Registry(sessions, order)
    }

    /** Every session has a single host. */
    ghost predicate HostsOk()
      reads this
    {
      AllSingleHost(sessions)
    }

    /** No socket has two records in one session. */
    ghost predicate IdsUnique()
      reads this
    {
      AllUniqueIds(sessions)
    }

    constructor(metadata: seq<ServerQuran.SurahMeta>)
      ensures Valid() && HostsOk() && IdsUnique()
      ensures quranMetadata == metadata && sessions == map[] && order == []
    {
      quranMetadata := metadata;
      sessions := map[];
      order := [];
    }

    /** `create-session`: store a fresh session under `freshId` (an existing entry is overwritten). */
    method CreateSession(caller: SocketId, username: string, freshId: string) returns (events: seq<Event>)
      requires Valid()
      modifies this
      ensures Valid()
      ensures sessions == old(sessions)[freshId := NewSession(freshId, caller, username)]
      ensures order == if freshId in old(sessions) then old(order) else old(order) + [freshId]
      ensures events == [SessionCreated(freshId, username, true, caller),
                         UpdateParticipants(freshId, [Participant(caller, username, true)])]
      ensures old(HostsOk()) ==> HostsOk()
      ensures old(IdsUnique()) ==> IdsUnique()
    {
      var s := NewSession(freshId, caller, username);
      StoreKeepsRegistry(sessions, order, freshId, s);
      StoreKeepsInvariants(sessions, freshId, s);
      if freshId !in sessions {
        order := order + [freshId];
      }
      sessions := sessions[freshId := s];
      events := [SessionCreated(freshId, username, true, caller), UpdateParticipants(freshId, s.participants)];
    }

    /** `join-session`: append the caller as a non-host; an unknown id gets an error and changes nothing. */
    method JoinSession(caller: SocketId, sid: string, username: string) returns (events: seq<Event>)
      requires Valid()
      modifies this
      ensures Valid()
      ensures order == old(order)
      ensures sid !in old(sessions) ==> sessions == old(sessions) && events == [ServerError("Session not found")]
      ensures sid in old(sessions) ==>
        var s := old(sessions)[sid];
        var r := Joined(s, caller, username);
        && sessions == old(sessions)[sid := r]
        && events == [SessionJoined(sid, username, false, s.selectedContent, caller, s.currentIndex, s.selectedContent.Some?),
                      UpdateParticipants(sid, r.participants)]
      ensures old(HostsOk()) ==> HostsOk()
      ensures old(IdsUnique()) && (sid in old(sessions) ==> !Includes(old(sessions)[sid].participants, caller))
              ==> IdsUnique()
    {
      if sid !in sessions {
        events := [ServerError("Session not found")];
        return;
      }
      var s := sessions[sid];
      var r := Joined(s, caller, username);
      if SingleHost(s) {
        JoinKeepsSingleHost(s, caller, username);
      }
      JoinKeepsUniqueIdsIff(s, caller, username);
      StoreKeepsRegistry(sessions, order, sid, r);
      StoreKeepsInvariants(sessions, sid, r);
      sessions := sessions[sid := r];
      events := [SessionJoined(sid, username, false, s.selectedContent, caller, s.currentIndex, s.selectedContent.Some?),
                 UpdateParticipants(sid, r.participants)];
    }

    /**
     * `select_content`: only the host of an existing session may select; `null`
     * deselects, a well-formed payload selects, anything else gets an error.
     */
    method SelectContent(caller: SocketId, sid: string, payload: SelectPayload) returns (events: seq<Event>)
      requires Valid()
      modifies this
      ensures Valid()
      ensures order == old(order)
      ensures sid !in old(sessions) || caller != old(sessions)[sid].hostId ==> sessions == old(sessions) && events == []
      ensures sid in old(sessions) && caller == old(sessions)[sid].hostId && !payload.NullContent? && !WellFormed(payload) ==>
        sessions == old(sessions) && events == [ServerError("Invalid content selection data.")]
      ensures sid in old(sessions) && caller == old(sessions)[sid].hostId && (payload.NullContent? || WellFormed(payload)) ==>
        var r := AfterSelect(old(sessions)[sid], payload, quranMetadata);
        && sessions == old(sessions)[sid := r]
        && events == [HostContentUpdated(sid, r.selectedContent, 0)]
      ensures old(HostsOk()) ==> HostsOk()
      ensures old(IdsUnique()) ==> IdsUnique()
    {
      if sid !in sessions || caller != sessions[sid].hostId {
        return [];
      }
      if !payload.NullContent? && !WellFormed(payload) {
        return [ServerError("Invalid content selection data.")];
      }
      var r := AfterSelect(sessions[sid], payload, quranMetadata);
      StoreKeepsRegistry(sessions, order, sid, r);
      StoreKeepsInvariants(sessions, sid, r);
      sessions := sessions[sid := r];
      events := [HostContentUpdated(sid, r.selectedContent, r.currentIndex)];
    }

    /** `host_update_index`: the host's index, validated and (for quran) clamped, is stored and broadcast. */
    method HostUpdateIndex(caller: SocketId, sid: string, newIndex: JsIndex) returns (events: seq<Event>)
      requires Valid()
      modifies this
      ensures Valid()
      ensures order == old(order)
      ensures sid !in old(sessions) || caller != old(sessions)[sid].hostId
              || AcceptedIndex(old(sessions)[sid], newIndex).None? ==>
        sessions == old(sessions) && events == []
      ensures sid in old(sessions) && caller == old(sessions)[sid].hostId
              && AcceptedIndex(old(sessions)[sid], newIndex).Some? ==>
        var v := AcceptedIndex(old(sessions)[sid], newIndex).value;
        && sessions == old(sessions)[sid := old(sessions)[sid].(currentIndex := v)]
        && events == [HostIndexUpdated(sid, v)]
      ensures old(HostsOk()) ==> HostsOk()
      ensures old(IdsUnique()) ==> IdsUnique()
    {
      if sid !in sessions || caller != sessions[sid].hostId {
        return [];
      }
      var accepted := AcceptedIndex(sessions[sid], newIndex);
      if accepted.None? {
        return [];
      }
      var r := sessions[sid].(currentIndex := accepted.value);
      StoreKeepsRegistry(sessions, order, sid, r);
      StoreKeepsInvariants(sessions, sid, r);
      sessions := sessions[sid := r];
      events := [HostIndexUpdated(sid, accepted.value)];
    }

    /** `transfer_host`: the host hands the role to a participant of the session. */
    method TransferHost(caller: SocketId, sid: string, newHostId: SocketId) returns (events: seq<Event>)
      requires Valid()
      modifies this
      ensures Valid()
      ensures order == old(order)
      ensures sid !in old(sessions) || caller != old(sessions)[sid].hostId
              || !Includes(old(sessions)[sid].participants, newHostId) ==>
        sessions == old(sessions) && events == []
      ensures sid in old(sessions) && caller == old(sessions)[sid].hostId
              && Includes(old(sessions)[sid].participants, newHostId) ==>
        var r := Transferred(old(sessions)[sid], newHostId);
        && sessions == old(sessions)[sid := r]
        && events == [HostTransferred(sid, newHostId, r.participants)]
      ensures old(HostsOk() && IdsUnique()) ==> HostsOk() && IdsUnique()
    {
      if sid !in sessions || caller != sessions[sid].hostId {
        return [];
      }
      var s := sessions[sid];
      if FindIndex(s.participants, newHostId) == -1 {
        return [];
      }
      var r := Transferred(s, newHostId);
      if UniqueIds(s.participants) {
        TransferKeepsInvariants(s, newHostId);
      }
      StoreKeepsRegistry(sessions, order, sid, r);
      StoreKeepsInvariants(sessions, sid, r);
      sessions := sessions[sid := r];
      events := [HostTransferred(sid, newHostId, r.participants)];
    }

    /**
     * The body of the `disconnect` loop once it has found the session `k` holding
     * the caller: splice the record out, hand over the host role if the host
     * left, and delete the session if it is now empty.
     */
    method LeaveSession(k: string, caller: SocketId) returns (events: seq<Event>)
      requires Valid()
      requires k in sessions && Includes(sessions[k].participants, caller)
      modifies this
      ensures Valid()
      ensures var r := AfterLeave(old(sessions)[k], caller);
        && events == LeaveEvents(k, old(sessions)[k], caller)
        && (|r.participants| > 0 ==> sessions == old(sessions)[k := r] && order == old(order))
        && (|r.participants| == 0 ==> sessions == old(sessions) - {k} && order == RemoveKey(old(order), k))
      ensures old(HostsOk() && IdsUnique()) ==> HostsOk() && IdsUnique()
    {
      var s := sessions[k];
      var r := AfterLeave(s, caller);
      events := LeaveEvents(k, s, caller);
      if SingleHost(s) && UniqueIds(s.participants) {
        LeaveKeepsInvariants(s, caller);
      }
      if |r.participants| == 0 {
        DeleteKeepsRegistry(sessions, order, k);
        DeleteKeepsInvariants(sessions, k);
        sessions := sessions - {k};
        order := RemoveKey(order, k);
      } else {
        StoreKeepsRegistry(sessions, order, k, r);
        StoreKeepsInvariants(sessions, k, r);
        sessions := sessions[k := r];
      }
    }

    /**
     * `disconnect`: walk the sessions in insertion order and leave the first one
     * holding a record of the caller. No other session changes.
     */
    method Disconnect(caller: SocketId) returns (events: seq<Event>)
      requires Valid()
      modifies this
      ensures Valid()
      ensures FirstHolding(old(order), old(sessions), caller) == -1 ==>
        sessions == old(sessions) && order == old(order) && events == []
      ensures FirstHolding(old(order), old(sessions), caller) >= 0 ==>
        var k := old(order)[FirstHolding(old(order), old(sessions), caller)];
        var r := AfterLeave(old(sessions)[k], caller);
        && events == LeaveEvents(k, old(sessions)[k], caller)
        && (|r.participants| > 0 ==> sessions == old(sessions)[k := r] && order == old(order))
        && (|r.participants| == 0 ==> sessions == old(sessions) - {k} && order == RemoveKey(old(order), k))
      ensures old(HostsOk() && IdsUnique()) ==> HostsOk() && IdsUnique()
    {
      var i := 0;
      while i < |order|
        invariant 0 <= i <= |order|
        invariant NoneHolds(order[..i], sessions, caller)
      {
        var k := order[i];
        if FindIndex(sessions[k].participants, caller) != -1 {
          ghost var first := FirstHolding(order, sessions, caller);
          assert first == i;
          events := LeaveSession(k, caller);
          return;
        }
        assert order[..i + 1] == order[..i] + [k];
        i := i + 1;
      }
      assert order[..i] == order;
      events := [];
    }
  }
}
