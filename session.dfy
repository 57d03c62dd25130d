/**
 * The session coordinator's own rules: seat colours, seat numbering from a snapshot of the
 * active participants, which participants a send reaches and whether it is echoed
 * locally, and the reset of the session state on cleanup.
 */
module Session {
  import opened Wrappers
  import opened Values
  import opened Text
  import opened PlayerModel
  import opened Messages
  import opened Handlers

  // ---------------------------------------------------------------- seat colours

  datatype Color = Red | Blue | Purple | Yellow | Black

  /** Seats 1 to 4 have their own colour; every other seat is black. */
  function GetColorForSeat(seat: int): (c: Color)
    ensures seat == 1 <==> c == Red
    ensures seat == 2 <==> c == Blue
    ensures seat == 3 <==> c == Purple
    ensures seat == 4 <==> c == Yellow
  {
    if seat == 1 then Red
    else if seat == 2 then Blue
    else if seat == 3 then Purple
    else if seat == 4 then Yellow
    else Black
  }

  /** The four coloured seats are told apart by colour, and no other seat is. */
  lemma SeatColorsDistinct(a: int, b: int)
    ensures GetColorForSeat(a) != Black <==> 1 <= a <= 4
    ensures 1 <= a <= 4 && 1 <= b <= 4 ==> (GetColorForSeat(a) == GetColorForSeat(b) <==> a == b)
    ensures !(1 <= a <= 4) && !(1 <= b <= 4) ==> GetColorForSeat(a) == GetColorForSeat(b)
  {
  }

  // ---------------------------------------------------------------- seat numbering

  predicate Distinct<T(==)>(s: seq<T>) {
    forall i, j :: 0 <= i < j < |s| ==> s[i] != s[j]
  }

  /** `firstIndex(of:)`: the first position holding `x`, if any. */
  function FirstIndexOf<T(==)>(s: seq<T>, x: T): (r: Option<nat>)
    ensures r.Some? ==> r.value < |s| && s[r.value] == x && forall j :: 0 <= j < r.value ==> s[j] != x
    ensures r.None? ==> forall j :: 0 <= j < |s| ==> s[j] != x
    decreases |s|
  {
    if s == [] then None
    else if s[0] == x then Some(0)
    else match FirstIndexOf(s[1..], x)
         case None => None
         case Some(i) => Some(i + 1)
  }

  /** In a sequence without repeats, an element is first found where it stands. */
  lemma FirstIndexOfDistinct<T>(s: seq<T>, k: nat)
    requires Distinct(s) && k < |s|
    ensures FirstIndexOf(s, s[k]) == Some(k)
  {
  }

  /** The seat count reserves a second seat while only one participant is active. */
  function ParticipantTotal(count: nat): (total: nat)
    ensures total == count || (count == 1 && total == 2)
    ensures count >= 1 ==> total >= 2
    ensures count != 1 ==> total == count
  {
    if count == 1 then count + 1 else count
  }

  /** The device runs on visionOS, so the local device is always a vision device. */
  const IsVisionDevice: bool := true

  /** The local seat: 1 on a vision device, else the participant total. */
  function LocalSeat(total: nat): (seat: nat)
    ensures seat == 1
  {
    if IsVisionDevice then 1 else total
  }

  /** The player named after its seat, as "Player \(seatNumber)" writes it. */
  function SeatName(seat: nat): string {
    "Player " + NatToString(seat)
  }

  /** `Player.local` as a snapshot sets it. */
  function LocalSeatPlayer(localId: Uuid, total: nat, messageId: string): (p: Player)
    ensures p.name == "Player1" && p.id == localId && p.playerSeat == 1
    ensures p.score == 0 && p.isActive && !p.isReady && p.isVisionDevice
    ensures p.windowId == "" && p.messageId == messageId
  {
    var seat := LocalSeat(total);
    assert NatToString(1) == "1";
    NewPlayer("Player" + NatToString(seat), localId, 0, true, false, IsVisionDevice, seat as Int64, messageId)
  }

  /** The player the snapshot loop builds for a participant in the given seat. */
  function ParticipantPlayer(participant: Participant, seat: nat, messageId: string): (p: Player)
    requires seat < 0x8000_0000_0000_0000
    ensures p.id == participant.id && p.playerSeat as int == seat && p.name == SeatName(seat)
    ensures p.score == 0 && p.isActive && !p.isReady && !p.isVisionDevice
    ensures p.windowId == "" && p.messageId == messageId
  {
    NewPlayer(SeatName(seat), participant.id, 0, true, false, false, seat as Int64, messageId)
  }

  /** Players in different seats get different names, and none is named like the local player. */
  lemma SeatNamesDistinct(a: nat, b: nat)
    ensures SeatName(a) == SeatName(b) ==> a == b
    ensures SeatName(a) != "Player1"
  {
    var pre := "Player ";
    if SeatName(a) == SeatName(b) {
      assert SeatName(a)[|pre|..] == NatToString(a);
      assert SeatName(b)[|pre|..] == NatToString(b);
      NatToStringInjective(a, b);
    }
    assert SeatName(a)[6] == ' ';
  }

  /**
   * The `for participant in activeParticipants` loop: each participant is seated at its
   * position in the snapshot plus 2. The source builds these players and drops them.
   */
  method BuildParticipantPlayers(snapshot: seq<Participant>, messageIds: seq<string>) returns (built: seq<Player>)
    requires Distinct(snapshot)
    requires |messageIds| == |snapshot|
    requires |snapshot| + 2 < 0x8000_0000_0000_0000
    ensures |built| == |snapshot|
    ensures forall i :: 0 <= i < |snapshot| ==> built[i] == ParticipantPlayer(snapshot[i], i + 2, messageIds[i])
    ensures forall i :: 0 <= i < |built| ==> 2 <= built[i].playerSeat as int <= |snapshot| + 1
  {
    built := [];
    var k := 0;
    while k < |snapshot|
      invariant 0 <= k <= |snapshot| && |built| == k
      invariant forall i :: 0 <= i < k ==> built[i] == ParticipantPlayer(snapshot[i], i + 2, messageIds[i])
    {
      var participant := snapshot[k];
      var participantIndex := match FirstIndexOf(snapshot, participant) case Some(i) => i case None => 1;
      FirstIndexOfDistinct(snapshot, k);
      var seatNumber := participantIndex + 2;
      built := built + [ParticipantPlayer(participant, seatNumber, messageIds[k])];
      k := k + 1;
    }
  }

  /**
   * The `$activeParticipants` sink: sets `Player.local` for the local participant in seat 1
   * and runs the seating loop; nothing else is changed.
   */
  method HandleActiveParticipants(snapshot: seq<Participant>, localParticipant: Participant, slot: LocalPlayerSlot,
                                  localMessageId: string, messageIds: seq<string>)
    returns (total: nat, built: seq<Player>)
    requires Distinct(snapshot)
    requires |messageIds| == |snapshot|
    requires |snapshot| + 2 < 0x8000_0000_0000_0000
    modifies slot
    ensures total == ParticipantTotal(|snapshot|)
    ensures slot.local == Some(LocalSeatPlayer(localParticipant.id, total, localMessageId))
    ensures |built| == |snapshot|
    ensures forall i :: 0 <= i < |snapshot| ==> built[i] == ParticipantPlayer(snapshot[i], i + 2, messageIds[i])
  {
    total := |snapshot|;
    if total == 1 {
      total := total + 1;
    }
    slot.local := Some(LocalSeatPlayer(localParticipant.id, total, localMessageId));
    built := BuildParticipantPlayers(snapshot, messageIds);
  }

  // ---------------------------------------------------------------- session state

  /** A group session: its local participant and the participants active in it. */
  datatype GroupSession = GroupSession(id: nat, localParticipant: Participant, activeParticipants: set<Participant>)

  datatype Messenger = Messenger(id: nat)

  datatype Journal = Journal(id: nat)

  /** `DemoSessionInfo`, as a value. */
  datatype SessionInfo = SessionInfo(
    session: Option<GroupSession>,
    messenger: Option<Messenger>,
    reliableMessenger: Option<Messenger>,
    journal: Option<Journal>)

  /** `DemoSessionInfo()`: no session and no channels. */
  function EmptySessionInfo(): SessionInfo {
    SessionInfo(None, None, None, None)
  }

  /** A request to send, as the roster's edits make one. */
  datatype SendRequest = SendRequest(message: Message, participants: Option<set<Participant>>, handleLocally: bool)

  /** A transmission over the messenger to the given recipients. */
  datatype Outgoing = Outgoing(message: Message, recipients: set<Participant>)

  /** What one `sendMessage` does: the local dispatch, with its sender, and the transmission. */
  datatype SendPlan = SendPlan(localSender: Option<Participant>, network: Option<Outgoing>)

  /**
   * The decision logic of `sendMessage`: a local echo needs `handleLocally` and a session;
   * a transmission needs a session and a messenger and goes, unless recipients are given,
   * to every active participant but the local one.
   */
  function PlanSend(info: SessionInfo, message: Message, participants: Option<set<Participant>>, handleLocally: bool): (p: SendPlan)
    ensures p.localSender.Some? <==> handleLocally && info.session.Some?
    ensures p.localSender.Some? ==> p.localSender.value == info.session.value.localParticipant
    ensures p.network.Some? <==> info.session.Some? && info.messenger.Some?
    ensures p.network.Some? ==> p.network.value.message == message
    ensures p.network.Some? && participants.Some? ==> p.network.value.recipients == participants.value
  {
    var localSender := if handleLocally && info.session.Some? then Some(info.session.value.localParticipant) else None;
    var network :=
      if info.session.Some? && info.messenger.Some? then
        var session := info.session.value;
        var everyoneElse := session.activeParticipants - {session.localParticipant};
        Some(Outgoing(message, if participants.Some? then participants.value else everyoneElse))
      else None;
    SendPlan(localSender, network)
  }

  /** The default recipients are the active participants other than the sender itself. */
  lemma DefaultRecipientsExcludeSender(info: SessionInfo, message: Message, handleLocally: bool, q: Participant)
    requires info.session.Some? && info.messenger.Some?
    ensures PlanSend(info, message, None, handleLocally).network.Some?
    ensures q in PlanSend(info, message, None, handleLocally).network.value.recipients <==>
            q in info.session.value.activeParticipants && q != info.session.value.localParticipant
  {
  }

  /** Without a session a send does nothing at all: no local echo and no transmission. */
  lemma NoSessionNoEffect(info: SessionInfo, message: Message, participants: Option<set<Participant>>, handleLocally: bool)
    requires info.session.None?
    ensures PlanSend(info, message, participants, handleLocally) == SendPlan(None, None)
  {
  }

  /** The coordinator's state as cleanup sees it. */
  datatype ManagerState = ManagerState(sessionInfo: SessionInfo, cancellables: set<nat>, leaveRequests: seq<GroupSession>)

  /** The state once `cleanup` has run: the session left, the info reset, the subscriptions dropped. */
  function Cleaned(s: ManagerState): (r: ManagerState)
    ensures r.sessionInfo == EmptySessionInfo() && r.cancellables == {}
    ensures r.leaveRequests == s.leaveRequests + (if s.sessionInfo.session.Some? then [s.sessionInfo.session.value] else [])
  {
    var leaves := if s.sessionInfo.session.Some? then [s.sessionInfo.session.value] else [];
    ManagerState(EmptySessionInfo(), {}, s.leaveRequests + leaves)
  }

  /** Cleaning up twice is cleaning up once: the second call finds no session to leave. */
  lemma CleanupIdempotent(s: ManagerState)
    ensures Cleaned(Cleaned(s)) == Cleaned(s)
  {
  }

  /** `SharePlayManager`: owner of the session state. */
  class SharePlayManager {
    var sessionInfo: SessionInfo
    /** The stored subscriptions, by an abstract handle each. */
    var cancellables: set<nat>
    /** The sessions `leave()` was called on, oldest first. */
    var leaveRequests: seq<GroupSession>

    constructor()
      ensures sessionInfo == EmptySessionInfo() && cancellables == {} && leaveRequests == []
    {
      sessionInfo := EmptySessionInfo();
      cancellables := {};
      leaveRequests := [];
    }

    function State(): ManagerState
      reads this
    {
      ManagerState(sessionInfo, cancellables, leaveRequests)
    }

    /** `handleMessage`: dispatches the message through the handler registry; `forceHandling` is unused. */
    static method HandleMessage(message: Message, sender: Participant, forceHandling: bool,
                                registry: MessageHandlerRegistry) returns (calls: seq<Invocation>)
      ensures calls == Dispatch(registry.handlers, message, sender)
      ensures |calls| <= 1
    {
      calls := registry.Handle(message, sender);
    }

    /**
     * `sendMessage`: the local echo runs through the handler registry with the local
     * participant as sender, and the transmission is returned for the messenger to make.
     */
    method SendMessage(message: Message, participants: Option<set<Participant>>, handleLocally: bool,
                       registry: MessageHandlerRegistry) returns (localCalls: seq<Invocation>, network: Option<Outgoing>)
      ensures network == PlanSend(sessionInfo, message, participants, handleLocally).network
      ensures PlanSend(sessionInfo, message, participants, handleLocally).localSender.None? ==> localCalls == []
      ensures PlanSend(sessionInfo, message, participants, handleLocally).localSender.Some? ==>
                localCalls == Dispatch(registry.handlers, message, sessionInfo.session.value.localParticipant)
    {
      var plan := PlanSend(sessionInfo, message, participants, handleLocally);
      localCalls := [];
      if plan.localSender.Some? {
        localCalls := HandleMessage(message, plan.localSender.value, handleLocally, registry);
      }
      network := plan.network;
    }

    /** `cleanup`: leaves the session, clears it and the messenger, resets the info, drops the subscriptions. */
    method Cleanup()
      modifies this
      ensures State() == Cleaned(old(State()))
    {
      if sessionInfo.session.Some? {
        leaveRequests := leaveRequests + [sessionInfo.session.value];
      }
      sessionInfo := sessionInfo.(session := None);
      sessionInfo := sessionInfo.(messenger := None);
      sessionInfo := EmptySessionInfo();
      cancellables := {};
    }
  }
}
