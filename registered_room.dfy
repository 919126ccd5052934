/**
 * `RegisteredRoom`: the master's record of one game-server room and of the
 * access tokens it hands out. A peer asks for access, the room's owner is
 * asked to confirm (the request is pending until the owner answers), the
 * answer is kept as an unconfirmed access under its token until the player
 * presents the token (`ValidateAccess`), and the access is then in use
 * until the player leaves.
 *
 * `GetAccess` sends a message to the owner and finishes in a callback; it is
 * split here into `BeginGetAccess` (everything up to the send) and
 * `CompleteGetAccess` (the callback). `DateTime.Now` is the integer `now`;
 * a peer is its connection id; the owner's connection state at validation
 * time is the set `connected` of connection ids.
 */
module Rooms {
  import opened Common

  /** Key of the "is public" room option. `OptionKeys` is not part of this model; the key text is chosen here. */
  const IsPublicKey: string := "IsPublic"

  const AlreadyRequested: string := "You've already requested an access to this room"
  const AlreadyInRoom: string := "You are already in this room"
  const RoomFull: string := "Room is already full"
  const UnknownError: string := "Unknown Error"

  /** `RoomAccessPacket`: what a player presents to the game server. */
  datatype RoomAccess = RoomAccess(token: string, roomId: int, roomIp: string, roomPort: int, sceneName: string)

  /** `RoomAccessData`: an issued but not yet used access, its peer and its expiry time. */
  datatype AccessData = AccessData(access: RoomAccess, peer: int, timeout: int)

  datatype RoomOptions = RoomOptions(maxPlayers: int, accessTimeoutPeriod: int, isPublic: bool, properties: map<string, string>)

  /** `RoomAccessProvideCheckPacket`: the question sent to the room's owner. */
  datatype AccessCheck = AccessCheck(peerId: int, roomId: int, username: Option<string>)

  /** What the requesting peer is told (`callback`, `errorCallback`), or that the owner was asked. */
  datatype AccessReply = Refused(reason: string) | Provided(access: RoomAccess) | CheckSent(check: AccessCheck)

  /** The owner's answer: a success status with an access, or another status with an optional text payload. */
  datatype OwnerResponse = Approved(access: RoomAccess) | Declined(text: string)

  /** `ValidateAccess`: false, true with the peer, or the exception of a duplicate in-use entry. */
  datatype Admission = NoAccess | Admitted(peer: int) | DuplicatePlayer

  /** Notifications delivered to the room's event listeners. */
  datatype RoomEvent = PlayerJoined(peer: int) | PlayerLeft(peer: int) | Destroyed(roomId: int)

  /** The whole state of a registered room. */
  datatype Room = Room(
    roomId: int,
    options: RoomOptions,
    inUse: map<int, RoomAccess>,
    pending: set<int>,
    unconfirmed: map<string, AccessData>,
    players: map<int, int>,
    listening: bool,
    events: seq<RoomEvent>)

  /** The slots counted against `MaxPlayers`: pending, in-use and unconfirmed accesses. */
  function SlotsTaken(r: Room): nat {
    |r.pending| + |r.inUse| + |r.unconfirmed|
  }

  /** `_players` has no writer, so it stays empty. */
  ghost predicate RoomInvariant(r: Room) {
    && (forall t :: t in r.unconfirmed ==> r.unconfirmed[t].access.token == t)
    && OnePerPeer(r.unconfirmed)
    && (forall t :: t in r.unconfirmed ==> r.unconfirmed[t].peer !in r.pending)
    && r.players == map[]
  }

  /** No peer holds two unconfirmed accesses. */
  ghost predicate OnePerPeer(u: map<string, AccessData>) {
    forall t1, t2 :: t1 in u && t2 in u && u[t1].peer == u[t2].peer ==> t1 == t2
  }

  /** `MaxPlayers` (when not 0) bounds pending + in-use + unconfirmed accesses. */
  ghost predicate WithinBudget(r: Room) {
    r.options.maxPlayers != 0 ==> SlotsTaken(r) <= r.options.maxPlayers
  }

  /** The token of the unconfirmed access held by `peer`, if any. */
  ghost function TokenOf(u: map<string, AccessData>, peer: int): (t: Option<string>)
    ensures t.Some? ==> t.value in u && u[t.value].peer == peer
    ensures t.None? ==> forall k :: k in u ==> u[k].peer != peer
  {
    if exists k :: k in u && u[k].peer == peer then
      Some(var k :| k in u && u[k].peer == peer; k)
    else None
  }

  /** With one access per peer, the token `TokenOf` finds is the one the peer holds. */
  lemma HeldToken(u: map<string, AccessData>, peer: int, t: string)
    requires OnePerPeer(u) && t in u && u[t].peer == peer
    ensures TokenOf(u, peer) == Some(t)
  {
  }

  /** The username put in the check packet: only a non-empty one. */
  function CheckUsername(username: Option<string>): Option<string> {
    if username.Some? && username.value != "" then username else None
  }

  /** `GetAccess` up to the message to the owner. */
  ghost function Begin(r: Room, peer: int, username: Option<string>, now: int): (Room, AccessReply) {
    if peer in r.pending then (r, Refused(AlreadyRequested))
    else if peer in r.players then (r, Refused(AlreadyInRoom))
    else match TokenOf(r.unconfirmed, peer)
      case Some(t) =>
        var data := r.unconfirmed[t];
        (r.(unconfirmed := r.unconfirmed[t := data.(timeout := now + r.options.accessTimeoutPeriod)]), Provided(data.access))
      case None =>
        if r.options.maxPlayers != 0 && SlotsTaken(r) >= r.options.maxPlayers then (r, Refused(RoomFull))
        else (r.(pending := r.pending + {peer}), CheckSent(AccessCheck(peer, r.roomId, CheckUsername(username))))
  }

  /** The callback of `GetAccess`: the owner's response for `peer` arrives at time `now`. */
  function Complete(r: Room, peer: int, response: OwnerResponse, now: int): (Room, AccessReply) {
    var r' := r.(pending := r.pending - {peer});
    match response
    case Declined(text) => (r', Refused(if text == "" then UnknownError else text))
    case Approved(access) =>
      (r'.(unconfirmed := r.unconfirmed[access.token := AccessData(access, peer, now + r.options.accessTimeoutPeriod)]), Provided(access))
  }

  function Validate(r: Room, token: string, connected: set<int>): (Room, Admission) {
    if token !in r.unconfirmed then (r, NoAccess)
    else
      var data := r.unconfirmed[token];
      var r' := r.(unconfirmed := r.unconfirmed - {token});
      if data.peer !in connected then (r', NoAccess)
      else if data.peer in r.inUse then (r', DuplicatePlayer)
      else (r'.(inUse := r.inUse[data.peer := data.access],
                events := if r.listening then r.events + [PlayerJoined(data.peer)] else r.events),
            Admitted(data.peer))
  }

  /** The unconfirmed accesses that have not expired at `now`. */
  function Unexpired(u: map<string, AccessData>, now: int): map<string, AccessData> {
    map t | t in u && !(u[t].timeout < now) :: u[t]
  }

  function Sweep(r: Room, now: int): Room {
    r.(unconfirmed := Unexpired(r.unconfirmed, now))
  }

  function Left(r: Room, peer: int): Room {
    var r' := r.(inUse := r.inUse - {peer});
    if peer in r.players && r.listening then r'.(events := r.events + [PlayerLeft(r.players[peer])]) else r'
  }

  function DestroyRoom(r: Room): Room {
    r.(unconfirmed := map[], listening := false,
       events := if r.listening then r.events + [Destroyed(r.roomId)] else r.events)
  }

  /** One operation on a room; a response can only arrive for a pending request. */
  datatype RoomOp =
    | BeginOp(peer: int, username: Option<string>, now: int)
    | CompleteOp(peer: int, response: OwnerResponse, now: int)
    | ValidateOp(token: string, connected: set<int>)
    | SweepOp(now: int)
    | LeftOp(peer: int)
    | DestroyOp

  predicate Enabled(r: Room, op: RoomOp) {
    op.CompleteOp? ==> op.peer in r.pending
  }

  ghost function Step(r: Room, op: RoomOp): Room {
    match op
    case BeginOp(peer, username, now) => Begin(r, peer, username, now).0
    case CompleteOp(peer, response, now) => Complete(r, peer, response, now).0
    case ValidateOp(token, connected) => Validate(r, token, connected).0
    case SweepOp(now) => Sweep(r, now)
    case LeftOp(peer) => Left(r, peer)
    case DestroyOp => DestroyRoom(r)
  }

  // ---------------------------------------------------------------------
  // Properties of the operations.
  // ---------------------------------------------------------------------

  /**
   * A request is refused, in this order, when the peer already has a
   * pending request or is already a player; a peer holding an unconfirmed
   * access gets that same access back with a fresh timeout; otherwise the
   * budget decides, and a new request marks the peer pending.
   */
  lemma BeginOutcomes(r: Room, peer: int, username: Option<string>, now: int)
    requires RoomInvariant(r)
    ensures var (r', reply) := Begin(r, peer, username, now);
      && (reply.Refused? ==> r' == r)
      && (peer in r.pending <==> reply == Refused(AlreadyRequested))
      && (reply.Provided? <==> peer !in r.pending && exists t :: t in r.unconfirmed && r.unconfirmed[t].peer == peer)
      && (reply.Provided? ==>
            && r'.unconfirmed.Keys == r.unconfirmed.Keys && r'.pending == r.pending
            && exists t :: t in r.unconfirmed && r.unconfirmed[t].peer == peer && reply.access == r.unconfirmed[t].access
                        && r'.unconfirmed[t].timeout == now + r.options.accessTimeoutPeriod)
      && (reply == Refused(RoomFull) <==>
            peer !in r.pending && (forall t :: t in r.unconfirmed ==> r.unconfirmed[t].peer != peer)
            && r.options.maxPlayers != 0 && SlotsTaken(r) >= r.options.maxPlayers)
      && (reply.CheckSent? ==> r' == r.(pending := r.pending + {peer}) && peer !in r.pending && reply.check.peerId == peer)
  {
  }

  /** The owner's response always ends the pending request; only an approval stores an access. */
  lemma CompleteOutcomes(r: Room, peer: int, response: OwnerResponse, now: int)
    ensures var (r', reply) := Complete(r, peer, response, now);
      && peer !in r'.pending && r'.inUse == r.inUse
      && (response.Declined? ==> r'.unconfirmed == r.unconfirmed && reply.Refused? && reply.reason != "")
      && (response.Approved? ==>
            var t := response.access.token;
            && reply == Provided(response.access)
            && t in r'.unconfirmed && r'.unconfirmed[t] == AccessData(response.access, peer, now + r.options.accessTimeoutPeriod)
            && r'.unconfirmed.Keys == r.unconfirmed.Keys + {t})
  {
  }

  /**
   * Tokens are single-use: whatever the outcome, a known token is gone
   * afterwards, and presenting it again admits no one and changes nothing.
   */
  lemma SingleUseToken(r: Room, token: string, connected: set<int>, later: set<int>)
    ensures var (r', _) := Validate(r, token, connected);
      && token !in r'.unconfirmed
      && Validate(r', token, later) == (r', NoAccess)
  {
  }

  /** Admission happens exactly when the token is known, its peer connected and not yet in use. */
  lemma ValidateAdmits(r: Room, token: string, connected: set<int>)
    ensures var (r', result) := Validate(r, token, connected);
      && (result.Admitted? <==> token in r.unconfirmed && r.unconfirmed[token].peer in connected && r.unconfirmed[token].peer !in r.inUse)
      && (result.Admitted? ==>
            && result.peer == r.unconfirmed[token].peer
            && result.peer in r'.inUse && r'.inUse[result.peer] == r.unconfirmed[token].access
            && |r'.inUse| == |r.inUse| + 1)
      && (!result.Admitted? ==> r'.inUse == r.inUse && r'.events == r.events)
      && (token !in r.unconfirmed ==> r' == r)
  {
  }

  /** The sweep removes exactly the unconfirmed accesses whose timeout is before `now`. */
  lemma SweepRemovesExpired(r: Room, now: int)
    ensures var r' := Sweep(r, now);
      && (forall t :: t in r'.unconfirmed <==> t in r.unconfirmed && r.unconfirmed[t].timeout >= now)
      && (forall t :: t in r'.unconfirmed ==> r'.unconfirmed[t] == r.unconfirmed[t])
      && r'.inUse == r.inUse && r'.pending == r.pending
  {
  }

  /** The online count follows the in-use accesses: a leaving player frees its entry. */
  lemma LeftFreesEntry(r: Room, peer: int)
    requires RoomInvariant(r)
    ensures var r' := Left(r, peer);
      && peer !in r'.inUse
      && |r'.inUse| == (if peer in r.inUse then |r.inUse| - 1 else |r.inUse|)
      && r'.events == r.events
  {
  }

  /** Destroying twice notifies listeners once and leaves no unconfirmed access. */
  lemma DestroyNotifiesOnce(r: Room)
    ensures var r' := DestroyRoom(DestroyRoom(r));
      && r'.unconfirmed == map[]
      && r'.events == (if r.listening then r.events + [Destroyed(r.roomId)] else r.events)
  {
  }

  lemma {:induction false} CardSubsetMap(a: map<string, AccessData>, b: map<string, AccessData>)
    requires a.Keys <= b.Keys
    ensures |a| <= |b|
  {
    assert |a.Keys| == |a| && |b.Keys| == |b|;
    SubsetCard(a.Keys, b.Keys);
  }

  lemma {:induction false} SubsetCard<T>(a: set<T>, b: set<T>)
    requires a <= b
    ensures |a| <= |b|
    decreases |b|
  {
    if b != {} {
      var x :| x in b;
      SubsetCard(a - {x}, b - {x});
    }
  }

  /** Every operation keeps the token bookkeeping consistent. */
  lemma {:induction false} StepKeepsInvariant(r: Room, op: RoomOp)
    requires RoomInvariant(r) && Enabled(r, op)
    ensures RoomInvariant(Step(r, op))
  {
    match op
    case BeginOp(peer, username, now) => BeginKeepsInvariant(r, peer, username, now);
    case CompleteOp(peer, response, now) => CompleteKeepsInvariant(r, peer, response, now);
    case ValidateOp(token, connected) => ValidateKeepsInvariant(r, token, connected);
    case SweepOp(now) => SweepKeepsInvariant(r, now);
    case LeftOp(peer) =>
    case DestroyOp =>
  }

  lemma ValidateKeepsInvariant(r: Room, token: string, connected: set<int>)
    requires RoomInvariant(r)
    ensures RoomInvariant(Validate(r, token, connected).0)
  {
  }

  lemma SweepKeepsInvariant(r: Room, now: int)
    requires RoomInvariant(r)
    ensures RoomInvariant(Sweep(r, now))
  {
  }

  lemma BeginKeepsInvariant(r: Room, peer: int, username: Option<string>, now: int)
    requires RoomInvariant(r)
    ensures RoomInvariant(Begin(r, peer, username, now).0)
  {
    var r' := Begin(r, peer, username, now).0;
    if peer !in r.pending && peer !in r.players && TokenOf(r.unconfirmed, peer).None? {
      assert forall t :: t in r'.unconfirmed ==> r'.unconfirmed[t].peer != peer;
    }
  }

  lemma CompleteKeepsInvariant(r: Room, peer: int, response: OwnerResponse, now: int)
    requires RoomInvariant(r) && peer in r.pending
    ensures RoomInvariant(Complete(r, peer, response, now).0)
  {
  }

  lemma BeginKeepsBudget(r: Room, peer: int, username: Option<string>, now: int)
    requires WithinBudget(r)
    ensures WithinBudget(Begin(r, peer, username, now).0)
  {
    var (r', reply) := Begin(r, peer, username, now);
    if reply.CheckSent? {
      assert |r'.pending| == |r.pending| + 1;
    } else {
      assert r'.unconfirmed.Keys == r.unconfirmed.Keys && r'.pending == r.pending && r'.inUse == r.inUse;
    }
  }

  lemma CompleteKeepsBudget(r: Room, peer: int, response: OwnerResponse, now: int)
    requires WithinBudget(r) && peer in r.pending
    ensures WithinBudget(Complete(r, peer, response, now).0)
  {
    var r' := Complete(r, peer, response, now).0;
    assert |r'.pending| == |r.pending| - 1;
    assert |r'.unconfirmed| <= |r.unconfirmed| + 1;
  }

  lemma ValidateKeepsBudget(r: Room, token: string, connected: set<int>)
    requires WithinBudget(r)
    ensures WithinBudget(Validate(r, token, connected).0)
  {
    var r' := Validate(r, token, connected).0;
    if token in r.unconfirmed {
      assert |r'.unconfirmed| == |r.unconfirmed| - 1;
      assert |r'.inUse| <= |r.inUse| + 1;
    }
  }

  lemma SweepKeepsBudget(r: Room, now: int)
    requires WithinBudget(r)
    ensures WithinBudget(Sweep(r, now))
  {
    CardSubsetMap(Sweep(r, now).unconfirmed, r.unconfirmed);
  }

  /** Every operation keeps the `MaxPlayers` budget. */
  lemma {:induction false} StepKeepsBudget(r: Room, op: RoomOp)
    requires Enabled(r, op) && WithinBudget(r)
    ensures WithinBudget(Step(r, op))
  {
    match op
    case BeginOp(peer, username, now) => BeginKeepsBudget(r, peer, username, now);
    case CompleteOp(peer, response, now) => CompleteKeepsBudget(r, peer, response, now);
    case ValidateOp(token, connected) => ValidateKeepsBudget(r, token, connected);
    case SweepOp(now) => SweepKeepsBudget(r, now);
    case LeftOp(peer) =>
      assert |Left(r, peer).inUse| <= |r.inUse|;
    case DestroyOp =>
  }

  // ---------------------------------------------------------------------
  // Scenarios.
  // ---------------------------------------------------------------------

  /** A fresh room: nothing issued, nothing pending, listeners attached. */
  function NewRoom(roomId: int, options: RoomOptions): Room {
    Room(roomId, options, map[], {}, map[], map[], true, [])
  }

  /**
   * With `MaxPlayers = 1`, once peer `a` has requested, been approved and
   * validated its token, any other peer's request is refused as full.
   */
  lemma {:induction false} CapacityOneScenario(options: RoomOptions, access: RoomAccess, a: int, b: int, now: int)
    requires options.maxPlayers == 1 && a != b
    ensures var r0 := NewRoom(7, options);
      var r1 := Begin(r0, a, None, now).0;
      var r2 := Complete(r1, a, Approved(access), now).0;
      var (r3, admitted) := Validate(r2, access.token, {a});
      && admitted == Admitted(a)
      && Begin(r3, b, None, now).1 == Refused(RoomFull)
  {
    var r0 := NewRoom(7, options);
    assert TokenOf(r0.unconfirmed, a).None?;
    var r1 := Begin(r0, a, None, now).0;
    assert r1.pending == {a};
    var r2 := Complete(r1, a, Approved(access), now).0;
    var r3 := Validate(r2, access.token, {a}).0;
    assert r3.unconfirmed == map[] && r3.pending == {} && |r3.inUse| == 1;
    assert TokenOf(r3.unconfirmed, b).None?;
  }

  /** Asking again before using the access returns the same access, with the timeout restarted. */
  lemma {:induction false} RepeatRequestScenario(options: RoomOptions, access: RoomAccess, a: int, t0: int, t1: int)
    requires options.maxPlayers == 0
    ensures var r1 := Begin(NewRoom(7, options), a, None, t0).0;
      var r2 := Complete(r1, a, Approved(access), t0).0;
      var (r3, reply) := Begin(r2, a, None, t1);
      && reply == Provided(access)
      && r3.unconfirmed == map[access.token := AccessData(access, a, t1 + options.accessTimeoutPeriod)]
      && r3.pending == {}
  {
    var r1 := Begin(NewRoom(7, options), a, None, t0).0;
    assert r1.pending == {a};
    var r2 := Complete(r1, a, Approved(access), t0).0;
    assert r2.unconfirmed == map[access.token := AccessData(access, a, t0 + options.accessTimeoutPeriod)];
    assert r2.unconfirmed[access.token].peer == a;
    assert TokenOf(r2.unconfirmed, a).Some?;
    assert TokenOf(r2.unconfirmed, a).value in r2.unconfirmed.Keys;
  }

  /**
   * A player already in use can obtain a second access (nothing checks the
   * in-use entries before asking the owner); presenting it then hits the
   * duplicate in-use entry.
   */
  lemma {:induction false} SecondAccessScenario(options: RoomOptions, first: RoomAccess, second: RoomAccess, a: int, now: int)
    requires options.maxPlayers == 0 && first.token != second.token
    ensures var r1 := Begin(NewRoom(7, options), a, None, now).0;
      var r2 := Complete(r1, a, Approved(first), now).0;
      var r3 := Validate(r2, first.token, {a}).0;
      var (r4, reply) := Begin(r3, a, None, now);
      var r5 := Complete(r4, a, Approved(second), now).0;
      && reply.CheckSent?
      && Validate(r5, second.token, {a}).1 == DuplicatePlayer
  {
    var r1 := Begin(NewRoom(7, options), a, None, now).0;
    assert r1.pending == {a};
    var r2 := Complete(r1, a, Approved(first), now).0;
    var r3 := Validate(r2, first.token, {a}).0;
    assert r3.unconfirmed == map[] && r3.pending == {} && a in r3.inUse;
    assert TokenOf(r3.unconfirmed, a).None?;
  }

  /** A peer whose request is pending cannot open a second one; the state is unchanged. */
  lemma {:induction false} DuplicateRequestScenario(options: RoomOptions, a: int, now: int)
    requires options.maxPlayers == 0
    ensures var r1 := Begin(NewRoom(7, options), a, None, now).0;
      Begin(r1, a, None, now) == (r1, Refused(AlreadyRequested))
  {
    assert TokenOf(NewRoom(7, options).unconfirmed, a).None?;
  }

  // ---------------------------------------------------------------------
  // Options.
  // ---------------------------------------------------------------------

  /** The characters `bool.TryParse` trims: the null character and every Unicode white-space character. */
  predicate IsTrimmed(c: char) {
    || c == '\0' || '\t' <= c <= '\r' || c == ' ' || c == '\U{0085}' || c == '\U{00A0}' || c == '\U{1680}'
    || '\U{2000}' <= c <= '\U{200A}' || c == '\U{2028}' || c == '\U{2029}' || c == '\U{202F}' || c == '\U{205F}'
    || c == '\U{3000}'
  }

  function TrimStart(s: string): (r: string)
    ensures |r| <= |s| && (r == [] || !IsTrimmed(r[0]))
  {
    if s != [] && IsTrimmed(s[0]) then TrimStart(s[1..]) else s
  }

  function TrimEnd(s: string): (r: string)
    ensures |r| <= |s| && (r == [] || !IsTrimmed(r[|r| - 1]))
  {
    if s != [] && IsTrimmed(s[|s| - 1]) then TrimEnd(s[..|s| - 1]) else s
  }

  function LowerAscii(c: char): char {
    if 'A' <= c <= 'Z' then (c as int + 32) as char else c
  }

  function LowerAsciiString(s: string): (r: string)
    ensures |r| == |s|
  {
    seq(|s|, i requires 0 <= i < |s| => LowerAscii(s[i]))
  }

  /** `bool.TryParse` as far as its out value: true only for "true" in any case, trimmed. */
  function ParsesAsTrue(s: string): bool {
    LowerAsciiString(TrimEnd(TrimStart(s))) == "true"
  }

  /** `OverrideOptionsWithProperties`: the "is public" property, when present, overrides the flag. */
  function OverrideOptions(o: RoomOptions): (r: RoomOptions)
    ensures r.maxPlayers == o.maxPlayers && r.accessTimeoutPeriod == o.accessTimeoutPeriod && r.properties == o.properties
    ensures IsPublicKey !in o.properties ==> r.isPublic == o.isPublic
    ensures IsPublicKey in o.properties ==> (r.isPublic <==> ParsesAsTrue(o.properties[IsPublicKey]))
  {
    if IsPublicKey in o.properties then o.(isPublic := ParsesAsTrue(o.properties[IsPublicKey])) else o
  }

  lemma {:induction false} TrimStartSkips(pre: string, rest: string)
    requires forall i :: 0 <= i < |pre| ==> IsTrimmed(pre[i])
    requires rest == [] || !IsTrimmed(rest[0])
    ensures TrimStart(pre + rest) == rest
    decreases |pre|
  {
    if pre == [] {
      assert pre + rest == rest;
    } else {
      assert (pre + rest)[1..] == pre[1..] + rest;
      TrimStartSkips(pre[1..], rest);
    }
  }

  lemma {:induction false} TrimEndSkips(rest: string, post: string)
    requires forall i :: 0 <= i < |post| ==> IsTrimmed(post[i])
    requires rest == [] || !IsTrimmed(rest[|rest| - 1])
    ensures TrimEnd(rest + post) == rest
    decreases |post|
  {
    if post == [] {
      assert rest + post == rest;
    } else {
      assert (rest + post)[..|rest + post| - 1] == rest + post[..|post| - 1];
      TrimEndSkips(rest, post[..|post| - 1]);
    }
  }

  /** Any run of white space and null characters around a word is ignored; the word itself is compared ignoring ASCII case. */
  lemma ParsesAround(pre: string, word: string, post: string)
    requires forall i :: 0 <= i < |pre| ==> IsTrimmed(pre[i])
    requires forall i :: 0 <= i < |post| ==> IsTrimmed(post[i])
    requires word != [] && !IsTrimmed(word[0]) && !IsTrimmed(word[|word| - 1])
    ensures ParsesAsTrue(pre + word + post) <==> LowerAsciiString(word) == "true"
  {
    assert pre + word + post == pre + (word + post);
    TrimStartSkips(pre, word + post);
    TrimEndSkips(word, post);
  }

  lemma ParseExamples()
    ensures ParsesAsTrue(" True ") && ParsesAsTrue("TRUE")
  {
    assert LowerAsciiString("True") == "true";
    ParsesAround(" ", "True", " ");
    assert " " + "True" + " " == " True ";
    assert LowerAsciiString("TRUE") == "true";
    ParsesAround("", "TRUE", "");
    assert "" + "TRUE" + "" == "TRUE";
  }

  /** Other words, and the empty text, do not parse as true. */
  lemma ParseRejects()
    ensures !ParsesAsTrue("false") && !ParsesAsTrue("yes") && !ParsesAsTrue("")
  {
    assert TrimEnd(TrimStart("false")) == "false";
    assert LowerAsciiString("false")[0] == 'f';
    assert TrimEnd(TrimStart("yes")) == "yes";
    assert LowerAsciiString("yes")[0] == 'y';
  }

  /** White space beyond ASCII is trimmed too: a vertical tab before, a no-break space after. */
  lemma ParseUnicodeExamples()
    ensures ParsesAsTrue("\U{000B}true") && ParsesAsTrue("true\U{00A0}")
  {
    assert LowerAsciiString("true") == "true";
    ParsesAround("\U{000B}", "true", "");
    assert "\U{000B}" + "true" + "" == "\U{000B}true";
    ParsesAround("", "true", "\U{00A0}");
    assert "" + "true" + "\U{00A0}" == "true\U{00A0}";
  }

  /** Null characters are trimmed with the white space, here beside an ideographic space and a line feed. */
  lemma ParseNullExample()
    ensures ParsesAsTrue("\0\U{3000}True\n")
  {
    assert LowerAsciiString("True") == "true";
    ParsesAround("\0\U{3000}", "True", "\n");
    assert "\0\U{3000}" + "True" + "\n" == "\0\U{3000}True\n";
  }

  // ---------------------------------------------------------------------
  // The room object.
  // ---------------------------------------------------------------------

  class RegisteredRoom {
    const roomId: int
    /** Connection id of the room's owner (the game server). */
    const ownerPeer: int
    var options: RoomOptions
    var accessesInUse: map<int, RoomAccess>
    var requestsInProgress: set<int>
    var unconfirmedAccesses: map<string, AccessData>
    var players: map<int, int>
    /** Whether the event listeners are still attached (`Destroy` detaches them). */
    var listening: bool
    /** Notifications delivered to listeners, oldest first. */
    var events: seq<RoomEvent>

    function Model(): Room
      reads this
    {
      Room(roomId, options, accessesInUse, requestsInProgress, unconfirmedAccesses, players, listening, events)
    }

    ghost predicate Valid()
      reads this
    {
      RoomInvariant(Model())
    }

    constructor (roomId: int, ownerPeer: int, options: RoomOptions)
      ensures Valid()
      ensures Model() == NewRoom(roomId, OverrideOptions(options))
      ensures this.ownerPeer == ownerPeer
    {
      this.roomId := roomId;
      this.ownerPeer := ownerPeer;
      this.options := options;
      accessesInUse := map[];
      requestsInProgress := {};
      unconfirmedAccesses := map[];
      players := map[];
      listening := true;
      events := [];
      new;
      OverrideOptionsWithProperties();
    }

    method OverrideOptionsWithProperties()
      modifies this
      ensures Model() == old(Model()).(options := OverrideOptions(old(options)))
    {
      if IsPublicKey in options.properties {
        var isPublic := ParsesAsTrue(options.properties[IsPublicKey]);
        options := options.(isPublic := isPublic);
      }
    }

    /** `OnlineCount`: the number of accesses in use. */
    function OnlineCount(): (n: nat)
      reads this
      ensures n == |Model().inUse|
    {
      |accessesInUse|
    }

    method BeginGetAccess(peer: int, username: Option<string>, now: int) returns (reply: AccessReply)
      requires Valid()
      modifies this
      ensures Valid()
      ensures (Model(), reply) == Begin(old(Model()), peer, username, now)
    {
      StepKeepsInvariant(Model(), BeginOp(peer, username, now));
      reply := RequestAccess(peer, username, now);
    }

    /** The steps of `BeginGetAccess`, apart from the invariant it keeps. */
    method RequestAccess(peer: int, username: Option<string>, now: int) returns (reply: AccessReply)
      requires OnePerPeer(unconfirmedAccesses)
      modifies this
      ensures (Model(), reply) == Begin(old(Model()), peer, username, now)
    {
      if peer in requestsInProgress {
        return Refused(AlreadyRequested);
      }
      if peer in players {
        return Refused(AlreadyInRoom);
      }
      if exists t :: t in unconfirmedAccesses && unconfirmedAccesses[t].peer == peer {
        var t :| t in unconfirmedAccesses && unconfirmedAccesses[t].peer == peer;
        HeldToken(unconfirmedAccesses, peer, t);
        var data := unconfirmedAccesses[t];
        unconfirmedAccesses := unconfirmedAccesses[t := data.(timeout := now + options.accessTimeoutPeriod)];
        return Provided(data.access);
      }
      assert TokenOf(unconfirmedAccesses, peer).None?;
      if options.maxPlayers != 0 {
        var slotsTaken := |requestsInProgress| + |accessesInUse| + |unconfirmedAccesses|;
        if slotsTaken >= options.maxPlayers {
          return Refused(RoomFull);
        }
      }
      var check := AccessCheck(peer, roomId, CheckUsername(username));
      requestsInProgress := requestsInProgress + {peer};
      reply := CheckSent(check);
    }

    method CompleteGetAccess(peer: int, response: OwnerResponse, now: int) returns (reply: AccessReply)
      requires Valid() && peer in requestsInProgress
      modifies this
      ensures Valid()
      ensures (Model(), reply) == Complete(old(Model()), peer, response, now)
    {
      requestsInProgress := requestsInProgress - {peer};
      if response.Declined? {
        return Refused(if response.text == "" then UnknownError else response.text);
      }
      var access := AccessData(response.access, peer, now + options.accessTimeoutPeriod);
      unconfirmedAccesses := unconfirmedAccesses[access.access.token := access];
      reply := Provided(access.access);
      StepKeepsInvariant(old(Model()), CompleteOp(peer, response, now));
    }

    method ValidateAccess(token: string, connected: set<int>) returns (result: Admission)
      requires Valid()
      modifies this
      ensures Valid()
      ensures (Model(), result) == Validate(old(Model()), token, connected)
    {
      if token !in unconfirmedAccesses {
        return NoAccess;
      }
      var data := unconfirmedAccesses[token];
      unconfirmedAccesses := unconfirmedAccesses - {token};
      if data.peer !in connected {
        return NoAccess;
      }
      if data.peer in accessesInUse {
        return DuplicatePlayer;
      }
      accessesInUse := accessesInUse[data.peer := data.access];
      if listening {
        events := events + [PlayerJoined(data.peer)];
      }
      result := Admitted(data.peer);
    }

    method ClearTimedOutAccesses(now: int)
      requires Valid()
      modifies this
      ensures Valid()
      ensures Model() == Sweep(old(Model()), now)
    {
      var initial := unconfirmedAccesses;
      var timedOut := set t | t in initial && initial[t].timeout < now;
      var remaining := timedOut;
      while remaining != {}
        invariant remaining <= timedOut
        invariant unconfirmedAccesses == initial - (timedOut - remaining)
        invariant Model() == old(Model()).(unconfirmed := unconfirmedAccesses)
        decreases remaining
      {
        var t :| t in remaining;
        var token := initial[t].access.token;
        unconfirmedAccesses := unconfirmedAccesses - {token};
        remaining := remaining - {t};
      }
      assert unconfirmedAccesses == Unexpired(old(unconfirmedAccesses), now);
      StepKeepsInvariant(old(Model()), SweepOp(now));
    }

    method OnPlayerLeft(peer: int)
      modifies this
      ensures old(Valid()) ==> Valid()
      ensures Model() == Left(old(Model()), peer)
    {
      accessesInUse := accessesInUse - {peer};
      if peer !in players {
        return;
      }
      if listening {
        events := events + [PlayerLeft(players[peer])];
      }
    }

    method Destroy()
      requires Valid()
      modifies this
      ensures Valid()
      ensures Model() == DestroyRoom(old(Model()))
    {
      if listening {
        events := events + [Destroyed(roomId)];
      }
      unconfirmedAccesses := map[];
      listening := false;
    }
  }
}
