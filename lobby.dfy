// The lobby: membership in two maps (by username and by connection id),
// teams, the game master, ready flags, shared properties, the state machine
// driven by the game server's spawn task, and the auto-start countdown.

module Lobbies {
  import opened Common

  const DefaultName := "Untitled Lobby"
  const WaitSecondsAfterMinPlayersReached := 10
  const WaitSecondsAfterFullTeams := 5

  /** `OptionKeys.IsPublic` (`OptionKeys` is not part of this model, so its text is chosen here). */
  const IsPublicKey := "IsPublic"

  /**
   * `LobbyState`. The enum's declaration is not part of this model; its
   * default value, the state of a new lobby, is taken to be `Preparations`.
   */
  datatype LobbyState = Preparations | StartingGameServer | GameInProgress | FailedToStart | GameOver

  /**
   * `SpawnStatus`, known here only by its order: failures below `None`,
   * starting statuses between `None` and `Finalized`. `Unset` is the
   * source's `None`.
   */
  datatype SpawnStatus = Killed | Aborted | Unset | InQueue | StartingProcess | WaitingForProcess | ProcessRegistered | Finalized

  function Rank(s: SpawnStatus): int {
    match s
    case Killed => -2
    case Aborted => -1
    case Unset => 0
    case InQueue => 1
    case StartingProcess => 2
    case WaitingForProcess => 3
    case ProcessRegistered => 4
    case Finalized => 5
  }

  predicate IsStarting(s: SpawnStatus) { Rank(Unset) < Rank(s) < Rank(Finalized) }
  predicate IsFailure(s: SpawnStatus) { Rank(s) < Rank(Unset) }

  /** Identifies a spawn task handed out by the spawner plugin. */
  type TaskId = int

  /**
   * What `OnGameServerFinalized` finds: no finalization packet, a packet
   * without a room id, a room id that is not a number (`int.Parse` throws),
   * a room id the rooms plugin does not know, or the room.
   */
  datatype Finalization = NoPacket | NoRoomId | BadRoomId | UnknownRoom | FoundRoom(roomId: int, roomIp: string, roomPort: int)

  /**
   * A team (`LobbyTeam`, whose source is not part of this model): its
   * bounds and the usernames of its members.
   */
  datatype Team = Team(minPlayers: nat, maxPlayers: nat, members: set<string>)

  /** `LobbyTeam.CanAddPlayer`, taken to mean the team is below its maximum. */
  predicate CanAddPlayer(t: Team) { |t.members| < t.maxPlayers }

  /** `LobbyTeam.AddMember`, taken to refuse a full team or a player already in it. */
  function AddMember(t: Team, u: string): (Team, bool) {
    if u in t.members || !CanAddPlayer(t) then (t, false) else (t.(members := t.members + {u}), true)
  }

  /** `LobbyMember`: the member's team is kept by name. */
  datatype Member = Member(username: string, peerId: int, team: string, isReady: bool, properties: map<string, string>)

  /** The lobby's public switches. */
  datatype Config = Config(
    autostart: bool,
    enableTeamSwitching: bool,
    playAgainEnabled: bool,
    enableReadySystem: bool,
    allowJoiningWhenGameIsLive: bool,
    enableGameMasters: bool,
    startGameWhenAllReady: bool,
    enableManualStart: bool,
    keepAliveWithZeroPlayers: bool,
    allowPlayersChangeLobbyProperties: bool)

  /** The switches' initial values. */
  const DefaultConfig := Config(false, true, true, true, true, true, false, true, false, true)

  /**
   * The state of a `Lobby`. `memberOrder` is the enumeration order of
   * `Members`, `teamOrder` that of `Teams`; `statusBroadcasts` lists the
   * status texts sent to subscribers and `killedTasks` the spawn tasks killed.
   */
  datatype LobbyModel = LobbyModel(
    config: Config,
    teamOrder: seq<string>,
    state: LobbyState,
    gameMaster: Option<string>,
    statusText: string,
    isDestroyed: bool,
    members: map<string, Member>,
    membersByPeerId: map<int, string>,
    memberOrder: seq<string>,
    teams: map<string, Team>,
    properties: map<string, string>,
    subscribers: set<int>,
    gameIp: string,
    gamePort: int,
    room: Option<int>,
    spawnTask: Option<TaskId>,
    killedTasks: seq<TaskId>,
    statusBroadcasts: seq<string>)

  // ---------------------------------------------------------------------
  // Teams.
  // ---------------------------------------------------------------------

  function SumMax(teams: map<string, Team>, ns: seq<string>): int {
    if ns == [] then 0 else (if ns[0] in teams then teams[ns[0]].maxPlayers else 0) + SumMax(teams, ns[1..])
  }

  function SumMin(teams: map<string, Team>, ns: seq<string>): int {
    if ns == [] then 0 else (if ns[0] in teams then teams[ns[0]].minPlayers else 0) + SumMin(teams, ns[1..])
  }

  function SumCounts(teams: map<string, Team>, ns: seq<string>): int {
    if ns == [] then 0 else (if ns[0] in teams then |teams[ns[0]].members| else 0) + SumCounts(teams, ns[1..])
  }

  /**
   * `MaxPlayers` and `MinPlayers`: the sums of the teams' bounds. The source
   * computes them once; the bounds never change, so recomputing agrees.
   */
  function MaxPlayers(m: LobbyModel): int { SumMax(m.teams, m.teamOrder) }
  function MinPlayers(m: LobbyModel): int { SumMin(m.teams, m.teamOrder) }

  predicate Eligible(teams: map<string, Team>, n: string) { n in teams && CanAddPlayer(teams[n]) }

  predicate Lacking(teams: map<string, Team>, n: string) { n in teams && teams[n].minPlayers > |teams[n].members| }

  /**
   * The index in `ns` of the team `PickTeamForPlayer` chooses, or -1: among
   * the teams that can take a player, one with the fewest players, the
   * earliest on a tie (`OrderBy` is stable).
   */
  function PickIndex(teams: map<string, Team>, ns: seq<string>): (k: int)
    ensures -1 <= k < |ns|
    ensures k == -1 <==> forall i :: 0 <= i < |ns| ==> !Eligible(teams, ns[i])
    ensures k >= 0 ==> Eligible(teams, ns[k])
    ensures k >= 0 ==> forall i :: 0 <= i < |ns| && Eligible(teams, ns[i]) ==> |teams[ns[k]].members| <= |teams[ns[i]].members|
    ensures k >= 0 ==> forall i :: 0 <= i < k && Eligible(teams, ns[i]) ==> |teams[ns[k]].members| < |teams[ns[i]].members|
  {
    if ns == [] then -1
    else
      var r := PickIndex(teams, ns[1..]);
      assert forall i :: 1 <= i < |ns| ==> ns[i] == ns[1..][i - 1];
      if !Eligible(teams, ns[0]) then (if r < 0 then -1 else r + 1)
      else if r >= 0 && |teams[ns[r + 1]].members| < |teams[ns[0]].members| then r + 1
      else 0
  }

  /** `PickTeamForPlayer`: the name of that team, or none. */
  function PickTeam(teams: map<string, Team>, ns: seq<string>): Option<string> {
    var k := PickIndex(teams, ns);
    if k < 0 then None else Some(ns[k])
  }

  /** The index of the first team below its minimum (`FirstOrDefault(t => t.MinPlayers > t.PlayerCount)`), or -1. */
  function LackingIndex(teams: map<string, Team>, ns: seq<string>): (k: int)
    ensures -1 <= k < |ns|
    ensures k == -1 <==> forall i :: 0 <= i < |ns| ==> !Lacking(teams, ns[i])
    ensures k >= 0 ==> Lacking(teams, ns[k]) && forall i :: 0 <= i < k ==> !Lacking(teams, ns[i])
  {
    if ns == [] then -1
    else if Lacking(teams, ns[0]) then 0
    else
      var r := LackingIndex(teams, ns[1..]);
      assert forall i :: 1 <= i < |ns| ==> ns[i] == ns[1..][i - 1];
      if r < 0 then -1 else r + 1
  }

  function FirstLacking(teams: map<string, Team>, ns: seq<string>): Option<string> {
    var k := LackingIndex(teams, ns);
    if k < 0 then None else Some(ns[k])
  }

  predicate AllTeamsFull(teams: map<string, Team>, ns: seq<string>) {
    forall i :: 0 <= i < |ns| && ns[i] in teams ==> teams[ns[i]].maxPlayers == |teams[ns[i]].members|
  }

  /** `ns` without `u`. */
  function Without(ns: seq<string>, u: string): seq<string> {
    if ns == [] then []
    else if ns[0] == u then Without(ns[1..], u)
    else [ns[0]] + Without(ns[1..], u)
  }

  /** `Without` drops exactly `u` and keeps a list of distinct names distinct. */
  lemma {:induction false} WithoutFacts(ns: seq<string>, u: string)
    ensures forall x :: x in Without(ns, u) <==> x in ns && x != u
    ensures Distinct(ns) ==> Distinct(Without(ns, u))
  {
    if ns != [] {
      WithoutFacts(ns[1..], u);
      assert Distinct(ns) ==> ns[0] !in ns[1..] && Distinct(ns[1..]);
      if ns[0] != u {
        assert Without(ns, u) == [ns[0]] + Without(ns[1..], u);
      }
    }
  }

  predicate Distinct(ns: seq<string>) {
    forall i, j :: 0 <= i < j < |ns| ==> ns[i] != ns[j]
  }

  // ---------------------------------------------------------------------
  // The invariant.
  // ---------------------------------------------------------------------

  /** Both maps index the same members, and the enumeration order lists each once. */
  ghost predicate MembersIndexed(m: LobbyModel) {
    && (forall u :: u in m.members ==> m.members[u].username == u)
    && (forall p :: p in m.membersByPeerId ==> m.membersByPeerId[p] in m.members && m.members[m.membersByPeerId[p]].peerId == p)
    && (forall u :: u in m.members ==> m.members[u].peerId in m.membersByPeerId && m.membersByPeerId[m.members[u].peerId] == u)
    && Distinct(m.memberOrder)
    && (forall u :: u in m.memberOrder <==> u in m.members)
  }

  /** Every member is in exactly the team it names, and teams hold only members. */
  ghost predicate TeamsPartition(m: LobbyModel) {
    && Distinct(m.teamOrder)
    && (forall n :: n in m.teamOrder <==> n in m.teams)
    && (forall u :: u in m.members ==> m.members[u].team in m.teams && u in m.teams[m.members[u].team].members)
    && (forall n, u :: n in m.teams && u in m.teams[n].members ==> u in m.members && m.members[u].team == n)
  }

  /** The game master is a member; with masters enabled there is one exactly when the lobby has members. */
  ghost predicate MasterElected(m: LobbyModel) {
    && (m.gameMaster.Some? ==> m.gameMaster.value in m.members)
    && (m.config.enableGameMasters ==> (m.gameMaster.None? <==> m.members == map[]))
    && (!m.config.enableGameMasters ==> m.gameMaster.None?)
  }

  /** The invariant without its clause on destroyed lobbies, which `Destroy` breaks while it removes members. */
  ghost predicate Consistent(m: LobbyModel) {
    MembersIndexed(m) && TeamsPartition(m) && MasterElected(m)
  }

  ghost predicate LobbyInvariant(m: LobbyModel) {
    Consistent(m) && (m.isDestroyed ==> m.members == map[])
  }

  /** A new lobby over the given teams (their names distinct), in `Preparations`. */
  function NewLobby(config: Config, teamOrder: seq<string>, teams: map<string, Team>): LobbyModel {
    LobbyModel(config, teamOrder, Preparations, None, "", false, map[], map[], [], teams, map[], {}, "", -1, None, None, [], [])
  }

  lemma NewLobbyValid(config: Config, teamOrder: seq<string>, teams: map<string, Team>)
    requires Distinct(teamOrder) && (forall n :: n in teamOrder <==> n in teams)
    requires forall n :: n in teams ==> teams[n].members == {}
    ensures LobbyInvariant(NewLobby(config, teamOrder, teams))
  {
  }

  // ---------------------------------------------------------------------
  // Membership.
  // ---------------------------------------------------------------------

  /** `PickNewGameMaster`: the first member, or none (only when masters are enabled). */
  function PickNewGameMaster(m: LobbyModel): LobbyModel {
    if !m.config.enableGameMasters then m
    else m.(gameMaster := if |m.memberOrder| > 0 then Some(m.memberOrder[0]) else None)
  }

  /**
   * A player asking to join: its connection id, its username if it has one,
   * whether it already has a current lobby, and the answer of the
   * `IsPlayerAllowed` hook (the base class answers true).
   */
  datatype JoinRequest = JoinRequest(peerId: int, username: Option<string>, inLobby: bool, allowed: bool)

  datatype JoinOutcome = Joined | Rejected(message: string)

  /** `AddPlayer`. */
  function AddPlayerStep(m: LobbyModel, req: JoinRequest): (LobbyModel, JoinOutcome) {
    if req.inLobby then (m, Rejected("You're already in a lobby"))
    else if req.username.None? then (m, Rejected("Invalid username"))
    else if req.username.value in m.members then (m, Rejected("Already in the lobby"))
    else if m.isDestroyed then (m, Rejected("Lobby is destroyed"))
    else if !req.allowed then (m, Rejected("You're not allowed"))
    else if |m.members| >= MaxPlayers(m) then (m, Rejected("Lobby is full"))
    else if !m.config.allowJoiningWhenGameIsLive && m.state != Preparations then (m, Rejected("Game is already in progress"))
    else
      var u := req.username.value;
      var pick := PickTeam(m.teams, m.teamOrder);
      if pick.None? then (m, Rejected("Invalid lobby team"))
      else
        var (team, added) := AddMember(m.teams[pick.value], u);
        if !added then (m, Rejected("Not allowed to join a team"))
        else (Admit(m, u, req.peerId, pick.value, team), Joined)
  }

  /** The tail of a successful `AddPlayer`: enrol, elect a master if there is none, subscribe the peer. */
  function Admit(m: LobbyModel, u: string, peerId: int, teamName: string, team: Team): LobbyModel {
    var m1 := Enrol(m, u, peerId, teamName, team);
    var m2 := if m1.gameMaster.None? then PickNewGameMaster(m1) else m1;
    m2.(subscribers := m2.subscribers + {peerId})
  }

  /** The new member is recorded in both maps, at the end of the order, and in its team. */
  function Enrol(m: LobbyModel, u: string, peerId: int, teamName: string, team: Team): LobbyModel {
    m.(members := m.members[u := Member(u, peerId, teamName, false, map[])],
       membersByPeerId := m.membersByPeerId[peerId := u],
       memberOrder := m.memberOrder + [u],
       teams := m.teams[teamName := team])
  }

  /** The member leaves both maps, the enumeration order, its team and the subscribers. */
  function Unlink(m: LobbyModel, u: string): LobbyModel
    requires u in m.members
  {
    var mem := m.members[u];
    m.(members := m.members - {u},
       membersByPeerId := m.membersByPeerId - {mem.peerId},
       memberOrder := Without(m.memberOrder, u),
       teams := if mem.team in m.teams
                then m.teams[mem.team := m.teams[mem.team].(members := m.teams[mem.team].members - {u})]
                else m.teams,
       subscribers := m.subscribers - {mem.peerId})
  }

  /** What `RemovePlayer` does to a member: `Unlink`, and a departing game master is replaced by `PickNewGameMaster`. */
  function Detach(m: LobbyModel, u: string): LobbyModel {
    if u !in m.members then m
    else if m.gameMaster == Some(u) then PickNewGameMaster(Unlink(m, u))
    else Unlink(m, u)
  }

  /** `Detach` of each of `us` in turn. */
  function DetachAll(m: LobbyModel, us: seq<string>): LobbyModel {
    if us == [] then m else Detach(DetachAll(m, us[..|us| - 1]), us[|us| - 1])
  }

  /** Kills the bound spawn task, if any (the binding stays). */
  function KillSpawnTask(m: LobbyModel): LobbyModel {
    if m.spawnTask.Some? then m.(killedTasks := m.killedTasks + [m.spawnTask.value]) else m
  }

  /**
   * `Destroy`. Each `RemovePlayer` it makes re-enters `Destroy`, which
   * returns at once because the lobby is already marked destroyed; what is
   * left of each removal is `Detach`.
   */
  function DestroyStep(m: LobbyModel): LobbyModel {
    if m.isDestroyed then m
    else KillSpawnTask(DetachAll(m.(isDestroyed := true), m.memberOrder))
  }

  /**
   * `RemovePlayer` of the member called `u` (the extension passed is the
   * member's own). The last member leaving destroys the lobby unless it is
   * kept alive with zero players.
   */
  function RemovePlayerStep(m: LobbyModel, u: string): LobbyModel {
    if u !in m.members then m
    else
      var m1 := Detach(m, u);
      if !m.config.keepAliveWithZeroPlayers && |m1.members| == 0 then DestroyStep(m1) else m1
  }

  /**
   * `TryJoinTeam` for a current member. `Teams[teamName]` throws for an
   * unknown team, so the team must exist.
   */
  function TryJoinTeamStep(m: LobbyModel, teamName: string, u: string): (LobbyModel, bool)
    requires u in m.members && teamName in m.teams
  {
    if !m.config.enableTeamSwitching then (m, false)
    else
      var current := m.members[u].team;
      if current !in m.teams then (m, false)
      else if |m.teams[teamName].members| >= m.teams[teamName].maxPlayers then (m, false)
      else
        var (joined, added) := AddMember(m.teams[teamName], u);
        if !added then (m, false)
        else (MoveMember(m, u, current, teamName, joined), true)
  }

  /** The member joins `teamName` (now `joined`) and leaves `current`. */
  function MoveMember(m: LobbyModel, u: string, current: string, teamName: string, joined: Team): LobbyModel
    requires u in m.members && current in m.teams
  {
    var teams1 := m.teams[teamName := joined];
    var teams2 := teams1[current := teams1[current].(members := teams1[current].members - {u})];
    m.(teams := teams2, members := m.members[u := m.members[u].(team := teamName)])
  }

  // ---------------------------------------------------------------------
  // Status text and state.
  // ---------------------------------------------------------------------

  /**
   * The `StatusText` setter as written: it compares with the stored text,
   * which it never updates (it stays ""), so every text other than the
   * stored one is broadcast, repeats included.
   */
  function SetStatus(m: LobbyModel, text: string): LobbyModel {
    if m.statusText == text then m else m.(statusBroadcasts := m.statusBroadcasts + [text])
  }

  /** The `StatusText` setter as intended: a text is stored, and broadcast only when it changes. */
  function SetStatusAsIntended(m: LobbyModel, text: string): LobbyModel {
    if m.statusText == text then m else m.(statusText := text, statusBroadcasts := m.statusBroadcasts + [text])
  }

  /** The status text `OnLobbyStateChange` sets for each state. */
  function StateText(s: LobbyState): string {
    match s
    case FailedToStart => "Failed to start server"
    case Preparations => "Failed to start server"
    case StartingGameServer => "Starting game server"
    case GameInProgress => "Game in progress"
    case GameOver => "Game is over"
  }

  function ClearReady(members: map<string, Member>): map<string, Member> {
    map u | u in members :: members[u].(isReady := false)
  }

  /** The `State` setter and `OnLobbyStateChange`. */
  function SetStateStep(m: LobbyModel, s: LobbyState): LobbyModel {
    if m.state == s then m
    else SetStatus(m.(state := s), StateText(s)).(members := ClearReady(m.members))
  }

  /** `SetGameSpawnTask`: binds the task, killing a different one bound before. */
  function SpawnTaskStep(m: LobbyModel, task: TaskId): LobbyModel {
    if m.spawnTask == Some(task) then m
    else KillSpawnTask(m).(spawnTask := Some(task))
  }

  /**
   * `StartGame`. `spawned` is the spawner plugin's answer: the new task, or
   * none when the servers are busy. The lobby is made private first, even
   * when no task comes back.
   */
  function StartGameStep(m: LobbyModel, spawned: Option<TaskId>): (LobbyModel, bool) {
    if m.isDestroyed then (m, false)
    else
      var m1 := m.(properties := m.properties[IsPublicKey := "false"]);
      if spawned.None? then (m1, false)
      else (SpawnTaskStep(SetStateStep(m1, StartingGameServer), spawned.value), true)
  }

  // ---------------------------------------------------------------------
  // Properties and readiness.
  // ---------------------------------------------------------------------

  function MemberByPeerId(m: LobbyModel, peerId: int): Option<string> {
    if peerId in m.membersByPeerId then Some(m.membersByPeerId[peerId]) else None
  }

  /** `SetProperty(setter, key, value)`: with game masters, only the master (or, with no master, a non-member) may. */
  function SetPropertyStep(m: LobbyModel, setterPeer: int, key: string, value: string): (LobbyModel, bool) {
    if !m.config.allowPlayersChangeLobbyProperties then (m, false)
    else if m.config.enableGameMasters && m.gameMaster != MemberByPeerId(m, setterPeer) then (m, false)
    else (m.(properties := m.properties[key := value]), true)
  }

  /** `SetPlayerProperty`: a missing key is refused; a member no longer in the lobby changes nothing here. */
  function SetPlayerPropertyStep(m: LobbyModel, u: string, key: Option<string>, value: string): (LobbyModel, bool) {
    if key.None? then (m, false)
    else if u !in m.members then (m, true)
    else
      var mem := m.members[u];
      (m.(members := m.members[u := mem.(properties := mem.properties[key.value := value])]), true)
  }

  /** Setting a player property leaves membership alone. */
  lemma PropertyKeepsMembership(m: LobbyModel, u: string, key: Option<string>, value: string)
    ensures SameMembership(m, SetPlayerPropertyStep(m, u, key, value).0)
  {
    if key.Some? && u in m.members {
      var m' := SetPlayerPropertyStep(m, u, key, value).0;
      assert m'.members.Keys == m.members.Keys;
    }
  }

  predicate AllReady(members: map<string, Member>) {
    forall u :: u in members ==> members[u].isReady
  }

  /** `OnAllPlayersReady`. */
  function AllReadyStep(m: LobbyModel, spawned: Option<TaskId>): LobbyModel {
    if !m.config.startGameWhenAllReady then m
    else if FirstLacking(m.teams, m.teamOrder).Some? then m
    else StartGameStep(m, spawned).0
  }

  /** `SetReadyState`. */
  function SetReadyStep(m: LobbyModel, u: string, ready: bool, spawned: Option<TaskId>): LobbyModel {
    if u !in m.members then m
    else
      var m1 := m.(members := m.members[u := m.members[u].(isReady := ready)]);
      if AllReady(m1.members) then AllReadyStep(m1, spawned) else m1
  }

  // ---------------------------------------------------------------------
  // Manual start, the spawn task and the room.
  // ---------------------------------------------------------------------

  datatype ManualStart = Refused(message: string) | Attempted(started: bool)

  /** Some member other than the master is not ready. */
  predicate SomeoneNotReady(m: LobbyModel) {
    exists u :: u in m.members && !m.members[u].isReady && Some(u) != m.gameMaster
  }

  /** The refusal naming the first team below its minimum. */
  function TeamShortMessage(team: string): string {
    "Team " + team + " does not have enough players"
  }

  /** `StartGameManually` by the player on connection `peerId`. */
  function StartManuallyStep(m: LobbyModel, peerId: int, spawned: Option<TaskId>): (LobbyModel, ManualStart) {
    var member := MemberByPeerId(m, peerId);
    if !m.config.enableManualStart then (m, Refused("You cannot start the game manually"))
    else if m.gameMaster != member then (m, Refused("You're not the master of this game"))
    else if m.state != Preparations then (m, Refused("Invalid lobby state"))
    else if m.isDestroyed then (m, Refused("Lobby is destroyed"))
    else if SomeoneNotReady(m) then (m, Refused("Not all players are ready"))
    else if |m.members| < MinPlayers(m) then
      (m, Refused("Not enough players. Need " + IntToString(MinPlayers(m) - |m.members|) + " more "))
    else
      var lacking := FirstLacking(m.teams, m.teamOrder);
      if lacking.Some? then (m, Refused(TeamShortMessage(lacking.value)))
      else
        var (m1, ok) := StartGameStep(m, spawned);
        (m1, Attempted(ok))
  }

  /**
   * `OnGameServerFinalized`: records the room and its address when the room
   * is found; every other finding, the throwing parse included, leaves the
   * lobby as it was.
   */
  function FinalizeStep(m: LobbyModel, fin: Finalization): LobbyModel {
    match fin
    case FoundRoom(id, ip, port) => m.(room := Some(id), gameIp := ip, gamePort := port)
    case _ => m
  }

  /** `OnSpawnServerStatusChanged`. */
  function StatusChangedStep(m: LobbyModel, status: SpawnStatus, fin: Finalization): LobbyModel {
    if IsStarting(status) && m.state != StartingGameServer then SetStateStep(m, StartingGameServer)
    else if status == Finalized then FinalizeStep(SetStateStep(m, GameInProgress), fin)
    else if IsFailure(status) then
      if m.state == StartingGameServer then SetStateStep(m, if m.config.playAgainEnabled then Preparations else FailedToStart)
      else SetStateStep(m, if m.config.playAgainEnabled then Preparations else GameOver)
    else m
  }

  /** `OnRoomDestroyed`. */
  function RoomDestroyedStep(m: LobbyModel): LobbyModel {
    var m1 := m.(gameIp := "", gamePort := -1, room := None, spawnTask := None);
    SetStateStep(m1, if m.config.playAgainEnabled then Preparations else GameOver)
  }

  // ---------------------------------------------------------------------
  // The auto-start countdown.
  // ---------------------------------------------------------------------

  /** The full-teams clamp as written: `timeToWait > 5 ? timeToWait : 5`, a maximum. */
  function FullTeamsClampAsWritten(t: int): int {
    if t > WaitSecondsAfterFullTeams then t else WaitSecondsAfterFullTeams
  }

  /** The full-teams clamp as its comment intends: lower the timer to 5 only when it is above 5. */
  function FullTeamsClamp(t: int): int {
    if t < WaitSecondsAfterFullTeams then t else WaitSecondsAfterFullTeams
  }

  datatype Tick = Halted | Waiting(timeToWait: int) | Launching(timeToWait: int)

  /**
   * One pass of the loop in `StartAutomation` with the timer at `t`:
   * `initial` is the state when the loop began. The loop ends when neither
   * that state nor `Preparations` holds, or when the lobby is destroyed;
   * otherwise the timer resets, counts down, or starts the game.
   */
  function CountdownStep(m: LobbyModel, initial: LobbyState, t: int, spawned: Option<TaskId>): (LobbyModel, Tick) {
    if !(m.state == Preparations || m.state == initial) then (m, Halted)
    else if m.isDestroyed then (m, Halted)
    else if MinPlayers(m) > |m.members| then
      (SetStatus(m, "Waiting for players: " + IntToString(MinPlayers(m) - |m.members|) + " more"),
       Waiting(WaitSecondsAfterMinPlayersReached))
    else
      var lacking := FirstLacking(m.teams, m.teamOrder);
      if lacking.Some? then
        (SetStatus(m, "Not enough players in team '" + lacking.value + "'"), Waiting(WaitSecondsAfterMinPlayersReached))
      else TimerStep(m, t, spawned)
  }

  /**
   * The countdown proper, once the minimums are met: the timer drops by one
   * and, when every team is full, is raised to at least 5 (the clamp as
   * written).
   */
  function TimerStep(m: LobbyModel, t: int, spawned: Option<TaskId>): (LobbyModel, Tick) {
    var t1 := t - 1;
    var t2 := if AllTeamsFull(m.teams, m.teamOrder) then FullTeamsClampAsWritten(t1) else t1;
    var m1 := SetStatus(m, "Starting game in " + IntToString(t2));
    if t2 <= 0 then (StartGameStep(m1, spawned).0, Launching(t2)) else (m1, Waiting(t2))
  }

  // ---------------------------------------------------------------------
  // The lobby object.
  // ---------------------------------------------------------------------

  /**
   * `Lobby`: its fields are those of `LobbyModel`, the switches and the
   * team order fixed at construction. Each operation is proved to leave
   * the object in the state its step function gives, and the public ones
   * to keep `Valid`.
   */
  class Lobby {
    const config: Config
    const teamOrder: seq<string>
    var state: LobbyState
    var gameMaster: Option<string>
    var statusText: string
    var isDestroyed: bool
    var members: map<string, Member>
    var membersByPeerId: map<int, string>
    var memberOrder: seq<string>
    var teams: map<string, Team>
    var properties: map<string, string>
    var subscribers: set<int>
    var gameIp: string
    var gamePort: int
    var room: Option<int>
    var spawnTask: Option<TaskId>
    var killedTasks: seq<TaskId>
    var statusBroadcasts: seq<string>

    function Model(): LobbyModel
      reads this
    {
      LobbyModel(config, teamOrder, state, gameMaster, statusText, isDestroyed, members, membersByPeerId,
                 memberOrder, teams, properties, subscribers, gameIp, gamePort, room, spawnTask, killedTasks,
                 statusBroadcasts)
    }

    ghost predicate Valid()
      reads this
    {
      LobbyInvariant(Model())
    }

    /** A lobby over new, empty teams with distinct names (`ToDictionary` refuses a repeated name). */
    constructor (config: Config, teamOrder: seq<string>, teams: map<string, Team>)
      requires Distinct(teamOrder) && (forall n :: n in teamOrder <==> n in teams)
      requires forall n :: n in teams ==> teams[n].members == {}
      ensures Model() == NewLobby(config, teamOrder, teams)
      ensures Valid()
    {
      this.config := config;
      this.teamOrder := teamOrder;
      state := Preparations;
      gameMaster := None;
      statusText := "";
      isDestroyed := false;
      members := map[];
      membersByPeerId := map[];
      memberOrder := [];
      this.teams := teams;
      properties := map[];
      subscribers := {};
      gameIp := "";
      gamePort := -1;
      room := None;
      spawnTask := None;
      killedTasks := [];
      statusBroadcasts := [];
      NewLobbyValid(config, teamOrder, teams);
    }

    /** The `StatusText` setter as written: the text is broadcast but not stored (see `SetStatus`). */
    method SetStatusText(text: string)
      modifies this
      ensures Model() == SetStatus(old(Model()), text)
    {
      if statusText == text {
        return;
      }
      statusBroadcasts := statusBroadcasts + [text];
    }

    /** The loop of `OnLobbyStateChange` that clears every member's ready flag. */
    method ClearReadyFlags()
      modifies this
      ensures Model() == old(Model()).(members := ClearReady(old(members)))
    {
      var todo := members.Keys;
      while todo != {}
        invariant todo <= members.Keys == old(members).Keys
        invariant forall u :: u in members ==>
          members[u] == if u in todo then old(members)[u] else old(members)[u].(isReady := false)
        invariant Model() == old(Model()).(members := members)
        decreases todo
      {
        var u :| u in todo;
        members := members[u := members[u].(isReady := false)];
        todo := todo - {u};
      }
      assert members == ClearReady(old(members));
    }

    /** The `State` setter and `OnLobbyStateChange`. */
    method SetState(s: LobbyState)
      modifies this
      ensures Model() == SetStateStep(old(Model()), s)
    {
      if state == s {
        return;
      }
      state := s;
      SetStatusText(StateText(s));
      ClearReadyFlags();
    }

    /** `PickNewGameMaster`. */
    method ElectGameMaster()
      modifies this
      ensures Model() == PickNewGameMaster(old(Model()))
    {
      if !config.enableGameMasters {
        return;
      }
      gameMaster := if |memberOrder| > 0 then Some(memberOrder[0]) else None;
    }

    /**
     * The member called `u` leaves both maps, the order, its team and the
     * subscribers. A separate step, so that `RemovePlayer`'s proof does not
     * unfold `Valid()` here.
     */
    method UnlinkMember(u: string)
      requires u in members
      modifies this
      ensures Model() == Unlink(old(Model()), u)
    {
      var next := Unlink(Model(), u);
      members, membersByPeerId, memberOrder, teams, subscribers :=
        next.members, next.membersByPeerId, next.memberOrder, next.teams, next.subscribers;
    }

    /** What `RemovePlayer` does to the member called `u`, without its destroy-when-empty tail. */
    method DetachMember(u: string)
      modifies this
      ensures Model() == Detach(old(Model()), u)
    {
      if u !in members {
        return;
      }
      var wasMaster := gameMaster == Some(u);
      UnlinkMember(u);
      if wasMaster {
        ElectGameMaster();
      }
    }

    /** The new member joins its team (now `team`), both maps and the end of the order. */
    method EnrolMember(u: string, peerId: int, teamName: string, team: Team)
      modifies this
      ensures Model() == Enrol(old(Model()), u, peerId, teamName, team)
    {
      teams := teams[teamName := team];
      members := members[u := Member(u, peerId, teamName, false, map[])];
      membersByPeerId := membersByPeerId[peerId := u];
      memberOrder := memberOrder + [u];
    }

    /** The tail of a successful `AddPlayer`. */
    method AdmitMember(u: string, peerId: int, teamName: string, team: Team)
      modifies this
      ensures Model() == Admit(old(Model()), u, peerId, teamName, team)
    {
      EnrolMember(u, peerId, teamName, team);
      if gameMaster.None? {
        ElectGameMaster();
      }
      subscribers := subscribers + {peerId};
    }

    /** `AddPlayer`: the checks in order, then the new member joins its team, the maps and the subscribers. */
    method AddPlayer(req: JoinRequest) returns (r: JoinOutcome)
      requires Valid()
      requires req.peerId in membersByPeerId ==> req.inLobby
      modifies this
      ensures (Model(), r) == AddPlayerStep(old(Model()), req)
      ensures Valid()
    {
      ghost var m0 := Model();
      if req.inLobby {
        r := Rejected("You're already in a lobby");
      } else if req.username.None? {
        r := Rejected("Invalid username");
      } else if req.username.value in members {
        r := Rejected("Already in the lobby");
      } else if isDestroyed {
        r := Rejected("Lobby is destroyed");
      } else if !req.allowed {
        r := Rejected("You're not allowed");
      } else if |members| >= SumMax(teams, teamOrder) {
        r := Rejected("Lobby is full");
      } else if !config.allowJoiningWhenGameIsLive && state != Preparations {
        r := Rejected("Game is already in progress");
      } else {
        var u := req.username.value;
        var pick := PickTeam(teams, teamOrder);
        if pick.None? {
          r := Rejected("Invalid lobby team");
        } else {
          var (team, added) := AddMember(teams[pick.value], u);
          if !added {
            r := Rejected("Not allowed to join a team");
          } else {
            AdmitMember(u, req.peerId, pick.value, team);
            r := Joined;
          }
        }
      }
      assert (Model(), r) == AddPlayerStep(m0, req);
      AddPlayerKeepsInvariant(m0, req);
    }

    /** `RemovePlayer` of the member called `u`. */
    method RemovePlayer(u: string)
      requires Valid()
      modifies this
      ensures Model() == RemovePlayerStep(old(Model()), u)
      ensures Valid()
    {
      ghost var m0 := Model();
      if u !in members {
        return;
      }
      DetachMember(u);
      if !config.keepAliveWithZeroPlayers && |members| == 0 {
        TearDown();
      }
      RemovePlayerKeepsInvariant(m0, u);
    }

    /** `Destroy`: removes every member listed when it starts, then kills the spawn task. */
    method Destroy()
      requires Valid()
      modifies this
      ensures Model() == DestroyStep(old(Model()))
      ensures Valid()
    {
      DestroyOutcome(Model());
      TearDown();
    }

    /** The steps of `Destroy`, apart from the invariant it keeps. */
    method TearDown()
      modifies this
      ensures Model() == DestroyStep(old(Model()))
    {
      if isDestroyed {
        return;
      }
      isDestroyed := true;
      ghost var start := Model();
      var list := memberOrder;
      var i := 0;
      while i < |list|
        invariant 0 <= i <= |list|
        invariant Model() == DetachAll(start, list[..i])
      {
        DetachMember(list[i]);
        assert list[..i + 1][..i] == list[..i];
        i := i + 1;
      }
      assert list[..|list|] == list;
      if spawnTask.Some? {
        killedTasks := killedTasks + [spawnTask.value];
      }
    }

    /** `SetGameSpawnTask`. */
    method SetGameSpawnTask(task: TaskId)
      requires Valid()
      modifies this
      ensures Model() == SpawnTaskStep(old(Model()), task)
      ensures Valid()
    {
      SpawnTaskFacts(Model(), task);
      SameMembershipKeepsInvariant(Model(), SpawnTaskStep(Model(), task));
      BindSpawnTask(task);
    }

    /** The steps of `SetGameSpawnTask`, apart from the invariant it keeps. */
    method BindSpawnTask(task: TaskId)
      modifies this
      ensures Model() == SpawnTaskStep(old(Model()), task)
    {
      if spawnTask == Some(task) {
        return;
      }
      if spawnTask.Some? {
        killedTasks := killedTasks + [spawnTask.value];
      }
      spawnTask := Some(task);
    }

    /** `StartGame`, with the spawner's answer `spawned`. */
    method StartGame(spawned: Option<TaskId>) returns (ok: bool)
      requires Valid()
      modifies this
      ensures (Model(), ok) == StartGameStep(old(Model()), spawned)
      ensures Valid()
    {
      ghost var m0 := Model();
      ok := Launch(spawned);
      StartGameOutcome(m0, spawned);
      SameMembershipKeepsInvariant(m0, Model());
    }

    /** The body of `StartGame`. */
    method Launch(spawned: Option<TaskId>) returns (ok: bool)
      modifies this
      ensures (Model(), ok) == StartGameStep(old(Model()), spawned)
    {
      if isDestroyed {
        return false;
      }
      properties := properties[IsPublicKey := "false"];
      if spawned.None? {
        return false;
      }
      SetState(StartingGameServer);
      BindSpawnTask(spawned.value);
      ok := true;
    }

    /** `SetProperty(setter, key, value)` by the player on connection `setterPeer`. */
    method SetProperty(setterPeer: int, key: string, value: string) returns (ok: bool)
      requires Valid()
      modifies this
      ensures (Model(), ok) == SetPropertyStep(old(Model()), setterPeer, key, value)
      ensures Valid()
    {
      if !config.allowPlayersChangeLobbyProperties {
        return false;
      }
      if config.enableGameMasters {
        var member := if setterPeer in membersByPeerId then Some(membersByPeerId[setterPeer]) else None;
        if gameMaster != member {
          return false;
        }
      }
      ok := PutProperty(key, value);
    }

    /** `SetProperty(key, value)`: always succeeds. */
    method PutProperty(key: string, value: string) returns (ok: bool)
      requires Valid()
      modifies this
      ensures Model() == old(Model()).(properties := old(properties)[key := value])
      ensures ok
      ensures Valid()
    {
      properties := properties[key := value];
      ok := true;
    }

    /** `SetPlayerProperty` for the member called `u`. */
    method SetPlayerProperty(u: string, key: Option<string>, value: string) returns (ok: bool)
      requires Valid()
      modifies this
      ensures (Model(), ok) == SetPlayerPropertyStep(old(Model()), u, key, value)
      ensures Valid()
    {
      ghost var m0 := Model();
      ok := StoreProperty(u, key, value);
      PropertyKeepsMembership(m0, u, key, value);
      SameMembershipKeepsInvariant(m0, Model());
    }

    /** The body of `SetPlayerProperty`. */
    method StoreProperty(u: string, key: Option<string>, value: string) returns (ok: bool)
      modifies this
      ensures (Model(), ok) == SetPlayerPropertyStep(old(Model()), u, key, value)
    {
      if key.None? {
        return false;
      }
      if u in members {
        var mem := members[u];
        members := members[u := mem.(properties := mem.properties[key.value := value])];
      }
      ok := true;
    }

    /** `SetLobbyProperties`: each given pair overwrites or adds one property. */
    method SetLobbyProperties(given: map<string, string>)
      requires Valid()
      modifies this
      ensures Model() == old(Model()).(properties := old(properties) + given)
      ensures Valid()
    {
      ghost var m0 := Model();
      MergeProperties(given);
      SameMembershipKeepsInvariant(m0, Model());
    }

    /** The loop of `SetLobbyProperties`: one entry of `given` at a time. */
    method MergeProperties(given: map<string, string>)
      modifies this
      ensures Model() == old(Model()).(properties := old(properties) + given)
    {
      var todo := given.Keys;
      while todo != {}
        invariant todo <= given.Keys
        invariant properties == old(properties) + (given - todo)
        invariant Model() == old(Model()).(properties := properties)
        decreases todo
      {
        var k :| k in todo;
        assert given - (todo - {k}) == (given - todo)[k := given[k]];
        properties := properties[k := given[k]];
        todo := todo - {k};
      }
      assert given - todo == given;
    }

    /** `OnAllPlayersReady`. */
    method StartWhenAllReady(spawned: Option<TaskId>)
      modifies this
      ensures Model() == AllReadyStep(old(Model()), spawned)
    {
      if !config.startGameWhenAllReady {
        return;
      }
      if FirstLacking(teams, teamOrder).Some? {
        return;
      }
      var _ := Launch(spawned);
    }

    /** `SetReadyState` for the member called `u`. */
    method SetReadyState(u: string, ready: bool, spawned: Option<TaskId>)
      requires Valid()
      modifies this
      ensures Model() == SetReadyStep(old(Model()), u, ready, spawned)
      ensures Valid()
    {
      ghost var m0 := Model();
      ApplyReady(u, ready, spawned);
      SetReadyKeepsMembership(m0, u, ready, spawned);
      SameMembershipKeepsInvariant(m0, Model());
    }

    /** The body of `SetReadyState`. */
    method ApplyReady(u: string, ready: bool, spawned: Option<TaskId>)
      modifies this
      ensures Model() == SetReadyStep(old(Model()), u, ready, spawned)
    {
      if u in members {
        members := members[u := members[u].(isReady := ready)];
        if forall v :: v in members ==> members[v].isReady {
          StartWhenAllReady(spawned);
        }
      }
    }

    /** `TryJoinTeam` for the member called `u`. */
    method TryJoinTeam(teamName: string, u: string) returns (ok: bool)
      requires Valid()
      requires u in members && teamName in teams
      modifies this
      ensures (Model(), ok) == TryJoinTeamStep(old(Model()), teamName, u)
      ensures Valid()
    {
      ghost var m0 := Model();
      ok := SwitchTeam(teamName, u);
      TryJoinTeamKeepsInvariant(m0, teamName, u);
    }

    /** The body of `TryJoinTeam`. */
    method SwitchTeam(teamName: string, u: string) returns (ok: bool)
      requires u in members && teamName in teams
      modifies this
      ensures (Model(), ok) == TryJoinTeamStep(old(Model()), teamName, u)
    {
      if !config.enableTeamSwitching {
        return false;
      }
      var current := members[u].team;
      if current !in teams {
        return false;
      }
      if |teams[teamName].members| >= teams[teamName].maxPlayers {
        return false;
      }
      var (joined, added) := AddMember(teams[teamName], u);
      if !added {
        return false;
      }
      teams := teams[teamName := joined];
      teams := teams[current := teams[current].(members := teams[current].members - {u})];
      members := members[u := members[u].(team := teamName)];
      ok := true;
    }

    /** `StartGameManually` by the player on connection `peerId`. */
    method StartGameManually(peerId: int, spawned: Option<TaskId>) returns (r: ManualStart)
      requires Valid()
      modifies this
      ensures (Model(), r) == StartManuallyStep(old(Model()), peerId, spawned)
      ensures Valid()
    {
      ghost var m0 := Model();
      r := CheckAndStart(peerId, spawned);
      StartManuallyOutcome(m0, peerId, spawned);
      SameMembershipKeepsInvariant(m0, Model());
    }

    /** The checks of `StartGameManually` in order, then the start. */
    method CheckAndStart(peerId: int, spawned: Option<TaskId>) returns (r: ManualStart)
      modifies this
      ensures (Model(), r) == StartManuallyStep(old(Model()), peerId, spawned)
    {
      ghost var m0 := Model();
      var member := if peerId in membersByPeerId then Some(membersByPeerId[peerId]) else None;
      var minPlayers := SumMin(teams, teamOrder);
      if !config.enableManualStart {
        r := Refused("You cannot start the game manually");
      } else if gameMaster != member {
        r := Refused("You're not the master of this game");
      } else if state != Preparations {
        r := Refused("Invalid lobby state");
      } else if isDestroyed {
        r := Refused("Lobby is destroyed");
      } else if exists v :: v in members && !members[v].isReady && Some(v) != gameMaster {
        r := Refused("Not all players are ready");
      } else if |members| < minPlayers {
        r := Refused("Not enough players. Need " + IntToString(minPlayers - |members|) + " more ");
      } else {
        var lacking := FirstLacking(teams, teamOrder);
        if lacking.Some? {
          r := Refused(TeamShortMessage(lacking.value));
        } else {
          var ok := Launch(spawned);
          r := Attempted(ok);
        }
      }
      assert (Model(), r) == StartManuallyStep(m0, peerId, spawned);
    }

    /** `OnSpawnServerStatusChanged`, with what `OnGameServerFinalized` finds as `fin`. */
    method OnSpawnServerStatusChanged(status: SpawnStatus, fin: Finalization)
      requires Valid()
      modifies this
      ensures Model() == StatusChangedStep(old(Model()), status, fin)
      ensures Valid()
    {
      ghost var m0 := Model();
      ApplyStatus(status, fin);
      StatusProjection(m0, status, fin);
      SameMembershipKeepsInvariant(m0, Model());
    }

    /** The body of `OnSpawnServerStatusChanged`. */
    method ApplyStatus(status: SpawnStatus, fin: Finalization)
      modifies this
      ensures Model() == StatusChangedStep(old(Model()), status, fin)
    {
      ghost var m0 := Model();
      var isStarting := Rank(Unset) < Rank(status) < Rank(Finalized);
      if isStarting && state != StartingGameServer {
        SetState(StartingGameServer);
      } else {
        if status == Finalized {
          SetState(GameInProgress);
          OnGameServerFinalized(fin);
          assert Model() == StatusChangedStep(m0, status, fin);
        }
        if Rank(status) < Rank(Unset) {
          var next := if state == StartingGameServer then
            (if config.playAgainEnabled then Preparations else FailedToStart)
          else
            (if config.playAgainEnabled then Preparations else GameOver);
          SetState(next);
        }
      }
    }

    /** `OnGameServerFinalized`. */
    method OnGameServerFinalized(fin: Finalization)
      modifies this
      ensures Model() == FinalizeStep(old(Model()), fin)
    {
      if fin.FoundRoom? {
        room := Some(fin.roomId);
        gameIp := fin.roomIp;
        gamePort := fin.roomPort;
      }
    }

    /** `OnRoomDestroyed`. */
    method OnRoomDestroyed()
      requires Valid()
      modifies this
      ensures Model() == RoomDestroyedStep(old(Model()))
      ensures Valid()
    {
      ghost var m0 := Model();
      gameIp := "";
      gamePort := -1;
      room := None;
      spawnTask := None;
      assert Model() == m0.(gameIp := "", gamePort := -1, room := None, spawnTask := None);
      SetState(if config.playAgainEnabled then Preparations else GameOver);
      RoomDestroyedReverts(m0);
      SameMembershipKeepsInvariant(m0, Model());
    }

    /** `Subscribe`: the peer receives the lobby's broadcasts from now on; nothing else changes. */
    method Subscribe(peerId: int)
      requires Valid()
      modifies this
      ensures Model() == old(Model()).(subscribers := old(subscribers) + {peerId})
      ensures Valid()
    {
      subscribers := subscribers + {peerId};
    }

    /** `Unsubscribe`: the peer no longer receives broadcasts; nothing else changes. */
    method Unsubscribe(peerId: int)
      requires Valid()
      modifies this
      ensures Model() == old(Model()).(subscribers := old(subscribers) - {peerId})
      ensures Valid()
    {
      subscribers := subscribers - {peerId};
    }

    /**
     * One pass of the loop in `StartAutomation` with the timer at `t`, the
     * full-teams clamp as written; `initial` is the state the loop began in.
     */
    method AutomationTick(initial: LobbyState, t: int, spawned: Option<TaskId>) returns (tick: Tick)
      requires Valid()
      modifies this
      ensures (Model(), tick) == CountdownStep(old(Model()), initial, t, spawned)
      ensures Valid()
    {
      ghost var m0 := Model();
      tick := RunTick(initial, t, spawned);
      CountdownKeepsMembership(m0, initial, t, spawned);
      SameMembershipKeepsInvariant(m0, Model());
    }

    /** The body of `AutomationTick`: halt, wait for players, or count down. */
    method RunTick(initial: LobbyState, t: int, spawned: Option<TaskId>) returns (tick: Tick)
      modifies this
      ensures (Model(), tick) == CountdownStep(old(Model()), initial, t, spawned)
    {
      ghost var m0 := Model();
      var minPlayers := SumMin(teams, teamOrder);
      var lacking := FirstLacking(teams, teamOrder);
      if !(state == Preparations || state == initial) || isDestroyed {
        tick := Halted;
      } else if minPlayers > |members| {
        SetStatusText("Waiting for players: " + IntToString(minPlayers - |members|) + " more");
        tick := Waiting(WaitSecondsAfterMinPlayersReached);
      } else if lacking.Some? {
        SetStatusText("Not enough players in team '" + lacking.value + "'");
        tick := Waiting(WaitSecondsAfterMinPlayersReached);
      } else {
        tick := CountDown(t, spawned);
      }
      assert (Model(), tick) == CountdownStep(m0, initial, t, spawned);
    }

    /** The countdown proper of `StartAutomation`'s loop body, with the full-teams clamp as written. */
    method CountDown(t: int, spawned: Option<TaskId>) returns (tick: Tick)
      modifies this
      ensures (Model(), tick) == TimerStep(old(Model()), t, spawned)
    {
      var timeToWait := t - 1;
      if AllTeamsFull(teams, teamOrder) {
        timeToWait := if timeToWait > WaitSecondsAfterFullTeams then timeToWait else WaitSecondsAfterFullTeams;
      }
      SetStatusText("Starting game in " + IntToString(timeToWait));
      if timeToWait <= 0 {
        var _ := Launch(spawned);
        tick := Launching(timeToWait);
      } else {
        tick := Waiting(timeToWait);
      }
    }
  }

  // ---------------------------------------------------------------------
  // Membership lemmas.
  // ---------------------------------------------------------------------

  /** The members whose team is one of `ns`. */
  ghost function MembersIn(m: LobbyModel, ns: seq<string>): set<string> {
    set u | u in m.members && m.members[u].team in ns
  }

  lemma {:induction false} CountsOfTeams(m: LobbyModel, ns: seq<string>)
    requires TeamsPartition(m)
    requires Distinct(ns) && forall n :: n in ns ==> n in m.teams
    ensures SumCounts(m.teams, ns) == |MembersIn(m, ns)|
  {
    if ns == [] {
      assert MembersIn(m, ns) == {};
    } else {
      assert Distinct(ns[1..]) && ns[0] !in ns[1..];
      CountsOfTeams(m, ns[1..]);
      SplitByFirstTeam(m, ns);
    }
  }

  /** The members of the first team and those of the rest make up the members of all, without overlap. */
  lemma SplitByFirstTeam(m: LobbyModel, ns: seq<string>)
    requires TeamsPartition(m)
    requires ns != [] && ns[0] in m.teams && ns[0] !in ns[1..]
    ensures MembersIn(m, ns) == m.teams[ns[0]].members + MembersIn(m, ns[1..])
    ensures m.teams[ns[0]].members !! MembersIn(m, ns[1..])
  {
    var a := m.teams[ns[0]].members;
    var b := MembersIn(m, ns[1..]);
    var c := MembersIn(m, ns);
    forall u | u in c ensures u in a + b {
      if m.members[u].team != ns[0] {
        assert m.members[u].team in ns[1..];
      }
    }
    forall u | u in a ensures u in c && u !in b {
      assert m.members[u].team == ns[0];
    }
  }

  /** Every member is in exactly one team, so the team sizes add up to the member count. */
  lemma TeamSizesSum(m: LobbyModel)
    requires Consistent(m)
    ensures SumCounts(m.teams, m.teamOrder) == |m.members|
  {
    CountsOfTeams(m, m.teamOrder);
    assert MembersIn(m, m.teamOrder) == m.members.Keys;
  }

  lemma {:induction false} SomeTeamHasRoom(teams: map<string, Team>, ns: seq<string>)
    requires SumCounts(teams, ns) < SumMax(teams, ns)
    ensures exists i :: 0 <= i < |ns| && Eligible(teams, ns[i])
  {
    if ns[0] in teams && CanAddPlayer(teams[ns[0]]) {
      assert Eligible(teams, ns[0]);
    } else {
      SomeTeamHasRoom(teams, ns[1..]);
      var i :| 0 <= i < |ns[1..]| && Eligible(teams, ns[1..][i]);
      assert ns[i + 1] == ns[1..][i];
    }
  }

  /** Below `MaxPlayers` some team can take a player, so "Invalid lobby team" is never the answer. */
  lemma TeamAvailableBelowMax(m: LobbyModel)
    requires Consistent(m) && |m.members| < MaxPlayers(m)
    ensures PickTeam(m.teams, m.teamOrder).Some?
  {
    TeamSizesSum(m);
    SomeTeamHasRoom(m.teams, m.teamOrder);
  }

  lemma UnlinkIndexed(m: LobbyModel, u: string)
    requires MembersIndexed(m) && u in m.members
    ensures MembersIndexed(Unlink(m, u))
  {
    var d := Unlink(m, u);
    var peer := m.members[u].peerId;
    assert d.members == m.members - {u} && d.membersByPeerId == m.membersByPeerId - {peer};
    WithoutFacts(m.memberOrder, u);
    forall p | p in d.membersByPeerId
      ensures d.membersByPeerId[p] in d.members && d.members[d.membersByPeerId[p]].peerId == p
    {
      assert m.membersByPeerId[p] != u;
    }
  }

  lemma UnlinkPartition(m: LobbyModel, u: string)
    requires TeamsPartition(m) && u in m.members
    ensures TeamsPartition(Unlink(m, u))
  {
    var d := Unlink(m, u);
    assert d.members == m.members - {u} && d.teamOrder == m.teamOrder;
    assert d.teams.Keys == m.teams.Keys;
  }

  lemma PickMasterConsistent(e: LobbyModel)
    requires MembersIndexed(e) && TeamsPartition(e) && e.config.enableGameMasters
    ensures MembersIndexed(PickNewGameMaster(e)) && TeamsPartition(PickNewGameMaster(e)) && MasterElected(PickNewGameMaster(e))
  {
    if e.config.enableGameMasters && |e.memberOrder| > 0 {
      assert e.memberOrder[0] in e.members;
    }
  }

  lemma UnlinkKeepsMaster(m: LobbyModel, u: string)
    requires MembersIndexed(m) && MasterElected(m) && u in m.members && m.gameMaster != Some(u)
    ensures MasterElected(Unlink(m, u))
  {
    var e := Unlink(m, u);
    assert e.gameMaster == m.gameMaster && e.config == m.config && e.members == m.members - {u};
  }

  lemma DetachConsistent(m: LobbyModel, u: string)
    requires Consistent(m)
    ensures Consistent(Detach(m, u))
    ensures forall v :: v in Detach(m, u).members <==> v in m.members && v != u
    ensures Detach(m, u).isDestroyed == m.isDestroyed && Detach(m, u).spawnTask == m.spawnTask
    ensures Detach(m, u).killedTasks == m.killedTasks && Detach(m, u).state == m.state
  {
    if u in m.members {
      UnlinkIndexed(m, u);
      UnlinkPartition(m, u);
      if m.gameMaster == Some(u) {
        assert Unlink(m, u).config == m.config;
        PickMasterConsistent(Unlink(m, u));
      } else {
        UnlinkKeepsMaster(m, u);
      }
    }
  }

  lemma {:induction false} DetachAllConsistent(m: LobbyModel, us: seq<string>)
    requires Consistent(m)
    ensures Consistent(DetachAll(m, us))
    ensures forall v :: v in DetachAll(m, us).members <==> v in m.members && v !in us
    ensures DetachAll(m, us).isDestroyed == m.isDestroyed && DetachAll(m, us).spawnTask == m.spawnTask
    ensures DetachAll(m, us).killedTasks == m.killedTasks && DetachAll(m, us).state == m.state
  {
    if us != [] {
      var front := us[..|us| - 1];
      DetachAllConsistent(m, front);
      DetachConsistent(DetachAll(m, front), us[|us| - 1]);
      assert forall v :: v in us <==> v in front || v == us[|us| - 1];
    }
  }

  /** A consistent lobby without members has no connection ids, no order, empty teams and no master. */
  lemma NoMembersLeft(x: LobbyModel)
    requires Consistent(x) && forall v :: v !in x.members
    ensures x.members == map[] && x.membersByPeerId == map[] && x.memberOrder == [] && x.gameMaster.None?
    ensures forall n :: n in x.teams ==> x.teams[n].members == {}
  {
    assert MembersIndexed(x) && TeamsPartition(x) && MasterElected(x);
    assert x.members.Keys == {};
    assert forall p :: p !in x.membersByPeerId;
    assert x.membersByPeerId.Keys == {};
    FirstListed(x.memberOrder);
  }

  /** A non-empty order lists its first member (stated apart, so no index is checked where the order is known empty). */
  lemma FirstListed(s: seq<string>)
    ensures s != [] ==> s[0] in s
  {
  }

  /**
   * `Destroy` leaves the lobby destroyed with no members, no game master,
   * empty teams, and the spawn task killed; destroying again changes nothing.
   */
  lemma DestroyOutcome(m: LobbyModel)
    requires LobbyInvariant(m)
    ensures var d := DestroyStep(m);
      && d.isDestroyed && d.members == map[] && d.membersByPeerId == map[] && d.memberOrder == []
      && d.gameMaster.None?
      && (forall n :: n in d.teams ==> d.teams[n].members == {})
      && d.state == m.state
      && (!m.isDestroyed ==> d.killedTasks == m.killedTasks + (if m.spawnTask.Some? then [m.spawnTask.value] else []))
      && DestroyStep(d) == d
      && LobbyInvariant(d)
  {
    if !m.isDestroyed {
      DestroyDetachesAll(m);
      NoMembersLeft(DestroyStep(m));
    } else {
      NoMembersLeft(m);
    }
  }

  /** Destroying a live lobby detaches every member, keeps the state and kills the bound task. */
  lemma DestroyDetachesAll(m: LobbyModel)
    requires Consistent(m) && !m.isDestroyed
    ensures var d := DestroyStep(m);
      && d.isDestroyed && Consistent(d) && (forall v :: v !in d.members) && d.state == m.state
      && d.killedTasks == m.killedTasks + (if m.spawnTask.Some? then [m.spawnTask.value] else [])
  {
    var m0 := m.(isDestroyed := true);
    ConsistentByFields(m, m0);
    DetachAllConsistent(m0, m.memberOrder);
    var e := DetachAll(m0, m.memberOrder);
    assert forall v :: v !in e.members by {
      assert forall v :: v in m.members ==> v in m.memberOrder;
    }
    var d := DestroyStep(m);
    assert d == KillSpawnTask(e);
    ConsistentByFields(e, d);
  }

  /** `Consistent` looks only at the members, their indexes, the teams, the master and the configuration. */
  lemma ConsistentByFields(x: LobbyModel, y: LobbyModel)
    requires Consistent(x)
    requires y.members == x.members && y.membersByPeerId == x.membersByPeerId && y.memberOrder == x.memberOrder
    requires y.teams == x.teams && y.teamOrder == x.teamOrder && y.gameMaster == x.gameMaster && y.config == x.config
    ensures Consistent(y)
  {
  }

  lemma EnrolIndexed(m: LobbyModel, u: string, peerId: int, teamName: string, team: Team)
    requires MembersIndexed(m) && u !in m.members && peerId !in m.membersByPeerId
    ensures MembersIndexed(Enrol(m, u, peerId, teamName, team))
  {
    var e := Enrol(m, u, peerId, teamName, team);
    forall v | v in e.members
      ensures e.members[v].peerId in e.membersByPeerId && e.membersByPeerId[e.members[v].peerId] == v
    {
      if v != u {
        assert m.members[v].peerId in m.membersByPeerId;
      }
    }
    assert u !in m.memberOrder;
  }

  lemma EnrolPartition(m: LobbyModel, u: string, peerId: int, teamName: string, team: Team)
    requires TeamsPartition(m) && u !in m.members && teamName in m.teams
    requires team == m.teams[teamName].(members := m.teams[teamName].members + {u})
    ensures TeamsPartition(Enrol(m, u, peerId, teamName, team))
  {
    var e := Enrol(m, u, peerId, teamName, team);
    assert e.teams.Keys == m.teams.Keys;
    forall v | v in e.members
      ensures e.members[v].team in e.teams && v in e.teams[e.members[v].team].members
    {
      if v != u {
        assert e.members[v] == m.members[v];
        assert v in m.teams[m.members[v].team].members;
      }
    }
    EnrolledTeamsHoldMembers(m, u, peerId, teamName, team);
  }

  /** After enrolment every team still holds only members, each naming that team. */
  lemma EnrolledTeamsHoldMembers(m: LobbyModel, u: string, peerId: int, teamName: string, team: Team)
    requires TeamsPartition(m) && u !in m.members && teamName in m.teams
    requires team == m.teams[teamName].(members := m.teams[teamName].members + {u})
    ensures var e := Enrol(m, u, peerId, teamName, team);
      forall n, v :: n in e.teams && v in e.teams[n].members ==> v in e.members && e.members[v].team == n
  {
    var e := Enrol(m, u, peerId, teamName, team);
    forall n, v | n in e.teams && v in e.teams[n].members
      ensures v in e.members && e.members[v].team == n
    {
      if v != u {
        assert v in m.teams[n].members;
      }
    }
  }

  lemma AddPlayerKeepsInvariant(m: LobbyModel, req: JoinRequest)
    requires LobbyInvariant(m)
    requires req.peerId in m.membersByPeerId ==> req.inLobby
    ensures LobbyInvariant(AddPlayerStep(m, req).0)
  {
    if req.inLobby || req.username.None? || req.username.value in m.members || m.isDestroyed || !req.allowed
       || |m.members| >= MaxPlayers(m) || (!m.config.allowJoiningWhenGameIsLive && m.state != Preparations)
       || PickTeam(m.teams, m.teamOrder).None? {
      assert AddPlayerStep(m, req).0 == m;
    } else {
      var u := req.username.value;
      var n := PickTeam(m.teams, m.teamOrder).value;
      JoinTakesAdmit(m, req);
      AdmitKeepsInvariant(m, u, req.peerId, n, m.teams[n].(members := m.teams[n].members + {u}));
    }
  }

  /** Past every refusal, the picked team takes the new player and the join completes. */
  lemma JoinTakesAdmit(m: LobbyModel, req: JoinRequest)
    requires TeamsPartition(m)
    requires !req.inLobby && req.username.Some? && req.username.value !in m.members && !m.isDestroyed && req.allowed
    requires |m.members| < MaxPlayers(m) && (m.config.allowJoiningWhenGameIsLive || m.state == Preparations)
    requires PickTeam(m.teams, m.teamOrder).Some?
    ensures var n := PickTeam(m.teams, m.teamOrder).value; var u := req.username.value;
      && n in m.teams && req.username.value !in m.teams[n].members
      && AddPlayerStep(m, req) == (Admit(m, u, req.peerId, n, m.teams[n].(members := m.teams[n].members + {u})), Joined)
  {
    var u := req.username.value;
    var n := PickTeam(m.teams, m.teamOrder).value;
    assert Eligible(m.teams, n);
    assert u !in m.teams[n].members;
    assert AddMember(m.teams[n], u) == (m.teams[n].(members := m.teams[n].members + {u}), true);
  }

  lemma AdmitKeepsInvariant(m: LobbyModel, u: string, peerId: int, teamName: string, team: Team)
    requires LobbyInvariant(m) && !m.isDestroyed
    requires u !in m.members && peerId !in m.membersByPeerId && teamName in m.teams
    requires team == m.teams[teamName].(members := m.teams[teamName].members + {u})
    ensures LobbyInvariant(Admit(m, u, peerId, teamName, team))
  {
    var e := Enrol(m, u, peerId, teamName, team);
    EnrolIndexed(m, u, peerId, teamName, team);
    EnrolPartition(m, u, peerId, teamName, team);
    var m2 := if e.gameMaster.None? then PickNewGameMaster(e) else e;
    if e.gameMaster.None? && m.config.enableGameMasters {
      PickMasterConsistent(e);
    }
    assert LobbyInvariant(m2);
    SameMembershipKeepsInvariant(m2, Admit(m, u, peerId, teamName, team));
  }

  /**
   * `AddPlayer` admits exactly the players that pass its checks (in a lobby
   * below `MaxPlayers` a team always has room), and a refusal changes
   * nothing. The new member is not ready, is reachable by username and by
   * connection id, sits in an eligible team with the fewest players (the
   * earliest such team on a tie), and is elected game master when there was
   * none; the other members are untouched.
   */
  lemma AddPlayerOutcome(m: LobbyModel, req: JoinRequest)
    requires LobbyInvariant(m)
    ensures var (m', r) := AddPlayerStep(m, req);
      && (r.Rejected? ==> m' == m)
      && (r.Joined? <==>
            && !req.inLobby && req.username.Some? && req.username.value !in m.members && !m.isDestroyed && req.allowed
            && |m.members| < MaxPlayers(m)
            && (m.config.allowJoiningWhenGameIsLive || m.state == Preparations))
  {
    var (m', r) := AddPlayerStep(m, req);
    if !req.inLobby && req.username.Some? && req.username.value !in m.members && !m.isDestroyed && req.allowed
       && |m.members| < MaxPlayers(m) && (m.config.allowJoiningWhenGameIsLive || m.state == Preparations) {
      TeamAvailableBelowMax(m);
      JoinTakesAdmit(m, req);
    } else {
      assert m' == m;
    }
  }

  /**
   * Where a join puts player `u` of connection `peerId`: in both maps, not
   * ready, in an eligible team that is the earliest of the smallest eligible
   * teams, with every earlier member untouched, the first member elected
   * master and the peer subscribed.
   */
  ghost predicate Placed(m: LobbyModel, m': LobbyModel, u: string, peerId: int) {
    && u in m'.members && peerId in m'.membersByPeerId
    && var team := m'.members[u].team;
    && m'.members[u].peerId == peerId && !m'.members[u].isReady
    && m'.membersByPeerId[peerId] == u
    && |m'.members| == |m.members| + 1
    && (forall v :: v in m.members ==> v in m'.members && m'.members[v] == m.members[v])
    && Eligible(m.teams, team) && team in m'.teams && u in m'.teams[team].members
    && |m'.teams[team].members| == |m.teams[team].members| + 1
    && (exists k :: SmallestEligibleAt(m.teams, m.teamOrder, team, k))
    && (m.gameMaster.None? && m.config.enableGameMasters ==> m'.gameMaster == Some(u))
    && (m.gameMaster.Some? ==> m'.gameMaster == m.gameMaster)
    && peerId in m'.subscribers
  }

  /** `ns[k]` is `n`, no eligible team is smaller, and every eligible team before it is larger. */
  ghost predicate SmallestEligibleAt(teams: map<string, Team>, ns: seq<string>, n: string, k: int) {
    && 0 <= k < |ns| && ns[k] == n && Eligible(teams, n)
    && (forall i :: 0 <= i < |ns| && Eligible(teams, ns[i]) ==> |teams[n].members| <= |teams[ns[i]].members|)
    && (forall i :: 0 <= i < k && Eligible(teams, ns[i]) ==> |teams[n].members| < |teams[ns[i]].members|)
  }

  lemma AddPlayerPlacement(m: LobbyModel, req: JoinRequest)
    requires LobbyInvariant(m)
    ensures AddPlayerStep(m, req).1.Joined? ==> Placed(m, AddPlayerStep(m, req).0, req.username.value, req.peerId)
  {
    AddPlayerOutcome(m, req);
    if AddPlayerStep(m, req).1.Joined? {
      TeamAvailableBelowMax(m);
      var u := req.username.value;
      var k := PickIndex(m.teams, m.teamOrder);
      var n := m.teamOrder[k];
      JoinTakesAdmit(m, req);
      assert SmallestEligibleAt(m.teams, m.teamOrder, n, k);
      AdmitPlaces(m, u, req.peerId, n);
    }
  }

  /** `Admit` into a team with room, the earliest of the smallest, places the player. */
  lemma AdmitPlaces(m: LobbyModel, u: string, peerId: int, n: string)
    requires LobbyInvariant(m)
    requires u !in m.members && n in m.teams && u !in m.teams[n].members
    requires exists k :: SmallestEligibleAt(m.teams, m.teamOrder, n, k)
    ensures Placed(m, Admit(m, u, peerId, n, m.teams[n].(members := m.teams[n].members + {u})), u, peerId)
  {
    var e := Enrol(m, u, peerId, n, m.teams[n].(members := m.teams[n].members + {u}));
    assert e.members == m.members[u := Member(u, peerId, n, false, map[])];
    if m.gameMaster.None? && m.config.enableGameMasters {
      assert m.members == map[];
      assert m.memberOrder == [] by {
        FirstListed(m.memberOrder);
      }
      assert e.memberOrder == [u];
    }
  }

  lemma DetachEffect(m: LobbyModel, u: string)
    requires Consistent(m) && u in m.members
    ensures var d := Detach(m, u);
      && (forall v :: v in d.members ==> d.members[v] == m.members[v])
      && d.membersByPeerId == m.membersByPeerId - {m.members[u].peerId}
      && d.memberOrder == Without(m.memberOrder, u)
      && (forall n :: n in d.teams ==> u !in d.teams[n].members)
      && d.subscribers == m.subscribers - {m.members[u].peerId}
      && (m.gameMaster != Some(u) ==> d.gameMaster == m.gameMaster)
      && (m.gameMaster == Some(u) ==> d.gameMaster == if d.memberOrder == [] then None else Some(d.memberOrder[0]))
  {
    assert m.members[u].team in m.teams;
    assert m.gameMaster == Some(u) ==> m.config.enableGameMasters;
  }

  lemma RemovePlayerKeepsInvariant(m: LobbyModel, u: string)
    requires LobbyInvariant(m)
    ensures LobbyInvariant(RemovePlayerStep(m, u))
  {
    if u in m.members {
      var d := Detach(m, u);
      DetachConsistent(m, u);
      if !m.config.keepAliveWithZeroPlayers && |d.members| == 0 {
        DestroyOutcome(d);
      }
    }
  }

  /** The last member leaving a lobby that is not kept alive destroys it. */
  lemma LastLeaves(m: LobbyModel, u: string)
    requires LobbyInvariant(m) && m.members.Keys == {u} && !m.config.keepAliveWithZeroPlayers
    ensures var m' := RemovePlayerStep(m, u);
      m'.isDestroyed && m'.members == map[] && m'.membersByPeerId == map[] && m'.memberOrder == [] && m'.gameMaster.None?
      && (forall n :: n in m'.teams ==> m'.teams[n].members == {})
  {
    var d := Detach(m, u);
    DetachConsistent(m, u);
    assert d.members.Keys == {};
    DestroyOutcome(d);
  }

  /** The facts `RemovePlayerOutcome` states about a member's removal. */
  ghost predicate RemovedAsMember(m: LobbyModel, u: string, m': LobbyModel)
    requires u in m.members
  {
    && u !in m'.members
    && m.members[u].peerId !in m'.membersByPeerId
    && (forall n :: n in m'.teams ==> u !in m'.teams[n].members)
    && (forall v :: v in m.members && v != u ==> v in m'.members && m'.members[v] == m.members[v])
    && (m.gameMaster != Some(u) ==> m'.gameMaster == m.gameMaster)
    && (m.gameMaster == Some(u) ==> m'.gameMaster == if m'.memberOrder == [] then None else Some(m'.memberOrder[0]))
  }

  lemma DetachRemoves(m: LobbyModel, u: string)
    requires Consistent(m) && u in m.members
    ensures RemovedAsMember(m, u, Detach(m, u))
  {
    DetachConsistent(m, u);
    DetachEffect(m, u);
  }

  lemma RemoveOneOfMany(m: LobbyModel, u: string)
    requires LobbyInvariant(m) && u in m.members
    requires m.config.keepAliveWithZeroPlayers || |m.members| > 1
    ensures RemovePlayerStep(m, u) == Detach(m, u)
  {
    DetachDropsOne(m, u);
  }

  /** `Detach` removes exactly the one member. */
  lemma DetachDropsOne(m: LobbyModel, u: string)
    requires u in m.members
    ensures Detach(m, u).members == m.members - {u}
    ensures |Detach(m, u).members| == |m.members| - 1
  {
    var d := Detach(m, u);
    assert Unlink(m, u).members == m.members - {u};
    assert d.members.Keys == m.members.Keys - {u};
  }

  lemma RemoveTheLast(m: LobbyModel, u: string)
    requires LobbyInvariant(m) && u in m.members
    requires !m.config.keepAliveWithZeroPlayers && |m.members| == 1
    ensures RemovedAsMember(m, u, RemovePlayerStep(m, u)) && RemovePlayerStep(m, u).isDestroyed
  {
    OnlyMember(m.members.Keys, u);
    LastLeaves(m, u);
  }

  /** A set of one element that holds `u` is `{u}`. */
  lemma OnlyMember(s: set<string>, u: string)
    requires u in s && |s| == 1
    ensures s == {u}
  {
    forall v | v in s ensures v == u {
      if v != u {
        assert {u, v} <= s;
        assert |{u, v}| == 2;
        SubsetSize({u, v}, s);
      }
    }
  }

  lemma SubsetSize(a: set<string>, b: set<string>)
    requires a <= b
    ensures |a| <= |b|
  {
    assert b == a + (b - a);
  }

  /**
   * `RemovePlayer` of a non-member changes nothing. A member leaves both
   * maps and every team; a departing game master is replaced by the first
   * remaining member, or by none; the others are untouched; and the lobby is
   * destroyed exactly when its last member leaves and it is not kept alive.
   */
  lemma RemovePlayerOutcome(m: LobbyModel, u: string)
    requires LobbyInvariant(m)
    ensures u !in m.members ==> RemovePlayerStep(m, u) == m
    ensures u in m.members ==> RemovedAsMember(m, u, RemovePlayerStep(m, u))
    ensures u in m.members ==>
      (RemovePlayerStep(m, u).isDestroyed <==> |m.members| == 1 && !m.config.keepAliveWithZeroPlayers)
  {
    if u in m.members {
      if !m.config.keepAliveWithZeroPlayers && |m.members| == 1 {
        RemoveTheLast(m, u);
      } else {
        RemoveOneOfMany(m, u);
        DetachRemoves(m, u);
        DetachConsistent(m, u);
      }
    }
  }

  // ---------------------------------------------------------------------
  // State, readiness and properties.
  // ---------------------------------------------------------------------

  /** `m'` has the members, teams, orders and master of `m`; members differ at most in their ready flag and properties. */
  ghost predicate SameMembership(m: LobbyModel, m': LobbyModel) {
    && m'.config == m.config && m'.teamOrder == m.teamOrder && m'.teams == m.teams
    && m'.membersByPeerId == m.membersByPeerId && m'.memberOrder == m.memberOrder
    && m'.gameMaster == m.gameMaster && m'.isDestroyed == m.isDestroyed
    && m'.members.Keys == m.members.Keys
    && (forall u :: u in m.members ==>
          m'.members[u].username == m.members[u].username && m'.members[u].peerId == m.members[u].peerId
          && m'.members[u].team == m.members[u].team)
  }

  lemma SameMembershipKeepsInvariant(m: LobbyModel, m': LobbyModel)
    requires LobbyInvariant(m) && SameMembership(m, m')
    ensures LobbyInvariant(m')
  {
  }

  /**
   * Assigning the current state changes nothing. A real change records the
   * state, broadcasts its status text unless that is the stored one (which
   * the setter leaves as it is), and clears every member's ready flag while
   * leaving the rest of each member alone.
   */
  lemma SetStateResetsReady(m: LobbyModel, s: LobbyState)
    ensures s == m.state ==> SetStateStep(m, s) == m
    ensures s != m.state ==>
      var m' := SetStateStep(m, s);
      && m'.state == s && m'.statusText == m.statusText
      && m'.statusBroadcasts == m.statusBroadcasts + (if m.statusText == StateText(s) then [] else [StateText(s)])
      && m'.members.Keys == m.members.Keys
      && (forall u :: u in m'.members ==> !m'.members[u].isReady && m'.members[u] == m.members[u].(isReady := false))
      && SameMembership(m, m')
  {
    if s != m.state {
      var m1 := SetStatus(m.(state := s), StateText(s));
      assert m1.members == m.members && m1.state == s && m1.statusText == m.statusText;
      assert SameMembership(m, m1);
      ClearReadyFacts(m.members);
      ClearReadyKeepsMembership(m1);
    }
  }

  lemma ClearReadyFacts(members: map<string, Member>)
    ensures ClearReady(members).Keys == members.Keys
    ensures forall u :: u in ClearReady(members) ==> ClearReady(members)[u] == members[u].(isReady := false)
  {
  }

  lemma ClearReadyKeepsMembership(m: LobbyModel)
    ensures SameMembership(m, m.(members := ClearReady(m.members)))
  {
    ClearReadyFacts(m.members);
  }

  lemma SameMembershipTrans(a: LobbyModel, b: LobbyModel, c: LobbyModel)
    requires SameMembership(a, b) && SameMembership(b, c)
    ensures SameMembership(a, c)
  {
  }

  lemma SpawnTaskFacts(m: LobbyModel, task: TaskId)
    ensures var m' := SpawnTaskStep(m, task);
      && SameMembership(m, m') && m'.state == m.state && m'.properties == m.properties && m'.spawnTask == Some(task)
      && m'.killedTasks == (if m.spawnTask.Some? && m.spawnTask != Some(task) then m.killedTasks + [m.spawnTask.value] else m.killedTasks)
  {
  }

  lemma StateFacts(m: LobbyModel, s: LobbyState)
    ensures var m' := SetStateStep(m, s);
      && SameMembership(m, m') && m'.state == s && m'.properties == m.properties
      && m'.spawnTask == m.spawnTask && m'.killedTasks == m.killedTasks
  {
    SetStateResetsReady(m, s);
    if s != m.state {
      var m1 := SetStatus(m.(state := s), StateText(s));
      assert m1.properties == m.properties && m1.spawnTask == m.spawnTask && m1.killedTasks == m.killedTasks;
    }
  }

  /**
   * `StartGame` succeeds exactly when the lobby is not destroyed and the
   * spawner hands out a task. It makes the lobby private even when the
   * spawner refuses; success moves to `StartingGameServer` and binds the
   * task, killing a different task bound before.
   */
  lemma StartGameOutcome(m: LobbyModel, spawned: Option<TaskId>)
    ensures var (m', ok) := StartGameStep(m, spawned);
      && (ok <==> !m.isDestroyed && spawned.Some?)
      && (m.isDestroyed ==> m' == m)
      && (!m.isDestroyed ==> m'.properties == m.properties[IsPublicKey := "false"])
      && (ok ==> m'.state == StartingGameServer && m'.spawnTask == spawned)
      && (ok && m.spawnTask.Some? && m.spawnTask != spawned ==> m'.killedTasks == m.killedTasks + [m.spawnTask.value])
      && (!ok ==> m'.state == m.state && m'.spawnTask == m.spawnTask)
      && SameMembership(m, m')
  {
    if !m.isDestroyed && spawned.Some? {
      var m1 := m.(properties := m.properties[IsPublicKey := "false"]);
      StateFacts(m1, StartingGameServer);
      var m2 := SetStateStep(m1, StartingGameServer);
      SpawnTaskFacts(m2, spawned.value);
      SameMembershipTrans(m, m1, m2);
      SameMembershipTrans(m, m2, SpawnTaskStep(m2, spawned.value));
    }
  }

  /**
   * A member becoming ready when everyone else already is starts the game,
   * provided the lobby starts on all-ready and no team is short of players.
   */
  lemma LastReadyStartsGame(m: LobbyModel, u: string, task: TaskId)
    requires u in m.members && !m.isDestroyed
    requires forall v :: v in m.members && v != u ==> m.members[v].isReady
    requires m.config.startGameWhenAllReady
    requires forall n :: n in m.teamOrder ==> !Lacking(m.teams, n)
    ensures var m' := SetReadyStep(m, u, true, Some(task));
      && m'.state == StartingGameServer && m'.spawnTask == Some(task)
      && IsPublicKey in m'.properties && m'.properties[IsPublicKey] == "false"
  {
    var m1 := m.(members := m.members[u := m.members[u].(isReady := true)]);
    assert AllReady(m1.members);
    assert LackingIndex(m1.teams, m1.teamOrder) == -1;
    StartGameOutcome(m1, Some(task));
  }

  lemma SetReadyKeepsMembership(m: LobbyModel, u: string, ready: bool, spawned: Option<TaskId>)
    ensures SameMembership(m, SetReadyStep(m, u, ready, spawned))
  {
    if u in m.members {
      var m1 := m.(members := m.members[u := m.members[u].(isReady := ready)]);
      assert SameMembership(m, m1);
      StartGameOutcome(m1, spawned);
      if AllReady(m1.members) {
        SameMembershipTrans(m, m1, AllReadyStep(m1, spawned));
      }
    }
  }

  /**
   * `SetProperty(setter, …)` succeeds exactly when players may change
   * properties and, with game masters, the setter is the master (or the
   * lobby has no master and the setter is not a member); success writes
   * the one key, refusal changes nothing.
   */
  lemma SetPropertyOutcome(m: LobbyModel, setterPeer: int, key: string, value: string)
    requires LobbyInvariant(m)
    ensures var (m', ok) := SetPropertyStep(m, setterPeer, key, value);
      && (ok <==> m.config.allowPlayersChangeLobbyProperties
                  && (m.config.enableGameMasters ==>
                        (setterPeer in m.membersByPeerId && m.gameMaster == Some(m.membersByPeerId[setterPeer]))
                        || (setterPeer !in m.membersByPeerId && m.members == map[])))
      && (ok ==> m' == m.(properties := m.properties[key := value]) && m'.properties[key] == value)
      && (!ok ==> m' == m)
  {
  }

  lemma MovePartition(m: LobbyModel, u: string, current: string, teamName: string)
    requires TeamsPartition(m) && u in m.members && current == m.members[u].team
    requires teamName in m.teams && teamName != current
    ensures TeamsPartition(MoveMember(m, u, current, teamName, m.teams[teamName].(members := m.teams[teamName].members + {u})))
  {
    var m' := MoveMember(m, u, current, teamName, m.teams[teamName].(members := m.teams[teamName].members + {u}));
    assert m'.teams.Keys == m.teams.Keys;
    MovedTeamsHoldMembers(m, u, current, teamName);
    forall v | v in m'.members
      ensures m'.members[v].team in m'.teams && v in m'.teams[m'.members[v].team].members
    {
      if v != u {
        assert m'.members[v] == m.members[v];
        assert v in m.teams[m.members[v].team].members;
      }
    }
  }

  /** After the move every team still holds only members, each naming that team. */
  lemma MovedTeamsHoldMembers(m: LobbyModel, u: string, current: string, teamName: string)
    requires TeamsPartition(m) && u in m.members && current == m.members[u].team
    requires teamName in m.teams && teamName != current
    ensures var m' := MoveMember(m, u, current, teamName, m.teams[teamName].(members := m.teams[teamName].members + {u}));
      forall n, v :: n in m'.teams && v in m'.teams[n].members ==> v in m'.members && m'.members[v].team == n
  {
    var m' := MoveMember(m, u, current, teamName, m.teams[teamName].(members := m.teams[teamName].members + {u}));
    forall n, v | n in m'.teams && v in m'.teams[n].members
      ensures v in m'.members && m'.members[v].team == n
    {
      if n == teamName {
        assert v == u || v in m.teams[n].members;
      } else if n == current {
        assert v in m.teams[n].members && v != u;
      } else {
        assert m'.teams[n] == m.teams[n];
      }
    }
  }

  lemma TryJoinTeamKeepsInvariant(m: LobbyModel, teamName: string, u: string)
    requires LobbyInvariant(m) && u in m.members && teamName in m.teams
    ensures LobbyInvariant(TryJoinTeamStep(m, teamName, u).0)
  {
    var (m', ok) := TryJoinTeamStep(m, teamName, u);
    if ok {
      var current := m.members[u].team;
      var joined := m.teams[teamName].(members := m.teams[teamName].members + {u});
      assert current != teamName && u !in m.teams[teamName].members by {
        assert u in m.teams[current].members;
      }
      assert m' == MoveMember(m, u, current, teamName, joined);
      MovePartition(m, u, current, teamName);
      MoveIndexed(m, u, current, teamName, joined);
    }
  }

  /** Moving a member between teams keeps the indexes and the master. */
  lemma MoveIndexed(m: LobbyModel, u: string, current: string, teamName: string, joined: Team)
    requires MembersIndexed(m) && MasterElected(m) && u in m.members && current in m.teams
    ensures var m' := MoveMember(m, u, current, teamName, joined);
      MembersIndexed(m') && MasterElected(m')
  {
    var m' := MoveMember(m, u, current, teamName, joined);
    assert m'.members.Keys == m.members.Keys;
    assert forall v :: v in m'.members ==> m'.members[v].username == m.members[v].username && m'.members[v].peerId == m.members[v].peerId;
  }

  /**
   * `TryJoinTeam` moves the member exactly when switching is enabled, the
   * target team has room, and the member is not already in it; the member
   * then leaves its old team for the new one, and nothing else changes.
   */
  lemma TryJoinTeamOutcome(m: LobbyModel, teamName: string, u: string)
    requires LobbyInvariant(m) && u in m.members && teamName in m.teams
    ensures var (m', ok) := TryJoinTeamStep(m, teamName, u);
      var current := m.members[u].team;
      && (ok <==> m.config.enableTeamSwitching && CanAddPlayer(m.teams[teamName]) && current != teamName)
      && (!ok ==> m' == m)
      && (ok ==>
            && m'.members[u].team == teamName
            && m'.teams[teamName].members == m.teams[teamName].members + {u}
            && m'.teams[current].members == m.teams[current].members - {u}
            && (forall n :: n in m.teams && n != teamName && n != current ==> m'.teams[n] == m.teams[n]))
  {
    var current := m.members[u].team;
    assert u in m.teams[current].members;
    assert current != teamName ==> u !in m.teams[teamName].members;
  }

  // ---------------------------------------------------------------------
  // Manual start, the spawn task and the room.
  // ---------------------------------------------------------------------

  /** The conditions `StartGameManually` checks before it calls `StartGame`. */
  ghost predicate MayStartManually(m: LobbyModel, peerId: int) {
    && m.config.enableManualStart
    && m.gameMaster == MemberByPeerId(m, peerId)
    && m.state == Preparations
    && !m.isDestroyed
    && (forall u :: u in m.members && Some(u) != m.gameMaster ==> m.members[u].isReady)
    && |m.members| >= MinPlayers(m)
    && (forall i :: 0 <= i < |m.teamOrder| ==> !Lacking(m.teams, m.teamOrder[i]))
  }

  /**
   * `StartGameManually` reaches `StartGame` exactly when every condition
   * holds; any refusal leaves the lobby unchanged. An attempt starts the
   * game exactly when the spawner hands out a task.
   */
  lemma StartManuallyOutcome(m: LobbyModel, peerId: int, spawned: Option<TaskId>)
    ensures var (m', r) := StartManuallyStep(m, peerId, spawned);
      && (r.Attempted? <==> MayStartManually(m, peerId))
      && (r.Refused? ==> m' == m)
      && (r.Attempted? ==> (r.started <==> spawned.Some?))
      && (r == Attempted(true) ==> m'.state == StartingGameServer && m'.spawnTask == spawned)
      && SameMembership(m, m')
  {
    StartGameOutcome(m, spawned);
  }

  lemma StartingProjection(m: LobbyModel, status: SpawnStatus, fin: Finalization)
    requires IsStarting(status)
    ensures StatusChangedStep(m, status, fin).state == StartingGameServer
    ensures SameMembership(m, StatusChangedStep(m, status, fin))
    ensures StatusChangedStep(m, status, fin).room == m.room
  {
    StateFacts(m, StartingGameServer);
  }

  lemma FinalizedProjection(m: LobbyModel, fin: Finalization)
    ensures var m' := StatusChangedStep(m, Finalized, fin);
      && m'.state == GameInProgress && SameMembership(m, m')
      && (fin.FoundRoom? ==> m'.room == Some(fin.roomId) && m'.gameIp == fin.roomIp && m'.gamePort == fin.roomPort)
      && (!fin.FoundRoom? ==> m'.room == m.room && m'.gameIp == m.gameIp && m'.gamePort == m.gamePort)
  {
    StateFacts(m, GameInProgress);
    var m1 := SetStateStep(m, GameInProgress);
    FinalizeFacts(m1, fin);
    SameMembershipTrans(m, m1, FinalizeStep(m1, fin));
  }

  lemma FinalizeFacts(m: LobbyModel, fin: Finalization)
    ensures var m' := FinalizeStep(m, fin);
      && m'.state == m.state && SameMembership(m, m')
      && (fin.FoundRoom? ==> m'.room == Some(fin.roomId) && m'.gameIp == fin.roomIp && m'.gamePort == fin.roomPort)
      && (!fin.FoundRoom? ==> m' == m)
  {
  }

  /** The state a failed spawn leads to. */
  function FailureTarget(m: LobbyModel): LobbyState {
    if m.state == StartingGameServer
    then (if m.config.playAgainEnabled then Preparations else FailedToStart)
    else (if m.config.playAgainEnabled then Preparations else GameOver)
  }

  lemma FailureProjection(m: LobbyModel, status: SpawnStatus, fin: Finalization)
    requires IsFailure(status)
    ensures StatusChangedStep(m, status, fin) == SetStateStep(m, FailureTarget(m))
    ensures StatusChangedStep(m, status, fin).state == FailureTarget(m)
    ensures SameMembership(m, StatusChangedStep(m, status, fin))
  {
    assert !IsStarting(status) && status != Finalized;
    StateFacts(m, FailureTarget(m));
  }

  /**
   * `OnSpawnServerStatusChanged`: a starting status means
   * `StartingGameServer`; `Finalized` means `GameInProgress`, with the room's
   * address when the room is found; a failure reverts to `Preparations` when
   * playing again is enabled, and otherwise to `FailedToStart` if the server
   * was starting or `GameOver` if not; `None` changes nothing.
   */
  lemma StatusProjection(m: LobbyModel, status: SpawnStatus, fin: Finalization)
    ensures var m' := StatusChangedStep(m, status, fin);
      && (IsStarting(status) ==> m'.state == StartingGameServer)
      && (status == Finalized ==> m'.state == GameInProgress)
      && (status == Finalized && fin.FoundRoom? ==>
            m'.room == Some(fin.roomId) && m'.gameIp == fin.roomIp && m'.gamePort == fin.roomPort)
      && (IsFailure(status) && m.state == StartingGameServer ==>
            m'.state == if m.config.playAgainEnabled then Preparations else FailedToStart)
      && (IsFailure(status) && m.state != StartingGameServer ==>
            m'.state == if m.config.playAgainEnabled then Preparations else GameOver)
      && (status == Unset ==> m' == m)
      && SameMembership(m, m')
  {
    if IsStarting(status) {
      StartingProjection(m, status, fin);
    } else if status == Finalized {
      FinalizedProjection(m, fin);
    } else if IsFailure(status) {
      FailureProjection(m, status, fin);
    } else {
      assert status == Unset;
    }
  }

  /** `OnRoomDestroyed` forgets the room, its address and the spawn task, and goes back to `Preparations` or to `GameOver`. */
  lemma RoomDestroyedReverts(m: LobbyModel)
    ensures var m' := RoomDestroyedStep(m);
      && m'.gameIp == "" && m'.gamePort == -1 && m'.room.None? && m'.spawnTask.None?
      && m'.state == (if m.config.playAgainEnabled then Preparations else GameOver)
      && m'.killedTasks == m.killedTasks
      && SameMembership(m, m')
  {
    var m1 := m.(gameIp := "", gamePort := -1, room := None, spawnTask := None);
    StateFacts(m1, if m.config.playAgainEnabled then Preparations else GameOver);
  }

  // ---------------------------------------------------------------------
  // The countdown.
  // ---------------------------------------------------------------------

  /** The countdown stops when the loop's state condition fails or the lobby is destroyed, and changes nothing. */
  lemma CountdownHalts(m: LobbyModel, initial: LobbyState, t: int, spawned: Option<TaskId>)
    requires !(m.state == Preparations || m.state == initial) || m.isDestroyed
    ensures CountdownStep(m, initial, t, spawned) == (m, Halted)
  {
  }

  /** Below `MinPlayers`, or with a team below its minimum, the timer goes back to 10 and the game does not start. */
  lemma CountdownResets(m: LobbyModel, initial: LobbyState, t: int, spawned: Option<TaskId>)
    requires (m.state == Preparations || m.state == initial) && !m.isDestroyed
    requires MinPlayers(m) > |m.members| || exists i :: 0 <= i < |m.teamOrder| && Lacking(m.teams, m.teamOrder[i])
    ensures var (m', r) := CountdownStep(m, initial, t, spawned);
      r == Waiting(WaitSecondsAfterMinPlayersReached) && m'.state == m.state && SameMembership(m, m')
  {
    CountdownKeepsMembership(m, initial, t, spawned);
    if MinPlayers(m) <= |m.members| {
      assert LackingIndex(m.teams, m.teamOrder) >= 0;
      assert FirstLacking(m.teams, m.teamOrder).Some?;
    }
  }

  /**
   * With the minimums met the timer drops by one and the game starts once
   * it is at or below zero; but with every team full the timer is then
   * raised to at least 5, so such a pass only waits and changes no state.
   */
  lemma CountdownRuns(m: LobbyModel, initial: LobbyState, t: int, spawned: Option<TaskId>)
    requires (m.state == Preparations || m.state == initial) && !m.isDestroyed
    requires MinPlayers(m) <= |m.members| && forall i :: 0 <= i < |m.teamOrder| ==> !Lacking(m.teams, m.teamOrder[i])
    ensures var (m', r) := CountdownStep(m, initial, t, spawned);
      var t2 := if AllTeamsFull(m.teams, m.teamOrder) then FullTeamsClampAsWritten(t - 1) else t - 1;
      && r == (if t2 <= 0 then Launching(t2) else Waiting(t2))
      && (!AllTeamsFull(m.teams, m.teamOrder) ==> t2 == t - 1)
      && (AllTeamsFull(m.teams, m.teamOrder) ==> t2 >= WaitSecondsAfterFullTeams && t2 >= t - 1 && r.Waiting?)
      && (t2 <= 0 && spawned.Some? ==> m'.state == StartingGameServer && m'.spawnTask == spawned)
      && (t2 > 0 ==> m'.state == m.state && m'.spawnTask == m.spawnTask)
  {
    var t2 := if AllTeamsFull(m.teams, m.teamOrder) then FullTeamsClampAsWritten(t - 1) else t - 1;
    var m1 := SetStatus(m, "Starting game in " + IntToString(t2));
    StartGameOutcome(m1, spawned);
  }

  lemma SetStatusKeepsMembership(m: LobbyModel, text: string)
    ensures SameMembership(m, SetStatus(m, text))
  {
  }

  /** A pass of the countdown leaves the membership alone. */
  lemma CountdownKeepsMembership(m: LobbyModel, initial: LobbyState, t: int, spawned: Option<TaskId>)
    ensures SameMembership(m, CountdownStep(m, initial, t, spawned).0)
  {
    if !(m.state == Preparations || m.state == initial) || m.isDestroyed {
    } else if MinPlayers(m) > |m.members| {
      var text := "Waiting for players: " + IntToString(MinPlayers(m) - |m.members|) + " more";
      assert CountdownStep(m, initial, t, spawned).0 == SetStatus(m, text);
      SetStatusKeepsMembership(m, text);
    } else if FirstLacking(m.teams, m.teamOrder).Some? {
      var text := "Not enough players in team '" + FirstLacking(m.teams, m.teamOrder).value + "'";
      assert CountdownStep(m, initial, t, spawned).0 == SetStatus(m, text);
      SetStatusKeepsMembership(m, text);
    } else {
      var t2 := if AllTeamsFull(m.teams, m.teamOrder) then FullTeamsClampAsWritten(t - 1) else t - 1;
      var m1 := SetStatus(m, "Starting game in " + IntToString(t2));
      SetStatusKeepsMembership(m, "Starting game in " + IntToString(t2));
      var m2 := if t2 <= 0 then StartGameStep(m1, spawned).0 else m1;
      assert CountdownStep(m, initial, t, spawned).0 == m2;
      if t2 <= 0 {
        StartGameOutcome(m1, spawned);
        SameMembershipTrans(m, m1, m2);
      }
    }
  }

  lemma {:induction false} FullTeamsMeetMinimums(teams: map<string, Team>, ns: seq<string>)
    requires AllTeamsFull(teams, ns)
    requires forall n :: n in teams ==> teams[n].minPlayers <= teams[n].maxPlayers
    ensures SumMin(teams, ns) <= SumCounts(teams, ns)
    ensures forall i :: 0 <= i < |ns| ==> !Lacking(teams, ns[i])
  {
    if ns != [] {
      assert AllTeamsFull(teams, ns[1..]) by {
        assert forall i :: 1 <= i < |ns| ==> ns[1..][i - 1] == ns[i];
      }
      FullTeamsMeetMinimums(teams, ns[1..]);
    }
  }

  /**
   * With every team full (and each minimum within its maximum) a pass never
   * resets the timer and never starts the game: it waits with the timer at
   * the larger of its decrement and 5, and the lobby keeps its state.
   */
  lemma FullTeamsCountdown(m: LobbyModel, initial: LobbyState, t: int, spawned: Option<TaskId>)
    requires LobbyInvariant(m) && (m.state == Preparations || m.state == initial) && !m.isDestroyed
    requires AllTeamsFull(m.teams, m.teamOrder)
    requires forall n :: n in m.teams ==> m.teams[n].minPlayers <= m.teams[n].maxPlayers
    ensures CountdownStep(m, initial, t, spawned).1 == Waiting(FullTeamsClampAsWritten(t - 1))
    ensures FullTeamsClampAsWritten(t - 1) >= WaitSecondsAfterFullTeams
    ensures CountdownStep(m, initial, t, spawned).0.state == m.state
  {
    FullTeamsMeetMinimums(m.teams, m.teamOrder);
    TeamSizesSum(m);
    CountdownRuns(m, initial, t, spawned);
  }

  /** The timer after `n` ticks with every team full, with the clamp as written. */
  function FullTeamsTimerAsWritten(t: int, n: nat): int {
    if n == 0 then t else FullTeamsClampAsWritten(FullTeamsTimerAsWritten(t, n - 1) - 1)
  }

  /** The timer after `n` ticks with every team full, with the intended clamp. */
  function FullTeamsTimer(t: int, n: nat): int {
    if n == 0 then t else FullTeamsClamp(FullTeamsTimer(t, n - 1) - 1)
  }

  /** As written, a lobby whose teams are all full never gets its timer to zero, so the countdown never starts the game. */
  lemma FullTeamsStallAsWritten(t: int, n: nat)
    requires n >= 1
    ensures FullTeamsTimerAsWritten(t, n) >= WaitSecondsAfterFullTeams
  {
  }

  /** With the intended clamp, full teams start the game within six ticks from any timer. */
  lemma {:induction false} FullTeamsStartWithinSix(t: int, n: nat)
    requires n >= 1
    ensures FullTeamsTimer(t, n) <= WaitSecondsAfterFullTeams + 1 - n
  {
    if n > 1 {
      FullTeamsStartWithinSix(t, n - 1);
    }
  }

  // ---------------------------------------------------------------------
  // The status text.
  // ---------------------------------------------------------------------

  /**
   * As written, the stored text never changes, so assigning the same text
   * twice, when it differs from the stored one, broadcasts it twice.
   */
  lemma StatusRepeatsAsWritten(m: LobbyModel, text: string)
    requires text != m.statusText
    ensures SetStatus(m, text).statusText == m.statusText
    ensures SetStatus(SetStatus(m, text), text).statusBroadcasts == m.statusBroadcasts + [text, text]
  {
  }

  /** As intended, the text is stored and broadcast once; assigning it again changes nothing. */
  lemma StatusBroadcastOnce(m: LobbyModel, text: string)
    ensures SetStatusAsIntended(m, text).statusText == text
    ensures SetStatusAsIntended(SetStatusAsIntended(m, text), text) == SetStatusAsIntended(m, text)
    ensures SetStatusAsIntended(m, text).statusBroadcasts == if m.statusText == text then m.statusBroadcasts else m.statusBroadcasts + [text]
  {
  }

  // ---------------------------------------------------------------------
  // A scenario: two teams "A" and "B" of one to two players each.
  // ---------------------------------------------------------------------

  function TwoTeamLobby(): LobbyModel {
    NewLobby(DefaultConfig, ["A", "B"], map["A" := Team(1, 2, {}), "B" := Team(1, 2, {})])
  }

  lemma TwoTeamSums(teams: map<string, Team>)
    requires "A" in teams && "B" in teams
    ensures SumMin(teams, ["A", "B"]) == teams["A"].minPlayers + teams["B"].minPlayers
    ensures SumMax(teams, ["A", "B"]) == teams["A"].maxPlayers + teams["B"].maxPlayers
  {
    var ns: seq<string> := ["A", "B"];
    assert ns[0] == "A" && ns[1..] == ["B"];
    assert ["B"][1..] == [];
    assert SumMin(teams, ["B"]) == teams["B"].minPlayers;
    assert SumMax(teams, ["B"]) == teams["B"].maxPlayers;
  }

  function AnnJoins(): (LobbyModel, JoinOutcome) {
    AddPlayerStep(TwoTeamLobby(), JoinRequest(1, Some("ann"), false, true))
  }

  function BobJoins(): (LobbyModel, JoinOutcome) {
    AddPlayerStep(AnnJoins().0, JoinRequest(2, Some("bob"), false, true))
  }

  lemma AnnJoinsFacts()
    ensures AnnJoins().1 == Joined
    ensures var m := AnnJoins().0;
      && m.members == map["ann" := Member("ann", 1, "A", false, map[])]
      && m.membersByPeerId == map[1 := "ann"] && m.memberOrder == ["ann"] && m.gameMaster == Some("ann")
      && m.teams == map["A" := Team(1, 2, {"ann"}), "B" := Team(1, 2, {})]
      && m.teamOrder == ["A", "B"] && m.config == DefaultConfig && m.state == Preparations && !m.isDestroyed
  {
    var m0 := TwoTeamLobby();
    TwoTeamSums(m0.teams);
    assert PickIndex(m0.teams, m0.teamOrder) == 0;
  }

  lemma BobJoinsPick()
    ensures var m1 := AnnJoins().0;
      && |m1.members| < MaxPlayers(m1) && "bob" !in m1.members
      && PickTeam(m1.teams, m1.teamOrder) == Some("B") && m1.teams["B"] == Team(1, 2, {})
  {
    AnnJoinsFacts();
    var m1 := AnnJoins().0;
    TwoTeamSums(m1.teams);
    assert PickIndex(m1.teams, m1.teamOrder) == 1 by {
      assert m1.teamOrder[1..] == ["B"];
      assert PickIndex(m1.teams, ["B"]) == 0;
    }
  }

  lemma BobJoinsEnrols()
    ensures var e := Enrol(AnnJoins().0, "bob", 2, "B", Team(1, 2, {"bob"}));
      BobJoins() == (e.(subscribers := e.subscribers + {2}), Joined)
  {
    AnnJoinsFacts();
    BobJoinsPick();
  }

  lemma BobJoinsFacts()
    ensures BobJoins().1 == Joined
    ensures var m := BobJoins().0;
      && m.members == map["ann" := Member("ann", 1, "A", false, map[]), "bob" := Member("bob", 2, "B", false, map[])]
      && m.membersByPeerId == map[1 := "ann", 2 := "bob"] && m.gameMaster == Some("ann")
      && m.teams == map["A" := Team(1, 2, {"ann"}), "B" := Team(1, 2, {"bob"})]
      && m.teamOrder == ["A", "B"] && m.config == DefaultConfig && m.state == Preparations && !m.isDestroyed
  {
    AnnJoinsFacts();
    BobJoinsEnrols();
    BobEnrolled(AnnJoins().0);
  }

  /** Enrolling "bob" in "B" next to "ann" alone in "A". */
  lemma BobEnrolled(m: LobbyModel)
    requires m.members == map["ann" := Member("ann", 1, "A", false, map[])]
    requires m.membersByPeerId == map[1 := "ann"] && m.gameMaster == Some("ann")
    requires m.teams == map["A" := Team(1, 2, {"ann"}), "B" := Team(1, 2, {})]
    ensures var e := Enrol(m, "bob", 2, "B", Team(1, 2, {"bob"}));
      && e.members == map["ann" := Member("ann", 1, "A", false, map[]), "bob" := Member("bob", 2, "B", false, map[])]
      && e.membersByPeerId == map[1 := "ann", 2 := "bob"] && e.gameMaster == Some("ann")
      && e.teams == map["A" := Team(1, 2, {"ann"}), "B" := Team(1, 2, {"bob"})]
  {
  }

  /**
   * The first player joins team "A" and becomes game master. A player who
   * is not the master cannot start the game, and the master alone is
   * refused because one more player is needed.
   */
  lemma FirstPlayerScenario()
    ensures var (m1, r1) := AnnJoins();
      && r1 == Joined && m1.members["ann"].team == "A" && m1.gameMaster == Some("ann")
      && StartManuallyStep(m1, 2, Some(7)).1 == Refused("You're not the master of this game")
      && StartManuallyStep(m1, 1, Some(7)).1 == Refused("Not enough players. Need 1 more ")
  {
    AnnJoinsFacts();
    MasterAloneRefused(AnnJoins().0);
  }

  /** With "ann" alone in "A" and master, a stranger is refused, and so is "ann" for want of a player. */
  lemma MasterAloneRefused(m: LobbyModel)
    requires m.members == map["ann" := Member("ann", 1, "A", false, map[])]
    requires m.membersByPeerId == map[1 := "ann"] && m.gameMaster == Some("ann")
    requires m.teams == map["A" := Team(1, 2, {"ann"}), "B" := Team(1, 2, {})]
    requires m.teamOrder == ["A", "B"] && m.config == DefaultConfig && m.state == Preparations && !m.isDestroyed
    ensures StartManuallyStep(m, 2, Some(7)).1 == Refused("You're not the master of this game")
    ensures StartManuallyStep(m, 1, Some(7)).1 == Refused("Not enough players. Need 1 more ")
  {
    TwoTeamSums(m.teams);
    assert MinPlayers(m) == 2;
    assert MemberByPeerId(m, 2) == None;
    assert MemberByPeerId(m, 1) == Some("ann");
    assert !SomeoneNotReady(m);
    assert |m.members| == 1;
    assert IntToString(1) == "1";
  }

  function BobReady(): LobbyModel {
    SetReadyStep(BobJoins().0, "bob", true, Some(7))
  }

  lemma BobReadyFacts()
    ensures BobReady() == BobJoins().0.(members := map["ann" := Member("ann", 1, "A", false, map[]), "bob" := Member("bob", 2, "B", true, map[])])
  {
    BobJoinsFacts();
    BobReadies(BobJoins().0);
  }

  /** With "ann" not ready, "bob" getting ready only flips that one flag. */
  lemma BobReadies(m: LobbyModel)
    requires m.members == map["ann" := Member("ann", 1, "A", false, map[]), "bob" := Member("bob", 2, "B", false, map[])]
    ensures SetReadyStep(m, "bob", true, Some(7)) ==
      m.(members := map["ann" := Member("ann", 1, "A", false, map[]), "bob" := Member("bob", 2, "B", true, map[])])
  {
    assert "ann"[0] != "bob"[0] && "A"[0] != "B"[0];
    var ms := m.members["bob" := m.members["bob"].(isReady := true)];
    assert ms == map["ann" := Member("ann", 1, "A", false, map[]), "bob" := Member("bob", 2, "B", true, map[])];
    assert !AllReady(ms) by {
      assert !ms["ann"].isReady;
    }
  }

  /** Any model with these members and teams lets "bob" switch to "A". */
  lemma BobMoves(m: LobbyModel)
    requires m.config == DefaultConfig
    requires m.members == map["ann" := Member("ann", 1, "A", false, map[]), "bob" := Member("bob", 2, "B", true, map[])]
    requires m.teams == map["A" := Team(1, 2, {"ann"}), "B" := Team(1, 2, {"bob"})]
    ensures TryJoinTeamStep(m, "A", "bob") ==
      (m.(members := map["ann" := Member("ann", 1, "A", false, map[]), "bob" := Member("bob", 2, "A", true, map[])],
          teams := map["A" := Team(1, 2, {"ann", "bob"}), "B" := Team(1, 2, {})]), true)
  {
    assert "ann"[0] != "bob"[0] && "A"[0] != "B"[0];
    var joined := Team(1, 2, {"ann", "bob"});
    assert m.teams["A"] == Team(1, 2, {"ann"});
    assert "bob" !in m.teams["A"].members;
    assert |m.teams["A"].members| == 1;
    assert CanAddPlayer(m.teams["A"]);
    assert {"ann"} + {"bob"} == {"ann", "bob"};
    assert AddMember(m.teams["A"], "bob") == (joined, true);
    var teams1 := m.teams["A" := joined];
    var teams2 := teams1["B" := teams1["B"].(members := teams1["B"].members - {"bob"})];
    assert teams1["B"] == Team(1, 2, {"bob"});
    assert teams2["B"] == Team(1, 2, {});
    assert teams2 == map["A" := joined, "B" := Team(1, 2, {})];
    assert m.members["bob" := m.members["bob"].(team := "A")] ==
      map["ann" := Member("ann", 1, "A", false, map[]), "bob" := Member("bob", 2, "A", true, map[])];
  }

  /** With "B" empty, ready players and the master asking, the start is refused for team "B". */
  lemma ShortfallRefused(m: LobbyModel)
    requires m.config == DefaultConfig && m.state == Preparations && !m.isDestroyed
    requires m.teamOrder == ["A", "B"] && m.gameMaster == Some("ann") && m.membersByPeerId == map[1 := "ann", 2 := "bob"]
    requires m.members == map["ann" := Member("ann", 1, "A", false, map[]), "bob" := Member("bob", 2, "A", true, map[])]
    requires m.teams == map["A" := Team(1, 2, {"ann", "bob"}), "B" := Team(1, 2, {})]
    ensures StartManuallyStep(m, 1, Some(7)).1 == Refused(TeamShortMessage("B"))
  {
    ShortfallChecks(m);
  }

  lemma ShortfallChecks(m: LobbyModel)
    requires m.teamOrder == ["A", "B"] && m.gameMaster == Some("ann") && m.membersByPeerId == map[1 := "ann", 2 := "bob"]
    requires m.members == map["ann" := Member("ann", 1, "A", false, map[]), "bob" := Member("bob", 2, "A", true, map[])]
    requires m.teams == map["A" := Team(1, 2, {"ann", "bob"}), "B" := Team(1, 2, {})]
    ensures MemberByPeerId(m, 1) == Some("ann") && !SomeoneNotReady(m)
    ensures |m.members| == 2 == MinPlayers(m)
    ensures FirstLacking(m.teams, m.teamOrder) == Some("B")
  {
    assert "ann"[0] != "bob"[0] && "A"[0] != "B"[0];
    assert !SomeoneNotReady(m) by {
      forall u | u in m.members ensures m.members[u].isReady || Some(u) == m.gameMaster {
        assert u == "ann" || u == "bob";
      }
    }
    TwoTeamSums(m.teams);
    assert m.members.Keys == {"ann", "bob"};
    assert LackingIndex(m.teams, m.teamOrder) == 1 by {
      assert m.teamOrder[1..] == ["B"];
      assert LackingIndex(m.teams, ["B"]) == 0;
    }
  }

  /**
   * The second player joins the emptier team "B"; once that player is
   * ready and has moved to "A", the master's start is refused because "B"
   * has too few players.
   */
  lemma TeamShortfallScenario()
    ensures var (m2, r2) := BobJoins();
      && r2 == Joined && "bob" in m2.members && m2.members["bob"].team == "B"
      && var m3 := BobReady();
      && "bob" in m3.members && "A" in m3.teams
      && var (m4, moved) := TryJoinTeamStep(m3, "A", "bob");
      && moved
      && StartManuallyStep(m4, 1, Some(7)).1 == Refused(TeamShortMessage("B"))
  {
    BobJoinsFacts();
    BobReadyFacts();
    var m3 := BobReady();
    BobMoves(m3);
    ShortfallRefused(TryJoinTeamStep(m3, "A", "bob").0);
  }
}
