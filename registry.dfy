/**
 * The in-memory registry of the game server: the process-wide maps from
 * sockets to players and from ids to groups, the player-id counter, the
 * transport's room membership, and the four socket event handlers as
 * transitions of that state.
 *
 * A JavaScript `assert` that throws is modelled as a failure outcome; every
 * change the handler made before the throw is kept.  A broadcast is modelled
 * as the event it would emit: channel, recipient sockets and payload.
 */
module Server {

  import opened Wrappers
  import opened JsValue
  import opened StateMerge
  import opened Ids

  /** An opaque handle of one client connection. */
  type Socket = nat

  /** The assertions of the server that can fail, named after what they check. */
  datatype Failure =
    | InvalidGroupId           // join-group with a truthy id that is not a number
    | GroupIdsExhausted        // unusedGroupId found no free candidate
    | SocketAlreadyRegistered  // new Player on a socket that already has one
    | PlayerNotRegistered      // deletePlayer of a player whose socket has no entry
    | PlayerNotFound           // getPlayer on a socket without a player
    | PlayerWithoutId          // getPlayer found a player whose id is falsy

  datatype Result<T> = Ok(value: T) | Err(failure: Failure)

  /** What a join-group request resolves with; ServerError is `serverError(message)`. */
  datatype Reply =
    | Joined(playerId: int, groupId: int, groupState: State)
    | ServerError(message: string)

  /** A join-group handler either resolves its acknowledgement or throws. */
  datatype JoinOutcome = Resolved(reply: Reply) | JoinThrew(failure: Failure)

  /** The state and transcient handlers either finish or throw. */
  datatype Outcome = Done | Threw(failure: Failure)

  /** One `socket.broadcast.to(room).emit(channel, payload)`. */
  datatype Broadcast = Broadcast(channel: string, recipients: set<Socket>, payload: map<string, Value>)

  /** The name of the transport room of the group with this id: 'room' + id. */
  function RoomName(id: int): string
  {
    "room" + IntToString(id)
  }

  /** Groups with different ids have different rooms. */
  lemma RoomNameInjective(a: int, b: int)
    requires RoomName(a) == RoomName(b)
    ensures a == b
  {
    assert IntToString(a) == RoomName(a)[4..] == RoomName(b)[4..] == IntToString(b);
    IntToStringInjective(a, b);
  }

  class Group {
    const id: int
    var state: State

    /** The part of the Group constructor that builds the object: an id and an empty state. */
    constructor (id: int)
      ensures this.id == id && state == map[]
    {
      this.id := id;
      state := map[];
    }

    method MergeState(partial: Value)
      modifies this
      ensures state == Merge(old(state), partial)
    {
      if Truthy(partial) {
        state := state + OwnProps(partial);
      }
    }

    function Room(): string
    {
      RoomName(id)
    }
  }

  class Player {
    const socket: Socket
    const group: Group
    const id: int

    /** The part of the Player constructor that builds the object. */
    constructor (socket: Socket, group: Group, id: int)
      ensures this.socket == socket && this.group == group && this.id == id
    {
      this.socket := socket;
      this.group := group;
      this.id := id;
    }
  }

  class Registry {
    /** `players`: socket to player. */
    var players: map<Socket, Player>
    /** `groups`: group id to group. */
    var groups: map<int, Group>
    /** `next_player_id`. */
    var nextPlayerId: int
    /** The rooms each socket has joined, as the transport keeps them. */
    var rooms: map<Socket, set<string>>

    /**
     * The registry invariant: the counter is in range, every group is stored
     * under its own id, which the allocator drew from 0..MaxGroupId, every
     * player is stored under its own socket with an id the counter issued,
     * its group is live, and its socket is in its group's room.
     */
    ghost predicate Valid()
      reads this
    {
      && InitialPlayerCounter <= nextPlayerId < MaxSafeInteger
      && (forall k :: k in groups ==> groups[k].id == k && 0 <= k <= MaxGroupId)
      && (forall s :: s in players ==> players[s].socket == s)
      && (forall s :: s in players ==> InitialPlayerCounter <= players[s].id < MaxSafeInteger)
      && (forall s :: s in players ==> IsLive(players[s].group))
      && (forall s :: s in players ==> s in rooms && players[s].group.Room() in rooms[s])
    }

    /** The group is the one `groups` holds under its id. */
    ghost predicate IsLive(g: Group)
      reads this
    {
      g.id in groups && groups[g.id] == g
    }

    /** The player is the one `players` holds under its socket. */
    ghost predicate IsRegistered(p: Player)
      reads this
    {
      p.socket in players && players[p.socket] == p
    }

    /** No live group's state document differs from what it was. */
    twostate predicate StatesUnchanged()
      reads this, groups.Values
    {
      forall k :: k in groups ==> k in old(groups) && groups[k] == old(groups[k]) && groups[k].state == old(groups[k].state)
    }

    /** The process starts with no players, no groups and the counter at 1. */
    constructor ()
      ensures Valid()
      ensures players == map[] && groups == map[] && rooms == map[]
      ensures nextPlayerId == InitialPlayerCounter
    {
      players := map[];
      groups := map[];
      nextPlayerId := InitialPlayerCounter;
      rooms := map[];
    }

    function RoomsOf(socket: Socket): set<string>
      reads this
    {
      if socket in rooms then rooms[socket] else {}
    }

    /** The sockets the transport has in `room`. */
    function RoomMembers(room: string): (r: set<Socket>)
      reads this
      ensures forall s :: s in r <==> s in rooms && room in rooms[s]
      ensures Valid() ==> forall s :: s in players && players[s].group.Room() == room ==> s in r
    {
      set s | s in rooms && room in rooms[s]
    }

    /** `get_player_id`. */
    method GetPlayerId() returns (id: int)
      requires Valid()
      modifies this`nextPlayerId
      ensures Valid()
      ensures id == NextPlayerIdAfter(old(nextPlayerId)) && nextPlayerId == id
    {
      nextPlayerId := nextPlayerId + 1;
      if nextPlayerId == MaxSafeInteger {
        nextPlayerId := InitialPlayerCounter;
      }
      id := nextPlayerId;
    }

    /**
     * `unusedGroupId`, with the random draws supplied by the caller: at most
     * RetryLimit candidates are examined and the first that is not a key of
     * `groups` is returned.
     */
    method UnusedGroupId(candidates: seq<int>) returns (r: Result<int>)
      requires |candidates| >= RetryLimit
      requires forall i :: 0 <= i < |candidates| ==> 0 <= candidates[i] <= MaxGroupId
      ensures r.Ok? ==> 0 <= r.value <= MaxGroupId && r.value !in groups
      ensures r.Ok? ==> FirstUnused(candidates[..RetryLimit], groups.Keys) == Some(r.value)
      ensures r.Err? ==> r.failure == GroupIdsExhausted
      ensures r.Err? <==> forall i :: 0 <= i < RetryLimit ==> candidates[i] in groups
    {
      for i := 0 to RetryLimit
        invariant forall j :: 0 <= j < i ==> candidates[j] in groups
      {
        if candidates[i] !in groups {
          FirstUnusedAt(candidates[..RetryLimit], groups.Keys, i);
          return Ok(candidates[i]);
        }
      }
      return Err(GroupIdsExhausted);
    }

    /** `new Group`: register a fresh group with empty state under an unused id. */
    method NewGroup(candidates: seq<int>) returns (r: Result<Group>)
      requires Valid()
      requires |candidates| >= RetryLimit
      requires forall i :: 0 <= i < |candidates| ==> 0 <= candidates[i] <= MaxGroupId
      modifies this`groups
      ensures Valid()
      ensures r.Err? <==> FirstUnused(candidates[..RetryLimit], old(groups).Keys) == None
      ensures r.Err? ==> r.failure == GroupIdsExhausted && groups == old(groups)
      ensures r.Ok? ==> FirstUnused(candidates[..RetryLimit], old(groups).Keys) == Some(r.value.id)
      ensures r.Ok? ==> fresh(r.value) && r.value.state == map[]
      ensures r.Ok? ==> r.value.id !in old(groups) && groups == old(groups)[r.value.id := r.value]
    {
      var id := UnusedGroupId(candidates);
      if id.Err? {
        return Err(id.failure);
      }
      var g := new Group(id.value);
      groups := groups[g.id := g];
      r := Ok(g);
    }

    /** `members()`: the players whose group is `g`. */
    function Members(g: Group): (r: set<Player>)
      reads this
      ensures forall s :: s in players && players[s].group == g ==> players[s] in r
      ensures forall p :: p in r ==> p.group == g && exists s :: s in players && players[s] == p
      ensures r == {} <==> forall s :: s in players ==> players[s].group != g
    {
      set s | s in players && players[s].group == g :: players[s]
    }

    /**
     * `new Player(socket, group)`: the socket joins the group's room and the
     * counter advances before the duplicate-socket assertion; only when the
     * socket is new is the player registered.
     */
    method NewPlayer(socket: Socket, group: Group) returns (r: Result<Player>)
      requires Valid()
      modifies this`rooms, this`nextPlayerId, this`players
      ensures rooms == old(rooms)[socket := old(RoomsOf(socket)) + {group.Room()}]
      ensures nextPlayerId == NextPlayerIdAfter(old(nextPlayerId))
      ensures r.Err? <==> socket in old(players)
      ensures r.Err? ==> r.failure == SocketAlreadyRegistered && players == old(players)
      ensures r.Ok? ==> fresh(r.value) && players == old(players)[socket := r.value]
      ensures r.Ok? ==> r.value.socket == socket && r.value.group == group && r.value.id == nextPlayerId
      ensures r.Err? || IsLive(group) ==> Valid()
    {
      rooms := rooms[socket := RoomsOf(socket) + {group.Room()}];
      assert Valid();
      var id := GetPlayerId();
      if socket in players {
        return Err(SocketAlreadyRegistered);
      }
      var p := new Player(socket, group, id);
      players := players[socket := p];
      r := Ok(p);
    }

    /**
     * `deletePlayer`: drop the player's socket entry, then drop its group
     * when no registered player belongs to it any more.
     */
    method DeletePlayer(p: Player) returns (out: Outcome)
      requires Valid()
      modifies this`players, this`groups
      ensures out == Done <==> p.socket in old(players)
      ensures out != Done ==> out == Threw(PlayerNotRegistered) && players == old(players) && groups == old(groups)
      ensures out == Done ==> players == old(players) - {p.socket}
      ensures out == Done ==> groups == if Members(p.group) == {} then old(groups) - {p.group.id} else old(groups)
      ensures old(IsRegistered(p)) || out != Done ==> Valid()
    {
      var group := p.group;
      if p.socket !in players {
        return Threw(PlayerNotRegistered);
      }
      players := players - {p.socket};
      if Members(group) == {} {
        groups := groups - {group.id};
      }
      if old(IsRegistered(p)) {
        forall s | s in players
          ensures IsLive(players[s].group)
        {
          var g := players[s].group;
          assert old(groups)[g.id] == g && old(groups)[group.id] == group;
        }
      }
      out := Done;
    }

    /** `getPlayerUnchecked`. */
    function GetPlayerUnchecked(socket: Socket): (r: Option<Player>)
      reads this
      ensures r.Some? <==> socket in players
      ensures r.Some? ==> r.value == players[socket]
      ensures Valid() && r.Some? ==> r.value.socket == socket && IsLive(r.value.group)
    {
      if socket in players then Some(players[socket]) else None
    }

    /** `getPlayer`: the registered player of `socket`, whose id must be truthy. */
    function GetPlayer(socket: Socket): (r: Result<Player>)
      reads this
      ensures socket !in players ==> r == Err(PlayerNotFound)
      ensures socket in players && players[socket].id == 0 ==> r == Err(PlayerWithoutId)
      ensures r.Ok? ==> socket in players && r.value == players[socket] && r.value.id != 0
      ensures Valid() && r.Ok? ==> r.value.socket == socket && IsLive(r.value.group)
    {
      match GetPlayerUnchecked(socket)
      case None => Err(PlayerNotFound)
      case Some(p) => if p.id == 0 then Err(PlayerWithoutId) else Ok(p)
    }

    /** `getGroup`. */
    function GetGroup(id: int): (r: Option<Group>)
      reads this
      ensures r.Some? <==> id in groups
      ensures r.Some? ==> r.value == groups[id]
      ensures Valid() && r.Some? ==> r.value.id == id && IsLive(r.value)
    {
      if id in groups then Some(groups[id]) else None
    }

    /**
     * `player.broadcastToGroup(channel, data)`: the event goes to every socket
     * in the player's group room except the player's own, and the payload
     * (an empty object when `data` is undefined) carries `player_id`.
     */
    function BroadcastToGroup(p: Player, channel: string, data: Option<map<string, Value>>): (b: Broadcast)
      reads this
      ensures b.channel == channel
      ensures p.socket !in b.recipients
      ensures forall s :: s in b.recipients <==> s != p.socket && s in rooms && p.group.Room() in rooms[s]
      ensures "player_id" in b.payload && b.payload["player_id"] == Num(p.id)
      ensures forall k :: k != "player_id" ==> (k in b.payload <==> data.Some? && k in data.value)
      ensures forall k :: k != "player_id" && k in b.payload ==> b.payload[k] == data.value[k]
    {
      var fields := if data.None? then map[] else data.value;
      Broadcast(channel, RoomMembers(p.group.Room()) - {p.socket}, fields["player_id" := Num(p.id)])
    }

    /** Every other registered player of the sender's group receives the sender's broadcasts. */
    lemma BroadcastReachesGroup(p: Player, channel: string, data: Option<map<string, Value>>, s: Socket)
      requires Valid() && IsRegistered(p)
      requires s in players && s != p.socket && players[s].group == p.group
      ensures s in BroadcastToGroup(p, channel, data).recipients
    {
    }

    /**
     * A registered player receives a broadcast only from a group whose room
     * its socket has joined; for players of two live groups with different
     * ids those rooms differ.
     */
    lemma GroupsHaveDistinctRooms(g: Group, h: Group)
      requires Valid() && IsLive(g) && IsLive(h) && g != h
      ensures g.Room() != h.Room()
    {
      if g.Room() == h.Room() {
        RoomNameInjective(g.id, h.id);
      }
    }

    /**
     * What the second half of join-group leaves behind, from the given state
     * document, rooms and players: the group's state has the caller's state
     * merged in and the socket is in the group's room; on a new socket the
     * player is registered, the room hears of it and the request resolves
     * with the player's id, the group's id and the merged state; on a socket
     * that already has a player, the handler throws with no player added.
     */
    ghost predicate JoinedGroup(socket: Socket, g: Group, state: Value, before: State,
                                roomsBefore: map<Socket, set<string>>, playersBefore: map<Socket, Player>,
                                out: JoinOutcome, sent: seq<Broadcast>)
      reads this, g
    {
      && g.state == Merge(before, state)
      && rooms == roomsBefore[socket := (if socket in roomsBefore then roomsBefore[socket] else {}) + {g.Room()}]
      && (socket in playersBefore ==>
            out == JoinThrew(SocketAlreadyRegistered) && sent == [] && players == playersBefore)
      && (socket !in playersBefore ==>
            && socket in players && players == playersBefore[socket := players[socket]]
            && players[socket].group == g && players[socket].id == nextPlayerId
            && out == Resolved(Joined(nextPlayerId, g.id, g.state))
            && sent == [Broadcast("player joined", RoomMembers(g.Room()) - {socket},
                                  map["player_id" := Num(nextPlayerId)])])
    }

    /**
     * The second half of the join-group handler: merge the caller's state
     * into the group, create the player, tell the rest of the room and
     * acknowledge with the player's id, the group's id and its merged state.
     */
    method JoinFoundGroup(socket: Socket, group: Group, state: Value) returns (out: JoinOutcome, sent: seq<Broadcast>)
      requires Valid() && IsLive(group)
      modifies this`rooms, this`nextPlayerId, this`players, group
      ensures Valid()
      ensures nextPlayerId == NextPlayerIdAfter(old(nextPlayerId))
      ensures socket !in old(players) ==> socket in players && fresh(players[socket])
      ensures JoinedGroup(socket, group, state, old(group.state), old(rooms), old(players), out, sent)
    {
      group.MergeState(state);
      var made := NewPlayer(socket, group);
      if made.Err? {
        return JoinThrew(made.failure), [];
      }
      var player := made.value;
      sent := [BroadcastToGroup(player, "player joined", None)];
      out := Resolved(Joined(player.id, group.id, group.state));
    }

    /**
     * join-group with a truthy numeric id: an unknown id resolves with a
     * server error and changes nothing; a known one goes on to the merge and
     * the new player.
     */
    method JoinExistingGroup(socket: Socket, id: int, state: Value) returns (out: JoinOutcome, sent: seq<Broadcast>)
      requires Valid()
      modifies this`rooms, this`nextPlayerId, this`players, groups.Values
      ensures Valid()
      ensures id !in old(groups) ==>
                && out == Resolved(ServerError("Could not join group " + IntToString(id)))
                && sent == [] && unchanged(this) && StatesUnchanged()
      ensures id in old(groups) ==>
                && groups == old(groups)
                && (forall k :: k in groups && k != id ==> groups[k].state == old(groups[k].state))
                && nextPlayerId == NextPlayerIdAfter(old(nextPlayerId))
                && JoinedGroup(socket, groups[id], state, old(groups[id].state), old(rooms), old(players), out, sent)
    {
      var found := GetGroup(id);
      if found.None? {
        return Resolved(ServerError("Could not join group " + IntToString(id))), [];
      }
      out, sent := JoinFoundGroup(socket, found.value, state);
    }

    /**
     * join-group with a falsy id: a new group is created, and when no
     * candidate id is free the handler throws with nothing changed.
     */
    method JoinNewGroup(socket: Socket, state: Value, candidates: seq<int>) returns (out: JoinOutcome, sent: seq<Broadcast>)
      requires Valid()
      requires |candidates| >= RetryLimit
      requires forall i :: 0 <= i < |candidates| ==> 0 <= candidates[i] <= MaxGroupId
      modifies this
      ensures Valid()
      ensures old(FirstUnused(candidates[..RetryLimit], groups.Keys)).None? ==>
                out == JoinThrew(GroupIdsExhausted) && sent == [] && unchanged(this)
      ensures old(FirstUnused(candidates[..RetryLimit], groups.Keys)).Some? ==>
                var id := old(FirstUnused(candidates[..RetryLimit], groups.Keys)).value;
                && id !in old(groups) && id in groups && fresh(groups[id])
                && groups == old(groups)[id := groups[id]]
                && nextPlayerId == NextPlayerIdAfter(old(nextPlayerId))
                && JoinedGroup(socket, groups[id], state, map[], old(rooms), old(players), out, sent)
    {
      var made := NewGroup(candidates);
      if made.Err? {
        return JoinThrew(made.failure), [];
      }
      out, sent := JoinFoundGroup(socket, made.value, state);
    }

    /**
     * The join-group handler.  A truthy non-numeric id throws, an unknown
     * numeric id resolves with a server error, and a falsy id (0 among them)
     * creates a group; all three change nothing when they stop.  Otherwise
     * the caller's state is merged into the group and a player is created;
     * when that throws, the merge, the new group, the room join and the
     * counter step remain.
     */
    method OnJoinGroup(socket: Socket, groupId: Value, state: Value, candidates: seq<int>)
      returns (out: JoinOutcome, sent: seq<Broadcast>)
      requires Valid()
      requires |candidates| >= RetryLimit
      requires forall i :: 0 <= i < |candidates| ==> 0 <= candidates[i] <= MaxGroupId
      modifies this, groups.Values
      ensures Valid()
      ensures Truthy(groupId) && !groupId.Num? ==>
                out == JoinThrew(InvalidGroupId) && sent == [] && unchanged(this) && StatesUnchanged()
      ensures Truthy(groupId) && groupId.Num? && groupId.n !in old(groups) ==>
                && out == Resolved(ServerError("Could not join group " + IntToString(groupId.n)))
                && sent == [] && unchanged(this) && StatesUnchanged()
      ensures !Truthy(groupId) && old(FirstUnused(candidates[..RetryLimit], groups.Keys)).None? ==>
                out == JoinThrew(GroupIdsExhausted) && sent == [] && unchanged(this) && StatesUnchanged()
      ensures Truthy(groupId) && groupId.Num? && groupId.n in old(groups) ==>
                var id := groupId.n;
                && groups == old(groups)
                && (forall k :: k in groups && k != id ==> groups[k].state == old(groups[k].state))
                && nextPlayerId == NextPlayerIdAfter(old(nextPlayerId))
                && JoinedGroup(socket, groups[id], state, old(groups[id].state), old(rooms), old(players), out, sent)
      ensures !Truthy(groupId) && old(FirstUnused(candidates[..RetryLimit], groups.Keys)).Some? ==>
                var id := old(FirstUnused(candidates[..RetryLimit], groups.Keys)).value;
                && id !in old(groups) && id in groups && fresh(groups[id])
                && groups == old(groups)[id := groups[id]]
                && (forall k :: k in groups && k != id ==> groups[k].state == old(groups[k].state))
                && nextPlayerId == NextPlayerIdAfter(old(nextPlayerId))
                && JoinedGroup(socket, groups[id], state, map[], old(rooms), old(players), out, sent)
    {
      if Truthy(groupId) {
        if !groupId.Num? {
          return JoinThrew(InvalidGroupId), [];
        }
        out, sent := JoinExistingGroup(socket, groupId.n, state);
      } else {
        out, sent := JoinNewGroup(socket, state, candidates);
      }
    }

    /**
     * The disconnect handler.  A registered player's group hears 'player
     * left' and the player is deleted, which deletes its group when it was
     * the last member; an unregistered socket changes no registry entry.  The
     * transport takes the closed socket out of every room.
     */
    method OnDisconnect(socket: Socket) returns (sent: seq<Broadcast>)
      requires Valid()
      modifies this
      ensures Valid()
      ensures nextPlayerId == old(nextPlayerId)
      ensures rooms == old(rooms) - {socket}
      ensures socket !in old(players) ==> sent == [] && players == old(players) && groups == old(groups)
      ensures socket in old(players) ==>
                var p := old(players[socket]);
                && players == old(players) - {socket}
                && sent == [Broadcast("player left", old(RoomMembers(p.group.Room())) - {socket},
                                      map["player_id" := Num(p.id)])]
                && (groups == if forall s :: s in players ==> players[s].group != p.group
                              then old(groups) - {p.group.id} else old(groups))
    {
      var found := GetPlayerUnchecked(socket);
      if found.Some? {
        var player := found.value;
        sent := [BroadcastToGroup(player, "player left", None)];
        var deleted := DeletePlayer(player);
        assert deleted == Done;
      } else {
        sent := [];
      }
      rooms := rooms - {socket};
    }

    /**
     * The state handler: the sender's group merges the data into its state
     * and the rest of the room hears it; no other group changes.
     */
    method OnState(socket: Socket, data: Value) returns (out: Outcome, sent: seq<Broadcast>)
      requires Valid()
      modifies groups.Values
      ensures Valid()
      ensures GetPlayer(socket).Err? ==>
                out == Threw(GetPlayer(socket).failure) && sent == [] && StatesUnchanged()
      ensures socket in players ==> out == Done
      ensures GetPlayer(socket).Ok? ==>
                var p := players[socket];
                && out == Done
                && p.group.state == Merge(old(p.group.state), data)
                && (forall k :: k in groups && k != p.group.id ==> groups[k].state == old(groups[k].state))
                && sent == [Broadcast("state", RoomMembers(p.group.Room()) - {socket},
                                      map["state" := data, "player_id" := Num(p.id)])]
    {
      var found := GetPlayer(socket);
      if found.Err? {
        return Threw(found.failure), [];
      }
      var player := found.value;
      player.group.MergeState(data);
      sent := [BroadcastToGroup(player, "state", Some(map["state" := data]))];
      out := Done;
    }

    /** The transcient handler: the rest of the sender's room hears the data; nothing changes. */
    method OnTranscient(socket: Socket, data: Value) returns (out: Outcome, sent: seq<Broadcast>)
      requires Valid()
      ensures socket !in players ==> out == Threw(PlayerNotFound) && sent == []
      ensures socket in players && players[socket].id == 0 ==> out == Threw(PlayerWithoutId) && sent == []
      ensures socket in players ==> out == Done
      ensures socket in players && players[socket].id != 0 ==>
                var p := players[socket];
                && out == Done
                && sent == [Broadcast("transcient", RoomMembers(p.group.Room()) - {socket},
                                      map["transcient" := data, "player_id" := Num(p.id)])]
    {
      var found := GetPlayer(socket);
      if found.Err? {
        return Threw(found.failure), [];
      }
      var player := found.value;
      sent := [BroadcastToGroup(player, "transcient", Some(map["transcient" := data]))];
      out := Done;
    }
  }
}
