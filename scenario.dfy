/**
 * Short sessions traced through the handlers' contracts alone, starting
 * from a fresh registry whose random draws all come out as 7.
 */
module Scenario {

  import opened JsValue
  import opened StateMerge
  import opened Ids
  import opened Server

  function Sevens(): seq<int>
  {
    seq(RetryLimit, _ => 7)
  }

  /** A fresh registry where socket `a` has created group 7 with `state` and holds player id 2. */
  method StartGroup(a: Socket, state: Value) returns (r: Registry, out: JoinOutcome, sent: seq<Broadcast>)
    ensures fresh(r) && r.Valid()
    ensures r.groups.Keys == {7} && fresh(r.groups[7]) && r.groups[7].state == Merge(map[], state)
    ensures r.players.Keys == {a} && r.players[a].group == r.groups[7] && r.players[a].id == 2
    ensures r.nextPlayerId == 2 && r.rooms == map[a := {RoomName(7)}]
    ensures out == Resolved(Joined(2, 7, Merge(map[], state)))
    ensures sent == [Broadcast("player joined", {}, map["player_id" := Num(2)])]
  {
    r := new Registry();
    FirstUnusedAt(Sevens()[..RetryLimit], {}, 0);
    out, sent := r.OnJoinGroup(a, Undefined, state, Sevens());
    assert r.groups.Keys == {7};
    assert {} + {RoomName(7)} == {RoomName(7)};
    assert r.groups[7].Room() == RoomName(7);
    assert r.RoomMembers(RoomName(7)) - {a} == {};
  }

  /** The first join creates group 7 with the caller's state and is issued player id 2. */
  method FirstJoinCreatesGroup(a: Socket)
  {
    var r, out, sent := StartGroup(a, Obj(map["turn" := Num(1)]));
    assert Merge(map[], Obj(map["turn" := Num(1)])) == map["turn" := Num(1)];
    assert out == Resolved(Joined(2, 7, map["turn" := Num(1)]));
  }

  /** An unknown group id resolves with a server error and registers nobody. */
  method UnknownGroupRefused(c: Socket)
  {
    var r := new Registry();
    assert "Could not join group " + IntToString(9) == "Could not join group 9";
    var out, sent := r.OnJoinGroup(c, Num(9), Undefined, Sevens());
    assert out == Resolved(ServerError("Could not join group 9"));
    assert sent == [] && r.players == map[] && r.groups == map[];
  }

  /**
   * A registry where `a` created group 7 with turn 1 and `b` then joined it
   * with `state`: a later joiner's state is merged as well, and `a` hears of
   * the join.
   */
  method JoinSecond(a: Socket, b: Socket, state: Value) returns (r: Registry, out: JoinOutcome, sent: seq<Broadcast>)
    requires a != b
    ensures fresh(r) && r.Valid()
    ensures r.groups.Keys == {7} && fresh(r.groups[7])
    ensures r.groups[7].state == Merge(map["turn" := Num(1)], state)
    ensures r.players.Keys == {a, b} && r.players[b].group == r.groups[7] && r.players[b].id == 3
    ensures r.RoomMembers(RoomName(7)) == {a, b}
    ensures out == Resolved(Joined(3, 7, Merge(map["turn" := Num(1)], state)))
    ensures |sent| == 1 && sent[0].recipients == {a}
  {
    var firstOut, firstSent;
    r, firstOut, firstSent := StartGroup(a, Obj(map["turn" := Num(1)]));
    assert Merge(map[], Obj(map["turn" := Num(1)])) == map["turn" := Num(1)];
    ghost var playersBefore := r.players;
    out, sent := r.OnJoinGroup(b, Num(7), state, Sevens());
    SecondJoinRooms(r, a, b, r.groups[7], state, map["turn" := Num(1)], playersBefore, out, sent);
  }

  /** What joining group 7 from `b` leaves in the rooms, when `a` alone was in room 7 and `b` had no player. */
  lemma SecondJoinRooms(r: Registry, a: Socket, b: Socket, g: Group, state: Value, before: State,
                        playersBefore: map<Socket, Player>, out: JoinOutcome, sent: seq<Broadcast>)
    requires a != b && b !in playersBefore && g.Room() == RoomName(7)
    requires r.JoinedGroup(b, g, state, before, map[a := {RoomName(7)}], playersBefore, out, sent)
    ensures r.rooms == map[a := {RoomName(7)}, b := {RoomName(7)}]
    ensures r.RoomMembers(RoomName(7)) == {a, b}
    ensures |sent| == 1 && sent[0].recipients == {a}
  {
    ghost var room := RoomName(7);
    assert {} + {room} == {room};
    RoomOfTwo(r, a, b, room);
    assert r.RoomMembers(room) - {b} == {a};
  }

  /** A room that exactly two sockets have joined, and that no socket left, has those two as its audience. */
  lemma RoomOfTwo(r: Registry, a: Socket, b: Socket, room: string)
    requires r.rooms == map[a := {room}, b := {room}]
    ensures r.RoomMembers(room) == {a, b}
  {
    assert forall s :: s in r.RoomMembers(room) <==> s == a || s == b;
  }

  /** With turn 99 from the later joiner, the later turn wins. */
  method LaterJoinerMergesState(a: Socket, b: Socket)
    requires a != b
  {
    var r, out, sent := JoinSecond(a, b, Obj(map["turn" := Num(99)]));
    assert r.groups[7].state == map["turn" := Num(99)];
  }

  /** An id of 0 is falsy and asks for a new group, which fails when every draw is taken. */
  method ZeroIdAsksForNewGroup(a: Socket, b: Socket)
    requires a != b
  {
    var r, out, sent := StartGroup(a, Undefined);
    assert forall i :: 0 <= i < RetryLimit ==> Sevens()[..RetryLimit][i] in {7};
    out, sent := r.OnJoinGroup(b, Num(0), Undefined, Sevens());
    assert out == JoinThrew(GroupIdsExhausted);
  }

  /** A second join on one socket throws, yet the socket has joined the room, the counter moved and the state merged. */
  method DuplicateJoinThrows(a: Socket)
  {
    var r, out, sent := StartGroup(a, Undefined);
    out, sent := r.OnJoinGroup(a, Num(7), Obj(map["x" := Bool(true)]), Sevens());
    assert out == JoinThrew(SocketAlreadyRegistered);
    assert r.nextPlayerId == 3;
    assert r.groups[7].state == map["x" := Bool(true)];
  }

  /**
   * A falsy id from a socket that already has a player creates and registers
   * group 8 before the Player constructor throws, and no player ever belongs
   * to it.
   */
  method DuplicateCreateLeavesEmptyGroup(a: Socket)
  {
    var r, out, sent := StartGroup(a, Undefined);
    var eights := seq(RetryLimit, _ => 8);
    FirstUnusedAt(eights[..RetryLimit], {7}, 0);
    out, sent := r.OnJoinGroup(a, Undefined, Undefined, eights);
    assert out == JoinThrew(SocketAlreadyRegistered);
    assert 8 in r.groups && r.players.Keys == {a};
    assert forall s :: s in r.players ==> r.players[s].group != r.groups[8];
  }

  /** A state update from one member is merged and heard by the other. */
  method StateUpdateReachesOthers(a: Socket, b: Socket)
    requires a != b
  {
    var r, out, sent := JoinSecond(a, b, Undefined);
    var done;
    done, sent := r.OnState(b, Obj(map["score" := Num(5)]));
    assert r.groups[7].state == map["turn" := Num(1), "score" := Num(5)];
    assert r.RoomMembers(RoomName(7)) - {b} == {a};
    assert sent[0].recipients == {a};
  }

  /** After the last member of group 7 disconnects, group 7 is gone and cannot be joined. */
  method LastMemberTakesGroup(a: Socket)
  {
    var r, out, sent := StartGroup(a, Undefined);
    sent := r.OnDisconnect(a);
    assert r.players == map[] && 7 !in r.groups;
    assert "Could not join group " + IntToString(7) == "Could not join group 7";
    out, sent := r.OnJoinGroup(a, Num(7), Undefined, Sevens());
    assert out == Resolved(ServerError("Could not join group 7"));
  }
}
