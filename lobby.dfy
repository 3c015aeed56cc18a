// The room registry seen from connections: room lookup on register and join, message
// argument normalisation, and the cleanup rule.
module Lobby {
  import opened Wrappers
  import opened Entities

  /** What the registry knows of a room: its id and the join codes of its slots. */
  datatype RoomCard = RoomCard(id: string, codes: seq<string>)

  /** First room (in creation order) with the given id. */
  function RoomIndex(rooms: seq<RoomCard>, id: string, from: nat): (r: Option<nat>)
    requires from <= |rooms|
    ensures r.Some? ==> from <= r.value < |rooms| && rooms[r.value].id == id
    ensures r.None? ==> forall j :: from <= j < |rooms| ==> rooms[j].id != id
    decreases |rooms| - from
  {
    if from == |rooms| then None
    else if rooms[from].id == id then Some(from)
    else RoomIndex(rooms, id, from + 1)
  }

  /** First room (in creation order) with a slot carrying the code. */
  function RoomHolding(rooms: seq<RoomCard>, code: string, from: nat): (r: Option<nat>)
    requires from <= |rooms|
    ensures r.Some? ==> from <= r.value < |rooms| && code in rooms[r.value].codes
    ensures r.Some? ==> forall j :: from <= j < r.value ==> code !in rooms[j].codes
    ensures r.None? ==> forall j :: from <= j < |rooms| ==> code !in rooms[j].codes
    decreases |rooms| - from
  {
    if from == |rooms| then None
    else if code in rooms[from].codes then Some(from)
    else RoomHolding(rooms, code, from + 1)
  }

  /** The room a join request lands in: the named room if it exists, otherwise the first
      room holding the code, even when a room id was given and is unknown. */
  function JoinTarget(rooms: seq<RoomCard>, roomId: string, code: string): (r: Option<nat>)
    ensures r.Some? ==> r.value < |rooms|
    ensures roomId != "" && (exists j :: 0 <= j < |rooms| && rooms[j].id == roomId) ==>
      r.Some? && rooms[r.value].id == roomId
    ensures r.Some? && rooms[r.value].id != roomId ==>
      code in rooms[r.value].codes && forall j :: 0 <= j < r.value ==> code !in rooms[j].codes
    ensures r.None? <==>
      (roomId == "" || forall j :: 0 <= j < |rooms| ==> rooms[j].id != roomId) &&
      forall j :: 0 <= j < |rooms| ==> code !in rooms[j].codes
  {
    var named := if roomId == "" then None else RoomIndex(rooms, roomId, 0);
    if named.Some? then named else RoomHolding(rooms, code, 0)
  }

  datatype Registration = Attach(room: nat) | NotFound | Create

  /** `register_game`: an existing id attaches, an unknown id is refused, no id creates a room. */
  function RegisterTarget(rooms: seq<RoomCard>, roomId: string): (r: Registration)
    ensures r.Attach? ==> r.room < |rooms| && rooms[r.room].id == roomId && roomId != ""
    ensures r.Create? <==> roomId == ""
    ensures r.NotFound? <==> roomId != "" && forall j :: 0 <= j < |rooms| ==> rooms[j].id != roomId
  {
    if roomId == "" then Create
    else match RoomIndex(rooms, roomId, 0)
      case Some(i) => Attach(i)
      case None => NotFound
  }

  /** The display name a join sets: at most the first five characters, and only when non-empty. */
  function NameFrom(raw: string, current: string): (n: string)
    ensures raw == [] ==> n == current
    ensures raw != [] ==> 1 <= |n| <= 5 && |n| <= |raw| && n == raw[..|n|]
    ensures 0 < |raw| <= 5 ==> n == raw
    ensures |raw| > 5 ==> n == raw[..5]
  {
    if raw == [] then current else if |raw| <= 5 then raw else raw[..5]
  }

  /** A joystick axis: numbers are clamped to [-1, 1]; anything else reads as 0. */
  function AxisInput(v: Option<real>): (a: real)
    ensures -1.0 <= a <= 1.0
    ensures v.Some? && -1.0 <= v.value <= 1.0 ==> a == v.value
    ensures v.Some? && v.value > 1.0 ==> a == 1.0
    ensures v.Some? && v.value < -1.0 ==> a == -1.0
    ensures v.None? ==> a == 0.0
  {
    match v
    case None => 0.0
    case Some(x) => if x > 1.0 then 1.0 else if x < -1.0 then -1.0 else x
  }

  predicate HumanPresent(ps: seq<Player>) {
    exists i :: 0 <= i < |ps| && ps[i].connected && !ps[i].isBot
  }

  /** A room is destroyed once it has neither a game screen nor a connected human. */
  predicate CleanupDue(screens: nat, ps: seq<Player>) {
    screens == 0 && !HumanPresent(ps)
  }

  /** Connected bots never keep a room alive; one connected human or one screen does. */
  lemma CleanupIgnoresBots(screens: nat, ps: seq<Player>)
    ensures CleanupDue(screens, ps) <==>
      screens == 0 && forall i :: 0 <= i < |ps| ==> ps[i].isBot || !ps[i].connected
  {
  }

  // ---- the screens of a room ----

  /** `indexOf`: the first position of x in s from `from` on. */
  function IndexOf(s: seq<nat>, x: nat, from: nat): (r: Option<nat>)
    requires from <= |s|
    ensures r.Some? ==> from <= r.value < |s| && s[r.value] == x
    ensures r.Some? ==> forall j :: from <= j < r.value ==> s[j] != x
    ensures r.None? ==> forall j :: from <= j < |s| ==> s[j] != x
    decreases |s| - from
  {
    if from == |s| then None
    else if s[from] == x then Some(from)
    else IndexOf(s, x, from + 1)
  }

  /** `splice(indexOf(x), 1)`: s without its first occurrence of x. */
  function RemoveFirst(s: seq<nat>, x: nat): (r: seq<nat>)
    ensures multiset(r) == multiset(s) - multiset{x}
    ensures x !in s ==> r == s
  {
    match IndexOf(s, x, 0)
    case None => s
    case Some(i) =>
      assert s == s[..i] + [x] + s[i + 1..];
      s[..i] + s[i + 1..]
  }

  /** Removing one screen keeps every other screen, and shortens the list by one when present. */
  lemma RemoveFirstKeepsOthers(s: seq<nat>, x: nat, y: nat)
    ensures y != x ==> (y in RemoveFirst(s, x) <==> y in s)
    ensures |RemoveFirst(s, x)| == |s| - (if x in s then 1 else 0)
  {
    var r := RemoveFirst(s, x);
    assert y in r <==> y in multiset(r);
    assert y in s <==> y in multiset(s);
    assert |multiset(r)| == |r| && |multiset(s)| == |s|;
    if x in s {
      assert x in multiset(s);
      assert multiset(s) == multiset(r) + multiset{x};
    }
  }

  /** The owner after a screen closes: the first remaining screen when the owner left, if any. */
  function NextOwner(remaining: seq<nat>, owner: Option<nat>, leaving: nat): (o: Option<nat>)
    ensures owner != Some(leaving) ==> o == owner
    ensures owner == Some(leaving) && remaining != [] ==> o == Some(remaining[0])
    ensures owner == Some(leaving) && remaining == [] ==> o.None?
    ensures o.Some? && o != owner ==> o.value in remaining
  {
    if owner == Some(leaving) then (if remaining != [] then Some(remaining[0]) else None) else owner
  }
}
