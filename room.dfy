// The per-room rule engine: one Room object whose fields the message handlers and the
// game loop update in place.
module RoomEngine {
  import opened Wrappers
  import opened Config
  import opened Geometry
  import opened Entities
  import opened Combat
  import opened Healing
  import opened Pickups
  import opened Rounds
  import opened Roster
  import opened Lobby
  import opened Movement
  import opened Bots

  function HandleSet(h: Option<nat>): set<nat> {
    if h.Some? then {h.value} else {}
  }

  /** The slot a new round puts a player in. */
  function Reseated(p: Player, at: Point, resetScores: bool): Player {
    p.(pos := at, score := if resetScores then 0 else p.score, hp := MAX_HP, alive := true)
  }

  datatype JoinReply = InvalidCode | Welcome(id: int)

  /** What one tick of the game loop takes from outside: the clock, the bots' steering, vector
      normalisation, the tanks' motion against walls and rocks, the push-apart of an
      overlapping pair, the spot a new pickup would take, and each projectile's wall and aspect
      facts. */
  datatype Frame = Frame(now: int, steer: Steering, norm: Vec -> Vec, drive: Drive, push: Push,
                         at: Point, shots: int -> ShotEnv)

  // ---- the parts of the room invariant, on field values ----

  /** Capacity in [2, 7], one slot per id, bots only in slots 3 and up, spawn points in the arena. */
  ghost predicate SlotsInv(count: int, ps: seq<Player>, bots: set<int>, spawn: Layout) {
    && MIN_PLAYERS <= count <= MAX_PLAYERS
    && |ps| == count
    && (forall b :: b in bots ==> MIN_PLAYERS < b <= count)
    && RosterOk(ps, bots)
    && LayoutInArena(spawn)
  }

  /** Every per-id table covers exactly the seated ids; the heal table may keep more. */
  ghost predicate TablesInv(count: int, input: map<int, Vec>, facing: map<int, Vec>,
                            proj: map<int, Option<Projectile>>, lastFire: map<int, int>,
                            heal: map<int, HealState>, mods: map<int, Mods>) {
    && Covers(input, count) && Covers(facing, count) && Covers(proj, count)
    && Covers(lastFire, count) && Covers(mods, count)
    && forall k :: 1 <= k <= count ==> k in heal
  }

  /** At most one pickup lies on the field, and it is the latest spawned one. */
  ghost predicate PickupsInv(ks: seq<Pickup>, typeIndex: nat, counter: nat) {
    && |ks| <= 1
    && typeIndex == counter
    && forall k :: k in ks ==> counter >= 1 && k.id == counter && k.kind == TypeAt(counter - 1)
  }

  /** A round runs exactly while a loop handle is held, and no other interval is live. */
  ghost predicate TimersInv(running: bool, loop: Option<nat>, live: set<nat>) {
    (running <==> loop.Some?) && live <= HandleSet(loop)
  }

  /** The owner, if any, is one of the screens. */
  ghost predicate ScreensInv(screens: seq<nat>, owner: Option<nat>) {
    owner.Some? ==> owner.value in screens
  }

  /** The heal loop keeps the slot, table and flight parts of the invariant. */
  lemma HealPassInv(count: int, ps: seq<Player>, bots: set<int>, spawn: Layout, input: map<int, Vec>,
                    facing: map<int, Vec>, pr: map<int, Option<Projectile>>, lastFire: map<int, int>,
                    heal: map<int, HealState>, mods: map<int, Mods>, now: int)
    requires SlotsInv(count, ps, bots, spawn) && TablesInv(count, input, facing, pr, lastFire, heal, mods)
    requires FlightInv(ps, pr)
    ensures forall i :: 0 <= i < |ps| ==> ps[i].id in heal
    ensures var r := HealPass(ps, heal, now);
      && SlotsInv(count, r.0, bots, spawn) && TablesInv(count, input, facing, pr, lastFire, r.1, mods)
      && FlightInv(r.0, pr)
  {
    forall i | 0 <= i < |ps| ensures ps[i].id in heal {
      assert SlotOk(ps[i], i, bots);
    }
    HealPassKeeps(ps, bots, heal, now);
  }

  /** A spawn onto an empty field keeps the pickup part of the invariant. */
  lemma SpawnInv(counter: nat, at: Point)
    ensures PickupsInv([SpawnedPickup(counter, counter, at)], counter + 1, counter + 1)
  {
  }

  /** The movement loop keeps the slot, table and flight parts of the invariant. */
  lemma MoveInv(count: int, ps: seq<Player>, bots: set<int>, spawn: Layout, input: map<int, Vec>,
                facing: map<int, Vec>, pr: map<int, Option<Projectile>>, lastFire: map<int, int>,
                heal: map<int, HealState>, mods: map<int, Mods>, drive: Drive, norm: Vec -> Vec)
    requires SlotsInv(count, ps, bots, spawn) && TablesInv(count, input, facing, pr, lastFire, heal, mods)
    requires FlightInv(ps, pr)
    ensures Tabled(ps, input, mods)
    ensures var qs := Moved(ps, input, mods, drive, |ps|);
      && SlotsInv(count, qs, bots, spawn) && FlightInv(qs, pr)
      && TablesInv(count, input, Turned(ps, input, facing, norm, |ps|), pr, lastFire, heal, mods)
  {
    assert Numbered(ps) by {
      forall j | 0 <= j < |ps| ensures ps[j].id == j + 1 {
        assert SlotOk(ps[j], j, bots);
      }
    }
    MovedKeeps(ps, bots, input, mods, drive);
    if |ps| > 0 {
      TurnedAt(ps, input, facing, norm, |ps|, 0);
    }
  }

  /** The end of a round keeps the slot and flight parts of the invariant and stops all timers. */
  lemma EndInv(count: int, ps: seq<Player>, bots: set<int>, spawn: Layout, pr: map<int, Option<Projectile>>,
               running: bool, loop: Option<nat>, live: set<nat>)
    requires SlotsInv(count, ps, bots, spawn) && FlightInv(ps, pr) && TimersInv(running, loop, live)
    ensures SlotsInv(count, AwardSurvivor(ps), bots, spawn) && FlightInv(AwardSurvivor(ps), pr)
    ensures TimersInv(false, None, live - HandleSet(loop)) && live - HandleSet(loop) == {}
    ensures CountAlive(AwardSurvivor(ps)) == CountAlive(ps)
  {
    AwardKeeps(ps, bots);
  }

  /** The per-id tables of a fresh round of capacity n; the heal table keeps entries beyond n. */
  ghost predicate Cleared(n: int, input: map<int, Vec>, facing: map<int, Vec>,
                          proj: map<int, Option<Projectile>>, lastFire: map<int, int>,
                          heal: map<int, HealState>, mods: map<int, Mods>, heal0: map<int, HealState>) {
    && Uniform(input, n, ZERO_INPUT) && Uniform(facing, n, INITIAL_FACING)
    && Uniform(proj, n, None) && Uniform(lastFire, n, 0)
    && Overlay(heal, heal0, n, IDLE_HEAL)
    && Uniform(mods, n, NO_MODS)
  }

  /** The slots after `resetRound`, relative to the slots before it. */
  ghost predicate SeatsReset(ps: seq<Player>, ps0: seq<Player>, spawn: Layout, n: int, resetScores: bool) {
    && |ps| == |ps0|
    && forall i :: 0 <= i < |ps| ==> ps[i] == Reseated(ps0[i], spawn(n, i), resetScores)
  }

  // ---- the table loops ----

  /** The loop of the end-of-round branch over the ready table: each player's entry is reset,
      bots pre-readied. */
  method ResetReady(ready0: map<int, bool>, ps: seq<Player>) returns (ready: map<int, bool>)
    ensures ready == ReadyReset(ready0, ps)
  {
    ready := ready0;
    var i := 0;
    while i < |ps|
      invariant 0 <= i <= |ps|
      invariant ready == ReadyReset(ready0, ps[..i])
    {
      assert ps[..i + 1][..i] == ps[..i];
      ready := ready[ps[i].id := ps[i].isBot];
      i := i + 1;
    }
    assert ps[..|ps|] == ps;
  }

  /** The roster loop of `initPlayers`: slot i + 1 is a bot exactly when its id is in `bots`. */
  method BuildRoster(count: int, bots: set<int>, spawn: Layout) returns (ps: seq<Player>)
    requires 0 <= count
    ensures ps == FreshRoster(count, bots, spawn)
  {
    ps := [];
    var i := 0;
    while i < count
      invariant 0 <= i <= count
      invariant ps == FreshSlots(count, bots, spawn, i)
    {
      ps := ps + [FreshPlayer(i + 1, i + 1 in bots, spawn(count, i))];
      i := i + 1;
    }
  }

  /** A per-id table built by assigning v to the ids 1..n in turn. */
  method UniformTable<V>(n: int, v: V) returns (m: map<int, V>)
    ensures Uniform(m, n, v)
  {
    m := map[];
    var i := 0;
    while i < n
      invariant (n <= 0 && i == 0) || 0 <= i <= n
      invariant Uniform(m, i, v)
    {
      m := m[i + 1 := v];
      i := i + 1;
    }
  }

  /** Table m0 after assigning v to the ids 1..n in turn. */
  method OverlayTable<V>(m0: map<int, V>, n: int, v: V) returns (m: map<int, V>)
    ensures Overlay(m, m0, n, v)
  {
    m := m0;
    var i := 0;
    while i < n
      invariant (n <= 0 && i == 0) || 0 <= i <= n
      invariant Overlay(m, m0, i, v)
    {
      m := m[i + 1 := v];
      i := i + 1;
    }
  }

  /** The tables of `initPlayers`: every per-id table of a fresh room of capacity n, and the
      heal table heal0 with the ids 1..n reset. */
  method FreshTables(n: int, heal0: map<int, HealState>)
    returns (input: map<int, Vec>, facing: map<int, Vec>, proj: map<int, Option<Projectile>>,
             lastFire: map<int, int>, heal: map<int, HealState>, mods: map<int, Mods>)
    ensures Cleared(n, input, facing, proj, lastFire, heal, mods, heal0)
  {
    input := UniformTable(n, ZERO_INPUT);
    facing := UniformTable(n, INITIAL_FACING);
    proj := UniformTable(n, None);
    lastFire := UniformTable(n, 0);
    heal := OverlayTable(heal0, n, IDLE_HEAL);
    mods := UniformTable(n, NO_MODS);
  }

  /** The per-id resets of `resetRound`: the entries of the ids 1..n of every table are reset. */
  method ClearTables(n: int, input0: map<int, Vec>, facing0: map<int, Vec>, proj0: map<int, Option<Projectile>>,
                     lastFire0: map<int, int>, heal0: map<int, HealState>, mods0: map<int, Mods>)
    returns (input: map<int, Vec>, facing: map<int, Vec>, proj: map<int, Option<Projectile>>,
             lastFire: map<int, int>, heal: map<int, HealState>, mods: map<int, Mods>)
    requires Covers(input0, n) && Covers(facing0, n) && Covers(proj0, n) && Covers(lastFire0, n) && Covers(mods0, n)
    ensures Cleared(n, input, facing, proj, lastFire, heal, mods, heal0)
  {
    input := OverlayTable(input0, n, ZERO_INPUT);
    facing := OverlayTable(facing0, n, INITIAL_FACING);
    proj := OverlayTable(proj0, n, None);
    lastFire := OverlayTable(lastFire0, n, 0);
    heal := OverlayTable(heal0, n, IDLE_HEAL);
    mods := OverlayTable(mods0, n, NO_MODS);
  }

  /** The slot loop of `resetRound`: every tank to its spawn point with full HP. */
  method ReseatAll(ps0: seq<Player>, spawn: Layout, n: int, resetScores: bool) returns (ps: seq<Player>)
    ensures SeatsReset(ps, ps0, spawn, n, resetScores)
  {
    ps := ps0;
    var i := 0;
    while i < |ps|
      invariant 0 <= i <= |ps| == |ps0|
      invariant forall j :: 0 <= j < i ==> ps[j] == Reseated(ps0[j], spawn(n, j), resetScores)
      invariant forall j :: i <= j < |ps| ==> ps[j] == ps0[j]
    {
      ps := ps[i := Reseated(ps[i], spawn(n, i), resetScores)];
      i := i + 1;
    }
  }

  /** The restore loop of `add_bot` and `remove_bot`: saved humans get their connection, score
      and name back in the slot of their id. */
  method RestoreLoop(ps0: seq<Player>, saved: seq<Saved>) returns (ps: seq<Player>)
    ensures ps == RestoreAll(ps0, saved)
  {
    ps := ps0;
    var i := 0;
    while i < |saved|
      invariant 0 <= i <= |saved|
      invariant ps == RestoreAll(ps0, saved[..i])
    {
      var h := saved[i];
      if 1 <= h.id <= |ps| {
        ps := ps[h.id - 1 := ps[h.id - 1].(ws := h.ws, connected := true, score := h.score, name := h.name)];
      }
      assert saved[..i + 1][..i] == saved[..i];
      i := i + 1;
    }
    assert saved[..i] == saved;
  }

  /** The roster and tables `add_bot` and `remove_bot` rebuild: `initPlayers` for capacity n,
      then the restore loop over the saved humans. */
  method RebuildRoom(n: int, bots: set<int>, spawn: Layout, heal0: map<int, HealState>, saved: seq<Saved>)
    returns (ps: seq<Player>, input: map<int, Vec>, facing: map<int, Vec>, proj: map<int, Option<Projectile>>,
             lastFire: map<int, int>, heal: map<int, HealState>, mods: map<int, Mods>)
    requires 0 <= n
    ensures ps == RestoreAll(FreshRoster(n, bots, spawn), saved)
    ensures Cleared(n, input, facing, proj, lastFire, heal, mods, heal0)
  {
    var seats := BuildRoster(n, bots, spawn);
    input, facing, proj, lastFire, heal, mods := FreshTables(n, heal0);
    ps := RestoreLoop(seats, saved);
  }

  /** A rebuilt roster and its fresh tables meet the slot, table and flight parts of the invariant. */
  lemma RebuildInv(n: int, bots: set<int>, spawn: Layout, saved: seq<Saved>, ps: seq<Player>, input: map<int, Vec>,
                   facing: map<int, Vec>, pr: map<int, Option<Projectile>>, lastFire: map<int, int>,
                   heal: map<int, HealState>, mods: map<int, Mods>, heal0: map<int, HealState>)
    requires MIN_PLAYERS <= n <= MAX_PLAYERS && LayoutInArena(spawn)
    requires forall b :: b in bots ==> MIN_PLAYERS < b <= n
    requires ps == RestoreAll(FreshRoster(n, bots, spawn), saved)
    requires Cleared(n, input, facing, pr, lastFire, heal, mods, heal0)
    ensures SlotsInv(n, ps, bots, spawn) && TablesInv(n, input, facing, pr, lastFire, heal, mods) && FlightInv(ps, pr)
  {
    FreshRosterOk(n, bots, spawn);
    RestoreKeepsSlots(FreshRoster(n, bots, spawn), saved, bots);
  }

  /** Fresh tables meet the table part of the invariant, and no projectile flies. */
  lemma ClearedInv(n: int, ps: seq<Player>, input: map<int, Vec>, facing: map<int, Vec>,
                   pr: map<int, Option<Projectile>>, lastFire: map<int, int>, heal: map<int, HealState>,
                   mods: map<int, Mods>, heal0: map<int, HealState>)
    requires Cleared(n, input, facing, pr, lastFire, heal, mods, heal0)
    ensures TablesInv(n, input, facing, pr, lastFire, heal, mods) && FlightInv(ps, pr)
  {
  }

  /** Reseated slots keep the slot part of the invariant. */
  lemma ReseatInv(count: int, ps0: seq<Player>, ps: seq<Player>, bots: set<int>, spawn: Layout, resetScores: bool)
    requires SlotsInv(count, ps0, bots, spawn) && SeatsReset(ps, ps0, spawn, count, resetScores)
    ensures SlotsInv(count, ps, bots, spawn)
  {
    forall j | 0 <= j < |ps| ensures SlotOk(ps[j], j, bots) {
      assert SlotOk(ps0[j], j, bots);
      assert InArena(spawn(count, j));
    }
  }

  /** The slot after a join: the new connection, connected, and the name the join carries. */
  function Joined(p: Player, conn: nat, rawName: string): (q: Player)
    ensures q == p.(ws := Some(conn), connected := true, name := q.name)
    ensures q.name == NameFrom(rawName, p.name)
  {
    p.(ws := Some(conn), connected := true, name := NameFrom(rawName, p.name))
  }

  /** The slot after its connection closes. */
  function Left(p: Player): (q: Player)
    ensures q == p.(ws := None, connected := false)
  {
    p.(ws := None, connected := false)
  }

  class Room {
    /** Spawn position of slot i in a room of capacity n. */
    const spawn: Layout

    var running: bool
    /** The game-loop interval handle, and the set of intervals still scheduled. */
    var loop: Option<nat>
    var liveTimers: set<nat>

    var playerCount: int
    var players: seq<Player>
    var bots: set<int>
    var inputState: map<int, Vec>
    var facing: map<int, Vec>
    var projectiles: map<int, Option<Projectile>>
    var lastFireTime: map<int, int>
    var healState: map<int, HealState>
    var playerPickups: map<int, Mods>
    var readyState: map<int, bool>

    var pickups: seq<Pickup>
    var lastPickupSpawnTime: int
    var nextPickupTypeIndex: nat
    var pickupIdCounter: nat

    var destructibles: seq<Destructible>
    var gameStartTime: int
    var shotsFired: seq<int>

    var screens: seq<nat>
    var owner: Option<nat>

    ghost predicate Valid()
      reads this
    {
      && SlotsInv(playerCount, players, bots, spawn)
      && TablesInv(playerCount, inputState, facing, projectiles, lastFireTime, healState, playerPickups)
      && FlightInv(players, projectiles)
      && PickupsInv(pickups, nextPickupTypeIndex, pickupIdCounter)
      && TimersInv(running, loop, liveTimers)
      && ScreensInv(screens, owner)
    }

    /** The per-id tables are those of a fresh round, relative to the heal table heal0. */
    ghost predicate TablesCleared(heal0: map<int, HealState>)
      reads this
    {
      Cleared(playerCount, inputState, facing, projectiles, lastFireTime, healState, playerPickups, heal0)
    }

    /** `createRoom` followed by the creating screen's registration as owner. */
    constructor(spawn: Layout, rocks: seq<Destructible>, conn: nat)
      requires LayoutInArena(spawn)
      ensures Valid()
      ensures this.spawn == spawn
      ensures !running && loop == None && liveTimers == {}
      ensures playerCount == 2 && players == FreshRoster(2, {}, spawn) && bots == {}
      ensures TablesCleared(map[])
      ensures readyState == map[] && pickups == [] && shotsFired == []
      ensures destructibles == rocks
      ensures screens == [conn] && owner == Some(conn)
    {
      var ps := BuildRoster(2, {}, spawn);
      FreshRosterOk(2, {}, spawn);
      var input, face, pr, lf, heal, mods := FreshTables(2, map[]);
      ClearedInv(2, ps, input, face, pr, lf, heal, mods, map[]);
      this.spawn := spawn;
      running, loop, liveTimers := false, None, {};
      playerCount, players, bots := 2, ps, {};
      inputState, facing, projectiles, lastFireTime := input, face, pr, lf;
      healState, playerPickups, readyState := heal, mods, map[];
      pickups, lastPickupSpawnTime, nextPickupTypeIndex, pickupIdCounter := [], 0, 0, 0;
      destructibles, gameStartTime, shotsFired := rocks, 0, [];
      screens, owner := [conn], Some(conn);
    }

    /** `initPlayers`: a fresh roster of capacity `count` with fresh per-id tables. */
    method InitPlayers(count: int)
      requires MIN_PLAYERS <= count <= MAX_PLAYERS && LayoutInArena(spawn)
      requires forall b :: b in bots ==> MIN_PLAYERS < b
      modifies this`playerCount, this`players, this`bots, this`inputState, this`facing,
               this`projectiles, this`lastFireTime, this`healState, this`playerPickups
      ensures playerCount == count
      ensures players == FreshRoster(count, old(bots), spawn)
      ensures bots == set b | b in old(bots) && b <= count
      ensures Cleared(count, inputState, facing, projectiles, lastFireTime, healState, playerPickups, old(healState))
      ensures SlotsInv(playerCount, players, bots, spawn)
      ensures TablesInv(playerCount, inputState, facing, projectiles, lastFireTime, healState, playerPickups)
      ensures FlightInv(players, projectiles)
    {
      var bots1 := set b | b in bots && b <= count;
      var ps := BuildRoster(count, bots, spawn);
      FreshRosterBots(count, bots, bots1, spawn);
      FreshRosterOk(count, bots1, spawn);
      var input, face, pr, lf, heal, mods := FreshTables(count, healState);
      ClearedInv(count, ps, input, face, pr, lf, heal, mods, healState);
      playerCount, players, bots := count, ps, bots1;
      inputState, facing, projectiles, lastFireTime, healState, playerPickups := input, face, pr, lf, heal, mods;
    }

    /** The new-round state `resetRound` leaves behind. */
    ghost predicate RoundReset(ps0: seq<Player>, heal0: map<int, HealState>, resetScores: bool, rocks: seq<Destructible>)
      reads this
    {
      && SeatsReset(players, ps0, spawn, playerCount, resetScores)
      && TablesCleared(heal0)
      && destructibles == rocks && pickups == []
      && lastPickupSpawnTime == 0 && nextPickupTypeIndex == 0 && pickupIdCounter == 0
    }

    /** `resetRound`: everyone back at the spawn points with full HP and fresh tables. */
    method ResetRound(resetScores: bool, rocks: seq<Destructible>)
      requires Valid()
      modifies this`players, this`inputState, this`facing, this`projectiles, this`lastFireTime,
               this`healState, this`playerPickups, this`destructibles, this`pickups,
               this`lastPickupSpawnTime, this`nextPickupTypeIndex, this`pickupIdCounter
      ensures Valid()
      ensures RoundReset(old(players), old(healState), resetScores, rocks)
    {
      var ps := ReseatAll(players, spawn, playerCount, resetScores);
      ReseatInv(playerCount, players, ps, bots, spawn, resetScores);
      var input, face, pr, lf, heal, mods :=
        ClearTables(playerCount, inputState, facing, projectiles, lastFireTime, healState, playerPickups);
      ClearedInv(playerCount, ps, input, face, pr, lf, heal, mods, healState);
      players, inputState, facing, projectiles, lastFireTime, healState, playerPickups := ps, input, face, pr, lf, heal, mods;
      destructibles, pickups, lastPickupSpawnTime, nextPickupTypeIndex, pickupIdCounter := rocks, [], 0, 0, 0;
    }

    /** `startGame`: scores cleared, a new round, and a new game-loop interval in place of any old one. */
    method StartGame(now: int, timer: nat, rocks: seq<Destructible>)
      requires Valid()
      modifies this`players, this`inputState, this`facing, this`projectiles, this`lastFireTime,
               this`healState, this`playerPickups, this`destructibles, this`pickups,
               this`lastPickupSpawnTime, this`nextPickupTypeIndex, this`pickupIdCounter,
               this`running, this`gameStartTime, this`loop, this`liveTimers
      ensures Valid()
      ensures running && gameStartTime == now && loop == Some(timer) && liveTimers == {timer}
      ensures RoundReset(old(players), old(healState), true, rocks)
      ensures forall i :: 0 <= i < |players| ==> players[i].score == 0
      ensures playerCount == old(playerCount) && bots == old(bots) && readyState == old(readyState)
      ensures screens == old(screens) && owner == old(owner) && shotsFired == old(shotsFired)
    {
      BeginRound(true, now, timer, rocks);
    }

    /** `restartRound`: like `startGame`, but the scores carry over. */
    method RestartRound(now: int, timer: nat, rocks: seq<Destructible>)
      requires Valid()
      modifies this`players, this`inputState, this`facing, this`projectiles, this`lastFireTime,
               this`healState, this`playerPickups, this`destructibles, this`pickups,
               this`lastPickupSpawnTime, this`nextPickupTypeIndex, this`pickupIdCounter,
               this`running, this`gameStartTime, this`loop, this`liveTimers
      ensures Valid()
      ensures running && gameStartTime == now && loop == Some(timer) && liveTimers == {timer}
      ensures RoundReset(old(players), old(healState), false, rocks)
      ensures forall i :: 0 <= i < |players| ==> players[i].score == old(players)[i].score
      ensures playerCount == old(playerCount) && bots == old(bots) && readyState == old(readyState)
      ensures screens == old(screens) && owner == old(owner) && shotsFired == old(shotsFired)
    {
      BeginRound(false, now, timer, rocks);
    }

    /** The common body of `startGame` and `restartRound`. */
    method BeginRound(resetScores: bool, now: int, timer: nat, rocks: seq<Destructible>)
      requires Valid()
      modifies this`players, this`inputState, this`facing, this`projectiles, this`lastFireTime,
               this`healState, this`playerPickups, this`destructibles, this`pickups,
               this`lastPickupSpawnTime, this`nextPickupTypeIndex, this`pickupIdCounter,
               this`running, this`gameStartTime, this`loop, this`liveTimers
      ensures Valid()
      ensures running && gameStartTime == now && loop == Some(timer) && liveTimers == {timer}
      ensures RoundReset(old(players), old(healState), resetScores, rocks)
      ensures playerCount == old(playerCount) && bots == old(bots) && readyState == old(readyState)
      ensures screens == old(screens) && owner == old(owner) && shotsFired == old(shotsFired)
    {
      ResetRound(resetScores, rocks);
      running, gameStartTime, loop, liveTimers := true, now, Some(timer), {timer};
    }

    /** `pauseGame`: the round stops and its interval is cleared. */
    method PauseGame()
      requires Valid()
      modifies this`running, this`loop, this`liveTimers
      ensures Valid()
      ensures !running && loop == None && liveTimers == {}
    {
      running := false;
      loop := None;
      liveTimers := {};
    }

    /** `set_player_count`, from the owner and between rounds only: a fresh roster of the clamped
        capacity; humans are not kept. */
    method SetPlayerCount(conn: nat, raw: Option<int>, rocks: seq<Destructible>)
      requires Valid()
      modifies this`playerCount, this`players, this`bots, this`inputState, this`facing,
               this`projectiles, this`lastFireTime, this`healState, this`playerPickups, this`destructibles
      ensures Valid()
      ensures old(owner) == Some(conn) && !old(running) ==>
        && playerCount == ClampCount(raw)
        && players == FreshRoster(playerCount, old(bots), spawn)
        && bots == set b | b in old(bots) && b <= playerCount
        && TablesCleared(old(healState))
        && destructibles == rocks
      ensures !(old(owner) == Some(conn) && !old(running)) ==> unchanged(this)
    {
      if owner == Some(conn) && !running {
        var count := ClampCount(raw);
        // the handler's own filter of the bot ids is the one InitPlayers applies again
        InitPlayers(count);
        destructibles := rocks;
      }
    }

    /** The roster `add_bot` and `remove_bot` leave: a fresh roster of capacity `count` with the
        saved humans of `ps0` restored, fresh tables, and the new obstacle set. */
    ghost predicate Rebuilt(ps0: seq<Player>, heal0: map<int, HealState>, count: int, rocks: seq<Destructible>)
      reads this
    {
      && playerCount == count && 0 <= count
      && players == RestoreAll(FreshRoster(count, bots, spawn), SaveHumans(ps0))
      && TablesCleared(heal0)
      && destructibles == rocks
    }

    /** The common tail of `add_bot` and `remove_bot` once the bot set is updated. */
    method Rebuild(count: int, rocks: seq<Destructible>)
      requires MIN_PLAYERS <= count <= MAX_PLAYERS && LayoutInArena(spawn)
      requires forall b :: b in bots ==> MIN_PLAYERS < b <= count
      requires PickupsInv(pickups, nextPickupTypeIndex, pickupIdCounter)
      requires TimersInv(running, loop, liveTimers) && ScreensInv(screens, owner)
      modifies this`playerCount, this`players, this`inputState, this`facing, this`projectiles,
               this`lastFireTime, this`healState, this`playerPickups, this`destructibles
      ensures Valid()
      ensures Rebuilt(old(players), old(healState), count, rocks)
    {
      // every bot id is within the new capacity, so the filter of `initPlayers` keeps them all
      var ps, input, face, pr, lf, heal, mods := RebuildRoom(count, bots, spawn, healState, SaveHumans(players));
      RebuildInv(count, bots, spawn, SaveHumans(players), ps, input, face, pr, lf, heal, mods, healState);
      playerCount, players, inputState, facing, projectiles, lastFireTime := count, ps, input, face, pr, lf;
      healState, playerPickups, destructibles := heal, mods, rocks;
    }

    /** `add_bot`, from the owner, between rounds, below capacity seven: the next slot becomes a bot
        and every connected human keeps its slot, connection, score and name. */
    method AddBot(conn: nat, rocks: seq<Destructible>)
      requires Valid()
      modifies this`bots, this`playerCount, this`players, this`inputState, this`facing, this`projectiles,
               this`lastFireTime, this`healState, this`playerPickups, this`destructibles
      ensures Valid()
      ensures old(owner) == Some(conn) && !old(running) && old(playerCount) < MAX_PLAYERS ==>
        bots == old(bots) + {old(playerCount) + 1} &&
        Rebuilt(old(players), old(healState), old(playerCount) + 1, rocks)
      ensures !(old(owner) == Some(conn) && !old(running) && old(playerCount) < MAX_PLAYERS) ==> unchanged(this)
    {
      if owner == Some(conn) && !running && playerCount < MAX_PLAYERS {
        var newCount := playerCount + 1;
        bots := bots + {newCount};
        Rebuild(newCount, rocks);
      }
    }

    /** `remove_bot`, from the owner, between rounds, with a bot present: the highest bot id is
        removed, the capacity shrinks only when that was the last slot, and humans are kept. */
    method RemoveBot(conn: nat, rocks: seq<Destructible>) returns (removed: Option<int>)
      requires Valid()
      modifies this`bots, this`playerCount, this`players, this`inputState, this`facing, this`projectiles,
               this`lastFireTime, this`healState, this`playerPickups, this`destructibles
      ensures Valid()
      ensures removed.Some? <==> old(owner) == Some(conn) && !old(running) && old(bots) != {}
      ensures removed.Some? ==>
        && removed.value in old(bots) && (forall b :: b in old(bots) ==> b <= removed.value)
        && bots == old(bots) - {removed.value}
        && Rebuilt(old(players), old(healState), CountAfterRemoval(old(playerCount), removed.value), rocks)
      ensures removed.None? ==> unchanged(this)
    {
      removed := None;
      if owner == Some(conn) && !running && bots != {} {
        var top := HighestBot(bots);
        bots := bots - {top};
        Rebuild(CountAfterRemoval(playerCount, top), rocks);
        removed := Some(top);
      }
    }
    /** `join` within the room: the first slot carrying the code takes the connection and
        the name; the game starts once every slot is connected. */
    method Join(conn: nat, code: string, rawName: string, now: int, timer: nat, rocks: seq<Destructible>)
      returns (reply: JoinReply)
      requires Valid()
      modifies this`players, this`inputState, this`facing, this`projectiles, this`lastFireTime,
               this`healState, this`playerPickups, this`destructibles, this`pickups,
               this`lastPickupSpawnTime, this`nextPickupTypeIndex, this`pickupIdCounter,
               this`running, this`gameStartTime, this`loop, this`liveTimers
      ensures Valid()
      ensures FindByCode(old(players), code, 0).None? ==> reply == InvalidCode && unchanged(this)
      ensures FindByCode(old(players), code, 0).Some? ==>
        var i := FindByCode(old(players), code, 0).value;
        var ps1 := old(players)[i := Joined(old(players)[i], conn, rawName)];
        && reply == Welcome(i + 1)
        && (AllConnected(ps1) && !old(running) ==>
              && running && gameStartTime == now && loop == Some(timer) && liveTimers == {timer}
              && RoundReset(ps1, old(healState), true, rocks))
        && (!(AllConnected(ps1) && !old(running)) ==>
              && players == ps1 && unchanged(this`inputState, this`facing, this`projectiles,
                   this`lastFireTime, this`healState, this`playerPickups, this`destructibles,
                   this`pickups, this`lastPickupSpawnTime, this`nextPickupTypeIndex,
                   this`pickupIdCounter, this`running, this`gameStartTime, this`loop, this`liveTimers))
    {
      var slot := Seat(conn, code, rawName);
      if slot.None? {
        return InvalidCode;
      }
      reply := Welcome(players[slot.value].id);
      if AllConnected(players) && !running {
        StartGame(now, timer, rocks);
      }
    }

    /** The slot lookup and takeover of `join`. */
    method Seat(conn: nat, code: string, rawName: string) returns (slot: Option<nat>)
      requires Valid()
      modifies this`players
      ensures Valid()
      ensures slot == FindByCode(old(players), code, 0)
      ensures slot.Some? ==> (slot.value < |players| &&
        players == old(players)[slot.value := Joined(old(players)[slot.value], conn, rawName)])
      ensures slot.None? ==> players == old(players)
    {
      slot := FindByCode(players, code, 0);
      if slot.Some? {
        var i := slot.value;
        players := players[i := Joined(players[i], conn, rawName)];
        assert SlotOk(players[i], i, bots);
      }
    }

    /** `joystick`: the stick position, each axis clamped to [-1, 1], for a known id. */
    method Joystick(id: int, x: Option<real>, y: Option<real>)
      requires Valid()
      modifies this`inputState
      ensures Valid()
      ensures id in old(inputState) ==> inputState == old(inputState)[id := Vec(AxisInput(x), AxisInput(y))]
      ensures id !in old(inputState) ==> inputState == old(inputState)
    {
      if id in inputState {
        inputState := inputState[id := Vec(AxisInput(x), AxisInput(y))];
      }
    }

    /** `tryShoot`: a projectile leaves the barrel when the guard holds, and is recorded as a shot. */
    method TryShoot(id: int, now: int) returns (fired: bool)
      requires Valid()
      modifies this`projectiles, this`lastFireTime, this`shotsFired
      ensures Valid()
      ensures fired == MayFire(players, old(projectiles), facing, old(lastFireTime), id, now)
      ensures fired ==>
        && projectiles == old(projectiles)[id := Some(Launch(players[id - 1], facing[id]))]
        && lastFireTime == old(lastFireTime)[id := now]
        && shotsFired == old(shotsFired) + [id]
      ensures !fired ==>
        projectiles == old(projectiles) && lastFireTime == old(lastFireTime) && shotsFired == old(shotsFired)
    {
      fired := false;
      if id !in projectiles || projectiles[id].Some? {
        return;
      }
      if !(1 <= id <= |players|) {
        return;
      }
      var p := players[id - 1];
      if !p.alive || now - lastFireTime[id] < FireCooldown(p.isBot) {
        return;
      }
      var dir := facing[id];
      if dir.dx == 0.0 && dir.dy == 0.0 {
        return;
      }
      lastFireTime := lastFireTime[id := now];
      projectiles := projectiles[id := Some(Launch(p, dir))];
      shotsFired := shotsFired + [id];
      fired := true;
    }

    /** `shoot`: a shot request is only considered while a round runs. */
    method Shoot(id: int, now: int) returns (fired: bool)
      requires Valid()
      modifies this`projectiles, this`lastFireTime, this`shotsFired
      ensures Valid()
      ensures fired == (running && MayFire(players, old(projectiles), facing, old(lastFireTime), id, now))
      ensures fired ==>
        && projectiles == old(projectiles)[id := Some(Launch(players[id - 1], facing[id]))]
        && lastFireTime == old(lastFireTime)[id := now]
        && shotsFired == old(shotsFired) + [id]
      ensures !fired ==>
        projectiles == old(projectiles) && lastFireTime == old(lastFireTime) && shotsFired == old(shotsFired)
    {
      fired := false;
      if running {
        fired := TryShoot(id, now);
      }
    }

    /** `heal`: while a round runs, a living player that is not healing and whose cooldown
        has passed starts a heal. */
    method Heal(id: int, now: int) returns (started: bool)
      requires Valid()
      modifies this`healState
      ensures Valid()
      ensures started <==> (running && 1 <= id <= |players| &&
        HealRequestOk(players[id - 1], old(healState)[id], HasRepair(playerPickups, id), now))
      ensures started ==> healState == old(healState)[id := StartHeal(old(healState)[id], now)]
      ensures !started ==> healState == old(healState)
    {
      started := false;
      if running && 1 <= id <= |players| {
        var healer := players[id - 1];
        var hs := healState[id];
        if HealRequestOk(healer, hs, HasRepair(playerPickups, id), now) {
          healState := healState[id := StartHeal(hs, now)];
          started := true;
        }
      }
    }

    /** `restart_game`: a screen of the room starts the next round, scores kept, once every
        slot is connected and no round runs. */
    method RestartGame(conn: nat, now: int, timer: nat, rocks: seq<Destructible>) returns (restarted: bool)
      requires Valid()
      modifies this`players, this`inputState, this`facing, this`projectiles, this`lastFireTime,
               this`healState, this`playerPickups, this`destructibles, this`pickups,
               this`lastPickupSpawnTime, this`nextPickupTypeIndex, this`pickupIdCounter,
               this`running, this`gameStartTime, this`loop, this`liveTimers
      ensures Valid()
      ensures restarted <==> conn in old(screens) && !old(running) && AllConnected(old(players))
      ensures restarted ==> (running && gameStartTime == now && loop == Some(timer) && liveTimers == {timer} &&
        RoundReset(old(players), old(healState), false, rocks))
      ensures !restarted ==> unchanged(this)
    {
      restarted := false;
      if conn in screens && !running && AllConnected(players) {
        RestartRound(now, timer, rocks);
        restarted := true;
      }
    }

    /** `ready`: between rounds the id is marked ready, and the next round starts once every
        seated player is ready. */
    method Ready(id: int, now: int, timer: nat, rocks: seq<Destructible>) returns (restarted: bool)
      requires Valid()
      modifies this`players, this`inputState, this`facing, this`projectiles, this`lastFireTime,
               this`healState, this`playerPickups, this`destructibles, this`pickups,
               this`lastPickupSpawnTime, this`nextPickupTypeIndex, this`pickupIdCounter,
               this`running, this`gameStartTime, this`loop, this`liveTimers, this`readyState
      ensures Valid()
      ensures old(running) ==> !restarted && unchanged(this)
      ensures !old(running) ==> readyState == old(readyState)[id := true]
      ensures restarted <==> !old(running) && AllReady(old(players), old(readyState)[id := true])
      ensures restarted ==> (running && gameStartTime == now && loop == Some(timer) && liveTimers == {timer} &&
        RoundReset(old(players), old(healState), false, rocks))
      ensures !old(running) && !restarted ==>
        unchanged(this`players, this`inputState, this`facing, this`projectiles, this`lastFireTime,
          this`healState, this`playerPickups, this`destructibles, this`pickups,
          this`lastPickupSpawnTime, this`nextPickupTypeIndex, this`pickupIdCounter,
          this`running, this`gameStartTime, this`loop, this`liveTimers)
    {
      restarted := false;
      if !running {
        readyState := readyState[id := true];
        if AllReady(players, readyState) {
          RestartRound(now, timer, rocks);
          restarted := true;
        }
      }
    }

    /** `unready`: between rounds the id is marked not ready. */
    method Unready(id: int)
      requires Valid()
      modifies this`readyState
      ensures Valid()
      ensures !running ==> readyState == old(readyState)[id := false]
      ensures running ==> readyState == old(readyState)
    {
      if !running {
        readyState := readyState[id := false];
      }
    }

    /** `checkRoomCleanup`: with no screen and no connected human the room is destroyed and
        its interval cleared. */
    method CheckRoomCleanup() returns (destroyed: bool)
      requires Valid()
      modifies this`liveTimers
      ensures Valid()
      ensures destroyed == CleanupDue(|screens|, players)
      ensures destroyed ==> liveTimers == {}
      ensures !destroyed ==> liveTimers == old(liveTimers)
    {
      destroyed := CleanupDue(|screens|, players);
      if destroyed {
        liveTimers := liveTimers - HandleSet(loop);
      }
    }

    /** The close of a player connection: the slot is disconnected, its stick centred, a
        running round paused, and the cleanup rule applied. */
    method PlayerLeft(id: int) returns (destroyed: bool)
      requires Valid()
      modifies this`players, this`inputState, this`running, this`loop, this`liveTimers
      ensures Valid()
      ensures 1 <= id <= old(|players|) ==>
        && players == old(players)[id - 1 := Left(old(players)[id - 1])]
        && inputState == old(inputState)[id := ZERO_INPUT]
        && (old(running) ==> !running && loop == None && liveTimers == {})
        && (!old(running) ==> !running && loop == old(loop))
      ensures !(1 <= id <= old(|players|)) ==>
        players == old(players) && inputState == old(inputState) && running == old(running) && loop == old(loop)
      ensures destroyed == CleanupDue(|screens|, players)
    {
      if 1 <= id <= |players| {
        players := players[id - 1 := Left(players[id - 1])];
        assert SlotOk(players[id - 1], id - 1, bots);
        inputState := inputState[id := ZERO_INPUT];
        if running {
          PauseGame();
        }
      }
      destroyed := CheckRoomCleanup();
    }

    /** The close of a game screen: it leaves the screen list, ownership passes to the first
        remaining screen when the owner left, and the cleanup rule is applied. */
    method ScreenLeft(conn: nat) returns (destroyed: bool)
      requires Valid()
      modifies this`screens, this`owner, this`liveTimers
      ensures Valid()
      ensures screens == RemoveFirst(old(screens), conn)
      ensures owner == NextOwner(screens, old(owner), conn)
      ensures destroyed == CleanupDue(|screens|, players)
    {
      ghost var s0 := screens;
      var idx := IndexOf(screens, conn, 0);
      if idx.Some? {
        screens := screens[..idx.value] + screens[idx.value + 1..];
      }
      if owner.Some? && owner.value != conn {
        RemoveFirstKeepsOthers(s0, conn, owner.value);
      }
      owner := NextOwner(screens, owner, conn);
      destroyed := CheckRoomCleanup();
    }

    /** `register_game` for an existing room: the screen is added; ownership does not change. */
    method AttachScreen(conn: nat)
      requires Valid()
      modifies this`screens
      ensures Valid()
      ensures screens == old(screens) + [conn]
    {
      screens := screens + [conn];
    }

    // ---- the game loop ----

    /** The control tables the bot controller works on. */
    function Ctl(): Controls
      reads this
    {
      Controls(inputState, facing, projectiles, lastFireTime, shotsFired)
    }


    /** `updateBotAI`: after the warm-up, every living bot takes its turn, in slot order. */
    method BotPhase(now: int, steer: Steering, norm: Vec -> Vec)
      requires Valid()
      modifies this`inputState, this`facing, this`projectiles, this`lastFireTime, this`shotsFired
      ensures Valid()
      ensures now - gameStartTime < BOT_WARMUP ==> Ctl() == old(Ctl())
      ensures now - gameStartTime >= BOT_WARMUP ==> Ctl() == BotRun(players, old(Ctl()), now, steer, norm, |players|)
    {
      if now - gameStartTime < BOT_WARMUP {
        return;
      }
      var d := BotLoop(players, Ctl(), now, steer, norm);
      BotRunOk(players, bots, Ctl(), now, steer, norm, |players|);
      inputState, facing, projectiles, lastFireTime, shotsFired := d.input, d.facing, d.proj, d.lastFire, d.shots;
    }

    /** The movement loop of `gameLoop`: every living tank moves at its speed and is clamped
        into the arena; a human turns to an off-centre stick. */
    method MovePhase(drive: Drive, norm: Vec -> Vec)
      requires Valid()
      modifies this`players, this`facing
      ensures Valid()
      ensures players == Moved(old(players), inputState, playerPickups, drive, |players|)
      ensures facing == Turned(old(players), inputState, old(facing), norm, |players|)
    {
      MoveInv(playerCount, players, bots, spawn, inputState, facing, projectiles, lastFireTime,
              healState, playerPickups, drive, norm);
      var ps, face := MoveAll(players, inputState, playerPickups, facing, drive, norm);
      players, facing := ps, face;
    }

    /** The separation pass of `gameLoop`: each pair i < j of living, overlapping tanks is
        pushed apart and both are clamped into the arena. */
    method SeparateTanks(push: Push)
      requires Valid()
      modifies this`players
      ensures Valid()
      ensures players == SepOuter(old(players), |players|, push)
    {
      var ps := SeparateAll(players, push);
      SepOuterKeeps(players, bots, |players|, push);
      players := ps;
    }

    /** `spawnPickup`: with no pickup on the field, once the interval has passed since the last
        spawn (or since the round start) and two tanks are alive, the next type of the cycle
        appears at the rounded spot `at`. */
    method SpawnPickup(now: int, at: Point) returns (spawned: bool)
      requires Valid()
      modifies this`pickups, this`lastPickupSpawnTime, this`nextPickupTypeIndex, this`pickupIdCounter
      ensures Valid()
      ensures spawned == SpawnDue(|old(pickups)|, old(lastPickupSpawnTime), gameStartTime, now, CountAlive(players))
      ensures spawned ==>
        && pickups == [SpawnedPickup(old(pickupIdCounter), old(nextPickupTypeIndex), at)]
        && nextPickupTypeIndex == old(nextPickupTypeIndex) + 1 && pickupIdCounter == old(pickupIdCounter) + 1
        && lastPickupSpawnTime == now
      ensures !spawned ==>
        && pickups == old(pickups) && nextPickupTypeIndex == old(nextPickupTypeIndex)
        && pickupIdCounter == old(pickupIdCounter)
        && lastPickupSpawnTime == (if |old(pickups)| == 0 then SpawnClockBase(old(lastPickupSpawnTime), gameStartTime)
                                   else old(lastPickupSpawnTime))
    {
      spawned := false;
      if |pickups| > 0 {
        return;
      }
      var last := lastPickupSpawnTime;
      if last == 0 {
        last := gameStartTime;
      }
      if now - last < PICKUP_INTERVAL || CountAlive(players) < 2 {
        lastPickupSpawnTime := last;
        return;
      }
      var k := SpawnedPickup(pickupIdCounter, nextPickupTypeIndex, at);
      SpawnInv(pickupIdCounter, at);
      nextPickupTypeIndex, pickupIdCounter, pickups, lastPickupSpawnTime, spawned :=
        nextPickupTypeIndex + 1, pickupIdCounter + 1, pickups + [k], now, true;
    }

    /** `checkPickupCollisions`: pickups last to first; each goes to the first living player
        touching it who lacks its type, who gets the flag, and it leaves the field. */
    method CheckPickupCollisions()
      requires Valid()
      modifies this`pickups, this`playerPickups
      ensures Valid()
      ensures (pickups, playerPickups) == CollectAll(players, old(pickups), old(playerPickups))
    {
      assert IdsIn(players, playerPickups) by {
        forall j | 0 <= j < |players| ensures players[j].id == j + 1 {
          assert SlotOk(players[j], j, bots);
        }
      }
      var ks, mods := CollectPickups(players, pickups, playerPickups);
      pickups, playerPickups := ks, mods;
    }

    /** The heal loop of `gameLoop`: one heal step for every slot, in slot order. */
    method HealTick(now: int)
      requires Valid()
      modifies this`players, this`healState
      ensures Valid()
      ensures (players, healState) == HealPass(old(players), old(healState), now)
    {
      HealPassInv(playerCount, players, bots, spawn, inputState, facing, projectiles, lastFireTime,
                  healState, playerPickups, now);
      var ps, heal := HealAll(players, healState, now);
      players, healState := ps, heal;
    }


    /** The projectile loop of `gameLoop`: each slot's projectile, in slot order. */
    method CombatPhase(shots: int -> ShotEnv)
      requires Valid()
      modifies this`players, this`projectiles, this`destructibles
      ensures Valid()
      ensures (players, projectiles, destructibles) ==
        CombatRun(old(players), old(projectiles), old(destructibles), playerPickups, shots, |players|)
    {
      var ps, pr, rocks := CombatLoop(players, projectiles, destructibles, playerPickups, shots, |players|);
      CombatRunKeeps(players, bots, projectiles, destructibles, playerPickups, shots, |players|);
      players, projectiles, destructibles := ps, pr, rocks;
    }

    /** The end-of-round branch of `gameLoop`: the shot list is flushed, the loop stops, the
        survivor scores, and the ready table is reset with bots pre-readied. */
    method EndRound()
      requires Valid() && RoundOver(players)
      modifies this`running, this`loop, this`liveTimers, this`shotsFired, this`players, this`readyState
      ensures Valid()
      ensures !running && loop == None && liveTimers == {} && shotsFired == []
      ensures players == AwardSurvivor(old(players))
      ensures readyState == ReadyReset(old(readyState), players)
    {
      EndInv(playerCount, players, bots, spawn, projectiles, running, loop, liveTimers);
      var ps := AwardSurvivor(players);
      var ready := ResetReady(readyState, ps);
      running, loop, liveTimers, shotsFired, players, readyState :=
        false, None, liveTimers - HandleSet(loop), [], ps, ready;
    }

    /** The frame flush at the end of a tick: the shots fired go out with the frame and the
        list is cleared. */
    method FlushShots()
      requires Valid()
      modifies this`shotsFired
      ensures Valid() && shotsFired == []
    {
      shotsFired := [];
    }

    /** The phases of one tick before the round-end check, in the source's order: bots,
        movement, separation, pickup spawn and collection, healing, projectiles. */
    method Phases(f: Frame)
      requires Valid()
      modifies this`inputState, this`facing, this`projectiles, this`lastFireTime, this`shotsFired,
        this`players, this`pickups, this`lastPickupSpawnTime, this`nextPickupTypeIndex,
        this`pickupIdCounter, this`playerPickups, this`healState, this`destructibles
      ensures Valid()
    {
      BotPhase(f.now, f.steer, f.norm);
      MovePhase(f.drive, f.norm);
      SeparateTanks(f.push);
      var spawned := SpawnPickup(f.now, f.at);
      CheckPickupCollisions();
      HealTick(f.now);
      CombatPhase(f.shots);
    }

    /** `gameLoop`: one tick of a running round, in the source's phase order; a tick of an
        interval that has been cleared does nothing. */
    method Tick(handle: nat, f: Frame) returns (ended: bool, ghost ps: seq<Player>)
      requires Valid()
      modifies this`inputState, this`facing, this`projectiles, this`lastFireTime, this`shotsFired,
        this`players, this`pickups, this`lastPickupSpawnTime, this`nextPickupTypeIndex,
        this`pickupIdCounter, this`playerPickups, this`healState, this`destructibles,
        this`running, this`loop, this`liveTimers, this`readyState
      ensures Valid()
      ensures handle !in old(liveTimers) ==> !ended && unchanged(this)
      ensures handle in old(liveTimers) ==> shotsFired == []
      ensures ended ==> !running && loop == None && liveTimers == {} && CountAlive(players) <= 1
      ensures ended ==>
        && RoundOver(ps) && players == AwardSurvivor(ps)
        && readyState == ReadyReset(old(readyState), players)
      ensures handle in old(liveTimers) && !ended ==>
        && running && loop == old(loop) && liveTimers == old(liveTimers)
        && !RoundOver(players) && players == ps && readyState == old(readyState)
    {
      ended, ps := false, players;
      if handle !in liveTimers {
        return;
      }
      Phases(f);
      ps := players;
      if RoundOver(players) {
        EndRound();
        AwardKeeps(ps, bots);
        ended := true;
      } else {
        FlushShots();
      }
    }
  }
}
