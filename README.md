# Room engine of the tank battle server

The server hosts rooms. Each room has game screens (browser views) and between two and
seven tank slots. Phones take a slot by joining with its code; bots fill the rest. This
project models the rules each room enforces on its own state:

- the roster (`initPlayers`, `set_player_count`, `add_bot`, `remove_bot`);
- the round lifecycle (`startGame`, `restartRound`, `resetRound`, `pauseGame`, the ready
  quorum, the end of a round);
- the message handlers that change a room (`join`, `joystick`, `shoot`, `heal`,
  `restart_game`, `ready`, `unready`, a connection's close, room cleanup);
- one tick of `gameLoop` in the source's phase order:
  1. bot control (`updateBotAI`, `tryShoot`);
  2. movement with the arena clamp;
  3. pairwise separation;
  4. pickup spawn (`spawnPickup`) and collection (`checkPickupCollisions`);
  5. the heal state machine;
  6. projectile resolution: canvas, walls, destructibles with holes, tanks, the ricochet
     exclusion, armour and damage;
  7. the round-end check.

Layout:

- The room is `RoomEngine.Room`, a class with one field per room field the rules touch.
  Its handlers and phases are methods with `modifies` frames. They keep the invariant
  `Room.Valid()`:
  - every slot is well formed: id, code, bot flag, hit points between 0 and 100, alive
    exactly when above 0, inside the arena;
  - every per-id table covers exactly the seated ids;
  - a projectile is filed under its living owner;
  - at most one pickup is on the field, and it is the latest one spawned;
  - a round runs exactly while a loop interval is held;
  - the owner is one of the screens.
- The source's loops are `while` loops that compute on local copies (`Combat.CombatLoop`,
  `Healing.HealAll`, `Movement.MoveAll`, ...). Each is proved equal to a recursive
  function (`CombatRun`, `HealPass`, `Moved`, ...). The rules the source promises are
  lemmas about those functions.
- Modules by concern: `Config` (constants), `Geometry`, `Entities`, `Combat`, `Healing`,
  `Pickups`, `Rounds`, `Roster`, `Lobby`, `Movement`, `Bots` and `RoomEngine`.

Date.now, setInterval handles and everything computed with random numbers or trigonometry
become parameters:

- the clock is a `now: int`;
- an interval is a `nat` handle;
- the spawn ring is a `Layout`;
- the new obstacle set is `rocks`;
- tank motion against walls and rocks is a `Drive`;
- the push-apart of an overlapping pair is a `Push`;
- bot steering is a `Steering`;
- vector normalisation is `norm`;
- a projectile's wall test and contact geometry are a `ShotEnv`;
- a new pickup's spot is `at`.

Behaviour as the code has it, where a reader might expect otherwise:

- `initPlayers` never clears the heal table. Entries of ids beyond a smaller new capacity
  stay (`Cleared`, `Overlay`).
- `restart_game` is accepted from any game screen of the room, not only the owner.
- `set_player_count` does not restore connected humans; `add_bot` and `remove_bot` do.
- `join` with an unknown room id falls back to the search by code.
- The code "BOT" seats on the first bot slot, because all bots share that code.
- The ricochet exclusion lasts one tick: the next tick that does not ricochet clears it.

## Model

| member | source | states |
|---|---|---|
| Geometry.Clamp | server.js:843-844 | the result lies in [lo, hi], is v when v is in range, and is the nearer end otherwise |
| Geometry.ClampToArena | server.js:843-844 | the clamped centre is in the arena; a point is unchanged exactly when it already was in the arena; an axis already in range keeps its value |
| Geometry.RoundHalfUp | server.js:974 | `Math.round`: the integer r with r - 0.5 <= v < r + 0.5 |
| Geometry.Uncovered | server.js:203-206 | true exactly when no hole of the list contains the point |
| Geometry.IsDestructibleSolid | server.js:199-208 | solid exactly when the point is in the rectangle and in none of its holes |
| Geometry.AddHole | server.js:975 | the hole is appended after the existing holes; nothing else of the obstacle changes |
| Geometry.AddHoleShrinks | server.js:971-983 | after a hole is carved, a point is solid exactly when it was solid before and is outside the new hole |
| Geometry.ImpactPointCarved | server.js:973-975 | the rounded impact point of a rock hit is no longer solid |
| Geometry.HolesOnlyShrink | server.js:199-208 | more holes never make a point solid again |
| Entities.DecimalString | server.js:135 | `String(id)` ends in a digit and is the single digit for ids below ten |
| Entities.DecimalStringNotBot | server.js:135 | a seat code is never the bot code "BOT" |
| Entities.DecimalStringInjective | server.js:135 | distinct seats below ten have distinct codes |
| Entities.CodeText | server.js:135 | a code reads "BOT" exactly when it is the bot code |
| Entities.FreshPlayer | server.js:133-145 | a new slot: its id, bot flag and spawn point, full HP, alive, score 0, no socket, connected exactly when a bot, code "BOT" or the id in decimal |
| Combat.FireCooldown | server.js:564 | definition: bots wait twice FIRE_COOLDOWN between shots, humans FIRE_COOLDOWN |
| Combat.Launch | server.js:572-579 | definition: the projectile starts 26 px ahead of the tank along its facing, moves at 6 times the facing, belongs to the shooter and has no ricochet exclusion |
| Combat.MayFire | server.js:557-568 | definition: the fire guard, that no projectile is in flight, the tank is seated and alive, its cooldown has passed and it faces somewhere |
| Combat.DamageFor | server.js:1031-1041 | damage is 50 minus the zone's armour (10 front, 5 side, 0 rear), minus 5 with the armour pickup, and always lies in [35, 50] |
| Combat.DamageOrder | server.js:1031-1041 | front hits hurt least and rear hits most; an unarmoured rear hit deals the full 50; the armour pickup removes exactly 5 in every zone |
| Combat.Hit | server.js:1041-1046 | hit points drop by the damage and are clamped at 0; the tank dies exactly when they reach 0; nothing else changes |
| Combat.HitKeepsSlot | server.js:1041-1046 | a hit keeps the slot well formed and never raises hit points |
| Combat.HitsToKill | server.js:1041-1046 | a full-health tank survives any single hit and dies after any three |
| Combat.Advance | server.js:945-946 | definition: a projectile moves by its velocity and nothing else changes |
| Combat.FirstContact | server.js:987-994 | the first slot the projectile touches, skipping its owner, dead tanks and the exclusion; no earlier slot is touched; none means no slot is touched |
| Combat.FindTarget | server.js:987-994 | the target loop returns the first contact |
| Combat.FirstSolid | server.js:971-973 | the first obstacle that is solid at the point; none before it is; none means none is |
| Combat.FindSolid | server.js:971-973 | the obstacle loop returns the first solid obstacle |
| Combat.Judge | server.js:940-1062 | the outcome of one tick of flight, tested in the source's order (canvas, walls, rocks, tanks); it is idle exactly when no projectile is in flight, and a projectile that flies on keeps its owner |
| Combat.JudgeTargetsFirstContact | server.js:987-994 | any tank interaction is with the first eligible overlapping tank: never the owner, a dead tank or the excluded tank |
| Combat.RicochetOrDamage | server.js:1007-1041 | a ricochet only happens on a glancing non-rear hit of a moving projectile; it sets the exclusion to the target and keeps the owner; any other tank hit deals the zone's damage, between 35 and 50 |
| Combat.MissClearsExclusion | server.js:1059-1060 | a projectile that touches no tank flies on with its exclusion cleared and its owner kept |
| Combat.NoImmediateRepeat | server.js:987-1026 | the tick after a ricochet off tank T cannot interact with T, whatever the geometry |
| Combat.Apply | server.js:940-1062 | applying an outcome keeps the roster and obstacle lengths and every slot's id and bot flag |
| Combat.Resolve | server.js:940-1062 | one projectile's tick keeps the roster and obstacle lengths and every slot's id and bot flag |
| Combat.ResolveEffect | server.js:940-1062 | per outcome: a tank hit lowers only the target's hit points, by the judged amount clamped at 0, removes the shooter's projectile, and on a kill also the target's; a ricochet or miss changes no hit point and keeps the projectile flying; a rock hit carves the hole; canvas, wall and fizzle remove the projectile; idle changes nothing |
| Combat.CombatRun | server.js:938-1062 | the projectile loop keeps the roster and obstacle lengths and every slot's id and bot flag |
| Combat.ResolveKeeps | server.js:940-1062 | one projectile's tick keeps every slot well formed, never raises hit points, never revives a tank, and keeps projectiles filed under living owners |
| Combat.CombatRunKeeps | server.js:938-1062 | the whole projectile loop keeps those same facts |
| Combat.ResolveShot | server.js:940-1062 | one iteration judges the projectile in the source's order (canvas, walls, rocks, tanks) and applies the outcome |
| Combat.CombatLoop | server.js:938-1062 | the projectile loop over all slots, in slot order, equals `CombatRun` |
| Healing.HealCooldown | server.js:473-474 | the cooldown is 3000 ms, less 3000 with the repair pickup, and never negative |
| Healing.HealRequestOk | server.js:471-474 | definition: the heal guard is a living tank, no active heal, and the cooldown passed since the last heal ended |
| Healing.StartHeal | server.js:475-477 | definition: starting a heal activates it and stamps start and last tick with now; the last end time is kept |
| Healing.RepairShortensCooldown | server.js:473-474 | the repair pickup only ever admits more requests; one second after a heal ends, a request is refused without it and accepted with it |
| Healing.HealStep | server.js:919-935 | a heal tick changes only the tank's hit points |
| Healing.HealStepSpec | server.js:918-936 | the state machine: a dead tank or an idle heal changes nothing; a tick a second after the last restores one point, capped at 100; the heal ends when its 10 s are up or the tank is full; an active heal means the tank is not full |
| Healing.HealRun | server.js:918-936 | successive heal ticks change only the tank's hit points |
| Healing.HealRunKeepsBound | server.js:918-936 | over any ticks, one point is gained per full second since the start and the tank stays at most 100 |
| Healing.HealActivationGain | server.js:918-936 | one activation restores at most 9 hit points and never exceeds 100 |
| Healing.HealEnds | server.js:923-926 | once a tick comes 10 s or more after the start, the heal is over |
| Healing.HealRunIdle | server.js:922 | an inactive heal stays inactive and changes nothing |
| Healing.HealPass | server.js:918-936 | the heal pass keeps the roster length and the heal table's keys |
| Healing.HealPassPerSlot | server.js:918-936 | the pass applies one heal step to each slot independently and leaves heal entries of unseated ids alone |
| Healing.HealStepKeepsSlot | server.js:930 | a heal tick keeps the slot well formed and does not change whether the tank lives |
| Healing.HealPassKeeps | server.js:918-936 | the pass keeps every slot well formed and alive exactly as before |
| Healing.HealAll | server.js:918-936 | the heal loop over all slots equals `HealPass` |
| Pickups.TypeCycle | server.js:794 | pickup types repeat with period three, and any three consecutive spawns bring speed, armour and repair |
| Pickups.SpawnedPickup | server.js:794-797 | a new pickup takes the next id and the type at the cycle index |
| Pickups.SpawnDue | server.js:748-754 | definition: a spawn is due when no pickup is on the field, the interval has passed since the last spawn (the round start before the first) and two tanks live |
| Pickups.Touches | server.js:806-808 | definition: a tank touches a pickup when their centres are closer than the two radii |
| Pickups.Grant | server.js:810 | collecting sets the pickup's flag and leaves the other two flags alone |
| Pickups.FirstCollector | server.js:805-809 | the first living player touching the pickup who lacks its type; no earlier player qualifies; none means nobody qualifies |
| Pickups.FindCollector | server.js:805-816 | the player loop returns the first collector |
| Pickups.GrantTo | server.js:810 | the collector now holds the type, no flag is ever lost, and no other player's flags change |
| Pickups.CollectAll | server.js:802-819 | collection keeps the table's keys, only removes pickups, and never clears a flag |
| Pickups.CollectSingle | server.js:802-819 | a single pickup leaves the field exactly when someone collects it, and the first collector gets its flag |
| Pickups.UntakenStay | server.js:802-819 | when nobody can collect anything, collection changes nothing |
| Pickups.NobodyCollects | server.js:805-809 | with no qualifying player there is no collector |
| Pickups.CollectPickups | server.js:802-819 | the collection loop, last pickup first, equals `CollectAll` |
| Rounds.CountAlive | server.js:1064 | the live count is at most the roster size and is zero exactly when nobody is alive |
| Rounds.RoundOver | server.js:1064-1065 | definition: the round is over when at most one tank lives in a room of more than one slot |
| Rounds.FirstAlive | server.js:1092 | the first living slot, with none alive before it; none means nobody is alive |
| Rounds.AwardSurvivor | server.js:1092-1095 | the first living tank, if any, gains one point; every other slot is unchanged |
| Rounds.RoundPoints | server.js:1092-1095 | at a round's end the total score grows by exactly the number of survivors (0 or 1) |
| Rounds.SurvivorSlots | server.js:1092-1095 | at a round's end dead slots are unchanged and the survivor's score grows by one |
| Rounds.OnlyOneAlive | server.js:1064-1065 | when at most one is alive and slot i is, it is the only one |
| Rounds.ReadyReset | server.js:1107-1109 | definition: each seated id's ready entry is reset to whether it is a bot, in slot order |
| Rounds.AllReady | server.js:497 | definition: every seated id has a true ready entry, a missing entry not counting as ready |
| Rounds.ReadyResetSpec | server.js:1107-1109 | after a round every seated id has a ready entry, true exactly for bots; entries of other ids are kept |
| Rounds.QuorumAfterRound | server.js:1107-1109 | right after a round the quorum holds exactly when every slot is a bot |
| Rounds.ReadyCompletesQuorum | server.js:494-498 | after a ready, everyone is ready exactly when every other seat already was |
| Rounds.UnreadyBreaksQuorum | server.js:505-512 | an unready from a seated player breaks the quorum |
| Rounds.AwardKeeps | server.js:1092-1095 | the award keeps every slot well formed, changes only scores and keeps the live count |
| Roster.ClampCount | server.js:322 | the capacity requested is clamped to [2, 7]; a missing or unparsable count gives 2 |
| Roster.FreshSlots | server.js:130-154 | the first k fresh slots of a capacity-n room, slot i with id i + 1 at its spawn point |
| Roster.FreshRoster | server.js:130-154 | a fresh roster of n slots, slot i with id i + 1, a bot exactly when its id is a bot id |
| Roster.FreshRosterBots | server.js:322-324 | filtering the bot ids to the new capacity before `initPlayers` builds the same roster |
| Roster.FreshRosterOk | server.js:130-154 | a fresh roster is well formed |
| Roster.SaveHumans | server.js:343-345 | every connected human slot is saved as its id, connection, score and name, and every saved entry is such a record of a connected human slot; there are at most as many entries as slots |
| Roster.RestoreOne | server.js:348-355 | a saved human gets connection, score and name back in the slot of its id, if that slot exists |
| Roster.RestoreAll | server.js:348-355 | restoring the saved humans in order keeps the roster length |
| Roster.RestoreKeepsSlots | server.js:348-355 | restoring keeps the roster well formed and changes only connection, score and name |
| Roster.RestoreSaved | server.js:343-355 | each restored slot is what the last saved human of its id makes of the fresh slot |
| Roster.BotChangeKeepsHumans | server.js:343-355 | after a bot change, each connected human whose slot still exists gets its connection, score and name back; every other slot is exactly as `initPlayers` made it |
| Roster.CountAfterRemoval | server.js:373-377 | definition: removing the last slot's bot shrinks the capacity by one, but not below 2; any other removal keeps it |
| Roster.HighestBot | server.js:370-371 | the removed bot is the highest bot id |
| Roster.FindByCode | server.js:419 | the first slot whose code reads as given; none before it matches; none means no slot matches |
| Roster.HumanCodeFindsSlot | server.js:419 | a human seat's decimal code finds exactly that seat |
| Roster.BotCodeFindsFirstBot | server.js:419 | the code "BOT" finds the first bot slot |
| Lobby.RoomIndex | server.js:403-404 | a room with the given id, or none exists |
| Lobby.RoomHolding | server.js:404-411 | the first room holding a slot with the code; no earlier room does; none means no room does |
| Lobby.JoinTarget | server.js:402-412 | a known room id wins; otherwise the first room holding the code; none exactly when the id is unknown and no room holds the code |
| Lobby.RegisterTarget | server.js:288-299 | no id creates a room; an existing id attaches to that room; an unknown id is refused |
| Lobby.NameFrom | server.js:432-433 | an empty name keeps the current one; a name of at most five characters is taken whole; a longer one is cut to its first five |
| Lobby.AxisInput | server.js:453-454 | each stick axis is clamped to [-1, 1]; a non-number gives 0 |
| Lobby.CleanupDue | server.js:95-98 | definition: a room is due for cleanup when it has no game screen and no connected human |
| Lobby.CleanupIgnoresBots | server.js:95-98 | a room is due for cleanup exactly when no screen and no connected human remain |
| Lobby.IndexOf | server.js:521 | the first position of the screen; none before it matches |
| Lobby.RemoveFirst | server.js:521-522 | the closing screen leaves the list once; the list is unchanged if it was not there |
| Lobby.RemoveFirstKeepsOthers | server.js:521-522 | other screens stay, and the list shrinks by one exactly when the screen was listed |
| Lobby.NextOwner | server.js:523-524 | ownership moves to the first remaining screen only when the owner leaves, and is then none if no screen is left |
| Movement.TankSpeed | server.js:827-828 | speed is 3 for humans and 1.8 for bots, times 1.3 with the speed pickup, and always positive |
| Movement.MoveTank | server.js:824-888 | a dead tank stays put; a living one changes only its position and ends inside the arena |
| Movement.Moved | server.js:824-888 | the movement pass over the first k slots keeps the roster length |
| Movement.Turned | server.js:838-841 | the facing table after the first k slots gains exactly the ids of living humans with an off-centre stick |
| Movement.MovedSlot | server.js:824-888 | each slot of the movement pass is that tank's own move |
| Movement.MovedKeeps | server.js:824-888 | the movement pass keeps every slot well formed and moves only living tanks |
| Movement.TurnedAt | server.js:838-841 | a living human with an off-centre stick faces the normalised stick; every other facing is kept |
| Movement.SepOuter | server.js:890-913 | the separation pass over the pairs in the nested loops' order keeps the roster length |
| Movement.SepOuterKeeps | server.js:890-913 | separation keeps every slot well formed and moves only living tanks |
| Movement.ApartStill | server.js:894-899 | when no two living tanks overlap, separation changes nothing |
| Movement.MoveAll | server.js:824-888 | the movement loop equals `Moved` for positions and `Turned` for the facing table |
| Movement.SeparateAll | server.js:890-913 | the nested separation loop equals `SepOuter` |
| Bots.NearestIn | server.js:668-679 | the nearest living rival, with the earliest slot winning ties; none exactly when no rival is alive |
| Bots.FindNearest | server.js:668-679 | the rival loop returns the nearest living rival |
| Bots.Fire | server.js:686 | definition: a bot's `tryShoot` launches, stamps the fire time and records the shot exactly when the guard holds; otherwise nothing changes |
| Bots.BotStepShots | server.js:686 | a bot's turn fires at most its own shot, and only a living bot fires |
| Bots.BotStep | server.js:663-744 | definition: one bot's turn, that skips humans and dead bots, stops a bot with no rival, and otherwise fires, takes the steering move as input and turns to it unless the move is tiny |
| Bots.BotRun | server.js:659-745 | definition: the bot turns of the first k slots, in slot order |
| Bots.BotRunOk | server.js:659-745 | the bot loop keeps the control tables well formed |
| Bots.BotRunShots | server.js:659-745 | the bot loop only appends to the shot list, and only bot ids |
| Bots.BotRunFrame | server.js:659-745 | the loop over the first k slots leaves every other id's tables alone |
| Bots.BotRunSlot | server.js:659-745 | each bot acts as if alone: its entries after the loop are those its own turn makes |
| Bots.BotLoopEffects | server.js:681-684 | the loop leaves humans' tables alone; a bot with no living rival stops without firing or turning |
| Bots.BotTurn | server.js:663-744 | one iteration of the bot loop equals `BotStep` |
| Bots.BotLoop | server.js:659-745 | the bot loop over all slots equals `BotRun` |
| RoomEngine.ResetReady | server.js:1107-1109 | the ready loop equals `ReadyReset` |
| RoomEngine.BuildRoster | server.js:130-154 | the roster loop builds `FreshRoster` |
| RoomEngine.FreshTables | server.js:125-159 | every per-id table maps exactly the ids 1..n to its fresh value; the heal table resets 1..n and keeps the other entries |
| RoomEngine.ClearTables | server.js:595-613 | the ids 1..n of every table are reset to their fresh values |
| RoomEngine.ReseatAll | server.js:589-594 | every tank returns to its spawn point with full HP, alive, its score zeroed only when asked |
| RoomEngine.RestoreLoop | server.js:348-355 | the restore loop equals `RestoreAll` |
| RoomEngine.RebuildRoom | server.js:343-355 | the rebuilt roster is the fresh one with the saved humans restored, and the tables are fresh |
| RoomEngine.RebuildInv | server.js:343-355 | a rebuilt roster and its fresh tables satisfy the room invariant |
| RoomEngine.Joined | server.js:427-433 | after a join the slot holds the new connection, is connected and takes the joining name; nothing else changes |
| RoomEngine.Left | server.js:534-535 | after a close the slot has no connection and is disconnected; nothing else changes |
| RoomEngine.Room.constructor | server.js:58-93 | a new room: capacity 2, no bots, fresh tables, no round, no pickups, owned by its creating screen |
| RoomEngine.Room.InitPlayers | server.js:121-160 | capacity set; fresh roster; bot ids filtered to the capacity; fresh tables |
| RoomEngine.Room.ResetRound | server.js:587-615 | slots reseated; ids 1..n of every table reset; new obstacles; pickup field, clock and counters zeroed |
| RoomEngine.Room.StartGame | server.js:617-631 | a round runs from now under a new interval, which replaces any old one; the round is reset with every score zeroed |
| RoomEngine.Room.RestartRound | server.js:633-647 | like `StartGame`, but every score carries over |
| RoomEngine.Room.BeginRound | server.js:617-647 | the common body of both: a reset round and a running loop with exactly one live interval |
| RoomEngine.Room.PauseGame | server.js:649-657 | the round stops and no interval is live |
| RoomEngine.Room.SetPlayerCount | server.js:318-333 | owner only, between rounds: clamped capacity, fresh roster without restored humans, bots filtered, fresh tables, new obstacles; otherwise nothing changes |
| RoomEngine.Room.Rebuild | server.js:343-359 | the rebuilt roster with the saved humans, fresh tables and new obstacles, with the invariant kept |
| RoomEngine.Room.AddBot | server.js:335-362 | owner only, between rounds, below seven: slot n + 1 becomes a bot and humans keep their places; otherwise nothing changes |
| RoomEngine.Room.RemoveBot | server.js:364-396 | owner only, between rounds, with a bot: the highest bot id goes, the capacity shrinks only if it was the last slot, and humans are kept; otherwise nothing changes |
| RoomEngine.Room.Join | server.js:398-449 | an unknown code is refused and changes nothing; otherwise the first matching slot takes the connection and name, and the game starts once every slot is connected |
| RoomEngine.Room.Seat | server.js:419-433 | the slot found by code takes the connection and name; no match changes nothing |
| RoomEngine.Room.Joystick | server.js:451-458 | a known id's stick becomes the clamped axes; an unknown id changes nothing |
| RoomEngine.Room.TryShoot | server.js:557-584 | a shot is fired exactly when the guard holds: no projectile in flight, seated, alive, cooldown passed, non-zero facing; it launches, stamps the time and records the shot; otherwise nothing changes |
| RoomEngine.Room.Shoot | server.js:460-464 | a shot request is honoured exactly when a round runs and the fire guard holds; a shot launches, stamps the fire time and records the shot; otherwise nothing changes |
| RoomEngine.Room.Heal | server.js:466-483 | a heal starts exactly in a running round: seated, alive, not healing, cooldown passed; otherwise nothing changes |
| RoomEngine.Room.RestartGame | server.js:485-489 | a next round with scores kept, under exactly one live interval, starts exactly when a screen asks between rounds with every slot connected; otherwise nothing changes |
| RoomEngine.Room.Ready | server.js:491-503 | between rounds, marks the id ready and restarts, under exactly one live interval, exactly when everyone is ready; otherwise only the ready table changes; ignored during a round |
| RoomEngine.Room.Unready | server.js:505-512 | between rounds, marks the id not ready; ignored during a round |
| RoomEngine.Room.CheckRoomCleanup | server.js:95-103 | the room is destroyed, with its interval cleared, exactly when no screen and no connected human remain |
| RoomEngine.Room.PlayerLeft | server.js:531-546 | a seated player's close disconnects the slot, centres its stick and pauses a running round; then the cleanup rule applies |
| RoomEngine.Room.ScreenLeft | server.js:519-546 | a screen's close removes it from the list, passes ownership on if the owner left, and applies the cleanup rule |
| RoomEngine.Room.AttachScreen | server.js:301 | registering a screen with an existing room appends it; ownership stays |
| RoomEngine.Room.BotPhase | server.js:659-745 | during the first two seconds bots do nothing; afterwards the control tables become `BotRun` of the old ones |
| RoomEngine.Room.MovePhase | server.js:824-888 | positions become `Moved` and facings `Turned`, with the invariant kept |
| RoomEngine.Room.SeparateTanks | server.js:890-913 | positions become `SepOuter` of the old ones, with the invariant kept |
| RoomEngine.Room.SpawnPickup | server.js:747-800 | a pickup of the next cycle type appears exactly when the field is empty, the interval since the last spawn (or the round start) has passed, and two tanks live; the counters advance and the spawn clock is stamped |
| RoomEngine.Room.CheckPickupCollisions | server.js:802-819 | field and flags become `CollectAll` of the old ones |
| RoomEngine.Room.HealTick | server.js:918-936 | slots and heal table become `HealPass` of the old ones |
| RoomEngine.Room.CombatPhase | server.js:938-1062 | slots, projectiles and obstacles become `CombatRun` of the old ones |
| RoomEngine.Room.EndRound | server.js:1064-1113 | the loop stops with no interval live and the shot list flushed; the survivor scores; the ready table is reset with bots pre-readied |
| RoomEngine.Room.FlushShots | server.js:1153 | the shot list is emptied with the frame |
| RoomEngine.Room.Phases | server.js:822-1062 | the phases of a tick, in order, keep the room invariant |
| RoomEngine.Room.Tick | server.js:821-1154 | a tick of a cleared interval does nothing; otherwise the shot list ends empty, and either the round was over after the phases, the loop stops with no interval live, the survivor of that roster scores one point and the ready table is reset, or the round keeps running under the same interval with the ready table untouched |

## Left out

- I/O: WebSocket sends, JSON frames, `sendInit*`, feedback and vibration messages, and
  console output are not modelled. Handlers appear only through their effect on the room.
- The HTTP server, the QR page and the `rooms` registry map are not modelled. Lookups
  over the registry are functions on a list of room cards (`Lobby.RoomIndex`,
  `Lobby.RoomHolding`), and destruction is modelled as clearing the room's interval.
- Timers: `setInterval`/`clearInterval` become a handle parameter and the set of live
  handles, and the 45 Hz period is not modelled.
- Clock: `Date.now()` becomes a `now` parameter per call. A tick reads one clock value
  where the source reads it several times.
- Randomness: `generateRoomId`, `generateWalls`, `generateDestructibles` and `bgSeed`
  are left out. New obstacles are a parameter; walls appear only through `Drive` and
  `ShotEnv.hitsWall`.
- Trigonometry and square roots are left out:
  - the spawn ring (`getSpawnPositions`, as `Layout`);
  - the wall and rock push-outs and the speed cap (`Drive`);
  - the separation vector (`Push`);
  - normalisation (`norm`);
  - a bot's move (`Steering`);
  - the armour zone, glancing test and bounce (`Aspect`);
  - the spawn-point search of `spawnPickup` (`at`).
- Overlap tests compare squared distances on reals rather than `Math.sqrt`.
- Bot memory (`botState`, the stuck counter and the sidestep timer) is inside the
  `Steering` oracle, so the stuck and sidestep logic is not modelled.
- Floating point: `real` is exact, and IEEE rounding is not modelled.
- Upper-casing and trimming of the join code and room id are not modelled: `join` takes
  the normalised strings. Trimming of the name is not modelled either: `NameFrom` takes
  the trimmed name.
- `Lobby.NameFrom`: JavaScript's `substring(0, 5)` counts UTF-16 code units, while the model
  counts characters of a Dafny string. The two differ for names outside the Basic
  Multilingual Plane.
- `Roster.SaveHumans`: the contract says which slots are saved, not the order of the saved
  entries (slot order, by construction). Order only matters when two entries share an id,
  which a well-formed roster never has.
- A join's takeover closes the previous socket. The close handler that this later fires
  for the old socket is not modelled.
- `Movement.MoveTank`: the speed cap and the intermediate clamps after each wall or rock
  push-out are inside `Drive`. Only the final clamp into the arena is stated.
- `RoomEngine.Room.BotPhase`: a bot fires through the function `Bots.Fire`, the same guard
  and effect as `RoomEngine.Room.TryShoot`, rather than by calling that method.
- The loops of a tick compute on local copies that are then written back to the fields.
  Aliasing of the room's objects during a loop is not modelled.
- `RoomEngine.Room.Phases`: its contract states only the room invariant. What each phase
  does is stated by that phase's own method.
- `RoomEngine.Room.Tick`: the frame sent at the end of a tick is not modelled, apart from
  the flush of its shot list.
- `Healing.HealPass`: its own contract states only the shape of the result. The per-slot
  content is stated by `Healing.HealPassPerSlot`.
- Missing table entries that would make the source throw are excluded by the room
  invariant, which every table keeps: facing, input, heal state or pickups absent for a
  seated id.
