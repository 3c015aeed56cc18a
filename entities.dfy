// Records of the room: player slots, projectiles, heal state, pickups and per-id tables.
module Entities {
  import opened Wrappers
  import opened Config
  import opened Geometry

  /** One player slot. `ws` is the owning connection handle, if any. */
  datatype Player = Player(
    id: int, code: Code, ws: Option<nat>, connected: bool, isBot: bool,
    name: string, pos: Point, score: int, hp: int, alive: bool)

  /** A projectile in flight; `lastRicochet` is the id of the tank it last bounced off. */
  datatype Projectile = Projectile(pos: Point, vel: Vec, owner: int, lastRicochet: Option<int>)

  datatype HealState = HealState(active: bool, startTime: int, lastTick: int, endTime: int)

  datatype PickupType = Speed | Armour | Repair

  /** Per-player pickup flags, one per pickup type. */
  datatype Mods = Mods(speed: bool, armour: bool, heal: bool)

  datatype Pickup = Pickup(id: int, kind: PickupType, pos: Point)

  /** Armour zone of a hit, decided by the angle between shot and target facing. */
  datatype Zone = Front | Side | Rear

  /** Where the spawn layout puts slot i of a room of capacity n. */
  type Layout = (int, int) -> Point

  const ZERO_INPUT: Vec := Vec(0.0, 0.0)
  const INITIAL_FACING: Vec := Vec(0.0, -1.0)
  const IDLE_HEAL: HealState := HealState(false, 0, 0, 0)
  const NO_MODS: Mods := Mods(false, false, false)
  const BOT_CODE: string := "BOT"

  ghost predicate LayoutInArena(spawn: Layout) {
    forall n, i :: InArena(spawn(n, i))
  }

  function DigitChar(d: nat): char
    requires d < 10
  {
    "0123456789"[d]
  }

  /** `String(n)` for a non-negative integer. */
  function DecimalString(n: nat): (s: string)
    ensures |s| >= 1 && '0' <= s[|s| - 1] <= '9'
    ensures n < 10 ==> s == [DigitChar(n)]
    decreases n
  {
    if n < 10 then [DigitChar(n)] else DecimalString(n / 10) + [DigitChar(n % 10)]
  }

  lemma DecimalStringNotBot(n: nat)
    ensures DecimalString(n) != BOT_CODE
  {
    var s := DecimalString(n);
    assert s[|s| - 1] != BOT_CODE[|BOT_CODE| - 1];
  }

  /** Single-digit slot numbers have distinct codes. */
  lemma DecimalStringInjective(a: nat, b: nat)
    requires a < 10 && b < 10 && a != b
    ensures DecimalString(a) != DecimalString(b)
  {
    assert DecimalString(a)[0] == DigitChar(a);
    assert DecimalString(b)[0] == DigitChar(b);
  }

  /** A join code: 'BOT', shared by all bots, or the decimal text of a slot number. */
  datatype Code = BotCode | SeatCode(n: nat)

  /** The text a join request must carry to match the code. */
  function CodeText(c: Code): (s: string)
    ensures c.BotCode? <==> s == BOT_CODE
  {
    match c
    case BotCode => BOT_CODE
    case SeatCode(n) => DecimalStringNotBot(n); DecimalString(n)
  }

  /** The join code of a slot: 'BOT' for bots, the slot number for humans. */
  function SlotCode(id: nat, isBot: bool): Code {
    if isBot then BotCode else SeatCode(id)
  }

  function DefaultName(id: nat, isBot: bool): string {
    if isBot then "Bot" + DecimalString(id) else "P" + DecimalString(id)
  }

  /** The slot `initPlayers` creates for id. */
  function FreshPlayer(id: nat, isBot: bool, at: Point): (p: Player)
    ensures p.id == id && p.isBot == isBot && p.pos == at
    ensures p.hp == MAX_HP && p.alive && p.score == 0 && p.ws == None
    ensures p.connected <==> isBot
    ensures p.code == SlotCode(id, isBot)
  {
    Player(id, SlotCode(id, isBot), None, isBot, isBot, DefaultName(id, isBot), at, 0, MAX_HP, true)
  }

  /** A per-id table whose keys are exactly the ids 1..n of a room of capacity n. */
  ghost predicate Covers<V>(m: map<int, V>, n: int) {
    forall k :: k in m <==> 1 <= k <= n
  }

  /** A per-id table that maps exactly the ids 1..n, each to v. */
  ghost predicate Uniform<V>(m: map<int, V>, n: int, v: V) {
    forall k :: (k in m <==> 1 <= k <= n) && (k in m ==> m[k] == v)
  }

  /** Table m0 with the ids 1..n (re)set to v and every other entry kept. */
  ghost predicate Overlay<V>(m: map<int, V>, m0: map<int, V>, n: int, v: V) {
    forall k :: (k in m <==> k in m0 || 1 <= k <= n) && (k in m ==> m[k] == (if 1 <= k <= n then v else m0[k]))
  }

  /** The invariant of one slot i of a room whose bot ids are `bots`. */
  predicate SlotOk(p: Player, i: nat, bots: set<int>) {
    && p.id == i + 1
    && (p.isBot <==> p.id in bots)
    && p.code == SlotCode(i + 1, p.isBot)
    && 0 <= p.hp <= MAX_HP
    && (p.alive <==> p.hp > 0)
    && InArena(p.pos)
  }

  predicate RosterOk(ps: seq<Player>, bots: set<int>) {
    forall i :: 0 <= i < |ps| ==> SlotOk(ps[i], i, bots)
  }
}
