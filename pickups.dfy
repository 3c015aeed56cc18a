// The pickup policy: spawn guard, round-robin type cycle and collection.
module Pickups {
  import opened Wrappers
  import opened Config
  import opened Geometry
  import opened Entities

  const PICKUP_TYPES: seq<PickupType> := [Speed, Armour, Repair]

  /** `PICKUP_TYPES[index % PICKUP_TYPES.length]`. */
  function TypeAt(i: nat): PickupType {
    PICKUP_TYPES[i % |PICKUP_TYPES|]
  }

  /** Types repeat with period three and any three consecutive spawns bring one of each. */
  lemma TypeCycle(i: nat)
    ensures TypeAt(i + 3) == TypeAt(i)
    ensures {TypeAt(i), TypeAt(i + 1), TypeAt(i + 2)} == {Speed, Armour, Repair}
  {
    var r := i % 3;
    assert (i + 1) % 3 == (r + 1) % 3 && (i + 2) % 3 == (r + 2) % 3 && (i + 3) % 3 == r;
  }

  /** A spawn time of zero stands for "no spawn yet this round": the round start is used. */
  function SpawnClockBase(lastSpawn: int, gameStart: int): int {
    if lastSpawn == 0 then gameStart else lastSpawn
  }

  /** The spawn guard: no pickup present, the interval has passed, and two tanks alive. */
  predicate SpawnDue(present: nat, lastSpawn: int, gameStart: int, now: int, alive: nat) {
    present == 0 && now - SpawnClockBase(lastSpawn, gameStart) >= PICKUP_INTERVAL && alive >= 2
  }

  /** The pickup a spawn creates at the chosen point. */
  function SpawnedPickup(counter: nat, typeIndex: nat, at: Point): (k: Pickup)
    ensures k.id == counter + 1 && k.kind == TypeAt(typeIndex)
  {
    Pickup(counter + 1, TypeAt(typeIndex), Point(RoundHalfUp(at.x) as real, RoundHalfUp(at.y) as real))
  }

  /** `dist < RADIUS + PICKUP_RADIUS`, compared on squares. */
  predicate Touches(p: Player, k: Pickup) {
    Sq(p.pos.x - k.pos.x) + Sq(p.pos.y - k.pos.y) < Sq((RADIUS + PICKUP_RADIUS) as real)
  }

  predicate Holds(m: Mods, t: PickupType) {
    match t
    case Speed => m.speed
    case Armour => m.armour
    case Repair => m.heal
  }

  function Grant(m: Mods, t: PickupType): (m': Mods)
    ensures Holds(m', t)
    ensures forall u :: u != t ==> Holds(m', u) == Holds(m, u)
  {
    match t
    case Speed => m.(speed := true)
    case Armour => m.(armour := true)
    case Repair => m.(heal := true)
  }

  predicate IdsIn(ps: seq<Player>, mods: map<int, Mods>) {
    forall i :: 0 <= i < |ps| ==> ps[i].id in mods
  }

  /** A player collects a pickup it touches while alive, unless it already holds that type. */
  predicate Collects(p: Player, mods: map<int, Mods>, k: Pickup)
    requires p.id in mods
  {
    p.alive && Touches(p, k) && !Holds(mods[p.id], k.kind)
  }

  /** The first player from `from` on who collects k. */
  function FirstCollector(ps: seq<Player>, mods: map<int, Mods>, k: Pickup, from: nat): (r: Option<nat>)
    requires IdsIn(ps, mods) && from <= |ps|
    ensures r.Some? ==> from <= r.value < |ps| && Collects(ps[r.value], mods, k)
    ensures r.Some? ==> forall j :: from <= j < r.value ==> !Collects(ps[j], mods, k)
    ensures r.None? ==> forall j :: from <= j < |ps| ==> !Collects(ps[j], mods, k)
    decreases |ps| - from
  {
    if from == |ps| then None
    else if Collects(ps[from], mods, k) then Some(from)
    else FirstCollector(ps, mods, k, from + 1)
  }

  /** The inner loop of the collision check: players in array order, holders skipped. */
  method FindCollector(ps: seq<Player>, mods: map<int, Mods>, k: Pickup) returns (r: Option<nat>)
    requires IdsIn(ps, mods)
    ensures r == FirstCollector(ps, mods, k, 0)
  {
    var i := 0;
    while i < |ps|
      invariant 0 <= i <= |ps|
      invariant FirstCollector(ps, mods, k, 0) == FirstCollector(ps, mods, k, i)
    {
      if Collects(ps[i], mods, k) {
        return Some(i);
      }
      i := i + 1;
    }
    return None;
  }

  function GrantTo(mods: map<int, Mods>, id: int, t: PickupType): (m': map<int, Mods>)
    requires id in mods
    ensures m'.Keys == mods.Keys
    ensures Holds(m'[id], t)
    ensures forall j, u :: j in mods && Holds(mods[j], u) ==> Holds(m'[j], u)
    ensures forall j :: j in mods && j != id ==> m'[j] == mods[j]
  {
    mods[id := Grant(mods[id], t)]
  }

  /** The collision check over all pickups, last to first, with removal of collected ones. */
  function CollectAll(ps: seq<Player>, ks: seq<Pickup>, mods: map<int, Mods>): (r: (seq<Pickup>, map<int, Mods>))
    requires IdsIn(ps, mods)
    ensures r.1.Keys == mods.Keys
    ensures |r.0| <= |ks|
    ensures forall x :: x in r.0 ==> x in ks
    ensures forall j, u :: j in mods && Holds(mods[j], u) ==> Holds(r.1[j], u)
    decreases |ks|
  {
    if ks == [] then ([], mods)
    else
      var last := ks[|ks| - 1];
      var who := FirstCollector(ps, mods, last, 0);
      var mods1 := if who.Some? then GrantTo(mods, ps[who.value].id, last.kind) else mods;
      var rest := CollectAll(ps, ks[..|ks| - 1], mods1);
      (if who.Some? then rest.0 else rest.0 + [last], rest.1)
  }

  /** With the single pickup a room can hold: the first eligible player takes it and gets the
      flag of its type, or nobody does and nothing changes. */
  lemma CollectSingle(ps: seq<Player>, k: Pickup, mods: map<int, Mods>)
    requires IdsIn(ps, mods)
    ensures var r := CollectAll(ps, [k], mods);
      match FirstCollector(ps, mods, k, 0)
      case None => r == ([k], mods)
      case Some(i) => r == ([], GrantTo(mods, ps[i].id, k.kind))
  {
    assert [k][..0] == [];
    assert [] + [k] == [k];
  }

  /** A pickup that no player can take stays where it is, and no flag changes. */
  lemma {:induction false} UntakenStay(ps: seq<Player>, ks: seq<Pickup>, mods: map<int, Mods>)
    requires IdsIn(ps, mods)
    requires forall i, j :: 0 <= i < |ks| && 0 <= j < |ps| ==> !Collects(ps[j], mods, ks[i])
    ensures CollectAll(ps, ks, mods) == (ks, mods)
    decreases |ks|
  {
    if ks != [] {
      var last := ks[|ks| - 1];
      NobodyCollects(ps, mods, last);
      var pre := ks[..|ks| - 1];
      UntakenStay(ps, pre, mods);
      assert pre + [last] == ks;
    }
  }

  lemma NobodyCollects(ps: seq<Player>, mods: map<int, Mods>, k: Pickup)
    requires IdsIn(ps, mods)
    requires forall j :: 0 <= j < |ps| ==> !Collects(ps[j], mods, k)
    ensures FirstCollector(ps, mods, k, 0).None?
  {
  }

  /** The loop of `checkPickupCollisions`: pickups last to first; a collected one is spliced
      out and its collector gets the flag. */
  method CollectPickups(ps: seq<Player>, ks0: seq<Pickup>, mods0: map<int, Mods>) returns (ks: seq<Pickup>, mods: map<int, Mods>)
    requires IdsIn(ps, mods0)
    ensures (ks, mods) == CollectAll(ps, ks0, mods0)
  {
    ks, mods := ks0, mods0;
    var i := |ks|;
    assert ks0[..i] == ks0 && ks[i..] == [];
    assert CollectAll(ps, ks0, mods0).0 + [] == CollectAll(ps, ks0, mods0).0;
    while i > 0
      invariant 0 <= i <= |ks0| && i <= |ks|
      invariant ks[..i] == ks0[..i]
      invariant IdsIn(ps, mods)
      invariant var r := CollectAll(ps, ks0[..i], mods);
        CollectAll(ps, ks0, mods0) == (r.0 + ks[i..], r.1)
      decreases i
    {
      ghost var ks1 := ks;
      assert ks[i - 1] == ks0[..i][i - 1];
      var k := ks[i - 1];
      var who := FindCollector(ps, mods, k);
      if who.Some? {
        mods := GrantTo(mods, ps[who.value].id, k.kind);
        ks := ks[..i - 1] + ks[i..];
      }
      assert ks0[..i][..i - 1] == ks0[..i - 1];
      assert ks[..i - 1] == ks0[..i - 1];
      ghost var rest := CollectAll(ps, ks0[..i - 1], mods);
      if who.Some? {
        assert ks[i - 1..] == ks1[i..];
      } else {
        assert ks[i - 1..] == [k] + ks1[i..];
        assert (rest.0 + [k]) + ks1[i..] == rest.0 + ([k] + ks1[i..]);
      }
      i := i - 1;
    }
    assert ks0[..0] == [] && ks[0..] == ks && [] + ks == ks;
  }
}
