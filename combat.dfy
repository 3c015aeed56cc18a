// Firing, armour and damage, and the resolution of one projectile in one tick.
module Combat {
  import opened Wrappers
  import opened Config
  import opened Geometry
  import opened Entities

  // ---- firing ----

  /** Bots wait twice as long as humans between two shots. */
  function FireCooldown(isBot: bool): (c: int)
    ensures c == (if isBot then 2 * FIRE_COOLDOWN else FIRE_COOLDOWN)
  {
    if isBot then FIRE_COOLDOWN * 2 else FIRE_COOLDOWN
  }

  /** The conditions on the shooter under which a shot leaves the barrel (one in flight is checked separately). */
  predicate ShotAllowed(p: Player, face: Vec, now: int, lastFire: int) {
    p.alive && now - lastFire >= FireCooldown(p.isBot) && !(face.dx == 0.0 && face.dy == 0.0)
  }

  /** The projectile created by a successful shot. */
  function Launch(p: Player, face: Vec): (pr: Projectile)
    ensures pr.owner == p.id && pr.lastRicochet == None
    ensures pr.vel == Vec(face.dx * PROJECTILE_SPEED as real, face.dy * PROJECTILE_SPEED as real)
    ensures pr.pos == Point(p.pos.x + face.dx * MUZZLE_OFFSET as real, p.pos.y + face.dy * MUZZLE_OFFSET as real)
  {
    Projectile(
      Point(p.pos.x + face.dx * MUZZLE_OFFSET as real, p.pos.y + face.dy * MUZZLE_OFFSET as real),
      Vec(face.dx * PROJECTILE_SPEED as real, face.dy * PROJECTILE_SPEED as real),
      p.id, None)
  }

  /** The guard of `tryShoot`: the id has an empty projectile entry, a living tank, its
      cooldown has passed and it faces somewhere. */
  predicate MayFire(ps: seq<Player>, proj: map<int, Option<Projectile>>, face: map<int, Vec>,
                    lastFire: map<int, int>, id: int, now: int) {
    && id in proj && proj[id].None?
    && 1 <= id <= |ps| && id in face && id in lastFire
    && ShotAllowed(ps[id - 1], face[id], now, lastFire[id])
  }

  // ---- armour and damage ----

  function BaseArmour(z: Zone): int {
    match z
    case Front => ARMOUR_FRONT
    case Side => ARMOUR_SIDE
    case Rear => ARMOUR_REAR
  }

  /** The target holds the armour modifier (a missing table entry counts as not holding it). */
  predicate Upgraded(mods: map<int, Mods>, id: int) {
    id in mods && mods[id].armour
  }

  /** Hit points a non-ricochet hit removes. */
  function DamageFor(z: Zone, upgraded: bool): (d: int)
    ensures d == BULLET_DAMAGE - BaseArmour(z) - (if upgraded then ARMOUR_UPGRADE else 0)
    ensures 35 <= d <= BULLET_DAMAGE
  {
    var armour := BaseArmour(z) + (if upgraded then ARMOUR_UPGRADE else 0);
    BULLET_DAMAGE - armour
  }

  /** The front absorbs most and the rear nothing; the modifier absorbs five more in every zone. */
  lemma DamageOrder(up: bool)
    ensures DamageFor(Front, up) < DamageFor(Side, up) < DamageFor(Rear, up)
    ensures DamageFor(Rear, false) == BULLET_DAMAGE
    ensures forall z :: DamageFor(z, true) == DamageFor(z, false) - ARMOUR_UPGRADE
  {
  }

  /** `target.hp -= damage`, clamped at zero, and the kill. */
  function Hit(t: Player, d: int): (u: Player)
    ensures u.hp == (if t.hp - d <= 0 then 0 else t.hp - d)
    ensures u.alive <==> t.alive && t.hp - d > 0
    ensures u == t.(hp := u.hp, alive := u.alive)
  {
    var hp := t.hp - d;
    if hp <= 0 then t.(hp := 0, alive := false) else t.(hp := hp)
  }

  /** A hit keeps the slot invariant and never raises hit points. */
  lemma HitKeepsSlot(t: Player, i: nat, bots: set<int>, d: int)
    requires SlotOk(t, i, bots) && t.alive && d >= 0
    ensures SlotOk(Hit(t, d), i, bots)
    ensures Hit(t, d).hp <= t.hp
  {
  }

  /** A tank at full health survives any single hit; any three hits destroy any tank. */
  lemma HitsToKill(t: Player, z1: Zone, u1: bool, z2: Zone, u2: bool, z3: Zone, u3: bool)
    requires t.alive && t.hp <= MAX_HP
    ensures t.hp == MAX_HP ==> Hit(t, DamageFor(z1, u1)).alive
    ensures !Hit(Hit(Hit(t, DamageFor(z1, u1)), DamageFor(z2, u2)), DamageFor(z3, u3)).alive
  {
  }

  // ---- one projectile against the players ----

  /** One tick of flight. */
  function Advance(pr: Projectile): (q: Projectile)
    ensures q == pr.(pos := Point(pr.pos.x + pr.vel.dx, pr.pos.y + pr.vel.dy))
  {
    pr.(pos := Point(pr.pos.x + pr.vel.dx, pr.pos.y + pr.vel.dy))
  }

  /** `dist < RADIUS + PROJECTILE_RADIUS`, compared on squares. */
  predicate Overlaps(t: Player, at: Point) {
    Sq(at.x - t.pos.x) + Sq(at.y - t.pos.y) < Sq((RADIUS + PROJECTILE_RADIUS) as real)
  }

  /** `projSpeed < 0.01`, compared on squares. */
  predicate Stalled(pr: Projectile) {
    Sq(pr.vel.dx) + Sq(pr.vel.dy) < Sq(0.01)
  }

  /** A tank the projectile is tested against: not its owner, alive, and not the ricochet exclusion. */
  predicate Eligible(t: Player, shooter: int, pr: Projectile) {
    t.id != shooter && t.alive && pr.lastRicochet != Some(t.id)
  }

  predicate Contact(t: Player, shooter: int, pr: Projectile) {
    Eligible(t, shooter, pr) && Overlaps(t, pr.pos)
  }

  /** The first slot from `from` on that the projectile touches. */
  function FirstContact(ps: seq<Player>, shooter: int, pr: Projectile, from: nat): (r: Option<nat>)
    requires from <= |ps|
    ensures r.Some? ==> from <= r.value < |ps| && Contact(ps[r.value], shooter, pr)
    ensures r.Some? ==> forall j :: from <= j < r.value ==> !Contact(ps[j], shooter, pr)
    ensures r.None? ==> forall j :: from <= j < |ps| ==> !Contact(ps[j], shooter, pr)
    decreases |ps| - from
  {
    if from == |ps| then None
    else if Contact(ps[from], shooter, pr) then Some(from)
    else FirstContact(ps, shooter, pr, from + 1)
  }

  /** The target search of the tick: players in array order, first contact wins. */
  method FindTarget(ps: seq<Player>, shooter: int, pr: Projectile) returns (r: Option<nat>)
    ensures r == FirstContact(ps, shooter, pr, 0)
  {
    var i := 0;
    while i < |ps|
      invariant 0 <= i <= |ps|
      invariant FirstContact(ps, shooter, pr, 0) == FirstContact(ps, shooter, pr, i)
    {
      if Contact(ps[i], shooter, pr) {
        return Some(i);
      }
      i := i + 1;
    }
    return None;
  }

  /** The first rock from `from` on that is solid at p. */
  function FirstSolid(rocks: seq<Destructible>, p: Point, from: nat): (r: Option<nat>)
    requires from <= |rocks|
    ensures r.Some? ==> from <= r.value < |rocks| && IsDestructibleSolid(rocks[r.value], p)
    ensures r.Some? ==> forall j :: from <= j < r.value ==> !IsDestructibleSolid(rocks[j], p)
    ensures r.None? ==> forall j :: from <= j < |rocks| ==> !IsDestructibleSolid(rocks[j], p)
    decreases |rocks| - from
  {
    if from == |rocks| then None
    else if IsDestructibleSolid(rocks[from], p) then Some(from)
    else FirstSolid(rocks, p, from + 1)
  }

  method FindSolid(rocks: seq<Destructible>, p: Point) returns (r: Option<nat>)
    ensures r == FirstSolid(rocks, p, 0)
  {
    var i := 0;
    while i < |rocks|
      invariant 0 <= i <= |rocks|
      invariant FirstSolid(rocks, p, 0) == FirstSolid(rocks, p, i)
    {
      if IsDestructibleSolid(rocks[i], p) {
        return Some(i);
      }
      i := i + 1;
    }
    return None;
  }

  /** What the trigonometry decides about one contact: the armour zone, whether the
      incidence is glancing (`cosAngle < 0.6428`), and where a bounce would put the projectile. */
  datatype Aspect = Aspect(zone: Zone, glancing: bool, bouncePos: Point, bounceVel: Vec)

  /** The geometric facts of one shooter's projectile in one tick. */
  datatype ShotEnv = ShotEnv(hitsWall: bool, aspect: int -> Aspect)

  /** What happens to a projectile in one tick. Indices are slot indices into the player array. */
  datatype Outcome =
    | Idle
    | OutOfCanvas
    | WallHit
    | RockHit(rock: nat, hole: Hole)
    | Fizzled(target: nat)
    | Ricochet(target: nat, next: Projectile)
    | Damage(target: nat, amount: int)
    | Miss(next: Projectile)

  predicate Ricochets(a: Aspect) {
    a.zone != Rear && a.glancing
  }

  /** The resolution order of the tick: canvas bounds, walls, rocks, then tanks in slot order. */
  function Judge(ps: seq<Player>, rocks: seq<Destructible>, mods: map<int, Mods>,
                 shooter: int, proj: Option<Projectile>, env: ShotEnv): (o: Outcome)
    ensures o.Idle? <==> proj.None?
    ensures (o.Ricochet? || o.Miss?) ==> o.next.owner == proj.value.owner
  {
    if proj.None? then Idle
    else
      var pr := Advance(proj.value);
      if LeftCanvas(pr.pos) then OutOfCanvas
      else if env.hitsWall then WallHit
      else match FirstSolid(rocks, pr.pos, 0)
        case Some(j) => RockHit(j, Hole(RoundHalfUp(pr.pos.x), RoundHalfUp(pr.pos.y), DESTRUCT_RADIUS))
        case None =>
          match FirstContact(ps, shooter, pr, 0)
          case None => Miss(pr.(lastRicochet := None))
          case Some(k) =>
            if Stalled(pr) then Fizzled(k)
            else
              var a := env.aspect(ps[k].id);
              if Ricochets(a) then Ricochet(k, pr.(pos := a.bouncePos, vel := a.bounceVel, lastRicochet := Some(ps[k].id)))
              else Damage(k, DamageFor(a.zone, Upgraded(mods, ps[k].id)))
  }

  predicate TargetsTank(o: Outcome) {
    o.Fizzled? || o.Ricochet? || o.Damage?
  }

  /** A tank interaction is always with the first eligible tank the projectile overlaps:
      never the owner, never a dead tank, never the tank of the ricochet exclusion. */
  lemma JudgeTargetsFirstContact(ps: seq<Player>, rocks: seq<Destructible>, mods: map<int, Mods>,
                                 shooter: int, pr: Projectile, env: ShotEnv)
    ensures var o := Judge(ps, rocks, mods, shooter, Some(pr), env);
      TargetsTank(o) ==>
        && o.target < |ps|
        && Contact(ps[o.target], shooter, Advance(pr))
        && ps[o.target].id != shooter && ps[o.target].alive
        && pr.lastRicochet != Some(ps[o.target].id)
        && forall j :: 0 <= j < o.target ==> !Contact(ps[j], shooter, Advance(pr))
  {
  }

  /** A ricochet happens only for a glancing non-rear hit of a moving projectile, marks the
      target as the exclusion and keeps the owner; any other tank hit deals the zone's damage. */
  lemma RicochetOrDamage(ps: seq<Player>, rocks: seq<Destructible>, mods: map<int, Mods>,
                         shooter: int, pr: Projectile, env: ShotEnv)
    ensures var o := Judge(ps, rocks, mods, shooter, Some(pr), env);
      && (o.Ricochet? ==>
            o.target < |ps| &&
            (var a := env.aspect(ps[o.target].id);
             && a.zone != Rear && a.glancing && !Stalled(Advance(pr))
             && o.next == pr.(pos := a.bouncePos, vel := a.bounceVel, lastRicochet := Some(ps[o.target].id))))
      && (o.Damage? ==>
            o.target < |ps| &&
            (var a := env.aspect(ps[o.target].id);
             && !(a.zone != Rear && a.glancing)
             && o.amount == DamageFor(a.zone, Upgraded(mods, ps[o.target].id))
             && 35 <= o.amount <= BULLET_DAMAGE))
  {
  }

  /** A tick in which the projectile flies on without ricocheting clears the exclusion. */
  lemma MissClearsExclusion(ps: seq<Player>, rocks: seq<Destructible>, mods: map<int, Mods>,
                            shooter: int, pr: Projectile, env: ShotEnv)
    ensures var o := Judge(ps, rocks, mods, shooter, Some(pr), env);
      o.Miss? ==>
        && o.next == Advance(pr).(lastRicochet := None)
        && o.next.owner == pr.owner
        && forall j :: 0 <= j < |ps| ==> !Contact(ps[j], shooter, Advance(pr))
  {
  }

  /** The tick right after a ricochet off tank T cannot touch T again, whatever the geometry. */
  lemma NoImmediateRepeat(ps: seq<Player>, rocks: seq<Destructible>, mods: map<int, Mods>,
                          shooter: int, pr: Projectile, env: ShotEnv,
                          ps2: seq<Player>, rocks2: seq<Destructible>, mods2: map<int, Mods>, env2: ShotEnv)
    requires Judge(ps, rocks, mods, shooter, Some(pr), env).Ricochet?
    ensures var o := Judge(ps, rocks, mods, shooter, Some(pr), env);
      var o2 := Judge(ps2, rocks2, mods2, shooter, Some(o.next), env2);
      o.target < |ps| && (TargetsTank(o2) ==> o2.target < |ps2| && ps2[o2.target].id != ps[o.target].id)
  {
    var o := Judge(ps, rocks, mods, shooter, Some(pr), env);
    RicochetOrDamage(ps, rocks, mods, shooter, pr, env);
    JudgeTargetsFirstContact(ps2, rocks2, mods2, shooter, o.next, env2);
  }

  // ---- applying the outcome of a tick ----

  /** `room.projectiles[id]`, where a missing entry is no projectile. */
  function Flying(pr: map<int, Option<Projectile>>, id: int): Option<Projectile> {
    if id in pr then pr[id] else None
  }

  /** A projectile is filed under its owner, and only living tanks have one. */
  ghost predicate FlightInv(ps: seq<Player>, pr: map<int, Option<Projectile>>) {
    forall id :: id in pr && pr[id].Some? ==>
      pr[id].value.owner == id && 1 <= id <= |ps| && ps[id - 1].alive
  }

  /** The slot and rock an outcome names exist. */
  predicate InRange(o: Outcome, ps: seq<Player>, rocks: seq<Destructible>) {
    (o.RockHit? ==> o.rock < |rocks|) && (TargetsTank(o) ==> o.target < |ps|)
  }

  lemma JudgeInRange(ps: seq<Player>, rocks: seq<Destructible>, mods: map<int, Mods>,
                     shooter: int, proj: Option<Projectile>, env: ShotEnv)
    ensures InRange(Judge(ps, rocks, mods, shooter, proj, env), ps, rocks)
  {
    if proj.Some? {
      JudgeTargetsFirstContact(ps, rocks, mods, shooter, proj.value, env);
    }
  }

  /** What an outcome does to the room: the shooter's projectile is removed or moved on, a
      rock gets a hole, a hit lowers the target's hit points and a kill removes the target's
      own projectile. */
  function Apply(ps: seq<Player>, pr: map<int, Option<Projectile>>, rocks: seq<Destructible>,
                 id: int, o: Outcome): (r: (seq<Player>, map<int, Option<Projectile>>, seq<Destructible>))
    requires InRange(o, ps, rocks)
    ensures |r.0| == |ps| && |r.2| == |rocks|
    ensures forall j :: 0 <= j < |ps| ==> r.0[j].id == ps[j].id && r.0[j].isBot == ps[j].isBot
  {
    match o
    case Idle => (ps, pr, rocks)
    case OutOfCanvas => (ps, pr[id := None], rocks)
    case WallHit => (ps, pr[id := None], rocks)
    case RockHit(j, h) => (ps, pr[id := None], rocks[j := AddHole(rocks[j], h)])
    case Fizzled(_) => (ps, pr[id := None], rocks)
    case Ricochet(_, next) => (ps, pr[id := Some(next)], rocks)
    case Damage(k, d) =>
      var t := Hit(ps[k], d);
      (ps[k := t], if t.alive then pr[id := None] else pr[id := None][t.id := None], rocks)
    case Miss(next) => (ps, pr[id := Some(next)], rocks)
  }

  /** One iteration of the projectile loop: the projectile of `id` is judged and its outcome applied. */
  function Resolve(ps: seq<Player>, pr: map<int, Option<Projectile>>, rocks: seq<Destructible>,
                   mods: map<int, Mods>, id: int, env: ShotEnv): (r: (seq<Player>, map<int, Option<Projectile>>, seq<Destructible>))
    ensures |r.0| == |ps| && |r.2| == |rocks|
    ensures forall j :: 0 <= j < |ps| ==> r.0[j].id == ps[j].id && r.0[j].isBot == ps[j].isBot
  {
    var o := Judge(ps, rocks, mods, id, Flying(pr, id), env);
    JudgeInRange(ps, rocks, mods, id, Flying(pr, id), env);
    Apply(ps, pr, rocks, id, o)
  }

  /** The projectile loop of a tick over the ids 1..k, in slot order. */
  function CombatRun(ps: seq<Player>, pr: map<int, Option<Projectile>>, rocks: seq<Destructible>,
                     mods: map<int, Mods>, shots: int -> ShotEnv, k: nat): (r: (seq<Player>, map<int, Option<Projectile>>, seq<Destructible>))
    ensures |r.0| == |ps| && |r.2| == |rocks|
    ensures forall j :: 0 <= j < |ps| ==> r.0[j].id == ps[j].id && r.0[j].isBot == ps[j].isBot
    decreases k
  {
    if k == 0 then (ps, pr, rocks)
    else
      var s := CombatRun(ps, pr, rocks, mods, shots, k - 1);
      Resolve(s.0, s.1, s.2, mods, k, shots(k))
  }

  /** What the slot invariant needs to know of an outcome: a tank hit is alive and takes a
      non-negative amount, a projectile that flies on keeps its owner. */
  predicate Sound(o: Outcome, ps: seq<Player>, pr: map<int, Option<Projectile>>, rocks: seq<Destructible>, id: int) {
    && InRange(o, ps, rocks)
    && (o.Damage? ==> ps[o.target].alive && o.amount >= 0)
    && (!o.Idle? ==> Flying(pr, id).Some?)
    && ((o.Ricochet? || o.Miss?) ==> o.next.owner == Flying(pr, id).value.owner)
  }

  lemma JudgeSound(ps: seq<Player>, pr: map<int, Option<Projectile>>, rocks: seq<Destructible>,
                   mods: map<int, Mods>, id: int, env: ShotEnv)
    ensures Sound(Judge(ps, rocks, mods, id, Flying(pr, id), env), ps, pr, rocks, id)
  {
    JudgeInRange(ps, rocks, mods, id, Flying(pr, id), env);
    if Flying(pr, id).Some? {
      var q := Flying(pr, id).value;
      JudgeTargetsFirstContact(ps, rocks, mods, id, q, env);
      RicochetOrDamage(ps, rocks, mods, id, q, env);
      MissClearsExclusion(ps, rocks, mods, id, q, env);
    }
  }

  /** The facts one step of the projectile loop preserves, from state `s` to state `r`:
      every slot stays well formed, hit points only drop, nobody comes back to life, the
      projectile table keeps its ids and only living tanks have a projectile in flight. */
  ghost predicate Kept(s: (seq<Player>, map<int, Option<Projectile>>, seq<Destructible>), bots: set<int>,
                       r: (seq<Player>, map<int, Option<Projectile>>, seq<Destructible>)) {
    && |r.0| == |s.0| && RosterOk(r.0, bots) && Covers(r.1, |s.0|) && FlightInv(r.0, r.1)
    && |r.2| == |s.2|
    && forall j :: 0 <= j < |s.0| ==> r.0[j].hp <= s.0[j].hp && (r.0[j].alive ==> s.0[j].alive)
  }

  lemma DamageKeeps(ps: seq<Player>, bots: set<int>, pr: map<int, Option<Projectile>>,
                    rocks: seq<Destructible>, id: int, o: Outcome)
    requires RosterOk(ps, bots) && Covers(pr, |ps|) && FlightInv(ps, pr) && Sound(o, ps, pr, rocks, id)
    requires o.Damage?
    ensures Kept((ps, pr, rocks), bots, Apply(ps, pr, rocks, id, o))
  {
    HitKeepsSlot(ps[o.target], o.target, bots, o.amount);
    var r := Apply(ps, pr, rocks, id, o);
    assert forall j :: 0 <= j < |ps| ==> r.0[j] == if j == o.target then Hit(ps[o.target], o.amount) else ps[j];
    assert Hit(ps[o.target], o.amount).id == o.target + 1;
  }

  /** Applying a sound outcome keeps the loop's facts. */
  lemma ApplyKeeps(ps: seq<Player>, bots: set<int>, pr: map<int, Option<Projectile>>,
                   rocks: seq<Destructible>, id: int, o: Outcome)
    requires RosterOk(ps, bots) && Covers(pr, |ps|) && FlightInv(ps, pr) && Sound(o, ps, pr, rocks, id)
    ensures Kept((ps, pr, rocks), bots, Apply(ps, pr, rocks, id, o))
  {
    if o.Damage? {
      DamageKeeps(ps, bots, pr, rocks, id, o);
    }
  }

  /** One resolution keeps the same facts. */
  lemma ResolveKeeps(ps: seq<Player>, bots: set<int>, pr: map<int, Option<Projectile>>,
                     rocks: seq<Destructible>, mods: map<int, Mods>, id: int, env: ShotEnv)
    requires RosterOk(ps, bots) && Covers(pr, |ps|) && FlightInv(ps, pr)
    ensures Kept((ps, pr, rocks), bots, Resolve(ps, pr, rocks, mods, id, env))
  {
    JudgeSound(ps, pr, rocks, mods, id, env);
    ApplyKeeps(ps, bots, pr, rocks, id, Judge(ps, rocks, mods, id, Flying(pr, id), env));
  }

  /** What one resolution does to the room, outcome by outcome: a tank hit takes exactly the
      judged amount off the target alone and removes the shooter's projectile, and a kill
      also removes the target's own; a ricochet or a miss changes no hit point and keeps the
      projectile flying; a rock hit carves the hole; leaving the canvas, hitting a wall or
      fizzling removes the projectile; an idle id changes nothing. */
  lemma ResolveEffect(ps: seq<Player>, pr: map<int, Option<Projectile>>, rocks: seq<Destructible>,
                      mods: map<int, Mods>, id: int, env: ShotEnv)
    ensures var o := Judge(ps, rocks, mods, id, Flying(pr, id), env);
      var r := Resolve(ps, pr, rocks, mods, id, env);
      && (o.Idle? ==> r == (ps, pr, rocks))
      && (o.Damage? ==>
            && o.target < |ps| && ps[o.target].alive && |r.0| == |ps| && r.2 == rocks
            && r.0[o.target] == ps[o.target].(hp := r.0[o.target].hp, alive := r.0[o.target].alive)
            && r.0[o.target].hp == (if ps[o.target].hp - o.amount <= 0 then 0 else ps[o.target].hp - o.amount)
            && (r.0[o.target].alive <==> ps[o.target].hp - o.amount > 0)
            && (forall j :: 0 <= j < |ps| && j != o.target ==> r.0[j] == ps[j])
            && (r.0[o.target].alive ==> r.1 == pr[id := None])
            && (!r.0[o.target].alive ==> r.1 == pr[id := None][ps[o.target].id := None]))
      && ((o.Ricochet? || o.Miss?) ==> r == (ps, pr[id := Some(o.next)], rocks))
      && (o.RockHit? ==> o.rock < |rocks| && r == (ps, pr[id := None], rocks[o.rock := AddHole(rocks[o.rock], o.hole)]))
      && ((o.OutOfCanvas? || o.WallHit? || o.Fizzled?) ==> r == (ps, pr[id := None], rocks))
  {
    JudgeSound(ps, pr, rocks, mods, id, env);
  }

  /** The whole projectile loop keeps the same facts. */
  lemma {:induction false} CombatRunKeeps(ps: seq<Player>, bots: set<int>, pr: map<int, Option<Projectile>>,
                                          rocks: seq<Destructible>, mods: map<int, Mods>, shots: int -> ShotEnv, k: nat)
    requires RosterOk(ps, bots) && Covers(pr, |ps|) && FlightInv(ps, pr)
    ensures Kept((ps, pr, rocks), bots, CombatRun(ps, pr, rocks, mods, shots, k))
    decreases k
  {
    if k > 0 {
      CombatRunKeeps(ps, bots, pr, rocks, mods, shots, k - 1);
      var s := CombatRun(ps, pr, rocks, mods, shots, k - 1);
      ResolveKeeps(s.0, bots, s.1, s.2, mods, k, shots(k));
    }
  }

  // ---- the projectile loop ----

  /** One iteration of the projectile loop of `gameLoop`: the projectile of `id` is judged and
      the outcome applied. */
  method ResolveShot(ps: seq<Player>, pr: map<int, Option<Projectile>>, rocks: seq<Destructible>,
                     mods: map<int, Mods>, id: int, env: ShotEnv)
    returns (o: Outcome, ps': seq<Player>, pr': map<int, Option<Projectile>>, rocks': seq<Destructible>)
    ensures o == Judge(ps, rocks, mods, id, Flying(pr, id), env)
    ensures (ps', pr', rocks') == Resolve(ps, pr, rocks, mods, id, env)
  {
    o := Judge(ps, rocks, mods, id, Flying(pr, id), env);
    JudgeInRange(ps, rocks, mods, id, Flying(pr, id), env);
    ps', pr', rocks' := ps, pr, rocks;
    match o {
      case Idle =>
      case RockHit(j, h) =>
        pr' := pr'[id := None];
        rocks' := rocks'[j := AddHole(rocks'[j], h)];
      case Ricochet(_, next) =>
        pr' := pr'[id := Some(next)];
      case Miss(next) =>
        pr' := pr'[id := Some(next)];
      case Damage(k, d) =>
        var t := Hit(ps'[k], d);
        ps' := ps'[k := t];
        pr' := pr'[id := None];
        if !t.alive {
          pr' := pr'[t.id := None];
        }
      case OutOfCanvas =>
        pr' := pr'[id := None];
      case WallHit =>
        pr' := pr'[id := None];
      case Fizzled(_) =>
        pr' := pr'[id := None];
    }
  }

  /** The projectile loop of `gameLoop`: each of the ids 1..n in turn. */
  method CombatLoop(ps: seq<Player>, pr: map<int, Option<Projectile>>, rocks: seq<Destructible>,
                    mods: map<int, Mods>, shots: int -> ShotEnv, n: nat)
    returns (ps': seq<Player>, pr': map<int, Option<Projectile>>, rocks': seq<Destructible>)
    ensures (ps', pr', rocks') == CombatRun(ps, pr, rocks, mods, shots, n)
  {
    ps', pr', rocks' := ps, pr, rocks;
    var i := 0;
    while i < n
      invariant 0 <= i <= n
      invariant (ps', pr', rocks') == CombatRun(ps, pr, rocks, mods, shots, i)
    {
      var o;
      o, ps', pr', rocks' := ResolveShot(ps', pr', rocks', mods, i + 1, shots(i + 1));
      i := i + 1;
    }
  }
}
