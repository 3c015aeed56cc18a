// The bot controller of `updateBotAI`: each living bot picks the nearest living rival, tries
// to shoot, and steers; the state it touches is the per-id control tables of the room.
module Bots {
  import opened Wrappers
  import opened Config
  import opened Geometry
  import opened Entities
  import opened Combat
  import opened Movement
  import opened Rounds

  /** A living tank other than `id`. */
  predicate Rival(p: Player, id: int) {
    p.id != id && p.alive
  }

  /** The target search over slots 0..k-1: the nearest rival of `id` seen from `at`; on a tie
      the earliest slot wins, since only a strictly shorter distance replaces the best so far. */
  function NearestIn(ps: seq<Player>, id: int, at: Point, k: nat): (r: Option<nat>)
    requires k <= |ps|
    ensures r.None? <==> forall j :: 0 <= j < k ==> !Rival(ps[j], id)
    ensures r.Some? ==> r.value < k && Rival(ps[r.value], id)
    ensures r.Some? ==> forall j :: 0 <= j < k && Rival(ps[j], id) ==> DistSq(at, ps[r.value].pos) <= DistSq(at, ps[j].pos)
    ensures r.Some? ==> forall j :: 0 <= j < r.value && Rival(ps[j], id) ==> DistSq(at, ps[r.value].pos) < DistSq(at, ps[j].pos)
    decreases k
  {
    if k == 0 then None
    else
      var r := NearestIn(ps, id, at, k - 1);
      if !Rival(ps[k - 1], id) then r
      else if r.None? || DistSq(at, ps[k - 1].pos) < DistSq(at, ps[r.value].pos) then Some(k - 1)
      else r
  }

  /** The inner loop of `updateBotAI` that looks for the closest living rival. */
  method FindNearest(ps: seq<Player>, id: int, at: Point) returns (r: Option<nat>)
    ensures r == NearestIn(ps, id, at, |ps|)
  {
    r := None;
    var best := 0.0;
    var j := 0;
    while j < |ps|
      invariant 0 <= j <= |ps|
      invariant r == NearestIn(ps, id, at, j)
      invariant r.Some? ==> best == DistSq(at, ps[r.value].pos)
    {
      var other := ps[j];
      if other.id != id && other.alive {
        var d := DistSq(at, other.pos);
        if r.None? || d < best {
          r, best := Some(j), d;
        }
      }
      j := j + 1;
    }
  }

  /** The per-id tables a bot's turn reads and writes, and the shots fired this tick. */
  datatype Controls = Controls(input: map<int, Vec>, facing: map<int, Vec>, proj: map<int, Option<Projectile>>,
                               lastFire: map<int, int>, shots: seq<int>)

  /** Where a bot steers: its move, given its id and its target's position. The move is the
      unit vector towards the target, or the sidestep chosen after being stuck. */
  type Steering = (int, Point) -> Vec

  /** `tryShoot` on the control tables. */
  function Fire(ps: seq<Player>, c: Controls, id: int, now: int): (d: Controls)
    ensures d.input == c.input && d.facing == c.facing
    ensures MayFire(ps, c.proj, c.facing, c.lastFire, id, now) ==>
      d == c.(proj := c.proj[id := Some(Launch(ps[id - 1], c.facing[id]))], lastFire := c.lastFire[id := now], shots := c.shots + [id])
    ensures !MayFire(ps, c.proj, c.facing, c.lastFire, id, now) ==> d == c
  {
    if MayFire(ps, c.proj, c.facing, c.lastFire, id, now) then
      c.(proj := c.proj[id := Some(Launch(ps[id - 1], c.facing[id]))], lastFire := c.lastFire[id := now], shots := c.shots + [id])
    else c
  }

  /** One iteration of `updateBotAI`, for slot i. Humans and dead bots are skipped; a bot with
      no rival stops; otherwise it tries to shoot (with the facing it had so far), takes its
      move as stick input and turns to the move's direction if the move is not tiny. */
  function BotStep(ps: seq<Player>, c: Controls, i: nat, now: int, steer: Steering, norm: Vec -> Vec): Controls
    requires i < |ps|
  {
    var p := ps[i];
    if !(p.isBot && p.alive) then c
    else match NearestIn(ps, p.id, p.pos, |ps|)
      case None => c.(input := c.input[p.id := ZERO_INPUT])
      case Some(t) =>
        var f := Fire(ps, c, p.id, now);
        var mov := steer(p.id, ps[t].pos);
        f.(input := f.input[p.id := mov], facing := if Steers(mov) then f.facing[p.id := norm(mov)] else f.facing)
  }

  /** The bot loop over the slots 0..k-1, in slot order. */
  function BotRun(ps: seq<Player>, c: Controls, now: int, steer: Steering, norm: Vec -> Vec, k: nat): Controls
    requires k <= |ps|
    decreases k
  {
    if k == 0 then c else BotStep(ps, BotRun(ps, c, now, steer, norm, k - 1), k - 1, now, steer, norm)
  }

  function Lookup<V>(m: map<int, V>, id: int): Option<V> {
    if id in m then Some(m[id]) else None
  }

  /** The tables of c and d agree at id. */
  ghost predicate SameAt(c: Controls, d: Controls, id: int) {
    && (id in c.input <==> id in d.input) && (id in c.input ==> c.input[id] == d.input[id])
    && (id in c.facing <==> id in d.facing) && (id in c.facing ==> c.facing[id] == d.facing[id])
    && (id in c.proj <==> id in d.proj) && (id in c.proj ==> c.proj[id] == d.proj[id])
    && (id in c.lastFire <==> id in d.lastFire) && (id in c.lastFire ==> c.lastFire[id] == d.lastFire[id])
  }

  lemma SameAtTrans(a: Controls, b: Controls, c: Controls, id: int)
    requires SameAt(b, a, id) && SameAt(b, c, id)
    ensures SameAt(a, c, id)
  {
  }

  /** The tables of a room of capacity n, with projectiles only for living owners. */
  ghost predicate ControlsOk(ps: seq<Player>, c: Controls) {
    && Covers(c.input, |ps|) && Covers(c.facing, |ps|) && Covers(c.proj, |ps|) && Covers(c.lastFire, |ps|)
    && FlightInv(ps, c.proj)
  }

  /** A bot's turn writes the entries of its own id only. */
  lemma BotStepFrame(ps: seq<Player>, c: Controls, i: nat, now: int, steer: Steering, norm: Vec -> Vec, id: int)
    requires i < |ps| && ps[i].id == i + 1 && id != i + 1
    ensures SameAt(c, BotStep(ps, c, i, now, steer, norm), id)
  {
  }

  /** A bot's turn reads only the entries of its own id. */
  lemma BotStepReads(ps: seq<Player>, c: Controls, s: Controls, i: nat, now: int, steer: Steering, norm: Vec -> Vec)
    requires i < |ps| && ps[i].id == i + 1 && SameAt(c, s, i + 1)
    ensures SameAt(BotStep(ps, c, i, now, steer, norm), BotStep(ps, s, i, now, steer, norm), i + 1)
  {
  }

  /** A bot's turn keeps the tables well formed. */
  lemma BotStepOk(ps: seq<Player>, bots: set<int>, c: Controls, i: nat, now: int, steer: Steering, norm: Vec -> Vec)
    requires RosterOk(ps, bots) && i < |ps| && ControlsOk(ps, c)
    ensures ControlsOk(ps, BotStep(ps, c, i, now, steer, norm))
  {
    var p := ps[i];
    assert SlotOk(p, i, bots);
    if p.isBot && p.alive {
      match NearestIn(ps, p.id, p.pos, |ps|)
      case None =>
      case Some(t) =>
        var f := Fire(ps, c, p.id, now);
        assert FlightInv(ps, f.proj) by {
          if MayFire(ps, c.proj, c.facing, c.lastFire, p.id, now) {
            assert ps[p.id - 1] == p;
          }
        }
    }
  }

  /** A bot's turn fires at most its own shot, and only a living bot fires. */
  lemma BotStepShots(ps: seq<Player>, c: Controls, i: nat, now: int, steer: Steering, norm: Vec -> Vec)
    requires i < |ps| && ps[i].id == i + 1
    ensures var d := BotStep(ps, c, i, now, steer, norm);
      d.shots == c.shots || (d.shots == c.shots + [i + 1] && ps[i].isBot && ps[i].alive)
  {
  }

  /** The bot loop keeps the tables well formed. */
  lemma {:induction false} BotRunOk(ps: seq<Player>, bots: set<int>, c: Controls, now: int,
                                    steer: Steering, norm: Vec -> Vec, k: nat)
    requires RosterOk(ps, bots) && k <= |ps| && ControlsOk(ps, c)
    ensures ControlsOk(ps, BotRun(ps, c, now, steer, norm, k))
    decreases k
  {
    if k > 0 {
      BotRunOk(ps, bots, c, now, steer, norm, k - 1);
      BotStepOk(ps, bots, BotRun(ps, c, now, steer, norm, k - 1), k - 1, now, steer, norm);
    }
  }

  /** The bot loop only appends to the list of shots fired, and only ids of living bots. */
  lemma {:induction false} BotRunShots(ps: seq<Player>, c: Controls, now: int,
                                       steer: Steering, norm: Vec -> Vec, k: nat)
    requires Numbered(ps) && k <= |ps|
    ensures var r := BotRun(ps, c, now, steer, norm, k);
      && |c.shots| <= |r.shots| && r.shots[..|c.shots|] == c.shots
      && forall n :: |c.shots| <= n < |r.shots| ==> 1 <= r.shots[n] <= k && ps[r.shots[n] - 1].isBot
    decreases k
  {
    if k > 0 {
      BotRunShots(ps, c, now, steer, norm, k - 1);
      var s := BotRun(ps, c, now, steer, norm, k - 1);
      BotStepShots(ps, s, k - 1, now, steer, norm);
      var r := BotStep(ps, s, k - 1, now, steer, norm);
      if r.shots != s.shots {
        assert r.shots[..|s.shots|] == s.shots;
      }
    }
  }

  /** The bot loop over slots 0..k-1 leaves the ids beyond k alone. */
  lemma {:induction false} BotRunFrame(ps: seq<Player>, c: Controls, now: int, steer: Steering, norm: Vec -> Vec,
                                       k: nat, id: int)
    requires Numbered(ps) && k <= |ps| && !(1 <= id <= k)
    ensures SameAt(c, BotRun(ps, c, now, steer, norm, k), id)
    decreases k
  {
    if k > 0 {
      BotRunFrame(ps, c, now, steer, norm, k - 1, id);
      BotStepFrame(ps, BotRun(ps, c, now, steer, norm, k - 1), k - 1, now, steer, norm, id);
    }
  }

  /** Each bot acts on its own tables as if it were alone: after the loop over slots 0..k-1,
      the entries of the id of slot j < k are those its own turn makes from the tables before
      the loop. */
  lemma {:induction false} BotRunSlot(ps: seq<Player>, c: Controls, now: int,
                                      steer: Steering, norm: Vec -> Vec, k: nat, j: nat)
    requires Numbered(ps) && k <= |ps| && j < k
    ensures SameAt(BotRun(ps, c, now, steer, norm, k), BotStep(ps, c, j, now, steer, norm), j + 1)
    decreases k
  {
    var s := BotRun(ps, c, now, steer, norm, k - 1);
    var r := BotStep(ps, s, k - 1, now, steer, norm);
    var t := BotStep(ps, c, j, now, steer, norm);
    if j < k - 1 {
      BotRunSlot(ps, c, now, steer, norm, k - 1, j);
      BotStepFrame(ps, s, k - 1, now, steer, norm, j + 1);
      SameAtTrans(r, s, t, j + 1);
    } else {
      BotRunFrame(ps, c, now, steer, norm, k - 1, j + 1);
      BotStepReads(ps, s, c, j, now, steer, norm);
    }
  }

  /** Humans' tables are untouched by the bot loop, and a bot without a living rival ends
      the loop standing still, without having fired. */
  lemma BotLoopEffects(ps: seq<Player>, c: Controls, now: int, steer: Steering, norm: Vec -> Vec, j: nat)
    requires Numbered(ps) && j < |ps|
    ensures !ps[j].isBot ==> SameAt(BotRun(ps, c, now, steer, norm, |ps|), c, j + 1)
    ensures ps[j].isBot && ps[j].alive && (forall m :: 0 <= m < |ps| ==> !Rival(ps[m], j + 1)) ==>
      var r := BotRun(ps, c, now, steer, norm, |ps|);
      && Lookup(r.input, j + 1) == Some(ZERO_INPUT)
      && Lookup(r.proj, j + 1) == Lookup(c.proj, j + 1)
      && Lookup(r.facing, j + 1) == Lookup(c.facing, j + 1)
  {
    BotRunSlot(ps, c, now, steer, norm, |ps|, j);
  }

  // ---- the loops ----

  /** One iteration of `updateBotAI`, on the control tables. */
  method BotTurn(ps: seq<Player>, c: Controls, i: nat, now: int, steer: Steering, norm: Vec -> Vec) returns (d: Controls)
    requires i < |ps|
    ensures d == BotStep(ps, c, i, now, steer, norm)
  {
    d := c;
    var p := ps[i];
    if !(p.isBot && p.alive) {
      return;
    }
    var target := FindNearest(ps, p.id, p.pos);
    if target.None? {
      d := d.(input := d.input[p.id := ZERO_INPUT]);
      return;
    }
    d := Fire(ps, d, p.id, now);
    var mov := steer(p.id, ps[target.value].pos);
    d := d.(input := d.input[p.id := mov]);
    if Steers(mov) {
      d := d.(facing := d.facing[p.id := norm(mov)]);
    }
  }

  /** The loop of `updateBotAI` over all slots, in slot order. */
  method BotLoop(ps: seq<Player>, c: Controls, now: int, steer: Steering, norm: Vec -> Vec) returns (d: Controls)
    ensures d == BotRun(ps, c, now, steer, norm, |ps|)
  {
    d := c;
    var i := 0;
    while i < |ps|
      invariant 0 <= i <= |ps|
      invariant d == BotRun(ps, c, now, steer, norm, i)
    {
      d := BotTurn(ps, d, i, now, steer, norm);
      i := i + 1;
    }
  }
}
