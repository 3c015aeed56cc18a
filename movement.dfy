// Tank movement: speed, turning, and the clamp every position write goes through.
module Movement {
  import opened Config
  import opened Geometry
  import opened Wrappers
  import opened Entities
  import opened Rounds

  /** Pixels per tick: bots are slower than humans; the speed pickup boosts both by 30%. */
  function TankSpeed(isBot: bool, boosted: bool): (s: real)
    ensures s == (if isBot then BOT_SPEED else SPEED as real) * (if boosted then SPEED_BOOST else 1.0)
    ensures s > 0.0
  {
    (if isBot then BOT_SPEED else SPEED as real) * (if boosted then SPEED_BOOST else 1.0)
  }

  /** A stick or steering vector that turns the tank: some component exceeds the threshold. */
  predicate Steers(v: Vec) {
    v.dx > TURN_THRESHOLD || v.dx < -TURN_THRESHOLD || v.dy > TURN_THRESHOLD || v.dy < -TURN_THRESHOLD
  }

  // ---- the movement loop ----

  /** How a tank's own motion ends: the position to which its step at speed `spd` on stick
      input `v` (capped at `spd` in length) and the push-outs from walls and rocks lead,
      before the clamp that follows the last of them. */
  type Drive = (Player, Vec, real) -> Point

  /** One tank's turn of the movement loop: a dead tank stays put; a living one moves at its
      speed and ends clamped into the arena. */
  function MoveTank(p: Player, input: Vec, mods: Mods, drive: Drive): (q: Player)
    ensures q == p.(pos := q.pos)
    ensures !p.alive ==> q == p
    ensures p.alive ==> InArena(q.pos)
  {
    if !p.alive then p else p.(pos := ClampToArena(drive(p, input, TankSpeed(p.isBot, mods.speed))))
  }

  /** A human tank turns to its stick direction when the stick is off centre; bots turn in
      the bot controller instead. */
  predicate TurnsToStick(p: Player, input: Vec) {
    p.alive && !p.isBot && Steers(input)
  }

  /** Every slot's id has an entry in `input` and in `mods`. */
  predicate Tabled(ps: seq<Player>, input: map<int, Vec>, mods: map<int, Mods>) {
    forall j :: 0 <= j < |ps| ==> ps[j].id in input && ps[j].id in mods
  }

  /** The positions after the movement loop over slots 0..k-1. */
  function Moved(ps: seq<Player>, input: map<int, Vec>, mods: map<int, Mods>, drive: Drive, k: nat): (qs: seq<Player>)
    requires k <= |ps| && Tabled(ps, input, mods)
    ensures |qs| == |ps|
    decreases k
  {
    if k == 0 then ps
    else
      var p := ps[k - 1];
      Moved(ps, input, mods, drive, k - 1)[k - 1 := MoveTank(p, input[p.id], mods[p.id], drive)]
  }

  /** The facing table after the movement loop over slots 0..k-1. */
  function Turned(ps: seq<Player>, input: map<int, Vec>, face: map<int, Vec>, norm: Vec -> Vec, k: nat): (t: map<int, Vec>)
    requires k <= |ps| && forall j :: 0 <= j < |ps| ==> ps[j].id in input
    ensures t.Keys == face.Keys + set j | 0 <= j < k && TurnsToStick(ps[j], input[ps[j].id]) :: ps[j].id
    decreases k
  {
    if k == 0 then face
    else
      var m := Turned(ps, input, face, norm, k - 1);
      var p := ps[k - 1];
      if TurnsToStick(p, input[p.id]) then m[p.id := norm(input[p.id])] else m
  }

  /** The loop moves each tank once, on its own: slot j after the first k turns. */
  lemma {:induction false} MovedSlot(ps: seq<Player>, input: map<int, Vec>, mods: map<int, Mods>, drive: Drive, k: nat, j: nat)
    requires k <= |ps| && Tabled(ps, input, mods) && j < |ps|
    ensures Moved(ps, input, mods, drive, k)[j] ==
      if j < k then MoveTank(ps[j], input[ps[j].id], mods[ps[j].id], drive) else ps[j]
    decreases k
  {
    if k > 0 {
      MovedSlot(ps, input, mods, drive, k - 1, j);
    }
  }

  /** The same slots in new places: only positions change, dead tanks do not move. */
  ghost predicate Repositioned(ps: seq<Player>, qs: seq<Player>) {
    && |qs| == |ps|
    && forall j :: 0 <= j < |ps| ==> qs[j] == ps[j].(pos := qs[j].pos) && (!ps[j].alive ==> qs[j] == ps[j])
  }

  /** The movement loop keeps every slot well formed and only moves living tanks. */
  lemma MovedKeeps(ps: seq<Player>, bots: set<int>, input: map<int, Vec>, mods: map<int, Mods>, drive: Drive)
    requires RosterOk(ps, bots) && Tabled(ps, input, mods)
    ensures RosterOk(Moved(ps, input, mods, drive, |ps|), bots)
    ensures Repositioned(ps, Moved(ps, input, mods, drive, |ps|))
  {
    forall j | 0 <= j < |ps|
      ensures SlotOk(Moved(ps, input, mods, drive, |ps|)[j], j, bots)
      ensures Moved(ps, input, mods, drive, |ps|)[j] == MoveTank(ps[j], input[ps[j].id], mods[ps[j].id], drive)
    {
      MovedSlot(ps, input, mods, drive, |ps|, j);
    }
  }

  /** The movement loop turns exactly the humans whose stick is off centre, each to its stick
      direction; every other entry of the facing table is kept. */
  lemma {:induction false} TurnedAt(ps: seq<Player>, input: map<int, Vec>, face: map<int, Vec>, norm: Vec -> Vec, k: nat, j: nat)
    requires k <= |ps| && Numbered(ps) && (forall i :: 0 <= i < |ps| ==> ps[i].id in input && ps[i].id in face)
    requires j < |ps|
    ensures var m := Turned(ps, input, face, norm, k);
      && m.Keys == face.Keys
      && m[ps[j].id] == if j < k && TurnsToStick(ps[j], input[ps[j].id]) then norm(input[ps[j].id]) else face[ps[j].id]
    decreases k
  {
    if k > 0 {
      TurnedAt(ps, input, face, norm, k - 1, j);
      TurnedAt(ps, input, face, norm, k - 1, k - 1);
    }
  }

  // ---- the separation pass ----

  /** Two tanks overlap when their centres are closer than two radii, but not on one point. */
  predicate Overlap(a: Point, b: Point) {
    0.0 < DistSq(a, b) < Sq(2.0 * RADIUS as real)
  }

  /** Where an overlapping pair is pushed to: each centre half the overlap apart along the
      line between them, before both are clamped. */
  type Push = (Point, Point) -> (Point, Point)

  /** One pair (i, j) of the separation pass. */
  function SeparatePair(ps: seq<Player>, i: nat, j: nat, push: Push): (qs: seq<Player>)
    requires i < j < |ps|
    ensures |qs| == |ps|
  {
    var a := ps[i];
    var b := ps[j];
    if !(a.alive && b.alive && Overlap(a.pos, b.pos)) then ps
    else
      var np := push(a.pos, b.pos);
      ps[i := a.(pos := ClampToArena(np.0))][j := b.(pos := ClampToArena(np.1))]
  }

  /** The pairs (i, i+1) .. (i, j-1), in that order. */
  function SepInner(ps: seq<Player>, i: nat, j: nat, push: Push): (qs: seq<Player>)
    requires i < j <= |ps|
    ensures |qs| == |ps|
    decreases j
  {
    if j == i + 1 then ps else SeparatePair(SepInner(ps, i, j - 1, push), i, j - 1, push)
  }

  /** The pairs (a, b) with a < i and a < b, in the order of the nested loops. */
  function SepOuter(ps: seq<Player>, i: nat, push: Push): (qs: seq<Player>)
    requires i <= |ps|
    ensures |qs| == |ps|
    decreases i
  {
    if i == 0 then ps else SepInner(SepOuter(ps, i - 1, push), i - 1, |ps|, push)
  }

  lemma RepositionedTrans(ps: seq<Player>, qs: seq<Player>, rs: seq<Player>)
    requires Repositioned(ps, qs) && Repositioned(qs, rs)
    ensures Repositioned(ps, rs)
  {
  }

  /** One pair keeps every slot well formed and moves living tanks only. */
  lemma PairKeeps(ps: seq<Player>, bots: set<int>, i: nat, j: nat, push: Push)
    requires RosterOk(ps, bots) && i < j < |ps|
    ensures RosterOk(SeparatePair(ps, i, j, push), bots) && Repositioned(ps, SeparatePair(ps, i, j, push))
  {
    assert SlotOk(ps[i], i, bots) && SlotOk(ps[j], j, bots);
  }

  lemma {:induction false} SepInnerKeeps(ps: seq<Player>, bots: set<int>, i: nat, j: nat, push: Push)
    requires RosterOk(ps, bots) && i < j <= |ps|
    ensures RosterOk(SepInner(ps, i, j, push), bots) && Repositioned(ps, SepInner(ps, i, j, push))
    decreases j
  {
    if j > i + 1 {
      SepInnerKeeps(ps, bots, i, j - 1, push);
      var qs := SepInner(ps, i, j - 1, push);
      var rs := SeparatePair(qs, i, j - 1, push);
      assert SepInner(ps, i, j, push) == rs;
      PairKeeps(qs, bots, i, j - 1, push);
      RepositionedTrans(ps, qs, rs);
    }
  }

  /** The separation pass keeps every slot well formed, keeps every tank in the arena, and
      moves living tanks only. */
  lemma {:induction false} SepOuterKeeps(ps: seq<Player>, bots: set<int>, i: nat, push: Push)
    requires RosterOk(ps, bots) && i <= |ps|
    ensures RosterOk(SepOuter(ps, i, push), bots) && Repositioned(ps, SepOuter(ps, i, push))
    decreases i
  {
    if i > 0 {
      SepOuterKeeps(ps, bots, i - 1, push);
      var qs := SepOuter(ps, i - 1, push);
      SepInnerKeeps(qs, bots, i - 1, |ps|, push);
      RepositionedTrans(ps, qs, SepInner(qs, i - 1, |ps|, push));
    }
  }

  /** No two living tanks overlap. */
  predicate Apart(ps: seq<Player>) {
    forall a, b :: 0 <= a < b < |ps| && ps[a].alive && ps[b].alive ==> !Overlap(ps[a].pos, ps[b].pos)
  }

  lemma {:induction false} ApartInnerStill(ps: seq<Player>, i: nat, j: nat, push: Push)
    requires Apart(ps) && i < j <= |ps|
    ensures SepInner(ps, i, j, push) == ps
    decreases j
  {
    if j > i + 1 {
      ApartInnerStill(ps, i, j - 1, push);
    }
  }

  /** When no two living tanks overlap, the separation pass moves nobody. */
  lemma {:induction false} ApartStill(ps: seq<Player>, i: nat, push: Push)
    requires Apart(ps) && i <= |ps|
    ensures SepOuter(ps, i, push) == ps
    decreases i
  {
    if i > 0 {
      ApartStill(ps, i - 1, push);
      ApartInnerStill(ps, i - 1, |ps|, push);
    }
  }

  // ---- the loops ----

  /** The movement loop of `gameLoop` over all slots: a living tank turns to an off-centre
      stick if it is human, moves at its speed and is clamped into the arena. */
  method MoveAll(ps: seq<Player>, input: map<int, Vec>, mods: map<int, Mods>, face: map<int, Vec>,
                 drive: Drive, norm: Vec -> Vec) returns (qs: seq<Player>, face': map<int, Vec>)
    requires Tabled(ps, input, mods)
    ensures qs == Moved(ps, input, mods, drive, |ps|)
    ensures face' == Turned(ps, input, face, norm, |ps|)
  {
    qs, face' := ps, face;
    var i := 0;
    while i < |ps|
      invariant 0 <= i <= |ps|
      invariant qs == Moved(ps, input, mods, drive, i)
      invariant face' == Turned(ps, input, face, norm, i)
    {
      MovedSlot(ps, input, mods, drive, i, i);
      var p := ps[i];
      if p.alive {
        var v := input[p.id];
        if !p.isBot && Steers(v) {
          face' := face'[p.id := norm(v)];
        }
        var spd := TankSpeed(p.isBot, mods[p.id].speed);
        qs := qs[i := p.(pos := ClampToArena(drive(p, v, spd)))];
      }
      i := i + 1;
    }
  }

  /** The separation pass of `gameLoop`: the nested loops over the pairs i < j. */
  method SeparateAll(ps: seq<Player>, push: Push) returns (qs: seq<Player>)
    ensures qs == SepOuter(ps, |ps|, push)
  {
    qs := ps;
    var i := 0;
    while i < |ps|
      invariant 0 <= i <= |ps| == |qs|
      invariant qs == SepOuter(ps, i, push)
    {
      var j := i + 1;
      while j < |ps|
        invariant i < j <= |ps| == |qs|
        invariant qs == SepInner(SepOuter(ps, i, push), i, j, push)
      {
        var a := qs[i];
        var b := qs[j];
        if a.alive && b.alive && Overlap(a.pos, b.pos) {
          var np := push(a.pos, b.pos);
          qs := qs[i := a.(pos := ClampToArena(np.0))][j := b.(pos := ClampToArena(np.1))];
        }
        j := j + 1;
      }
      i := i + 1;
    }
  }
}
