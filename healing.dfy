// The heal state machine: the request guard and the per-tick accrual.
module Healing {
  import opened Config
  import opened Entities

  /** The player holds the heal (repair) modifier; a missing table entry counts as not holding it. */
  predicate HasRepair(mods: map<int, Mods>, id: int) {
    id in mods && mods[id].heal
  }

  /** Milliseconds that must pass after the end of the last heal. */
  function HealCooldown(repair: bool): (c: int)
    ensures c == HEAL_COOLDOWN - (if repair then REPAIR_BONUS else 0)
    ensures 0 <= c <= HEAL_COOLDOWN
  {
    HEAL_COOLDOWN - (if repair then REPAIR_BONUS else 0)
  }

  /** The guard of a heal request. */
  predicate HealRequestOk(p: Player, hs: HealState, repair: bool, now: int) {
    p.alive && !hs.active && now - hs.endTime >= HealCooldown(repair)
  }

  function StartHeal(hs: HealState, now: int): (h: HealState)
    ensures h.active && h.startTime == now && h.lastTick == now && h.endTime == hs.endTime
  {
    hs.(active := true, startTime := now, lastTick := now)
  }

  /** The repair modifier only ever admits more requests; one second after the last heal
      ended a request is refused without it and accepted with it. */
  lemma RepairShortensCooldown(p: Player, hs: HealState, now: int)
    ensures HealRequestOk(p, hs, false, now) ==> HealRequestOk(p, hs, true, now)
    ensures p.alive && !hs.active && now - hs.endTime == 1000 ==>
      !HealRequestOk(p, hs, false, now) && HealRequestOk(p, hs, true, now)
  {
  }

  function MinInt(a: int, b: int): int { if a <= b then a else b }

  /** One tick of the heal loop for one player. */
  function HealStep(p: Player, hs: HealState, now: int): (r: (Player, HealState))
    ensures r.0 == p.(hp := r.0.hp)
  {
    if !p.alive || !hs.active then (p, hs)
    else if now - hs.startTime >= HEAL_DURATION then (p, hs.(active := false, endTime := now))
    else
      var p1 := if now - hs.lastTick >= HEAL_TICK then p.(hp := MinInt(MAX_HP, p.hp + HEAL_PER_SEC)) else p;
      var hs1 := if now - hs.lastTick >= HEAL_TICK then hs.(lastTick := now) else hs;
      if p1.hp >= MAX_HP then (p1, hs1.(active := false, endTime := now)) else (p1, hs1)
  }

  /** A heal tick changes only the hit points and the heal state; a dead tank or an inactive
      heal changes nothing; a tick at least a second after the last one restores one tick's
      worth, capped at MAX_HP, inside the duration; the heal ends when its time is up or the
      tank is full, and an active heal means the tank is not yet full. */
  lemma HealStepSpec(p: Player, hs: HealState, now: int)
    ensures var r := HealStep(p, hs, now);
      && r.0 == p.(hp := r.0.hp)
      && r.1.startTime == hs.startTime
      && (!p.alive || !hs.active ==> r == (p, hs))
      && (p.hp <= MAX_HP ==> r.0.hp <= MAX_HP && (r.0.hp == p.hp || r.0.hp == p.hp + HEAL_PER_SEC))
      && (r.0.hp > p.hp ==>
            p.alive && hs.active && now - hs.lastTick >= HEAL_TICK && now - hs.startTime < HEAL_DURATION && r.1.lastTick == now)
      && (r.1.lastTick != hs.lastTick ==> r.0.hp == MinInt(MAX_HP, p.hp + HEAL_PER_SEC) && r.1.lastTick == now)
      && (hs.active && !r.1.active ==> r.1.endTime == now)
      && (!hs.active ==> r.1 == hs)
      && (p.alive && hs.active && now - hs.startTime >= HEAL_DURATION ==> !r.1.active && r.0.hp == p.hp)
      && (p.alive && hs.active && r.0.hp >= MAX_HP ==> !r.1.active)
      && (p.alive && r.1.active ==> r.0.hp < MAX_HP && now - hs.startTime < HEAL_DURATION)
  {
  }

  /** The heal loop of successive ticks at the given times, for one player. */
  function HealRun(p: Player, hs: HealState, times: seq<int>): (r: (Player, HealState))
    ensures r.0 == p.(hp := r.0.hp)
    decreases |times|
  {
    if times == [] then (p, hs)
    else
      var r := HealStep(p, hs, times[0]);
      HealRun(r.0, r.1, times[1..])
  }

  /** Gained hit points are paid for by at least one second each, inside the heal duration. */
  ghost predicate GainBounded(p: Player, hs: HealState, hp0: int) {
    && hp0 <= p.hp <= MAX_HP
    && (p.hp - hp0) * HEAL_TICK <= hs.lastTick - hs.startTime < HEAL_DURATION
  }

  lemma {:induction false} HealRunKeepsBound(p: Player, hs: HealState, hp0: int, times: seq<int>)
    requires p.alive && GainBounded(p, hs, hp0)
    ensures var r := HealRun(p, hs, times);
      GainBounded(r.0, r.1, hp0) && r.0 == p.(hp := r.0.hp) && r.1.startTime == hs.startTime
    decreases |times|
  {
    if times != [] {
      var r := HealStep(p, hs, times[0]);
      assert GainBounded(r.0, r.1, hp0);
      HealRunKeepsBound(r.0, r.1, hp0, times[1..]);
    }
  }

  /** One heal activation never lifts a tank (that takes no hit meanwhile) above MAX_HP and
      restores at most nine hit points, one per full second since it started. */
  lemma HealActivationGain(p: Player, hs: HealState, t0: int, times: seq<int>)
    requires p.alive && 0 <= p.hp <= MAX_HP
    ensures var r := HealRun(p, StartHeal(hs, t0), times);
      && p.hp <= r.0.hp <= MAX_HP
      && r.0.hp - p.hp <= 9
      && (r.0.hp - p.hp) * HEAL_TICK <= r.1.lastTick - t0
  {
    HealRunKeepsBound(p, StartHeal(hs, t0), p.hp, times);
  }

  /** Once any tick comes HEAL_DURATION or more after the start, the heal is over. */
  lemma {:induction false} HealEnds(p: Player, hs: HealState, times: seq<int>, k: nat)
    requires p.alive
    requires k < |times| && times[k] - hs.startTime >= HEAL_DURATION
    ensures !HealRun(p, hs, times).1.active
    decreases |times|
  {
    var r := HealStep(p, hs, times[0]);
    if k == 0 {
      assert !r.1.active;
      HealRunIdle(r.0, r.1, times[1..]);
    } else {
      HealEnds(r.0, r.1, times[1..], k - 1);
    }
  }

  /** An inactive heal stays inactive and changes nothing. */
  lemma {:induction false} HealRunIdle(p: Player, hs: HealState, times: seq<int>)
    requires !hs.active
    ensures HealRun(p, hs, times) == (p, hs)
    decreases |times|
  {
    if times != [] {
      HealRunIdle(p, hs, times[1..]);
    }
  }

  /** One pass of the heal loop over all players of a room, in slot order. */
  function HealPass(ps: seq<Player>, heal: map<int, HealState>, now: int): (r: (seq<Player>, map<int, HealState>))
    requires forall i :: 0 <= i < |ps| ==> ps[i].id in heal
    ensures |r.0| == |ps| && r.1.Keys == heal.Keys
    decreases |ps|
  {
    if ps == [] then ([], heal)
    else
      var pre := HealPass(ps[..|ps| - 1], heal, now);
      var p := ps[|ps| - 1];
      var s := HealStep(p, pre.1[p.id], now);
      (pre.0 + [s.0], pre.1[p.id := s.1])
  }

  /** With distinct slot ids the pass applies one heal step to each slot independently,
      so every slot keeps everything but its hit points, which stay within [old, MAX_HP]. */
  lemma {:induction false} HealPassPerSlot(ps: seq<Player>, heal: map<int, HealState>, now: int)
    requires forall i :: 0 <= i < |ps| ==> ps[i].id == i + 1 && ps[i].id in heal
    ensures var r := HealPass(ps, heal, now);
      && (forall i :: 0 <= i < |ps| ==> (r.0[i], r.1[ps[i].id]) == HealStep(ps[i], heal[ps[i].id], now))
      && (forall k :: k in heal && !(1 <= k <= |ps|) ==> r.1[k] == heal[k])
    decreases |ps|
  {
    if ps != [] {
      var pre := ps[..|ps| - 1];
      assert forall i :: 0 <= i < |pre| ==> pre[i] == ps[i];
      HealPassPerSlot(pre, heal, now);
    }
  }

  /** A heal step keeps a slot well formed: it only raises the hit points of a living tank,
      and never above the maximum. */
  lemma HealStepKeepsSlot(p: Player, i: nat, bots: set<int>, hs: HealState, now: int)
    requires SlotOk(p, i, bots)
    ensures SlotOk(HealStep(p, hs, now).0, i, bots)
    ensures HealStep(p, hs, now).0.alive == p.alive
  {
  }

  /** The heal loop keeps every slot well formed, and every tank alive or dead as it was. */
  lemma HealPassKeeps(ps: seq<Player>, bots: set<int>, heal: map<int, HealState>, now: int)
    requires RosterOk(ps, bots) && forall i :: 0 <= i < |ps| ==> ps[i].id in heal
    ensures var r := HealPass(ps, heal, now);
      && RosterOk(r.0, bots) && (forall j :: 0 <= j < |ps| ==> r.0[j].alive == ps[j].alive)
      && forall k :: k in heal ==> k in r.1
  {
    assert forall i :: 0 <= i < |ps| ==> ps[i].id == i + 1 by {
      forall i | 0 <= i < |ps| ensures ps[i].id == i + 1 {
        assert SlotOk(ps[i], i, bots);
      }
    }
    HealPassPerSlot(ps, heal, now);
    forall j | 0 <= j < |ps|
      ensures SlotOk(HealPass(ps, heal, now).0[j], j, bots) && HealPass(ps, heal, now).0[j].alive == ps[j].alive
    {
      HealStepKeepsSlot(ps[j], j, bots, heal[ps[j].id], now);
    }
  }

  /** The heal loop of `gameLoop`: one heal step for every slot, in slot order. */
  method HealAll(ps: seq<Player>, heal: map<int, HealState>, now: int) returns (qs: seq<Player>, heal': map<int, HealState>)
    requires forall i :: 0 <= i < |ps| ==> ps[i].id in heal
    ensures (qs, heal') == HealPass(ps, heal, now)
  {
    qs, heal' := ps, heal;
    var i := 0;
    while i < |ps|
      invariant 0 <= i <= |ps| == |qs|
      invariant qs[i..] == ps[i..]
      invariant (qs[..i], heal') == HealPass(ps[..i], heal, now)
    {
      assert ps[..i + 1][..i] == ps[..i];
      assert qs[i] == ps[i];
      var p := qs[i];
      var s := HealStep(p, heal'[p.id], now);
      qs, heal' := qs[i := s.0], heal'[p.id := s.1];
      assert qs[..i + 1] == qs[..i] + [s.0];
      i := i + 1;
    }
    assert qs[..|ps|] == qs && ps[..|ps|] == ps;
  }
}
