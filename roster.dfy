// Slot and roster management: the player count, fresh rosters, and keeping connected
// humans across a bot change.
module Roster {
  import opened Wrappers
  import opened Config
  import opened Geometry
  import opened Entities

  /** `max(2, min(7, parseInt(count) || 2))`; None stands for a count that does not parse. */
  function ClampCount(raw: Option<int>): (n: int)
    ensures MIN_PLAYERS <= n <= MAX_PLAYERS
    ensures raw.Some? && MIN_PLAYERS <= raw.value <= MAX_PLAYERS ==> n == raw.value
    ensures raw.Some? && raw.value > MAX_PLAYERS ==> n == MAX_PLAYERS
    ensures raw.None? || raw.value < MIN_PLAYERS ==> n == MIN_PLAYERS
  {
    var v := if raw.None? || raw.value == 0 then 2 else raw.value;
    if v < MIN_PLAYERS then MIN_PLAYERS else if v > MAX_PLAYERS then MAX_PLAYERS else v
  }

  /** The first k slots `initPlayers` builds for capacity n. */
  function FreshSlots(n: nat, bots: set<int>, spawn: Layout, k: nat): (ps: seq<Player>)
    ensures |ps| == k
    ensures forall i :: 0 <= i < k ==> ps[i] == FreshPlayer(i + 1, i + 1 in bots, spawn(n, i))
    decreases k
  {
    if k == 0 then [] else FreshSlots(n, bots, spawn, k - 1) + [FreshPlayer(k, k in bots, spawn(n, k - 1))]
  }

  /** The roster `initPlayers` builds for capacity n. */
  function FreshRoster(n: nat, bots: set<int>, spawn: Layout): (ps: seq<Player>)
    ensures |ps| == n
    ensures forall i :: 0 <= i < n ==> ps[i] == FreshPlayer(i + 1, i + 1 in bots, spawn(n, i))
  {
    FreshSlots(n, bots, spawn, n)
  }

  /** Only the bot ids within the capacity matter. */
  lemma FreshRosterBots(n: nat, bots: set<int>, bots': set<int>, spawn: Layout)
    requires forall k :: 1 <= k <= n ==> (k in bots <==> k in bots')
    ensures FreshRoster(n, bots, spawn) == FreshRoster(n, bots', spawn)
  {
    var a, b := FreshRoster(n, bots, spawn), FreshRoster(n, bots', spawn);
    assert forall i :: 0 <= i < n ==> a[i] == b[i];
  }

  /** A fresh roster satisfies the slot invariant for the bot ids it was built from. */
  lemma FreshRosterOk(n: nat, bots: set<int>, spawn: Layout)
    requires LayoutInArena(spawn)
    ensures RosterOk(FreshRoster(n, bots, spawn), bots)
  {
    var ps := FreshRoster(n, bots, spawn);
    forall i | 0 <= i < n ensures SlotOk(ps[i], i, bots) {
      assert InArena(spawn(n, i));
    }
  }

  /** What a bot change remembers of a connected human. */
  datatype Saved = Saved(id: int, ws: Option<nat>, score: int, name: string)

  predicate Keeps(p: Player) {
    !p.isBot && p.connected
  }

  /** The record a bot change keeps of one slot. */
  function SaveOf(p: Player): Saved {
    Saved(p.id, p.ws, p.score, p.name)
  }

  /** The connected humans of a roster, in slot order: every connected human slot is saved,
      and every saved entry is the record of one. */
  function SaveHumans(ps: seq<Player>): (s: seq<Saved>)
    ensures |s| <= |ps|
    ensures forall i :: 0 <= i < |ps| && Keeps(ps[i]) ==> SaveOf(ps[i]) in s
    ensures forall e :: e in s ==> exists i :: 0 <= i < |ps| && Keeps(ps[i]) && e == SaveOf(ps[i])
    decreases |ps|
  {
    if ps == [] then []
    else
      var p := ps[|ps| - 1];
      var pre := ps[..|ps| - 1];
      assert forall i :: 0 <= i < |pre| ==> pre[i] == ps[i];
      SaveHumans(pre) + (if Keeps(p) then [SaveOf(p)] else [])
  }

  /** Writes one saved human back into its slot, if the slot still exists. */
  function RestoreOne(ps: seq<Player>, h: Saved): (qs: seq<Player>)
    ensures |qs| == |ps|
    ensures 1 <= h.id <= |ps| ==>
      qs == ps[h.id - 1 := ps[h.id - 1].(ws := h.ws, connected := true, score := h.score, name := h.name)]
    ensures !(1 <= h.id <= |ps|) ==> qs == ps
  {
    if 1 <= h.id <= |ps| then
      ps[h.id - 1 := ps[h.id - 1].(ws := h.ws, connected := true, score := h.score, name := h.name)]
    else ps
  }

  function RestoreAll(ps: seq<Player>, saved: seq<Saved>): (qs: seq<Player>)
    ensures |qs| == |ps|
    decreases |saved|
  {
    if saved == [] then ps else RestoreOne(RestoreAll(ps, saved[..|saved| - 1]), saved[|saved| - 1])
  }

  /** Restoring only touches the connection, score and name of a slot. */
  lemma {:induction false} RestoreKeepsSlots(ps: seq<Player>, saved: seq<Saved>, bots: set<int>)
    requires RosterOk(ps, bots)
    ensures RosterOk(RestoreAll(ps, saved), bots)
    ensures forall i :: 0 <= i < |ps| ==>
      RestoreAll(ps, saved)[i].(ws := ps[i].ws, connected := ps[i].connected, score := ps[i].score, name := ps[i].name) == ps[i]
    decreases |saved|
  {
    if saved != [] {
      RestoreKeepsSlots(ps, saved[..|saved| - 1], bots);
    }
  }

  /** The slot i of `initial` after the saved humans of ps are written back. */
  function Restored(ps: seq<Player>, initial: seq<Player>, i: nat): Player
    requires i < |initial|
  {
    if i < |ps| && Keeps(ps[i]) then
      initial[i].(ws := ps[i].ws, connected := true, score := ps[i].score, name := ps[i].name)
    else initial[i]
  }

  /** Restoring a list with at most one more entry restores that entry last. */
  lemma RestoreAppend(initial: seq<Player>, s0: seq<Saved>, extra: seq<Saved>)
    requires |extra| <= 1
    ensures RestoreAll(initial, s0 + extra) ==
      if extra == [] then RestoreAll(initial, s0) else RestoreOne(RestoreAll(initial, s0), extra[0])
  {
    if extra == [] {
      assert s0 + extra == s0;
    } else {
      assert (s0 + extra)[..|s0|] == s0;
    }
  }

  /** Slot i other than the last of ps is restored alike from ps and from ps without its last slot. */
  lemma RestoredPrefix(ps: seq<Player>, initial: seq<Player>, i: nat)
    requires ps != [] && i < |initial| && i != |ps| - 1
    ensures Restored(ps[..|ps| - 1], initial, i) == Restored(ps, initial, i)
  {
  }

  lemma {:induction false} RestoreSaved(ps: seq<Player>, initial: seq<Player>)
    requires forall i :: 0 <= i < |ps| ==> ps[i].id == i + 1
    ensures forall i :: 0 <= i < |initial| ==> RestoreAll(initial, SaveHumans(ps))[i] == Restored(ps, initial, i)
    decreases |ps|
  {
    if ps != [] {
      var n := |ps| - 1;
      var pre := ps[..n];
      var p := ps[n];
      RestoreSaved(pre, initial);
      var extra := if Keeps(p) then [Saved(p.id, p.ws, p.score, p.name)] else [];
      assert SaveHumans(ps) == SaveHumans(pre) + extra;
      RestoreAppend(initial, SaveHumans(pre), extra);
      var r0 := RestoreAll(initial, SaveHumans(pre));
      forall i | 0 <= i < |initial|
        ensures RestoreAll(initial, SaveHumans(ps))[i] == Restored(ps, initial, i)
      {
        if i != n {
          RestoredPrefix(ps, initial, i);
        } else {
          assert r0[i] == initial[i];
        }
      }
    }
  }

  /** After a bot change the connected humans whose slot still exists get their connection,
      score and name back; every other slot is exactly as `initPlayers` made it. */
  lemma BotChangeKeepsHumans(ps: seq<Player>, n: nat, bots: set<int>, spawn: Layout)
    requires forall i :: 0 <= i < |ps| ==> ps[i].id == i + 1
    ensures var qs := RestoreAll(FreshRoster(n, bots, spawn), SaveHumans(ps));
      && |qs| == n
      && (forall i :: 0 <= i < n && i < |ps| && Keeps(ps[i]) ==>
            qs[i] == FreshPlayer(i + 1, i + 1 in bots, spawn(n, i)).(ws := ps[i].ws, connected := true, score := ps[i].score, name := ps[i].name))
      && (forall i :: 0 <= i < n && !(i < |ps| && Keeps(ps[i])) ==> qs[i] == FreshPlayer(i + 1, i + 1 in bots, spawn(n, i)))
  {
    RestoreSaved(ps, FreshRoster(n, bots, spawn));
  }

  /** The bot count after removing bot `removed`: the room shrinks only when the removed bot
      held the last slot, and never below the minimum. */
  function CountAfterRemoval(count: int, removed: int): (n: int)
    ensures removed == count ==> n == (if count - 1 < MIN_PLAYERS then MIN_PLAYERS else count - 1)
    ensures removed != count ==> n == count
  {
    if removed == count then (if count - 1 < 2 then 2 else count - 1) else count
  }

  /** The highest bot id, which `remove_bot` takes by sorting the ids in descending order. */
  lemma Occupied(s: set<int>)
    requires s != {}
    ensures exists x :: x in s
  {
    if forall x :: x !in s {
      assert false;
    }
  }

  method HighestBot(bots: set<int>) returns (m: int)
    requires bots != {}
    ensures m in bots && forall b :: b in bots ==> b <= m
  {
    Occupied(bots);
    m :| m in bots;
    var rest := bots - {m};
    while rest != {}
      invariant rest <= bots && m in bots
      invariant forall b :: b in bots && b !in rest ==> b <= m
      decreases rest
    {
      Occupied(rest);
      var b :| b in rest;
      if b > m {
        m := b;
      }
      rest := rest - {b};
    }
  }

  /** `players.find(p => p.code === code)`: the first slot carrying the code. */
  function FindByCode(ps: seq<Player>, code: string, from: nat): (r: Option<nat>)
    requires from <= |ps|
    ensures r.Some? ==> from <= r.value < |ps| && CodeText(ps[r.value].code) == code
    ensures r.Some? ==> forall j :: from <= j < r.value ==> CodeText(ps[j].code) != code
    ensures r.None? ==> forall j :: from <= j < |ps| ==> CodeText(ps[j].code) != code
    decreases |ps| - from
  {
    if from == |ps| then None
    else if CodeText(ps[from].code) == code then Some(from)
    else FindByCode(ps, code, from + 1)
  }

  /** A human slot's number is its join code: it resolves to that slot and no other. */
  lemma HumanCodeFindsSlot(ps: seq<Player>, bots: set<int>, i: nat)
    requires RosterOk(ps, bots) && |ps| <= MAX_PLAYERS
    requires i < |ps| && !ps[i].isBot
    ensures FindByCode(ps, DecimalString(i + 1), 0) == Some(i)
  {
    var r := FindByCode(ps, DecimalString(i + 1), 0);
    if r != Some(i) {
      var k := r.value;
      assert k < i;
      if !ps[k].isBot {
        DecimalStringInjective(k + 1, i + 1);
      }
    }
  }

  /** All bots share the code 'BOT', so joining with it takes over the first bot slot. */
  lemma BotCodeFindsFirstBot(ps: seq<Player>, bots: set<int>, i: nat)
    requires RosterOk(ps, bots)
    requires i < |ps| && ps[i].isBot && forall j :: 0 <= j < i ==> !ps[j].isBot
    ensures FindByCode(ps, BOT_CODE, 0) == Some(i)
  {
  }
}
