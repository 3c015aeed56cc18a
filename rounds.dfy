// Round bookkeeping: survivors, the end-of-round branch, scores and the ready quorum.
module Rounds {
  import opened Wrappers
  import opened Entities

  function CountAlive(ps: seq<Player>): (n: nat)
    ensures n <= |ps|
    ensures n == 0 <==> forall i :: 0 <= i < |ps| ==> !ps[i].alive
    decreases |ps|
  {
    if ps == [] then 0
    else CountAlive(ps[..|ps| - 1]) + (if ps[|ps| - 1].alive then 1 else 0)
  }

  /** The first living player in slot order, from index `from` on. */
  function FirstAlive(ps: seq<Player>, from: nat): (r: Option<nat>)
    requires from <= |ps|
    ensures r.Some? ==> from <= r.value < |ps| && ps[r.value].alive
    ensures r.Some? ==> forall j :: from <= j < r.value ==> !ps[j].alive
    ensures r.None? ==> forall j :: from <= j < |ps| ==> !ps[j].alive
    decreases |ps| - from
  {
    if from == |ps| then None
    else if ps[from].alive then Some(from)
    else FirstAlive(ps, from + 1)
  }

  /** The end-of-round condition: at most one tank alive in a room of more than one slot. */
  predicate RoundOver(ps: seq<Player>) {
    CountAlive(ps) <= 1 && |ps| > 1
  }

  /** The survivor, if any, scores one point. */
  function AwardSurvivor(ps: seq<Player>): (qs: seq<Player>)
    ensures |qs| == |ps|
    ensures match FirstAlive(ps, 0)
      case None => qs == ps
      case Some(i) => qs == ps[i := ps[i].(score := ps[i].score + 1)]
  {
    match FirstAlive(ps, 0)
    case None => ps
    case Some(i) => ps[i := ps[i].(score := ps[i].score + 1)]
  }

  function TotalScore(ps: seq<Player>): int
    decreases |ps|
  {
    if ps == [] then 0 else TotalScore(ps[..|ps| - 1]) + ps[|ps| - 1].score
  }

  lemma {:induction false} TotalScoreBump(ps: seq<Player>, i: nat)
    requires i < |ps|
    ensures TotalScore(ps[i := ps[i].(score := ps[i].score + 1)]) == TotalScore(ps) + 1
    decreases |ps|
  {
    var qs := ps[i := ps[i].(score := ps[i].score + 1)];
    if i < |ps| - 1 {
      assert qs[..|qs| - 1] == ps[..|ps| - 1][i := ps[i].(score := ps[i].score + 1)];
      TotalScoreBump(ps[..|ps| - 1], i);
    } else {
      assert qs[..|qs| - 1] == ps[..|ps| - 1];
    }
  }

  /** The round's points: exactly as many as there are survivors (one, or none for a draw). */
  lemma RoundPoints(ps: seq<Player>)
    requires RoundOver(ps)
    ensures TotalScore(AwardSurvivor(ps)) == TotalScore(ps) + CountAlive(ps)
  {
    match FirstAlive(ps, 0)
    case None =>
      assert CountAlive(ps) == 0;
    case Some(i) =>
      TotalScoreBump(ps, i);
      OnlyOneAlive(ps, i);
  }

  /** Only a survivor's slot changes, and it gains one point. */
  lemma SurvivorSlots(ps: seq<Player>)
    requires RoundOver(ps)
    ensures forall j :: 0 <= j < |ps| && !ps[j].alive ==> AwardSurvivor(ps)[j] == ps[j]
    ensures forall j :: 0 <= j < |ps| && ps[j].alive ==> AwardSurvivor(ps)[j].score == ps[j].score + 1
  {
    if FirstAlive(ps, 0).Some? {
      OnlyOneAlive(ps, FirstAlive(ps, 0).value);
    }
  }

  /** With at most one survivor the first living slot is the only one. */
  lemma {:induction false} OnlyOneAlive(ps: seq<Player>, i: nat)
    requires CountAlive(ps) <= 1 && i < |ps| && ps[i].alive
    ensures CountAlive(ps) == 1
    ensures forall j :: 0 <= j < |ps| && j != i ==> !ps[j].alive
    decreases |ps|
  {
    var pre := ps[..|ps| - 1];
    if i < |ps| - 1 {
      assert pre[i] == ps[i];
      OnlyOneAlive(pre, i);
      assert CountAlive(pre) == 1;
      assert !ps[|ps| - 1].alive;
      forall j | 0 <= j < |ps| && j != i ensures !ps[j].alive {
        if j < |ps| - 1 { assert pre[j] == ps[j]; }
      }
    } else {
      assert CountAlive(pre) == 0;
      forall j | 0 <= j < |ps| && j != i ensures !ps[j].alive {
        assert pre[j] == ps[j];
      }
    }
  }

  predicate AllConnected(ps: seq<Player>) {
    forall i :: 0 <= i < |ps| ==> ps[i].connected
  }

  /** Every player has a true entry in the ready table (a missing entry is not ready). */
  predicate AllReady(ps: seq<Player>, ready: map<int, bool>) {
    forall i :: 0 <= i < |ps| ==> ps[i].id in ready && ready[ps[i].id]
  }

  predicate Numbered(ps: seq<Player>) {
    forall i :: 0 <= i < |ps| ==> ps[i].id == i + 1
  }

  /** The ids seated in ps. */
  function SeatIds(ps: seq<Player>): (s: set<int>)
    ensures forall i :: 0 <= i < |ps| ==> ps[i].id in s
    decreases |ps|
  {
    if ps == [] then {} else SeatIds(ps[..|ps| - 1]) + {ps[|ps| - 1].id}
  }

  /** The ready table after a round: each player's entry is reset, bots pre-readied. */
  function ReadyReset(ready: map<int, bool>, ps: seq<Player>): map<int, bool>
    decreases |ps|
  {
    if ps == [] then ready
    else ReadyReset(ready, ps[..|ps| - 1])[ps[|ps| - 1].id := ps[|ps| - 1].isBot]
  }

  /** After the reset every seated id has an entry, true exactly for bots; entries of ids no
      longer seated are kept as they were. */
  lemma {:induction false} ReadyResetSpec(ready: map<int, bool>, ps: seq<Player>)
    ensures ReadyReset(ready, ps).Keys == ready.Keys + SeatIds(ps)
    ensures forall k :: k in ready && k !in SeatIds(ps) ==> ReadyReset(ready, ps)[k] == ready[k]
    ensures Numbered(ps) ==> forall i :: 0 <= i < |ps| ==> ReadyReset(ready, ps)[ps[i].id] == ps[i].isBot
    decreases |ps|
  {
    if ps != [] {
      var pre := ps[..|ps| - 1];
      var last := ps[|ps| - 1];
      ReadyResetSpec(ready, pre);
      assert Numbered(ps) ==> Numbered(pre) && forall i :: 0 <= i < |pre| ==> pre[i].id != last.id by {
        forall i | 0 <= i < |pre| ensures pre[i] == ps[i] {}
      }
    }
  }

  /** Right after a round the quorum already holds exactly when every seat is a bot. */
  lemma QuorumAfterRound(ready: map<int, bool>, ps: seq<Player>)
    requires Numbered(ps)
    ensures AllReady(ps, ReadyReset(ready, ps)) <==> forall i :: 0 <= i < |ps| ==> ps[i].isBot
  {
    var r := ReadyReset(ready, ps);
    ReadyResetSpec(ready, ps);
    if AllReady(ps, r) {
      forall i | 0 <= i < |ps| ensures ps[i].isBot {
        assert r[ps[i].id];
      }
    }
  }

  /** A ready request completes the quorum exactly when every other player was already ready. */
  lemma ReadyCompletesQuorum(ready: map<int, bool>, ps: seq<Player>, id: int)
    ensures AllReady(ps, ready[id := true]) <==>
      forall i :: 0 <= i < |ps| && ps[i].id != id ==> ps[i].id in ready && ready[ps[i].id]
  {
  }

  /** An unready request by a seated player always breaks the quorum. */
  lemma UnreadyBreaksQuorum(ready: map<int, bool>, ps: seq<Player>, i: nat)
    requires i < |ps|
    ensures !AllReady(ps, ready[ps[i].id := false])
  {
  }

  /** Slots with the same alive flags have the same number of survivors. */
  lemma {:induction false} CountAliveSame(ps: seq<Player>, qs: seq<Player>)
    requires |qs| == |ps| && forall j :: 0 <= j < |ps| ==> qs[j].alive == ps[j].alive
    ensures CountAlive(qs) == CountAlive(ps)
    decreases |ps|
  {
    if ps != [] {
      CountAliveSame(ps[..|ps| - 1], qs[..|qs| - 1]);
    }
  }

  /** Awarding the point keeps every slot well formed and every tank as alive as it was. */
  lemma AwardKeeps(ps: seq<Player>, bots: set<int>)
    requires RosterOk(ps, bots)
    ensures RosterOk(AwardSurvivor(ps), bots)
    ensures forall j :: 0 <= j < |ps| ==> AwardSurvivor(ps)[j] == ps[j].(score := AwardSurvivor(ps)[j].score)
    ensures CountAlive(AwardSurvivor(ps)) == CountAlive(ps)
  {
    CountAliveSame(ps, AwardSurvivor(ps));
  }
}
