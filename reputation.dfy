/**
 * The producer's reputation (`ReputationService`): XP carried into levels
 * of 1000, the lifetime total, and a title that steps up at levels 10, 20,
 * 30 and 50.
 */
module Reputation {

  const XP_PER_LEVEL: int := 1000

  datatype ReputationState = ReputationState(level: int, xp: int, totalXp: int, title: string)

  const NOVICE: string := "Novice Producer"
  const RISING: string := "Rising Talent"
  const MAESTRO: string := "Studio Maestro"
  const ARCHITECT: string := "Platinum Architect"
  const COMMANDER: string := "Legendary Strategic Commander"

  /** The titles from lowest to highest. */
  const TITLES: seq<string> := [NOVICE, RISING, MAESTRO, ARCHITECT, COMMANDER]

  const INITIAL_STATE: ReputationState := ReputationState(1, 0, 0, NOVICE)

  /** `calculateTitle`. */
  function Title(level: int): (t: string)
    ensures t == TITLES[TitleRank(level)]
  {
    if level >= 50 then COMMANDER
    else if level >= 30 then ARCHITECT
    else if level >= 20 then MAESTRO
    else if level >= 10 then RISING
    else NOVICE
  }

  /** The position of a level's title among the titles: how many of the
    * steps 10, 20, 30 and 50 the level has reached. */
  function TitleRank(level: int): (r: nat)
    ensures r < |TITLES|
  {
    (if level >= 10 then 1 else 0) + (if level >= 20 then 1 else 0) +
    (if level >= 30 then 1 else 0) + (if level >= 50 then 1 else 0)
  }

  /** A higher level never has a lower title. */
  lemma TitleMonotone(l1: int, l2: int)
    requires l1 <= l2
    ensures TitleRank(l1) <= TitleRank(l2)
  {
  }

  /** The five titles are different, so the rank can be read back from the title. */
  lemma TitlesDistinct()
    ensures forall i, j :: 0 <= i < j < |TITLES| ==> TITLES[i] != TITLES[j]
  {
    assert |NOVICE| == 15 && |RISING| == 13 && |MAESTRO| == 14 && |ARCHITECT| == 18 && |COMMANDER| == 29;
  }

  /** The carry loop as a function: while XP reaches 1000, take 1000 off and
    * go up a level. */
  function Carry(xp: int, level: int): (r: (int, int))
    decreases xp
  {
    if xp >= XP_PER_LEVEL then Carry(xp - XP_PER_LEVEL, level + 1) else (xp, level)
  }

  /** The carry is a division by 1000 when there is anything to carry, and
    * leaves XP below 1000 as it is (negative XP included). */
  lemma {:induction false} CarryIsDivision(xp: int, level: int)
    ensures Carry(xp, level) ==
              if xp >= XP_PER_LEVEL then (xp % XP_PER_LEVEL, level + xp / XP_PER_LEVEL) else (xp, level)
    decreases xp
  {
    if xp >= XP_PER_LEVEL {
      CarryIsDivision(xp - XP_PER_LEVEL, level + 1);
      assert (xp - XP_PER_LEVEL) % XP_PER_LEVEL == xp % XP_PER_LEVEL;
      assert (xp - XP_PER_LEVEL) / XP_PER_LEVEL == xp / XP_PER_LEVEL - 1;
    }
  }

  /** `addXp` as a function of the state. */
  function Added(s: ReputationState, amount: int): (r: ReputationState)
    ensures r.totalXp == s.totalXp + amount
    ensures r.level >= s.level && r.xp < XP_PER_LEVEL
    ensures s.xp + amount >= 0 ==> 0 <= r.xp
    ensures r.title == Title(r.level)
  {
    CarryIsDivision(s.xp + amount, s.level);
    var (xp, level) := Carry(s.xp + amount, s.level);
    s.(xp := xp, level := level, totalXp := s.totalXp + amount, title := Title(level))
  }

  /** Level, XP within the level and total agree: (level − 1)·1000 + xp is the total. */
  predicate Conserved(s: ReputationState) {
    (s.level - 1) * XP_PER_LEVEL + s.xp == s.totalXp
  }

  /** `addXp` keeps level, XP and total in agreement, for any amount. */
  lemma AddedConserves(s: ReputationState, amount: int)
    requires Conserved(s)
    ensures Conserved(Added(s, amount))
  {
    CarryIsDivision(s.xp + amount, s.level);
  }

  /** From the initial state, non-negative additions keep XP in [0, 1000)
    * and make the level the total's thousands plus one. */
  lemma {:induction false} FromInitial(amounts: seq<int>)
    requires forall i :: 0 <= i < |amounts| ==> amounts[i] >= 0
    ensures var s := AddAll(INITIAL_STATE, amounts);
            0 <= s.xp < XP_PER_LEVEL && s.totalXp >= 0 && s.level == s.totalXp / XP_PER_LEVEL + 1 &&
            s.xp == s.totalXp % XP_PER_LEVEL
    decreases |amounts|
  {
    if |amounts| > 0 {
      var init := amounts[..|amounts| - 1];
      FromInitial(init);
      var s := AddAll(INITIAL_STATE, init);
      var a := amounts[|amounts| - 1];
      AddedConserves(s, a);
      var r := Added(s, a);
      assert (r.level - 1) * XP_PER_LEVEL + r.xp == r.totalXp;
      DivisionOfConserved(r.totalXp, r.level - 1, r.xp);
    }
  }

  lemma DivisionOfConserved(total: int, q: int, rem: int)
    requires 0 <= rem < XP_PER_LEVEL && q * XP_PER_LEVEL + rem == total
    ensures total / XP_PER_LEVEL == q && total % XP_PER_LEVEL == rem
  {
  }

  /** The state after a series of `addXp` calls. */
  function AddAll(s: ReputationState, amounts: seq<int>): ReputationState
    decreases |amounts|
  {
    if |amounts| == 0 then s else Added(AddAll(s, amounts[..|amounts| - 1]), amounts[|amounts| - 1])
  }

  class ReputationService {
    var state: ReputationState

    /** The state starts at level 1 with no XP and the lowest title. */
    constructor()
      ensures state == INITIAL_STATE && Conserved(state)
    {
      state := INITIAL_STATE;
    }

    /** `addXp`: the carry loop over the new XP, then the title of the new level. */
    method AddXp(amount: int)
      modifies this
      ensures state == Added(old(state), amount)
    {
      var s := state;
      var newXp := s.xp + amount;
      var newLevel := s.level;
      var newTotalXp := s.totalXp + amount;
      while newXp >= XP_PER_LEVEL
        invariant Carry(newXp, newLevel) == Carry(s.xp + amount, s.level)
        decreases newXp
      {
        newXp := newXp - XP_PER_LEVEL;
        newLevel := newLevel + 1;
      }
      state := s.(xp := newXp, level := newLevel, totalXp := newTotalXp, title := Title(newLevel));
    }
  }
}
