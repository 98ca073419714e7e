/** The arena's progression records (backend/apps/arena/models.py): a
    player's global XP and level, and a player's mastery of one topic on a
    ladder of ten levels in each of five tiers. */
module ArenaModels {
  import opened Common

  // ---------------------------------------------------------------------
  // PlayerProfile

  /** The global level for an XP total, `xp // 1000 + 1`: one level per
      thousand XP. Python's `//` floors; for the positive divisor 1000
      Dafny's `/` is the same. */
  function LevelForXp(xp: int): (level: int)
    ensures (level - 1) * 1000 <= xp < level * 1000
    ensures xp >= 0 ==> level >= 1
  {
    xp / 1000 + 1
  }

  /** More XP never means a lower level. */
  lemma LevelForXpMonotone(a: int, b: int)
    requires a <= b
    ensures LevelForXp(a) <= LevelForXp(b)
  {
  }

  /** The fields of a player profile. */
  datatype Player = Player(xp: int, level: int, quizzesPlayed: int)

  /** The profile after `add_xp(amount)`. */
  function AddedXp(p: Player, amount: int): (r: Player)
    ensures r.xp == p.xp + amount && r.quizzesPlayed == p.quizzesPlayed + 1
    ensures r.level == LevelForXp(r.xp)
  {
    Player(p.xp + amount, (p.xp + amount) / 1000 + 1, p.quizzesPlayed + 1)
  }

  class PlayerProfile {
    var xp: int
    var level: int
    var quizzesPlayed: int

    function State(): Player
      reads this
    {
      Player(xp, level, quizzesPlayed)
    }

    /** The level is the one the XP total gives. */
    predicate Valid()
      reads this
    {
      level == LevelForXp(xp)
    }

    /** A new profile, with the field defaults. */
    constructor ()
      ensures xp == 0 && level == 1 && quizzesPlayed == 0
      ensures Valid()
    {
      xp, level, quizzesPlayed := 0, 1, 0;
    }

    /** `add_xp(amount)`: adds the amount, counts one more quiz and
      recomputes the level from the new total. */
    method AddXp(amount: int)
      modifies this
      ensures xp == old(xp) + amount
      ensures quizzesPlayed == old(quizzesPlayed) + 1
      ensures level == LevelForXp(xp) && Valid()
      ensures State() == AddedXp(old(State()), amount)
    {
      xp := xp + amount;
      quizzesPlayed := quizzesPlayed + 1;
      level := xp / 1000 + 1;
    }
  }

  // ---------------------------------------------------------------------
  // TopicMastery

  /** The tiers in ascending order. */
  const Tiers: seq<string> := ["iron", "bronze", "silver", "gold", "platinum"]

  const MaxLevel := 10

  /** `tiers.index(tier)`; `None` is the `ValueError` it raises for a tier
      outside the list. */
  function TierIndex(tier: string): (r: Option<nat>)
    ensures r.Some? <==> tier in Tiers
    ensures r.Some? ==> r.value < |Tiers| && Tiers[r.value] == tier
  {
    if tier == "iron" then Some(0)
    else if tier == "bronze" then Some(1)
    else if tier == "silver" then Some(2)
    else if tier == "gold" then Some(3)
    else if tier == "platinum" then Some(4)
    else None
  }

  /** `get_tier_display()`: the tier's label, or the stored value itself
      when it is not one of the choices. */
  function TierLabel(tier: string): string
  {
    if tier == "iron" then "Ferro"
    else if tier == "bronze" then "Bronze"
    else if tier == "silver" then "Prata"
    else if tier == "gold" then "Ouro"
    else if tier == "platinum" then "Platina"
    else tier
  }

  /** The state of a topic mastery: its level and tier. */
  datatype Mastery = Mastery(level: int, tier: string)

  /** A new mastery: level 1, tier iron. */
  const Default := Mastery(1, "iron")

  /** What `level_up()` gives back: the `(upgraded, reason)` pair, or the
      `ValueError` of `tiers.index`. */
  datatype LevelUpResult = Returned(upgraded: bool, reason: string) | ValueError

  /** `level_up()` on a mastery: its result and the mastery afterwards. */
  function LevelUpOutcome(m: Mastery): (r: (LevelUpResult, Mastery))
    ensures m.tier == "platinum" && m.level == MaxLevel ==> r == (Returned(false, "Maxed"), m)
    ensures m.level < MaxLevel ==>
      r == (Returned(true, "Level Up"), Mastery(m.level + 1, m.tier))
    ensures m.level >= MaxLevel && m.tier in Tiers && m.tier != "platinum" ==>
      && r.1.level == 1
      && TierIndex(r.1.tier).Some? && TierIndex(r.1.tier).value == TierIndex(m.tier).value + 1
      && r.0 == Returned(true, "Tier Up: " + r.1.tier)
    ensures m.level > MaxLevel && m.tier == "platinum" ==> r == (Returned(false, "Erro"), m)
    ensures m.level >= MaxLevel && m.tier !in Tiers ==> r == (ValueError, m)
    ensures r.0.Returned? && !r.0.upgraded ==> r.1 == m
  {
    if m.tier == "platinum" && m.level == MaxLevel then (Returned(false, "Maxed"), m)
    else if m.level < MaxLevel then (Returned(true, "Level Up"), Mastery(m.level + 1, m.tier))
    else
      match TierIndex(m.tier)
      case None => (ValueError, m)
      case Some(index) =>
        if index < |Tiers| - 1 then
          var tier := Tiers[index + 1];
          (Returned(true, "Tier Up: " + tier), Mastery(1, tier))
        else (Returned(false, "Erro"), m)
  }

  /** A mastery on the ladder: a known tier and a level from 1 to 10. */
  predicate OnLadder(m: Mastery)
  {
    m.tier in Tiers && 1 <= m.level <= MaxLevel
  }

  /** The number of successful level-ups from the default to `m`. */
  function Rank(m: Mastery): int
    requires OnLadder(m)
  {
    TierIndex(m.tier).value * MaxLevel + m.level - 1
  }

  /** On the ladder a level-up keeps the mastery on the ladder and never
      lowers the tier; it succeeds and climbs one rank below the top rank
      49, and at the top it answers "Maxed" and changes nothing. */
  lemma LevelUpClimbs(m: Mastery)
    requires OnLadder(m)
    ensures var (result, next) := LevelUpOutcome(m);
      && OnLadder(next)
      && TierIndex(next.tier).value >= TierIndex(m.tier).value
      && 0 <= Rank(m) <= 49
      && (Rank(m) < 49 ==> result.Returned? && result.upgraded && Rank(next) == Rank(m) + 1)
      && (Rank(m) == 49 <==> result == Returned(false, "Maxed"))
      && (Rank(m) == 49 ==> next == m)
  {
    var index := TierIndex(m.tier).value;
    if m.level == MaxLevel && index < 4 {
      assert TierIndex(Tiers[index + 1]) == Some(index + 1);
    }
  }

  /** The mastery after `k` calls of `level_up()` from `m`. */
  function Climb(m: Mastery, k: nat): Mastery
  {
    if k == 0 then m else LevelUpOutcome(Climb(m, k - 1)).1
  }

  /** From the defaults, each of the first 49 calls succeeds and climbs one
      rank while the mastery stays on the ladder. */
  lemma {:induction false} ClimbFromDefault(k: nat)
    requires k <= 49
    ensures OnLadder(Climb(Default, k)) && Rank(Climb(Default, k)) == k
    ensures k < 49 ==> LevelUpOutcome(Climb(Default, k)).0.Returned? && LevelUpOutcome(Climb(Default, k)).0.upgraded
  {
    if k > 0 {
      ClimbFromDefault(k - 1);
      LevelUpClimbs(Climb(Default, k - 1));
    }
    LevelUpClimbs(Climb(Default, k));
  }

  /** After exactly 49 successful calls the mastery is platinum level 10,
      and every further call answers "Maxed" and changes nothing. */
  lemma MaxedAfter49()
    ensures Climb(Default, 49) == Mastery(MaxLevel, "platinum")
    ensures forall k :: k < 49 ==> LevelUpOutcome(Climb(Default, k)).0.Returned? && LevelUpOutcome(Climb(Default, k)).0.upgraded
    ensures LevelUpOutcome(Climb(Default, 49)) == (Returned(false, "Maxed"), Climb(Default, 49))
  {
    ClimbFromDefault(49);
    var m := Climb(Default, 49);
    assert TierIndex(m.tier).value == 4 && m.level == 10;
    forall k: nat | k < 49
      ensures LevelUpOutcome(Climb(Default, k)).0.Returned? && LevelUpOutcome(Climb(Default, k)).0.upgraded
    {
      ClimbFromDefault(k);
    }
  }

  class TopicMastery {
    var topic: string
    var level: int
    var tier: string

    function State(): Mastery
      reads this
    {
      Mastery(level, tier)
    }

    /** A new record for `topic`, with the field defaults. */
    constructor (topic: string)
      ensures this.topic == topic && State() == Default
    {
      this.topic := topic;
      level, tier := 1, "iron";
    }

    /** `get_xp_for_next_level()`: the estimate shown to the player, 100 XP
        per level. */
    function XpForNextLevel(): (xp: int)
      reads this
      ensures level >= 1 ==> xp >= 100
      ensures xp == 100 * level
    {
      100 * level
    }

    /** `level_up()`: steps the level and tier in place. */
    method LevelUp() returns (result: LevelUpResult)
      modifies this
      ensures (result, State()) == LevelUpOutcome(old(State()))
      ensures topic == old(topic)
    {
      if tier == "platinum" && level == 10 {
        return Returned(false, "Maxed");
      }
      if level < 10 {
        level := level + 1;
        return Returned(true, "Level Up");
      } else {
        var currentIndex := TierIndex(tier);
        if currentIndex.None? {
          return ValueError;
        }
        if currentIndex.value < |Tiers| - 1 {
          tier := Tiers[currentIndex.value + 1];
          level := 1;
          return Returned(true, "Tier Up: " + tier);
        }
      }
      return Returned(false, "Erro");
    }
  }
}
