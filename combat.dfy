/** The combat rules: the damage formula, what one strike and one round do to
    the two stat tables, who wins a round, and the engine that plays a round
    on two fighters. Random draws are parameters: a strike is chosen by an
    index into the loadout, and each variance draw is a real in [0, 1). */
module Combat {
  import opened Stats
  import opened Fighters

  /** The two attacker stats each known strike is scored on. */
  const StrikeTable: map<string, (Stat, Stat)> := map[
    "jab" := (JabAccuracy, JabSpeed),
    "cross" := (CrossPower, CrossAccuracy),
    "hook" := (HookPower, HookSpeed),
    "uppercut" := (UppercutPower, UppercutAccuracy),
    "front_kick" := (FrontKickPower, FrontKickSpeed),
    "roundhouse" := (RoundhousePower, RoundhouseAccuracy)
  ]

  /** Average of the attacker's two stats for the strike. */
  function AttackScore(attacker: StatTable, strike: string): real
    requires Complete(attacker) && strike in StrikeTable
  {
    (attacker[StrikeTable[strike].0] + attacker[StrikeTable[strike].1]) as real / 2.0
  }

  /** Average of the defender's head movement and footwork, whatever the strike. */
  function DefenseScore(defender: StatTable): real
    requires Complete(defender)
  {
    (defender[HeadMovement] + defender[Footwork]) as real / 2.0
  }

  /** The variance factor for a uniform draw in [0, 1). */
  function Variance(r: real): (v: real)
    requires 0.0 <= r < 1.0
    ensures 0.9 <= v < 1.1
  {
    0.9 + 0.2 * r
  }

  /** Damage before the clamp and the truncation. */
  function RawDamage(attacker: StatTable, defender: StatTable, strike: string, r: real): real
    requires Complete(attacker) && Complete(defender) && strike in StrikeTable
    requires 0.0 <= r < 1.0
  {
    AttackScore(attacker, strike) * Variance(r) - DefenseScore(defender) * 0.5
  }

  /** The damage a strike deals: the raw damage clamped to at least 1 and
      truncated to an integer (the two agree once the value is at least 1). */
  function CalculateDamage(attacker: StatTable, defender: StatTable, strike: string, r: real): (d: int)
    requires Complete(attacker) && Complete(defender) && strike in StrikeTable
    requires 0.0 <= r < 1.0
    ensures d >= 1
    ensures RawDamage(attacker, defender, strike, r) < 2.0 ==> d == 1
    ensures RawDamage(attacker, defender, strike, r) >= 1.0 ==>
              d as real <= RawDamage(attacker, defender, strike, r) < d as real + 1.0
  {
    var raw := RawDamage(attacker, defender, strike, r);
    (if raw > 1.0 then raw else 1.0).Floor
  }

  /** With the draw fixed, damage does not drop when the attacker's two
      stats for the strike rise. */
  lemma DamageMonotoneInAttack(a: StatTable, a': StatTable, d: StatTable, strike: string, r: real)
    requires Complete(a) && Complete(a') && Complete(d) && strike in StrikeTable
    requires 0.0 <= r < 1.0
    requires a[StrikeTable[strike].0] <= a'[StrikeTable[strike].0]
    requires a[StrikeTable[strike].1] <= a'[StrikeTable[strike].1]
    ensures CalculateDamage(a, d, strike, r) <= CalculateDamage(a', d, strike, r)
  {
  }

  /** With the draw fixed, damage does not rise when the defender's head
      movement and footwork rise. */
  lemma DamageAntitoneInDefense(a: StatTable, d: StatTable, d': StatTable, strike: string, r: real)
    requires Complete(a) && Complete(d) && Complete(d') && strike in StrikeTable
    requires 0.0 <= r < 1.0
    requires d[HeadMovement] <= d'[HeadMovement] && d[Footwork] <= d'[Footwork]
    ensures CalculateDamage(a, d', strike, r) <= CalculateDamage(a, d, strike, r)
  {
  }

  /** Damage reads the attacker's two stats for the strike and the
      defender's head movement and footwork, and no other stat. */
  lemma DamageDependsOnlyOnScoredStats(a: StatTable, a': StatTable, d: StatTable, d': StatTable, strike: string, r: real)
    requires Complete(a) && Complete(a') && Complete(d) && Complete(d') && strike in StrikeTable
    requires 0.0 <= r < 1.0
    requires a[StrikeTable[strike].0] == a'[StrikeTable[strike].0]
    requires a[StrikeTable[strike].1] == a'[StrikeTable[strike].1]
    requires d[HeadMovement] == d'[HeadMovement] && d[Footwork] == d'[Footwork]
    ensures CalculateDamage(a, d, strike, r) == CalculateDamage(a', d', strike, r)
  {
  }

  /** A jab scored 60/60 against a defence of 50/50 with the draw 0.5
      (factor exactly 1) deals 60 - 25 = 35. */
  lemma JabScenario()
    ensures CalculateDamage(DefaultStats()[JabAccuracy := 60][JabSpeed := 60], DefaultStats(), "jab", 0.5) == 35
  {
  }

  /** The pick is a valid index whose strike is in the table, whenever the
      loadout has a strike to pick. */
  predicate Drawn(loadout: seq<string>, pick: nat) {
    loadout != [] ==> pick < |loadout| && loadout[pick] in StrikeTable
  }

  /** The defender's table after the attacker takes its turn: with an empty
      loadout there is no attack; otherwise the picked strike's damage comes
      off the defender's stamina. */
  function Strike(attacker: StatTable, defender: StatTable, loadout: seq<string>, pick: nat, r: real): (t: StatTable)
    requires Complete(attacker) && Complete(defender) && Drawn(loadout, pick)
    requires 0.0 <= r < 1.0
    ensures Complete(t)
    ensures t == defender[Stamina := t[Stamina]]
    ensures loadout == [] ==> t == defender
    ensures loadout != [] ==> t[Stamina] <= defender[Stamina] - 1
  {
    if loadout != [] then
      defender[Stamina := defender[Stamina] - CalculateDamage(attacker, defender, loadout[pick], r)]
    else
      defender
  }

  /** What a round needs of its draws: fighter 1's pick is drawn, and
      fighter 2's pick is drawn whenever fighter 2 is still standing after
      fighter 1's strike. */
  predicate RoundDraws(s1: StatTable, s2: StatTable, l1: seq<string>, l2: seq<string>,
                       pick1: nat, r1: real, pick2: nat, r2: real)
  {
    Complete(s1) && Complete(s2) && Drawn(l1, pick1) &&
    0.0 <= r1 < 1.0 && 0.0 <= r2 < 1.0 &&
    (Strike(s1, s2, l1, pick1, r1)[Stamina] > 0 ==> Drawn(l2, pick2))
  }

  /** The two tables after a round: fighter 1 strikes, then fighter 2 strikes
      back if it still has stamina above 0 and a strike to throw. Only the
      two stamina entries change, and neither rises; fighter 2 loses at
      least 1 whenever fighter 1 has a strike. */
  function RoundStats(s1: StatTable, s2: StatTable, l1: seq<string>, l2: seq<string>,
                      pick1: nat, r1: real, pick2: nat, r2: real): (r: (StatTable, StatTable))
    requires RoundDraws(s1, s2, l1, l2, pick1, r1, pick2, r2)
    ensures Complete(r.0) && Complete(r.1)
    ensures r.0 == s1[Stamina := r.0[Stamina]] && r.1 == s2[Stamina := r.1[Stamina]]
    ensures r.0[Stamina] <= s1[Stamina] && r.1[Stamina] <= s2[Stamina]
    ensures l1 != [] ==> r.1[Stamina] <= s2[Stamina] - 1
  {
    var t2 := Strike(s1, s2, l1, pick1, r1);
    var t1 := if t2[Stamina] > 0 && l2 != [] then Strike(t2, s1, l2, pick2, r2) else s1;
    (t1, t2)
  }

  /** Fighter 2 loses stamina in a round exactly when fighter 1 has a strike. */
  lemma SecondHitIffLoadout(s1: StatTable, s2: StatTable, l1: seq<string>, l2: seq<string>,
                            pick1: nat, r1: real, pick2: nat, r2: real)
    requires RoundDraws(s1, s2, l1, l2, pick1, r1, pick2, r2)
    ensures RoundStats(s1, s2, l1, l2, pick1, r1, pick2, r2).1[Stamina] < s2[Stamina] <==> l1 != []
  {
  }

  /** Fighter 1 loses stamina in a round exactly when fighter 2 is still
      above 0 after fighter 1's strike and has a strike of its own; in every
      other round fighter 1's table is untouched. */
  lemma FirstHitIffCounter(s1: StatTable, s2: StatTable, l1: seq<string>, l2: seq<string>,
                           pick1: nat, r1: real, pick2: nat, r2: real)
    requires RoundDraws(s1, s2, l1, l2, pick1, r1, pick2, r2)
    ensures RoundStats(s1, s2, l1, l2, pick1, r1, pick2, r2).0[Stamina] < s1[Stamina] <==>
              Strike(s1, s2, l1, pick1, r1)[Stamina] > 0 && l2 != []
    ensures Strike(s1, s2, l1, pick1, r1)[Stamina] <= 0 || l2 == [] ==>
              RoundStats(s1, s2, l1, l2, pick1, r1, pick2, r2).0 == s1
  {
  }

  /** Who a round's end staminas name as winner. */
  datatype Side = First | Second | Neither

  /** Fighter 2 being down is checked first, so fighter 1 also wins when
      both are down; fighter 2 wins only when it is up and fighter 1 is
      down; otherwise nobody has won yet. */
  function RoundWinner(stamina1: int, stamina2: int): (w: Side)
    ensures w == First <==> stamina2 <= 0
    ensures w == Second <==> stamina2 > 0 && stamina1 <= 0
    ensures w == Neither <==> stamina1 > 0 && stamina2 > 0
  {
    if stamina2 <= 0 then First else if stamina1 <= 0 then Second else Neither
  }

  /** A round with two empty loadouts changes nothing, and between two
      standing fighters it has no winner. */
  lemma IdleRound(s1: StatTable, s2: StatTable, pick1: nat, r1: real, pick2: nat, r2: real)
    requires RoundDraws(s1, s2, [], [], pick1, r1, pick2, r2)
    requires s1[Stamina] > 0 && s2[Stamina] > 0
    ensures RoundStats(s1, s2, [], [], pick1, r1, pick2, r2) == (s1, s2)
    ensures RoundWinner(RoundStats(s1, s2, [], [], pick1, r1, pick2, r2).0[Stamina],
                        RoundStats(s1, s2, [], [], pick1, r1, pick2, r2).1[Stamina]) == Neither
  {
  }

  /** The combat engine; its only state is the round counter. */
  class Combat {
    var round: int

    /** A new engine; the driver sets the round counter before the first round. */
    constructor ()
    {
    }

    /** Plays one round between two distinct fighters, then advances the
        round counter. Only the two stat tables and the counter change, and
        the tables change as RoundStats says. The result is the winning
        fighter, or null while both are standing. */
    method FightRound(fighter1: Fighter, fighter2: Fighter,
                      pick1: nat, r1: real, pick2: nat, r2: real) returns (winner: Fighter?)
      requires fighter1 != fighter2
      requires RoundDraws(fighter1.stats, fighter2.stats, fighter1.strikeLoadout, fighter2.strikeLoadout,
                          pick1, r1, pick2, r2)
      modifies this`round, fighter1`stats, fighter2`stats
      ensures round == old(round) + 1
      ensures fighter1.stats == RoundStats(old(fighter1.stats), old(fighter2.stats),
                                           fighter1.strikeLoadout, fighter2.strikeLoadout, pick1, r1, pick2, r2).0
      ensures fighter2.stats == RoundStats(old(fighter1.stats), old(fighter2.stats),
                                           fighter1.strikeLoadout, fighter2.strikeLoadout, pick1, r1, pick2, r2).1
      ensures winner == match RoundWinner(fighter1.stats[Stamina], fighter2.stats[Stamina])
                        case First => fighter1
                        case Second => fighter2
                        case Neither => null
    {
      if fighter1.strikeLoadout != [] {
        var strike := fighter1.strikeLoadout[pick1];
        var damage := CalculateDamage(fighter1.stats, fighter2.stats, strike, r1);
        fighter2.stats := fighter2.stats[Stamina := fighter2.stats[Stamina] - damage];
      }
      if fighter2.stats[Stamina] > 0 && fighter2.strikeLoadout != [] {
        var strike := fighter2.strikeLoadout[pick2];
        var damage := CalculateDamage(fighter2.stats, fighter1.stats, strike, r2);
        fighter1.stats := fighter1.stats[Stamina := fighter1.stats[Stamina] - damage];
      }
      round := round + 1;
      winner := if fighter2.stats[Stamina] <= 0 then fighter1
                else if fighter1.stats[Stamina] <= 0 then fighter2
                else null;
    }
  }
}
