# Martial arts combat simulation — Dafny model

This project models the combat rules of a small turn-based boxing and
kickboxing simulation. Two fighters each have a table of integer stats and a
loadout of strike names. One damage formula turns the attacker's two stats
for a strike, minus the defender's head movement and footwork, into stamina
lost. A round engine lets fighter 1 strike and then lets fighter 2 strike
back if it is still standing. The round counter goes up by one, and the
round ends in a knockout win or in no winner yet. The program's bout runs
rounds until there is a winner; between rounds the player may rest.

Modules follow the program's structure:

- `Stats` (stats.dfy): the 23 stat keys as a datatype, the stat table as a
  `map<Stat, int>` that has every key (`Complete`), the default table, and
  the archetype overlay ("Pressure Brawler", "Counter Sniper"; any other name,
  the default "Boxer" among them, changes nothing).
- `Fighters` (fighters.dfy): the `Fighter` class. The constructor fills the
  defaults and then calls `SetArchetype`, which updates the table in place.
- `Combat` (combat.dfy): the strike table, the damage formula as pure
  functions, a pure specification of one strike (`Strike`) and one round
  (`RoundStats`, `RoundWinner`), and the `Combat` class whose
  `FightRound` changes the two fighters' stamina entries and the round
  counter in place, exactly as `RoundStats` says.
- `Game` (game.dfy): the rest action; `NextRound`, a pure specification of
  one pass of the main loop (a round, then a rest on "3" if it has no
  winner), and `BoutFrom`, its repetition until a winner; `RoundThenRest`,
  that pass on the fighter objects; `Bout`, the program's main loop, which
  loops until a winner with a `decreases` on the opponent's stamina and is
  proved to end as `BoutFrom` says; and `Play`, which creates the two
  fighters, sets their loadouts, starts at round 1 and runs `Bout`.

Randomness, input and output become parameters: a strike is chosen by an
index into the loadout; each variance draw is a `real` in [0, 1); the
player's menu choice each round is a string, and only "3" rests. In `Play`
these are functions of the number of rounds already fought, bundled as a
`Chance` value. Python's float arithmetic is modelled with `real`, and
`int()` as `.Floor`, which agrees with truncation because the clamped value
is at least 1.

Resting is `min(100, stamina + 20)` (line 126): it caps at 100 and has no
lower clamp at 0. `set_archetype` (lines 29-34) changes the stats but not
the `archetype` field.

## Model

| member | source | states |
|---|---|---|
| `Stats.DefaultStats` | martial_arts_sim2.py.py:10-23 | the constructed table has every key, stamina 100 and every other stat 50 |
| `Stats.ApplyArchetype` | martial_arts_sim2.py.py:29-34 | writing an archetype's entries over a table keeps every key present |
| `Stats.PressureBrawlerOverlay` | martial_arts_sim2.py.py:31-32 | "Pressure Brawler" sets hook power 70, chin 70, aggression 80 and leaves every other stat as it was |
| `Stats.CounterSniperOverlay` | martial_arts_sim2.py.py:33-34 | "Counter Sniper" sets counter timing 70, head movement 70, footwork 70 and leaves every other stat as it was |
| `Stats.OtherArchetypeKeepsStats` | martial_arts_sim2.py.py:29-34 | any other archetype name, "Boxer" included, leaves the table unchanged |
| `Stats.ArchetypeIdempotent` | martial_arts_sim2.py.py:29-34 | applying an archetype twice gives the same table as applying it once |
| `Stats.PlainFighterDefaults` | martial_arts_sim2.py.py:6-27 | a fighter of an unrecognised archetype starts with 50 in every stat and 100 stamina |
| `Fighters.Fighter.constructor` | martial_arts_sim2.py.py:6-27 | name and archetype as given, level 1, the default table with the archetype applied (so stamina 100), empty loadout, orthodox stance, energy 100; the archetype defaults to "Boxer" |
| `Fighters.Fighter.SetArchetype` | martial_arts_sim2.py.py:29-34 | the stat table becomes the old table with the archetype applied; nothing else changes |
| `Combat.Variance` | martial_arts_sim2.py.py:70 | a draw in [0, 1) gives a variance factor in [0.9, 1.1) |
| `Combat.CalculateDamage` | martial_arts_sim2.py.py:55-71 | damage is at least 1; it is 1 when the raw damage is below 2, and otherwise the integer part of the raw damage |
| `Combat.DamageMonotoneInAttack` | martial_arts_sim2.py.py:66-71 | with the draw fixed, damage does not drop when the attacker's two stats for the strike rise |
| `Combat.DamageAntitoneInDefense` | martial_arts_sim2.py.py:67-71 | with the draw fixed, damage does not rise when the defender's head movement and footwork rise |
| `Combat.DamageDependsOnlyOnScoredStats` | martial_arts_sim2.py.py:57-70 | damage depends on the attacker's two strike stats and the defender's head movement and footwork, and on no other stat |
| `Combat.JabScenario` | martial_arts_sim2.py.py:66-71 | a 60/60 jab against a 50/50 defence with draw 0.5 deals 35 |
| `Combat.Strike` | martial_arts_sim2.py.py:79-82 | an attack changes only the defender's stamina; with an empty loadout nothing changes, otherwise stamina drops by at least 1 |
| `Combat.RoundStats` | martial_arts_sim2.py.py:78-92 | a round changes only the two stamina entries; neither rises; fighter 2 loses at least 1 whenever fighter 1 has a strike |
| `Combat.SecondHitIffLoadout` | martial_arts_sim2.py.py:79-82 | fighter 2 loses stamina in a round if and only if fighter 1's loadout is non-empty |
| `Combat.FirstHitIffCounter` | martial_arts_sim2.py.py:86-90 | fighter 1 loses stamina if and only if fighter 2 is above 0 after fighter 1's strike and has a loadout; otherwise fighter 1's table is untouched |
| `Combat.RoundWinner` | martial_arts_sim2.py.py:95 | fighter 1 wins exactly when fighter 2 is at or below 0 (so also in a double knockout); fighter 2 wins exactly when it is above 0 and fighter 1 is not; otherwise no winner |
| `Combat.IdleRound` | martial_arts_sim2.py.py:79-95 | with both loadouts empty a round changes no table and, between standing fighters, has no winner |
| `Combat.Combat.FightRound` | martial_arts_sim2.py.py:73-95 | the round counter goes up by exactly 1; the two tables become those of `RoundStats` (the loadouts, names and other fields are outside its frame); the result is fighter 1, fighter 2 or null as `RoundWinner` says |
| `Game.Rest` | martial_arts_sim2.py.py:125-126 | rested stamina is the smaller of 100 and stamina + 20 |
| `Game.RestAtNinety` | martial_arts_sim2.py.py:126 | resting at 90 gives 100, not 110 |
| `Game.LoadoutsDrawn` | martial_arts_sim2.py.py:104-105 | every strike in the two loadouts set up for the bout is in the strike table |
| `Game.NextRound` | martial_arts_sim2.py.py:112-126 | one pass of the main loop changes only the two stamina entries and keeps every key; its winner is `RoundWinner` of the final staminas (a rest only follows a round without a winner); the opponent loses at least 1 whenever the player has a strike; the player never ends above 100 if it starts there |
| `Game.BoutFrom` | martial_arts_sim2.py.py:111-128 | a bout in which fighter 1 has a strike always ends with a winner, as `RoundWinner` judges the final staminas; it lasts at least 1 round and at most as many rounds as the opponent has stamina, the opponent ends at least that many points lower, the player never ends above 100 if it starts there, and every key stays in both tables |
| `Game.BoutChangesOnlyStamina` | martial_arts_sim2.py.py:111-128 | a whole bout leaves every stat of both fighters but stamina as it was |
| `Game.RoundThenRest` | martial_arts_sim2.py.py:112-126 | one pass of the main loop on the two fighter objects: their tables become those of `NextRound`, the result is the winning fighter or null as `NextRound`'s winner says, and the round counter goes up by 1 |
| `Game.Bout` | martial_arts_sim2.py.py:111-128 | the main loop leaves the two fighters with exactly the tables `BoutFrom` gives, returns its number of rounds and the winning fighter, and advances the round counter by that many rounds |
| `Game.Play` | martial_arts_sim2.py.py:98-128 | the program's bout gives exactly the outcome of `BoutFrom` from the two new fighters; so it ends with a winner within 100 rounds, the opponent's stamina is at most 100 minus the rounds fought, the player's stamina stays at most 100, "Player" wins exactly when the opponent is at or below 0, and "CPU" exactly when the opponent is above 0 and the player is not |

## Left out

- Console output (`clear_screen`, `show_header`, `show_fighter_stats` with
  its top-3 sort, and every narration `print`) and the `sleep` pacing: these
  are presentation only and affect no rule.
- `input()`: the menu choice is a parameter, and any string but "3" acts
  as "keep strategy".
- The `random` module: strike choices and variance draws are parameters
  with stated ranges. IEEE float rounding of `0.9 + 0.2 * r` and of the
  averages is not modelled, because the formula is over `real`.
- A strike that is not in the six-entry table raises `KeyError` in the
  source. Here it is a precondition (`Drawn`). For one round
  (`Combat.RoundStats`, `Combat.Combat.FightRound`) fighter 2's pick is
  required to be in the table only in a round where fighter 2 actually
  strikes back.
- `Game.BoutFrom`, `Game.Bout`, `Game.NextRound`, `Game.RoundThenRest`: the
  bout-level model requires every pick of both fighters, in every round, to name a strike of the table (`InRange`), even
  for a round in which fighter 2 is knocked out before it strikes. A bout
  that would raise `KeyError` on fighter 2's strike is therefore not modelled.
- `Combat.Combat.FightRound`: a fighter fighting itself (the same object
  passed twice) is excluded by a precondition, so that aliasing is not
  modelled.
- `Combat.Combat.FightRound`: when a round has no winner the source returns
  `None`, modelled as `null`.
- The stat table is a map over a fixed key set, so a key added to the
  dictionary at run time is not modelled (the program never adds one).
- The fields `level`, `stance` and `energy` are kept as state that nothing
  reads. `name` is a constant, since nothing reassigns it.
- `Game.BoutFrom`: it requires fighter 1 to have a strike, which the
  program's own set-up always gives the player; only then is the bout
  guaranteed to end. A bout in which fighter 1 has no strike and fighter 2
  has one may still end with fighter 2's win, and one in which neither has a
  strike never ends (`Combat.IdleRound`: such a round changes nothing); no
  method runs such bouts.
