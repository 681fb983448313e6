/** A fighter: a name, an archetype, a stat table and a strike loadout. */
module Fighters {
  import opened Stats

  class Fighter {
    const name: string
    var archetype: string
    var level: int
    var stats: StatTable
    /** The strike names this fighter picks from, in order; may be empty. */
    var strikeLoadout: seq<string>
    // Set at construction and never read by the rules.
    var stance: string
    var energy: int

    /** A fighter starts at level 1 with the default table, an empty
        loadout, orthodox stance and full energy, and then takes on its
        archetype. */
    constructor (name: string, archetype: string := Boxer)
      ensures this.name == name && this.archetype == archetype && level == 1
      ensures stats == ApplyArchetype(DefaultStats(), archetype)
      ensures Complete(stats) && stats[Stamina] == 100
      ensures strikeLoadout == [] && stance == "orthodox" && energy == 100
    {
      this.name := name;
      this.archetype := archetype;
      level := 1;
      stats := DefaultStats();
      strikeLoadout := [];
      stance := "orthodox";
      energy := 100;
      new;
      SetArchetype(archetype);
    }

    /** Writes the archetype's entries over the stat table; any name but the
        two recognised ones leaves it as it is. The archetype field itself
        is not touched. The two branches write the entries that Modifiers
        lists for each archetype. */
    method SetArchetype(archetype: string)
      modifies this`stats
      ensures stats == ApplyArchetype(old(stats), archetype)
    {
      if archetype == PressureBrawler {
        stats := stats + map[HookPower := 70, Chin := 70, Aggression := 80];
      } else if archetype == CounterSniper {
        stats := stats + map[CounterTiming := 70, HeadMovement := 70, Footwork := 70];
      }
    }
  }
}
