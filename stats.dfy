/** The fighter's stat table: its fixed set of keys, the defaults a new
    fighter starts with, and the overlay an archetype applies. */
module Stats {

  /** The keys of a fighter's stat table, in the order the table lists them. */
  datatype Stat =
    // Punches
    | JabAccuracy | JabSpeed | CrossPower | CrossAccuracy
    | HookPower | HookSpeed | UppercutPower | UppercutAccuracy
    // Kicks
    | FrontKickSpeed | FrontKickPower | RoundhouseAccuracy
    | RoundhousePower | LowKickPower | LowKickDefense
    // Clinch
    | ElbowPower | KneePower | ClinchStriking
    // Defense
    | Footwork | HeadMovement | Chin | Stamina
    // Meta
    | Aggression | CounterTiming

  type StatTable = map<Stat, int>

  /** Every key of the table has a value. */
  predicate Complete(t: StatTable) {
    forall k: Stat :: k in t
  }

  /** The value each stat is constructed with, entry by entry. */
  function DefaultValue(k: Stat): int {
    match k
    // Punches
    case JabAccuracy => 50 case JabSpeed => 50 case CrossPower => 50 case CrossAccuracy => 50
    case HookPower => 50 case HookSpeed => 50 case UppercutPower => 50 case UppercutAccuracy => 50
    // Kicks
    case FrontKickSpeed => 50 case FrontKickPower => 50 case RoundhouseAccuracy => 50
    case RoundhousePower => 50 case LowKickPower => 50 case LowKickDefense => 50
    // Clinch
    case ElbowPower => 50 case KneePower => 50 case ClinchStriking => 50
    // Defense
    case Footwork => 50 case HeadMovement => 50 case Chin => 50 case Stamina => 100
    // Meta
    case Aggression => 50 case CounterTiming => 50
  }

  /** The table a fighter is constructed with: 50 in every stat but stamina,
      which starts at 100. */
  function DefaultStats(): (t: StatTable)
    ensures Complete(t)
    ensures t[Stamina] == 100
    ensures forall k :: k != Stamina ==> t[k] == 50
  {
    map k: Stat :: DefaultValue(k)
  }

  const PressureBrawler: string := "Pressure Brawler"
  const CounterSniper: string := "Counter Sniper"
  const Boxer: string := "Boxer"

  /** The entries an archetype writes over the table; empty for any name
      that is not one of the two recognised archetypes. */
  function Modifiers(archetype: string): map<Stat, int> {
    if archetype == PressureBrawler then
      map[HookPower := 70, Chin := 70, Aggression := 80]
    else if archetype == CounterSniper then
      map[CounterTiming := 70, HeadMovement := 70, Footwork := 70]
    else
      map[]
  }

  /** The table after an archetype's entries have been written over it. */
  function ApplyArchetype(t: StatTable, archetype: string): (r: StatTable)
    ensures Complete(t) ==> Complete(r)
  {
    t + Modifiers(archetype)
  }

  /** "Pressure Brawler" raises hook power, chin and aggression and touches
      nothing else. */
  lemma PressureBrawlerOverlay(t: StatTable)
    requires Complete(t)
    ensures ApplyArchetype(t, PressureBrawler)[HookPower] == 70
    ensures ApplyArchetype(t, PressureBrawler)[Chin] == 70
    ensures ApplyArchetype(t, PressureBrawler)[Aggression] == 80
    ensures forall k :: k != HookPower && k != Chin && k != Aggression ==>
              ApplyArchetype(t, PressureBrawler)[k] == t[k]
  {
  }

  /** "Counter Sniper" raises counter timing, head movement and footwork and
      touches nothing else. */
  lemma CounterSniperOverlay(t: StatTable)
    requires Complete(t)
    ensures ApplyArchetype(t, CounterSniper)[CounterTiming] == 70
    ensures ApplyArchetype(t, CounterSniper)[HeadMovement] == 70
    ensures ApplyArchetype(t, CounterSniper)[Footwork] == 70
    ensures forall k :: k != CounterTiming && k != HeadMovement && k != Footwork ==>
              ApplyArchetype(t, CounterSniper)[k] == t[k]
  {
  }

  /** Any other archetype name, the default "Boxer" among them, leaves the
      table as it is. */
  lemma OtherArchetypeKeepsStats(t: StatTable, archetype: string)
    requires archetype != PressureBrawler && archetype != CounterSniper
    ensures ApplyArchetype(t, archetype) == t
  {
    assert Modifiers(archetype) == map[];
  }

  /** Applying an archetype a second time changes nothing more. */
  lemma ArchetypeIdempotent(t: StatTable, archetype: string)
    ensures ApplyArchetype(ApplyArchetype(t, archetype), archetype) == ApplyArchetype(t, archetype)
  {
  }

  /** A fighter of any archetype other than the two recognised ones starts
      with 50 in every stat and 100 stamina. */
  lemma PlainFighterDefaults(archetype: string)
    requires archetype != PressureBrawler && archetype != CounterSniper
    ensures ApplyArchetype(DefaultStats(), archetype) == DefaultStats()
    ensures forall k :: ApplyArchetype(DefaultStats(), archetype)[k] == if k == Stamina then 100 else 50
  {
    OtherArchetypeKeepsStats(DefaultStats(), archetype);
  }
}
