/** The bout as the program plays it: a Pressure Brawler player against a
    Counter Sniper opponent, rounds until a knockout, and between rounds the
    player's choice to rest. The player's menu choices and every random draw
    of the bout are parameters indexed by the number of rounds already
    fought. */
module Game {
  import opened Stats
  import opened Fighters
  import opened Combat

  /** Stamina after a rest: 20 more, but never above 100. */
  function Rest(stamina: int): (s: int)
    ensures s <= 100 && s <= stamina + 20
    ensures s == 100 || s == stamina + 20
  {
    if stamina + 20 < 100 then stamina + 20 else 100
  }

  /** Resting at 90 stops at the cap of 100. */
  lemma RestAtNinety()
    ensures Rest(90) == 100
  {
  }

  const PlayerLoadout: seq<string> := ["jab", "cross", "hook"]
  const OpponentLoadout: seq<string> := ["front_kick", "roundhouse"]

  /** Every pick into either fighter's loadout names a strike of the table. */
  lemma LoadoutsDrawn(pick1: nat, pick2: nat)
    requires pick1 < 3 && pick2 < 2
    ensures Drawn(PlayerLoadout, pick1) && Drawn(OpponentLoadout, pick2)
  {
    assert PlayerLoadout[pick1] in StrikeTable;
    assert OpponentLoadout[pick2] in StrikeTable;
  }

  /** The random draws and menu choices of a whole bout, each indexed by the
      number of rounds already fought: the two fighters' strike picks and
      variance draws, and the player's choice between rounds. */
  datatype Chance = Chance(picks1: nat -> nat, draws1: nat -> real,
                           picks2: nat -> nat, draws2: nat -> real,
                           choices: nat -> string)

  /** Every pick names a strike of its fighter's loadout that the strike
      table knows, and every variance draw lies in [0, 1). */
  ghost predicate InRange(c: Chance, l1: seq<string>, l2: seq<string>) {
    (forall n :: Drawn(l1, c.picks1(n))) && (forall n :: Drawn(l2, c.picks2(n))) &&
    (forall n :: 0.0 <= c.draws1(n) < 1.0) && (forall n :: 0.0 <= c.draws2(n) < 1.0)
  }

  /** How a round and the pause after it end: the round's winner, if any,
      and the two stat tables once the player has rested or not. */
  datatype RoundEnd = RoundEnd(winner: Side, player: StatTable, opponent: StatTable)

  /** Round n of a bout: fighter 1 strikes, fighter 2 strikes back, and if
      the round has no winner, a choice of "3" rests the player. */
  function NextRound(p: StatTable, o: StatTable, l1: seq<string>, l2: seq<string>,
                     c: Chance, n: nat): (r: RoundEnd)
    requires Complete(p) && Complete(o) && InRange(c, l1, l2)
    ensures Complete(r.player) && Complete(r.opponent)
    ensures r.winner == RoundWinner(r.player[Stamina], r.opponent[Stamina])
    ensures r.player == p[Stamina := r.player[Stamina]] && r.opponent == o[Stamina := r.opponent[Stamina]]
    ensures l1 != [] ==> r.opponent[Stamina] <= o[Stamina] - 1
    ensures p[Stamina] <= 100 ==> r.player[Stamina] <= 100
  {
    var (p', o') := RoundStats(p, o, l1, l2, c.picks1(n), c.draws1(n), c.picks2(n), c.draws2(n));
    var w := RoundWinner(p'[Stamina], o'[Stamina]);
    if w == Neither && c.choices(n) == "3" then RoundEnd(w, p'[Stamina := Rest(p'[Stamina])], o')
    else RoundEnd(w, p', o')
  }

  /** How a bout ends: the winning side, the number of rounds fought and
      the two final stat tables. */
  datatype Ending = Ending(winner: Side, rounds: nat, player: StatTable, opponent: StatTable)

  /** The rest of a bout from round index n: play rounds until one has a
      winner. While the player has a strike, the opponent loses at least 1
      stamina per round and never recovers, so the bout ends with a winner
      within as many rounds as the opponent has stamina
      (BoutChangesOnlyStamina shows that the other stats stay as they were). */
  function BoutFrom(p: StatTable, o: StatTable, l1: seq<string>, l2: seq<string>,
                    c: Chance, n: nat): (e: Ending)
    requires Complete(p) && Complete(o) && l1 != [] && InRange(c, l1, l2)
    requires o[Stamina] > 0
    ensures Complete(e.player) && Complete(e.opponent)
    ensures e.winner != Neither
    ensures e.winner == RoundWinner(e.player[Stamina], e.opponent[Stamina])
    ensures 1 <= e.rounds <= o[Stamina]
    ensures e.opponent[Stamina] <= o[Stamina] - e.rounds
    ensures p[Stamina] <= 100 ==> e.player[Stamina] <= 100
    decreases o[Stamina]
  {
    var r := NextRound(p, o, l1, l2, c, n);
    if r.winner != Neither then
      Ending(r.winner, 1, r.player, r.opponent)
    else
      var e := BoutFrom(r.player, r.opponent, l1, l2, c, n + 1);
      e.(rounds := e.rounds + 1)
  }

  /** Writing stamina twice keeps only the second value. */
  lemma StaminaWrittenTwice(t: StatTable, x: int, y: int)
    ensures t[Stamina := x][Stamina := y] == t[Stamina := y]
  {
  }

  /** A bout changes no stat of either fighter but stamina. */
  lemma {:induction false} BoutChangesOnlyStamina(p: StatTable, o: StatTable, l1: seq<string>,
                                                   l2: seq<string>, c: Chance, n: nat)
    requires Complete(p) && Complete(o) && l1 != [] && InRange(c, l1, l2)
    requires o[Stamina] > 0
    ensures var e := BoutFrom(p, o, l1, l2, c, n);
      e.player == p[Stamina := e.player[Stamina]] && e.opponent == o[Stamina := e.opponent[Stamina]]
    decreases o[Stamina]
  {
    var r := NextRound(p, o, l1, l2, c, n);
    if r.winner == Neither {
      BoutChangesOnlyStamina(r.player, r.opponent, l1, l2, c, n + 1);
      var e := BoutFrom(r.player, r.opponent, l1, l2, c, n + 1);
      StaminaWrittenTwice(p, r.player[Stamina], e.player[Stamina]);
      StaminaWrittenTwice(o, r.opponent[Stamina], e.opponent[Stamina]);
    }
  }

  /** One pass of the program's main loop: fight round n and, if it has no
      winner, rest the player on choice "3". The tables become those of
      NextRound, and the result is the winning fighter or null. */
  method RoundThenRest(player: Fighter, opponent: Fighter, combat: Combat, c: Chance, n: nat)
    returns (winner: Fighter?)
    requires player != opponent
    requires Complete(player.stats) && Complete(opponent.stats)
    requires InRange(c, player.strikeLoadout, opponent.strikeLoadout)
    modifies combat`round, player`stats, opponent`stats
    ensures
      var r := NextRound(old(player.stats), old(opponent.stats), player.strikeLoadout,
                         opponent.strikeLoadout, c, n);
      player.stats == r.player && opponent.stats == r.opponent &&
      winner == match r.winner case First => player case Second => opponent case Neither => null
    ensures combat.round == old(combat.round) + 1
  {
    winner := combat.FightRound(player, opponent, c.picks1(n), c.draws1(n), c.picks2(n), c.draws2(n));
    // Options "1" and "2" and any other input leave the round as it was.
    if winner == null && c.choices(n) == "3" {
      player.stats := player.stats[Stamina := Rest(player.stats[Stamina])];
    }
  }

  /** The program's main loop over two distinct fighters, from round index
      0, until a round has a winner. The winner, the number of rounds and
      both final tables are those BoutFrom gives for the starting tables. */
  method Bout(player: Fighter, opponent: Fighter, combat: Combat, c: Chance)
    returns (winner: Fighter, rounds: nat)
    requires player != opponent
    requires Complete(player.stats) && Complete(opponent.stats)
    requires player.strikeLoadout != [] && InRange(c, player.strikeLoadout, opponent.strikeLoadout)
    requires opponent.stats[Stamina] > 0
    modifies combat`round, player`stats, opponent`stats
    ensures
      var e := BoutFrom(old(player.stats), old(opponent.stats), player.strikeLoadout,
                        opponent.strikeLoadout, c, 0);
      rounds == e.rounds && player.stats == e.player && opponent.stats == e.opponent &&
      winner == if e.winner == First then player else opponent
    ensures combat.round == old(combat.round) + rounds
  {
    ghost var whole := BoutFrom(player.stats, opponent.stats, player.strikeLoadout,
                                opponent.strikeLoadout, c, 0);
    rounds := 0;
    while true
      invariant Complete(player.stats) && Complete(opponent.stats)
      invariant 0 < opponent.stats[Stamina]
      invariant combat.round == old(combat.round) + rounds
      invariant
        var rest := BoutFrom(player.stats, opponent.stats, player.strikeLoadout,
                             opponent.strikeLoadout, c, rounds);
        rest.winner == whole.winner && rest.player == whole.player &&
        rest.opponent == whole.opponent && rest.rounds + rounds == whole.rounds
      decreases opponent.stats[Stamina]
    {
      var w := RoundThenRest(player, opponent, combat, c, rounds);
      rounds := rounds + 1;
      if w != null {
        winner := w;
        break;
      }
    }
  }

  /** Plays the program's bout: a Pressure Brawler "Player" with jab, cross
      and hook against a Counter Sniper "CPU" with front kick and roundhouse,
      from round 1, rounds until one has a winner. Returns the winner's name,
      the number of rounds fought and the final staminas, which are those of
      BoutFrom from the two new fighters' tables; in particular the bout
      ends within 100 rounds. */
  method Play(picks1: nat -> nat, draws1: nat -> real,
              picks2: nat -> nat, draws2: nat -> real,
              choices: nat -> string)
    returns (winnerName: string, rounds: nat, playerStamina: int, opponentStamina: int)
    requires forall n :: picks1(n) < 3
    requires forall n :: picks2(n) < 2
    requires forall n :: 0.0 <= draws1(n) < 1.0
    requires forall n :: 0.0 <= draws2(n) < 1.0
    ensures
      var e := BoutFrom(ApplyArchetype(DefaultStats(), PressureBrawler),
                        ApplyArchetype(DefaultStats(), CounterSniper),
                        PlayerLoadout, OpponentLoadout,
                        Chance(picks1, draws1, picks2, draws2, choices), 0);
      rounds == e.rounds && playerStamina == e.player[Stamina] &&
      opponentStamina == e.opponent[Stamina] &&
      winnerName == if e.winner == First then "Player" else "CPU"
    ensures 1 <= rounds <= 100
    ensures opponentStamina <= 100 - rounds
    ensures playerStamina <= 100
    ensures winnerName == "Player" <==> opponentStamina <= 0
    ensures winnerName == "CPU" <==> opponentStamina > 0 && playerStamina <= 0
  {
    var player := new Fighter("Player", PressureBrawler);
    var opponent := new Fighter("CPU", CounterSniper);

    player.strikeLoadout := PlayerLoadout;
    opponent.strikeLoadout := OpponentLoadout;

    var combat := new Combat();
    combat.round := 1;

    var c := Chance(picks1, draws1, picks2, draws2, choices);
    forall n ensures Drawn(PlayerLoadout, picks1(n)) && Drawn(OpponentLoadout, picks2(n)) {
      LoadoutsDrawn(picks1(n), picks2(n));
    }

    var winner;
    winner, rounds := Bout(player, opponent, combat, c);
    winnerName := winner.name;
    playerStamina := player.stats[Stamina];
    opponentStamina := opponent.stats[Stamina];
  }
}
