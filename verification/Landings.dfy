/** Every landing is accounted for: an attack landing while there are players is
    handed on as exactly one blow, to its announced target if still in the fight,
    else to the first player. */
module Landings {
  import opened Basics
  import opened Balance
  import opened Clock
  import opened Fights
  import opened Blows
  import opened Encounters

  /** Whose attack, its number, and whom it falls on. */
  datatype BlowKey = BlowKey(nid: string, attack: int, pid: string)

  function KeyOf(l: Landing): BlowKey { BlowKey(l.incoming.nid, l.incoming.attack, l.target) }

  function KeysOf(landings: seq<Landing>): multiset<BlowKey> {
    if landings == [] then multiset{} else multiset{KeyOf(landings[0])} + KeysOf(landings[1..])
  }

  /** The blows handed on, how they were met aside. */
  function BlownKeys(calls: seq<Call>): multiset<BlowKey> {
    if calls == [] then multiset{}
    else
      (if calls[0].CallBlow? then multiset{BlowKey(calls[0].nid, calls[0].attack, calls[0].pid)} else multiset{})
        + BlownKeys(calls[1..])
  }

  lemma {:induction false} BlownKeysConcat(a: seq<Call>, b: seq<Call>)
    ensures BlownKeys(a + b) == BlownKeys(a) + BlownKeys(b)
    decreases |a|
  {
    if a == [] {
      assert a + b == b;
    } else {
      assert (a + b)[1..] == a[1..] + b;
      BlownKeysConcat(a[1..], b);
    }
  }

  lemma {:induction false} OnlyBlowCallsCount(calls: seq<Call>)
    ensures BlownKeys(calls) == BlownKeys(BlowCalls(calls))
    decreases |calls|
  {
    if calls != [] {
      OnlyBlowCallsCount(calls[1..]);
      if calls[0].CallBlow? {
        assert BlowCalls(calls)[1..] == BlowCalls(calls[1..]);
      } else {
        assert BlowCalls(calls) == BlowCalls(calls[1..]);
      }
    }
  }

  // Split by player ----------------------------------------------------------------------------

  function Others(landings: seq<Landing>, pid: string): seq<Landing> {
    if landings == [] then []
    else (if landings[0].target == pid then [] else [landings[0]]) + Others(landings[1..], pid)
  }

  function IncomingKeys(mine: seq<Incoming>, pid: string): multiset<BlowKey> {
    if mine == [] then multiset{}
    else multiset{BlowKey(mine[0].nid, mine[0].attack, pid)} + IncomingKeys(mine[1..], pid)
  }

  lemma {:induction false} PairedKeys(pid: string, mine: seq<Incoming>, results: seq<Result>)
    requires |results| == |mine|
    ensures BlownKeys(Paired(pid, mine, results)) == IncomingKeys(mine, pid)
    decreases |mine|
  {
    if mine != [] {
      PairedKeys(pid, mine[1..], results[1..]);
      assert Paired(pid, mine, results)[1..] == Paired(pid, mine[1..], results[1..]);
    }
  }

  /** A player's blows and the others' are all of them. */
  lemma {:induction false} MineAndOthers(landings: seq<Landing>, pid: string)
    ensures KeysOf(landings) == IncomingKeys(Mine(landings, pid), pid) + KeysOf(Others(landings, pid))
    decreases |landings|
  {
    if landings != [] {
      var rest := landings[1..];
      MineAndOthers(rest, pid);
      if landings[0].target == pid {
        assert Mine(landings, pid) == [landings[0].incoming] + Mine(rest, pid)
          && Others(landings, pid) == Others(rest, pid);
        AddMine(landings[0].incoming, Mine(rest, pid), pid);
      } else {
        assert Mine(landings, pid) == Mine(rest, pid) && Others(landings, pid) == [landings[0]] + Others(rest, pid);
        AddOther(landings[0], Others(rest, pid));
      }
    }
  }

  lemma AddMine(i: Incoming, mine: seq<Incoming>, pid: string)
    ensures IncomingKeys([i] + mine, pid) == multiset{BlowKey(i.nid, i.attack, pid)} + IncomingKeys(mine, pid)
  {
    assert ([i] + mine)[1..] == mine;
  }

  lemma AddOther(l: Landing, rest: seq<Landing>)
    ensures KeysOf([l] + rest) == multiset{KeyOf(l)} + KeysOf(rest)
  {
    assert ([l] + rest)[1..] == rest;
  }

  lemma {:induction false} MineOfOthers(landings: seq<Landing>, pid: string, other: string)
    requires pid != other
    ensures Mine(Others(landings, other), pid) == Mine(landings, pid)
    decreases |landings|
  {
    if landings != [] {
      MineOfOthers(landings[1..], pid, other);
      if landings[0].target != other {
        assert Others(landings, other)[1..] == Others(landings[1..], other);
      } else {
        assert Others(landings, other) == Others(landings[1..], other);
        assert Mine(landings, pid) == Mine(landings[1..], pid);
      }
    }
  }

  ghost predicate IsFighter(pid: string, fighters: seq<Fighter>) {
    exists j :: 0 <= j < |fighters| && fighters[j].info.pid == pid
  }

  ghost predicate Targeted(landings: seq<Landing>, fighters: seq<Fighter>) {
    forall i :: 0 <= i < |landings| ==> IsFighter(landings[i].target, fighters)
  }

  lemma {:induction false} OthersTargeted(landings: seq<Landing>, fighters: seq<Fighter>)
    requires fighters != [] && Targeted(landings, fighters)
    ensures Targeted(Others(landings, fighters[0].info.pid), fighters[1..])
    decreases |landings|
  {
    if landings != [] {
      var rest := landings[1..];
      assert Targeted(rest, fighters) by {
        forall i | 0 <= i < |rest| ensures IsFighter(rest[i].target, fighters) {
          assert rest[i] == landings[i + 1];
        }
      }
      OthersTargeted(rest, fighters);
      var pid := fighters[0].info.pid;
      if landings[0].target != pid {
        assert IsFighter(landings[0].target, fighters);
        var j :| 0 <= j < |fighters| && fighters[j].info.pid == landings[0].target;
        assert fighters[1..][j - 1].info.pid == landings[0].target;
      }
    }
  }

  ghost predicate Distinct(fighters: seq<Fighter>) {
    forall i, j :: 0 <= i < j < |fighters| ==> fighters[i].info.pid != fighters[j].info.pid
  }

  /** Only the landings on one of these fighters matter to their calls. */
  lemma {:induction false} CallsOfOthers(m: Maths, fighters: seq<Fighter>, n: int, landings: seq<Landing>,
                                         bosses: set<string>, other: string)
    requires forall i :: 0 <= i < |fighters| ==> fighters[i].info.pid != other
    ensures PlayerCalls(m, fighters, n, Others(landings, other), bosses)
      == PlayerCalls(m, fighters, n, landings, bosses)
    decreases |fighters|
  {
    hide PlayerStep, Others, Mine;
    if fighters != [] {
      MineOfOthers(landings, fighters[0].info.pid, other);
      CallsOfOthers(m, fighters[1..], n, landings, bosses, other);
    }
  }

  lemma {:induction false} PlayersAccount(m: Maths, fighters: seq<Fighter>, n: int, landings: seq<Landing>,
                                          bosses: set<string>)
    requires Distinct(fighters) && Targeted(landings, fighters)
    ensures BlownKeys(PlayerCalls(m, fighters, n, landings, bosses)) == KeysOf(landings)
    decreases |fighters|
  {
    hide PlayerStep, Others, Mine, BlownKeys, KeysOf, IncomingKeys;
    if fighters == [] {
      if landings != [] { NoOneToLandOn(landings); }
      Nothing();
    } else {
      var f := fighters[0];
      var mine := Mine(landings, f.info.pid);
      var results := PlayerStepsBlows(m, f.info, f.p, n, mine, bosses);
      PairedKeys(f.info.pid, mine, results);
      OnlyBlowCallsCount(PlayerStep(m, f.info, f.p, n, mine, bosses).calls);
      OthersTargeted(landings, fighters);
      PlayersAccount(m, fighters[1..], n, Others(landings, f.info.pid), bosses);
      CallsOfOthers(m, fighters[1..], n, landings, bosses, f.info.pid);
      BlownKeysConcat(PlayerStep(m, f.info, f.p, n, mine, bosses).calls,
                      PlayerCalls(m, fighters[1..], n, landings, bosses));
      MineAndOthers(landings, f.info.pid);
    }
  }

  lemma NoOneToLandOn(landings: seq<Landing>)
    requires landings != []
    ensures !Targeted(landings, [])
  {
    var l := landings[0];
  }

  lemma Nothing()
    ensures KeysOf([]) == multiset{} && BlownKeys([]) == multiset{}
  {
  }

  // Whom a landing falls on --------------------------------------------------------------------

  lemma {:induction false} FirstIsIn(infos: seq<PlayerInfo>) returns (k: nat)
    requires infos != []
    ensures First(infos).Some? && k < |infos| && infos[k] == First(infos).value
    decreases |infos|
  {
    k := |infos| - 1;
    if |infos| > 1 {
      var rest := infos[..k];
      var j := FirstIsIn(rest);
      if !Sooner(infos[k], First(rest).value) { k := j; }
    }
  }

  lemma {:induction false} LessTransitive(a: string, b: string, c: string)
    requires Less(a, b) && Less(b, c)
    ensures Less(a, c)
    decreases |a|
  {
    if a != [] && a[0] == b[0] && b[0] == c[0] { LessTransitive(a[1..], b[1..], c[1..]); }
  }

  lemma {:induction false} LessIrreflexive(a: string)
    ensures !Less(a, a)
    decreases |a|
  {
    if a != [] { LessIrreflexive(a[1..]); }
  }

  lemma SoonerTransitive(a: PlayerInfo, b: PlayerInfo, c: PlayerInfo)
    requires Sooner(a, b) && Sooner(b, c)
    ensures Sooner(a, c)
  {
    if a.joinMs == b.joinMs == c.joinMs { LessTransitive(a.pid, b.pid, c.pid); }
  }

  /** The first player is in the fight, and no one there joined sooner. */
  lemma {:induction false} FirstIsEarliest(infos: seq<PlayerInfo>, k: nat)
    requires k < |infos|
    ensures First(infos).Some? && First(infos).value in infos && !Sooner(infos[k], First(infos).value)
    decreases |infos|
  {
    hide Less;
    var last := infos[|infos| - 1];
    LessIrreflexive(last.pid);
    if |infos| > 1 {
      var rest := infos[..|infos| - 1];
      FirstIsEarliest(rest, if k < |rest| then k else 0);
      var best := First(rest).value;
      if Sooner(last, best) && k < |rest| && Sooner(infos[k], last) { SoonerTransitive(infos[k], last, best); }
    }
  }

  /** An attack due at a step while there are players lands exactly once, on its
      announced target if it's one of them, else on the first; with no players, never. */
  lemma AttackLandsOnce(nid: string, a: Attack, n: int, infos: seq<PlayerInfo>, roll: Roll)
    ensures var ls := AttackLands(nid, a, n, FirstPid(infos), Present(infos), roll);
      var b := Announced(a, n, FirstPid(infos), roll(n, nid, a.n));
      && (|ls| == if Lands(b, n) && infos != [] then 1 else 0)
      && (ls != [] ==>
        && ls[0].incoming == Incoming(nid, a.n, BlowOf(b))
        && IsPlayer(ls[0].target, infos)
        && Some(ls[0].target)
          == (if b.target.Some? && b.target.value in Present(infos) then b.target else FirstPid(infos)))
  {
    hide BlowOf, First;
    if infos == [] {
      NoFirst();
    } else {
      var k := FirstIsIn(infos);
      assert infos[k].pid in Present(infos);
    }
  }

  ghost predicate IsPlayer(pid: string, infos: seq<PlayerInfo>) {
    exists j :: 0 <= j < |infos| && infos[j].pid == pid
  }

  ghost predicate OnPlayers(landings: seq<Landing>, infos: seq<PlayerInfo>) {
    forall i :: 0 <= i < |landings| ==> IsPlayer(landings[i].target, infos)
  }

  lemma OnPlayersConcat(a: seq<Landing>, b: seq<Landing>, infos: seq<PlayerInfo>)
    requires OnPlayers(a, infos) && OnPlayers(b, infos)
    ensures OnPlayers(a + b, infos)
  {
    forall i | 0 <= i < |a + b| ensures IsPlayer((a + b)[i].target, infos) {
      if i < |a| { assert (a + b)[i] == a[i]; } else { assert (a + b)[i] == b[i - |a|]; }
    }
  }

  lemma {:induction false} AttacksLandOnPlayers(nid: string, attacks: seq<Attack>, n: int, infos: seq<PlayerInfo>,
                                                roll: Roll)
    ensures OnPlayers(AttacksLand(nid, attacks, n, FirstPid(infos), Present(infos), roll), infos)
    decreases |attacks|
  {
    hide AttackLands, OnPlayers, FirstPid, Present;
    if attacks == [] {
      NoneOnPlayers(infos);
    } else {
      OneOnPlayers(nid, attacks[0], n, infos, roll);
      AttacksLandOnPlayers(nid, attacks[1..], n, infos, roll);
      OnPlayersConcat(AttackLands(nid, attacks[0], n, FirstPid(infos), Present(infos), roll),
                      AttacksLand(nid, attacks[1..], n, FirstPid(infos), Present(infos), roll), infos);
    }
  }

  lemma NoneOnPlayers(infos: seq<PlayerInfo>)
    ensures OnPlayers([], infos)
  {
  }

  lemma OneOnPlayers(nid: string, a: Attack, n: int, infos: seq<PlayerInfo>, roll: Roll)
    ensures OnPlayers(AttackLands(nid, a, n, FirstPid(infos), Present(infos), roll), infos)
  {
    hide AttackLands, FirstPid, Present, Announced;
    AttackLandsOnce(nid, a, n, infos, roll);
  }

  lemma {:induction false} NpcsLandOnPlayers(npcs: seq<NpcState>, n: int, infos: seq<PlayerInfo>, roll: Roll)
    ensures OnPlayers(NpcsLand(npcs, n, FirstPid(infos), Present(infos), roll), infos)
    decreases |npcs|
  {
    hide AttacksLand, OnPlayers, FirstPid, Present;
    if npcs == [] {
      NoneOnPlayers(infos);
    } else {
      AttacksLandOnPlayers(npcs[0].nid, npcs[0].attacks, n, infos, roll);
      NpcsLandOnPlayers(npcs[1..], n, infos, roll);
      OnPlayersConcat(AttacksLand(npcs[0].nid, npcs[0].attacks, n, FirstPid(infos), Present(infos), roll),
                      NpcsLand(npcs[1..], n, FirstPid(infos), Present(infos), roll), infos);
    }
  }

  lemma {:induction false} BossesBlowNone(npcs: seq<NpcState>)
    ensures BlownKeys(BossCalls(npcs)) == multiset{}
    decreases |npcs|
  {
    if npcs != [] {
      BossesBlowNone(npcs[1..]);
      BlownKeysConcat(Steadies(npcs[0]), BossCalls(npcs[1..]));
      if Steadies(npcs[0]) != [] { assert Steadies(npcs[0])[1..] == []; }
    }
  }

  lemma OnFighters(landings: seq<Landing>, fighters: seq<Fighter>)
    requires OnPlayers(landings, Infos(fighters))
    ensures Targeted(landings, fighters)
  {
    hide Infos;
    var infos := Infos(fighters);
    forall i | 0 <= i < |landings| ensures IsFighter(landings[i].target, fighters) {
      assert IsPlayer(landings[i].target, infos);
      var j :| 0 <= j < |infos| && infos[j].pid == landings[i].target;
      assert fighters[j].info == infos[j];
    }
  }

  /** The blows a step hands on are, each once, the attacks landing in it, with
      whom they fall on (AttackLandsOnce). */
  lemma EveryLandingAccounted(m: Maths, e: Encounter, n: int, roll: Roll)
    requires Distinct(e.fighters)
    ensures BlownKeys(StepCalls(m, e, n, roll)) == KeysOf(LandingsOf(e, n, roll))
  {
    hide PlayerCalls, BossCalls, BlownKeys, KeysOf, NpcsLand, FirstPid, Present, Targeted, OnPlayers, Infos, BossNids,
      Distinct;
    var landings := LandingsOf(e, n, roll);
    NpcsLandOnPlayers(e.npcs, n, Infos(e.fighters), roll);
    OnFighters(landings, e.fighters);
    PlayersAccount(m, e.fighters, n, landings, BossNids(e.npcs));
    BossesBlowNone(e.npcs);
    BlownKeysConcat(PlayerCalls(m, e.fighters, n, landings, BossNids(e.npcs)), BossCalls(e.npcs));
  }
}
