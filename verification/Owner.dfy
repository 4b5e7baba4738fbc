/** The owner of an encounter: its players and NPCs, changed in place by steps,
    stalls, inputs and the rules' replies. Each method is proved to do what
    Encounters says as a function. */
module Owners {
  import opened Basics
  import opened Balance
  import opened Bosses
  import opened Clock
  import opened Fights
  import opened Players
  import opened Encounters

  class Npc {
    const nid: string
    const boss: Boss?
    var attacks: seq<Attack>

    function Of(): NpcState
      reads this, boss
    {
      NpcState(nid, attacks, if boss == null then None else Some(BossInfo(boss.poise, boss.rules, boss.State())))
    }

    /** An NPC joining at a step. */
    constructor (nid: string, specs: seq<AttackSpec>, join: int, poise: real, rules: Rules)
      ensures Of() == JoiningNpc(nid, specs, join, poise, rules) && this.nid == nid
      ensures boss != null ==> fresh(boss)
    {
      hide Steps, JoiningAttacks;
      this.nid := nid;
      var all := Npc.Attacks(specs, join);
      attacks := all;
      boss := null;
      if poise != 0.0 {
        var b := new Boss(poise, rules);
        boss := b;
      }
    }

    static method Attacks(specs: seq<AttackSpec>, join: int) returns (attacks: seq<Attack>)
      ensures attacks == JoiningAttacks(specs, join, 0)
    {
      hide Steps, JoiningAttacks;
      attacks := [];
      for i := 0 to |specs|
        invariant |attacks| == i
        invariant forall k :: 0 <= k < i ==>
          attacks[k] == Joined(k + 1, specs[k].info, Steps(specs[k].period), Steps(specs[k].warn), join)
      {
        var period := Max(1, Steps(specs[i].period));
        var warn := Steps(specs[i].warn);
        attacks := attacks
          + [Attack(i + 1, specs[i].info, period, if warn < period then warn else period, join + period, None, None)];
      }
    }

    /** A step of the attack clock: blows announced and landing. */
    method RunAttacks(n: int, first: Option<string>, present: set<string>, roll: Roll) returns (landings: seq<Landing>)
      modifies this`attacks
      ensures var was := old(Of());
        Of() == was.(attacks := AttacksNext(was.nid, was.attacks, n, first, roll))
        && landings == AttacksLand(was.nid, was.attacks, n, first, present, roll)
    {
      hide AttackLands, AttackNext, AttacksNext, AttacksLand;
      landings := [];
      ghost var was := attacks;
      ghost var all := AttacksLand(nid, was, n, first, present, roll);
      assert was[0..] == was;
      for i := 0 to |attacks|
        invariant |attacks| == |was| && attacks[i..] == was[i..]
        invariant forall k :: 0 <= k < i ==> attacks[k] == AttackNext(was[k], n, first, roll(n, nid, was[k].n))
        invariant landings + AttacksLand(nid, was[i..], n, first, present, roll) == all
      {
        assert was[i..][1..] == was[i + 1..] && was[i..][0] == attacks[i];
        FirstLands(nid, was[i..], n, first, present, roll);
        var a, more := RunAttack(attacks[i], n, first, present, roll);
        attacks := attacks[i := a];
        landings := landings + more;
      }
      NoneLand(nid, n, first, present, roll);
    }

    method RunAttack(a0: Attack, n: int, first: Option<string>, present: set<string>, roll: Roll)
      returns (a: Attack, landings: seq<Landing>)
      ensures a == AttackNext(a0, n, first, roll(n, nid, a0.n))
      ensures landings == AttackLands(nid, a0, n, first, present, roll)
    {
      a, landings := a0, [];
      if a.angle == None && n >= a.land - a.warn {
        a := a.(target := first, angle := Some(roll(n, nid, a.n)));
      }
      if n >= a.land {
        var target := if a.target.Some? && a.target.value in present then a.target else first;
        if target.Some? {
          var blow := Blow(a.info.kick, if a.angle.Some? then a.angle.value else 0.0, a.info.defend, a.info.stagger,
                           a.info.debuff, false);
          landings := [Landing(target.value, Incoming(nid, a.n, blow))];
        }
        a := a.(land := a.land + a.period, angle := None, target := None);
      }
    }

    /** A step of the boss; told of when it's back on its feet. */
    method RunBoss() returns (calls: seq<Call>)
      modifies boss
      ensures calls == Steadies(old(Of()))
      ensures Of() == old(Of()).(boss := BossNext(old(Of()).boss))
    {
      calls := [];
      if boss != null {
        var was := boss.staggered;
        boss.Step();
        if was != 0 && boss.staggered == 0 {
          calls := [CallNote(nid, "steadies")];
        }
      }
    }

    /** Each attack due by a step put to its next landing past it. */
    method SkipTo(target: int)
      modifies this`attacks
      ensures Of() == old(Of()).(attacks := SkippedAll(old(Of()).attacks, target))
    {
      hide Skipped, SkippedAll, SkipAttack;
      ghost var was := attacks;
      for i := 0 to |attacks|
        invariant |attacks| == |was|
        invariant forall k :: 0 <= k < i ==> attacks[k] == Skipped(was[k], target)
        invariant forall k :: i <= k < |was| ==> attacks[k] == was[k]
      {
        attacks := attacks[i := SkipAttack(attacks[i], target)];
      }
    }

    static function SkipAttack(a: Attack, target: int): (r: Attack)
      ensures r == Skipped(a, target)
    {
      if a.land <= target && a.period > 0 then
        a.(land := a.land + a.period * CeilDiv(target + 1 - a.land, a.period), angle := None, target := None)
      else a
    }

    /** Its boss reels: the attacks due meanwhile wait for the end. */
    method Hold(end: int)
      modifies this`attacks
      ensures attacks == HeldAll(old(attacks), end)
    {
      hide HeldAll;
      ghost var was := attacks;
      for i := 0 to |attacks|
        invariant |attacks| == |was|
        invariant forall k :: 0 <= k < i ==> attacks[k] == HeldTo(was[k], end)
        invariant forall k :: i <= k < |was| ==> attacks[k] == was[k]
      {
        var a := attacks[i];
        if a.land < end {
          a := a.(land := end, angle := None, target := None);
        }
        assert a == HeldTo(was[i], end);
        attacks := attacks[i := a];
      }
    }

    method PushBack(more: int)
      modifies this`attacks
      ensures attacks == PushedAll(old(attacks), more)
    {
      hide PushedAll;
      ghost var was := attacks;
      for i := 0 to |attacks|
        invariant |attacks| == |was|
        invariant forall k :: 0 <= k < i ==> attacks[k] == PushedBack(was[k], more)
        invariant forall k :: i <= k < |was| ==> attacks[k] == was[k]
      {
        var a := attacks[i].(land := attacks[i].land + more);
        assert a == PushedBack(was[i], more);
        attacks := attacks[i := a];
      }
    }

    /** A boss's meter filled by a strike's kick; true if it reels. */
    method StrikeBoss(kick: real, step: int) returns (reels: bool)
      modifies this`attacks, boss
      ensures Of() == NpcFilled(old(Of()), kick * 10.0, step)
      ensures reels == NpcReels(old(Of()), kick * 10.0)
    {
      hide HeldAll;
      reels := false;
      if boss != null {
        reels := boss.Strike(kick);
        if reels {
          Hold(step + boss.staggered);
        }
      }
    }

    /** And by a perfect block of one of its blows. */
    method BlockedPerfectly(step: int) returns (reels: bool)
      modifies this`attacks, boss
      ensures Of() == NpcPoised(old(Of()), step)
      ensures var was := old(Of()); reels == (was.boss.Some? && NpcReels(was, was.boss.value.rules.perfectBlockPoise))
    {
      hide HeldAll;
      reels := false;
      if boss != null {
        reels := boss.PerfectBlock();
        if reels {
          Hold(step + boss.staggered);
        }
      }
    }

    /** What follows a strike the rules carried out: pushed back, then a boss's meter filled. */
    method Struck(reply: StrikeReply, step: int) returns (reels: bool)
      modifies this`attacks, boss
      ensures Of() == NpcStruck(old(Of()), reply, step)
      ensures reels == (reply.damages && NpcReels(old(Of()), reply.kick * 10.0))
    {
      hide Steps, NpcFilled, PushedAll, Reels;
      if reply.staggerMs != 0.0 {
        PushBack(Steps(reply.staggerMs));
      }
      reels := false;
      if reply.damages {
        reels := StrikeBoss(reply.kick, step);
      }
    }
  }
  // The owner ------------------------------------------------------------------------------------

  /** Nothing of one player's is another's. */
  ghost predicate Separate(p: Player, q: Player) {
    p.info.pid != q.info.pid && p != q && p.dot != q.dot && p.dot != q.scratch && p.scratch != q.dot
      && p.scratch != q.scratch
  }

  ghost predicate NpcsSeparate(a: Npc, b: Npc) {
    a.nid != b.nid && a != b && (a.boss != null ==> a.boss != b.boss)
  }

  /** The players stand as these fighters do. */
  ghost predicate PlayersAre(players: seq<Player>, fighters: seq<Fighter>)
    reads players, set p <- players :: p.dot, set p <- players :: p.scratch
  {
    |players| == |fighters|
    && forall i :: 0 <= i < |players| ==> players[i].info == fighters[i].info && players[i].State() == fighters[i].p
  }

  ghost predicate NpcsAre(npcs: seq<Npc>, states: seq<NpcState>)
    reads npcs, set n <- npcs :: n.boss
  {
    |npcs| == |states| && forall i :: 0 <= i < |npcs| ==> npcs[i].Of() == states[i]
  }

  class Owner {
    const m: Maths
    const roll: Roll
    var step: int
    var players: seq<Player>
    var npcs: seq<Npc>
    var late: seq<Call>

    ghost predicate Valid()
      reads `players, `npcs
    {
      && (forall i :: 0 <= i < |players| ==> players[i].Valid() && players[i].m == m)
      && (forall i, j :: 0 <= i < j < |players| ==> Separate(players[i], players[j]))
      && (forall i, j :: 0 <= i < j < |npcs| ==> NpcsSeparate(npcs[i], npcs[j]))
    }

    /** Its state is this. */
    ghost predicate Is(e: Encounter)
      reads this, players, set p <- players :: p.dot, set p <- players :: p.scratch, npcs, set n <- npcs :: n.boss
    {
      step == e.step && late == e.late && PlayersAre(players, e.fighters) && NpcsAre(npcs, e.npcs)
    }

    constructor (m: Maths, roll: Roll)
      ensures Valid() && Is(Encounter(0, [], [], [])) && this.m == m && this.roll == roll
    {
      this.m, this.roll := m, roll;
      step, players, npcs, late := 0, [], [], [];
    }

    // Membership -----------------------------------------------------------------------------

    /** The player who joined first. */
    method FirstPlayer(ghost infos: seq<PlayerInfo>) returns (first: Option<string>)
      requires |infos| == |players| && forall i :: 0 <= i < |players| ==> players[i].info == infos[i]
      ensures first == FirstPid(infos)
    {
      hide Sooner, First;
      var best: Option<PlayerInfo> := None;
      NoFirst();
      for i := 0 to |players|
        invariant best == First(infos[..i])
      {
        FirstOfMore(infos[..i], infos[i]);
        assert infos[..i + 1] == infos[..i] + [infos[i]];
        if best == None || Sooner(players[i].info, best.value) {
          best := Some(players[i].info);
        }
      }
      assert infos[..|infos|] == infos;
      first := if best.Some? then Some(best.value.pid) else None;
    }

    // The clock ------------------------------------------------------------------------------

    /** Each NPC's attacks announced and landing. */
    method LandBlows(n: int, first: Option<string>, present: set<string>, ghost states: seq<NpcState>)
      returns (landings: seq<Landing>)
      requires Valid() && NpcsAre(npcs, states)
      modifies npcs
      ensures landings == NpcsLand(states, n, first, present, roll)
      ensures NpcsAre(npcs, Landed(states, n, first, roll))
    {
      hide NpcsLand, AttacksLand, LandedTo, Landed;
      landings := [];
      assert states[0..] == states;
      NoneLandedYet(npcs, states, n, first, roll);
      for i := 0 to |npcs|
        invariant LandedTo(npcs, states, n, first, roll, i)
        invariant |npcs| == |states|
          && landings + NpcsLand(states[i..], n, first, present, roll) == NpcsLand(states, n, first, present, roll)
      {
        FirstNpcLands(states[i..], n, first, present, roll);
        assert states[i..][1..] == states[i + 1..];
        var more := LandOne(i, n, first, present, states);
        landings := landings + more;
      }
      NoNpcLands(n, first, present, roll);
      AllLanded(npcs, states, n, first, roll);
    }

    method LandOne(i: nat, n: int, first: Option<string>, present: set<string>, ghost states: seq<NpcState>)
      returns (landings: seq<Landing>)
      requires Valid() && LandedTo(npcs, states, n, first, roll, i) && i < |npcs|
      modifies npcs
      ensures LandedTo(npcs, states, n, first, roll, i + 1)
      ensures landings == AttacksLand(states[i].nid, states[i].attacks, n, first, present, roll)
    {
      hide AttacksLand, AttacksNext, Npc.Of;
      landings := npcs[i].RunAttacks(n, first, present, roll);
    }

    /** Every active player's part of the step. */
    method RunPlayers(n: int, landings: seq<Landing>, bosses: set<string>, ghost fighters: seq<Fighter>)
      returns (calls: seq<Call>)
      requires Valid() && PlayersAre(players, fighters)
      modifies players, set p <- players :: p.dot
      ensures calls == PlayerCalls(m, fighters, n, landings, bosses)
      ensures PlayersAre(players, FightersNext(m, fighters, n, landings, bosses))
    {
      hide PlayerCalls, PlayerStep, Mine, Player.State;
      calls := [];
      assert fighters[0..] == fighters;
      for i := 0 to |players|
        invariant forall k :: 0 <= k < i ==> players[k].State() == FighterNext(m, fighters[k], n, landings, bosses).p
        invariant forall k :: i <= k < |players| ==> players[k].State() == fighters[k].p
        invariant calls + PlayerCalls(m, fighters[i..], n, landings, bosses)
          == PlayerCalls(m, fighters, n, landings, bosses)
      {
        FirstPlayerCalls(m, fighters[i..], n, landings, bosses);
        assert fighters[i..][1..] == fighters[i + 1..];
        var p := players[i];
        var more := p.RunStep(n, Mine(landings, p.info.pid), bosses);
        calls := calls + more;
      }
      NoPlayerCalls(m, n, landings, bosses);
    }

    /** Every boss's step. */
    method RunBosses(ghost states: seq<NpcState>) returns (calls: seq<Call>)
      requires Valid() && NpcsAre(npcs, states)
      modifies set n <- npcs :: n.boss
      ensures calls == BossCalls(states)
      ensures NpcsAre(npcs, BossesMoved(states))
    {
      hide BossCalls, Steadies, BossNext;
      calls := [];
      assert states[0..] == states;
      for i := 0 to |npcs|
        invariant forall k :: 0 <= k < i ==> npcs[k].Of() == states[k].(boss := BossNext(states[k].boss))
        invariant forall k :: i <= k < |npcs| ==> npcs[k].Of() == states[k]
        invariant calls + BossCalls(states[i..]) == BossCalls(states)
      {
        FirstBossCalls(states[i..]);
        assert states[i..][1..] == states[i + 1..];
        var more := npcs[i].RunBoss();
        calls := calls + more;
      }
      NoBossCalls();
    }

    /** Who is in the fight: the first player, all of them, and the bosses. */
    method Muster(ghost e: Encounter) returns (first: Option<string>, present: set<string>, bosses: set<string>)
      requires Is(e)
      ensures first == FirstPid(Infos(e.fighters)) && present == Present(Infos(e.fighters))
        && bosses == BossNids(e.npcs)
    {
      hide FirstPid, Present, BossNids, PlayersAre, NpcsAre, Infos;
      InfosOf(players, e.fighters);
      first := FirstPlayer(Infos(e.fighters));
      present := set i | 0 <= i < |players| :: players[i].info.pid;
      SamePids(players, e.fighters);
      bosses := set i | 0 <= i < |npcs| && npcs[i].boss != null :: npcs[i].nid;
      SameBosses(npcs, e.npcs);
    }

    /** One step of the whole encounter (EncounterNext), and the calls it makes (StepCalls). */
    method RunStep(n: int, ghost e: Encounter) returns (calls: seq<Call>)
      requires Valid() && Is(e) && e.step == n
      modifies npcs, players, set p <- players :: p.dot, set b <- npcs :: b.boss
      ensures Valid() && Is(EncounterNext(m, e, n, roll)) && calls == StepCalls(m, e, n, roll)
    {
      hide Valid, NpcsLand, PlayerCalls, BossCalls, FirstPid, Present, BossNids, PlayersAre, NpcsAre, Landed,
        BossesMoved, FightersNext, NpcsNext, Infos;
      var first, present, bosses := Muster(e);
      var landings := LandBlows(n, first, present, e.npcs);
      calls := RunPlayers(n, landings, bosses, e.fighters);
      var more := RunBosses(Landed(e.npcs, n, first, roll));
      calls := calls + more;
      SameBossCalls(e.npcs, n, first, roll);
      LandedAndMoved(e.npcs, n, first, roll);
    }

    /** The clock put forward to a step, and every attack overdue then with it. */
    method SkipTo(target: int, ghost e: Encounter)
      requires Valid() && Is(e)
      modifies this`step, npcs
      ensures Valid() && Is(EncounterSkipped(e, target))
    {
      hide PlayersAre, NpcsAre;
      step := target;
      SkipNpcs(target, e.npcs);
    }

    method SkipNpcs(target: int, ghost states: seq<NpcState>)
      requires Valid() && NpcsAre(npcs, states)
      modifies npcs
      ensures NpcsAre(npcs, NpcsSkipped(states, target))
    {
      hide Npc.Of, SkippedAll, NpcsSkipped;
      for i := 0 to |npcs|
        invariant forall k :: 0 <= k < i ==>
          npcs[k].Of() == states[k].(attacks := SkippedAll(states[k].attacks, target))
        invariant forall k :: i <= k < |npcs| ==> npcs[k].Of() == states[k]
      {
        npcs[i].SkipTo(target);
      }
    }

    method NextStep(ghost e: Encounter) returns (calls: seq<Call>)
      requires Valid() && Is(e)
      modifies this`step, npcs, players, set p <- players :: p.dot, set b <- npcs :: b.boss
      ensures Valid() && Is(EncounterNext(m, e, e.step + 1, roll)) && calls == StepCalls(m, e, e.step + 1, roll)
      ensures late == old(late) && step == old(step) + 1
    {
      hide PlayersAre, NpcsAre, StepCalls, EncounterNext;
      step := step + 1;
      StepUnread(m, e, step, roll);
      calls := RunStep(step, e.(step := step));
    }

    /** A tick's steps up to the target: at most MAX_CATCH_UP of them, and then a jump. */
    method Tick(target: int, ghost e: Encounter) returns (calls: seq<Call>)
      requires Valid() && Is(e)
      modifies this`step, this`late, npcs, players, set p <- players :: p.dot, set b <- npcs :: b.boss
      ensures Valid() && Is(Ticked(m, e, roll, target).e) && calls == Ticked(m, e, roll, target).calls
    {
      hide PlayersAre, NpcsAre, RunSteps, EncounterSkipped, Valid;
      calls := late;
      late := [];
      var ran, more := CatchUp(target, e.(late := []));
      calls := calls + more;
      if ran >= MAX_CATCH_UP {
        SkipTo(target, RunSteps(m, e.(late := []), roll, ran).e);
      }
    }

    method CatchUp(target: int, ghost e: Encounter) returns (ran: nat, calls: seq<Call>)
      requires Valid() && Is(e)
      modifies this`step, npcs, players, set p <- players :: p.dot, set b <- npcs :: b.boss
      ensures ran == ToRun(e, target) && Valid()
      ensures Is(RunSteps(m, e, roll, ran).e) && calls == RunSteps(m, e, roll, ran).calls
    {
      hide PlayersAre, NpcsAre, RunSteps, EncounterNext, StepCalls, Valid;
      calls := [];
      ran := 0;
      NoSteps(m, e, roll);
      while step < target && ran < MAX_CATCH_UP
        invariant ran <= ToRun(e, target) && step == e.step + ran
        invariant Valid() && Is(RunSteps(m, e, roll, ran).e)
        invariant calls == RunSteps(m, e, roll, ran).calls
      {
        OneMoreStep(m, e, roll, ran + 1);
        var more := NextStep(RunSteps(m, e, roll, ran).e);
        ran := ran + 1;
        calls := calls + more;
      }
    }

    // Inputs ---------------------------------------------------------------------------------

    method FindPlayer(pid: string, ghost fighters: seq<Fighter>) returns (k: Option<nat>)
      requires PlayersAre(players, fighters)
      ensures k == PlayerIndex(fighters, pid)
    {
      hide Player.State, PlayerIndex;
      for i := 0 to |players|
        invariant forall j :: 0 <= j < i ==> players[j].info.pid != pid
      {
        if players[i].info.pid == pid {
          return Some(i);
        }
      }
      return None;
    }

    method FindNpc(nid: string, ghost states: seq<NpcState>) returns (k: Option<nat>)
      requires NpcsAre(npcs, states)
      ensures k == IndexOf(states, nid)
    {
      hide IndexOf;
      for i := 0 to |npcs|
        invariant forall j :: 0 <= j < i ==> npcs[j].nid != nid
      {
        assert npcs[i].Of() == states[i];
        if npcs[i].nid == nid {
          return Some(i);
        }
      }
      return None;
    }

    /** A player's input. */
    method Input(pid: string, msg: Message, ghost e: Encounter)
      requires Valid() && Is(e)
      modifies this`late, players, set p <- players :: p.dot, set p <- players :: p.scratch
      ensures Valid() && Is(EncounterInput(m, e, pid, msg))
    {
      hide PlayerIndex, TakeMessage, PlayersAre, NpcsAre;
      var k := FindPlayer(pid, e.fighters);
      if k.Some? {
        var more := PlayerInput(k.value, msg, e.fighters);
        late := late + more;
      }
    }

    method PlayerInput(k: nat, msg: Message, ghost fighters: seq<Fighter>) returns (more: seq<Call>)
      requires Valid() && PlayersAre(players, fighters) && k < |fighters|
      modifies players, set p <- players :: p.dot, set p <- players :: p.scratch
      ensures PlayersAre(players,
                         fighters[k := fighters[k].(p := TakeMessage(m, fighters[k].info, fighters[k].p, msg).p)])
      ensures more == TakeMessage(m, fighters[k].info, fighters[k].p, msg).late
    {
      hide TakeMessage, Player.State;
      more := players[k].Input(msg);
    }

    // Joining and leaving --------------------------------------------------------------------

    method AddPlayer(info: PlayerInfo, seed: int, opening: Option<Act>, ghost e: Encounter)
      requires Valid() && Is(e) && PlayerIndex(e.fighters, info.pid) == None
      modifies this`players
      ensures Valid()
      ensures Is(e.(fighters := e.fighters + [Fighter(info, JoiningPlayer(m, info, seed, opening))]))
    {
      hide Start, NpcsAre, Player.State, PlayerIndex;
      var p := new Player(m, info, seed, opening);
      players := players + [p];
    }

    method AddNpc(nid: string, specs: seq<AttackSpec>, join: int, poise: real, rules: Rules, ghost e: Encounter)
      requires Valid() && Is(e) && IndexOf(e.npcs, nid) == None
      modifies this`npcs
      ensures Valid()
      ensures Is(e.(npcs := e.npcs + [JoiningNpc(nid, specs, join, poise, rules)]))
    {
      hide PlayersAre, JoiningNpc, Npc.Of;
      SameNids(npcs, e.npcs);
      var npc := new Npc(nid, specs, join, poise, rules);
      npcs := npcs + [npc];
    }

    /** A player gone: dead, fled or left. */
    method DropPlayer(pid: string, ghost e: Encounter)
      requires Valid() && Is(e)
      modifies this`players
      ensures Valid() && Is(PlayerDropped(e, pid))
    {
      hide NpcsAre, PlayersAre, PlayerIndex, Valid, Without;
      var k := FindPlayer(pid, e.fighters);
      if k.Some? {
        RemovePlayer(k.value, e.fighters);
      }
    }

    method RemovePlayer(k: nat, ghost fighters: seq<Fighter>)
      requires Valid() && PlayersAre(players, fighters) && k < |fighters|
      modifies this`players
      ensures Valid() && PlayersAre(players, Without(fighters, k))
    {
      hide Player.State;
      players := players[..k] + players[k + 1..];
    }

    /** An NPC gone, and every player's volleys at it stopped. */
    method DropNpc(nid: string, ghost e: Encounter)
      requires Valid() && Is(e)
      modifies this`npcs, set p <- players :: p.dot
      ensures Valid() && Is(NpcDropped(e, nid))
    {
      hide PlayersAre, NpcsAre, IndexOf, AllCancelled, Valid, Without;
      var k := FindNpc(nid, e.npcs);
      if k.Some? {
        RemoveNpc(k.value, e.npcs);
      }
      CancelAll(Some("npc:" + nid), e.fighters);
    }

    method RemoveNpc(k: nat, ghost states: seq<NpcState>)
      requires Valid() && NpcsAre(npcs, states) && k < |states|
      modifies this`npcs
      ensures Valid() && NpcsAre(npcs, Without(states, k))
      ensures forall n :: n in npcs ==> n in old(npcs)
    {
      hide Npc.Of;
      npcs := npcs[..k] + npcs[k + 1..];
    }

    method CancelAll(target: Option<string>, ghost fighters: seq<Fighter>)
      requires Valid() && PlayersAre(players, fighters)
      modifies set p <- players :: p.dot
      ensures PlayersAre(players, AllCancelled(fighters, target))
    {
      hide AllCancelled, Cancelled, Player.State;
      for i := 0 to |players|
        invariant forall k :: 0 <= k < i ==> players[k].State() == FighterCancelled(fighters[k], target).p
        invariant forall k :: i <= k < |players| ==> players[k].State() == fighters[k].p
      {
        players[i].StopVolleys(target);
      }
    }

    // The rules' replies ---------------------------------------------------------------------

    /** What follows from a player's strike once the rules have carried it out. */
    method AfterStrike(pid: string, target: string, reply: StrikeReply, ghost e: Encounter) returns (reels: bool)
      requires Valid() && Is(e)
      modifies this`npcs, npcs, set b <- npcs :: b.boss, set p <- players :: p.dot
      ensures Valid() && Is(EncounterStruck(e, pid, target, reply)) && reels == StrikeReels(e, pid, target, reply)
    {
      hide PlayersAre, NpcsAre, PlayerIndex, IndexOf, NpcDropped, NpcStruck, NpcReels, Valid;
      reels := false;
      var p := FindPlayer(pid, e.fighters);
      if p == None {
        return;
      }
      if reply.gone {
        StopOne(p.value, Some(target), e.fighters);
        return;
      }
      var npc: Option<nat> := None;
      if |target| >= 4 && target[..4] == "npc:" {
        npc := FindNpc(target[4..], e.npcs);
      }
      if npc.Some? {
        if reply.killed {
          DropNpc(target[4..], e);
        } else {
          reels := StrikeNpc(npc.value, reply, e.npcs);
        }
      }
    }

    method StopOne(k: nat, target: Option<string>, ghost fighters: seq<Fighter>)
      requires Valid() && PlayersAre(players, fighters) && k < |fighters|
      modifies set p <- players :: p.dot
      ensures PlayersAre(players, fighters[k := FighterCancelled(fighters[k], target)])
    {
      hide Cancelled, Player.State;
      players[k].StopVolleys(target);
    }

    method StrikeNpc(k: nat, reply: StrikeReply, ghost states: seq<NpcState>) returns (reels: bool)
      requires Valid() && NpcsAre(npcs, states) && k < |states|
      modifies npcs, set b <- npcs :: b.boss
      ensures NpcsAre(npcs, states[k := NpcStruck(states[k], reply, step)])
      ensures reels == (reply.damages && NpcReels(states[k], reply.kick * 10.0))
    {
      hide NpcStruck, NpcReels, Npc.Of;
      reels := npcs[k].Struck(reply, step);
    }

    /** And from a perfect block of an NPC's blow. */
    method AfterPerfectBlock(nid: string, ghost e: Encounter) returns (reels: bool)
      requires Valid() && Is(e)
      modifies npcs, set b <- npcs :: b.boss
      ensures Valid() && Is(EncounterPoised(e, nid)) && reels == PoiseReels(e, nid)
    {
      hide PlayersAre, NpcPoised, IndexOf, Npc.Of;
      reels := false;
      var k := FindNpc(nid, e.npcs);
      if k.Some? {
        reels := npcs[k.value].BlockedPerfectly(step);
      }
    }
  }

  lemma SameNids(npcs: seq<Npc>, states: seq<NpcState>)
    requires NpcsAre(npcs, states)
    ensures |npcs| == |states| && forall i :: 0 <= i < |npcs| ==> npcs[i].nid == states[i].nid
  {
    forall i | 0 <= i < |npcs| ensures npcs[i].nid == states[i].nid { assert npcs[i].Of() == states[i]; }
  }

  lemma NoSteps(m: Maths, e: Encounter, roll: Roll)
    ensures RunSteps(m, e, roll, 0) == Ran(e, [])
  {
  }

  lemma OneMoreStep(m: Maths, e: Encounter, roll: Roll, k: nat)
    requires k > 0
    ensures var r := RunSteps(m, e, roll, k - 1);
      RunSteps(m, e, roll, k)
        == Ran(EncounterNext(m, r.e, r.e.step + 1, roll), r.calls + StepCalls(m, r.e, r.e.step + 1, roll))
  {
    hide EncounterNext, StepCalls;
  }

  /** The step an encounter is at doesn't matter to what its next one does. */
  lemma StepUnread(m: Maths, e: Encounter, n: int, roll: Roll)
    ensures EncounterNext(m, e.(step := n), n, roll) == EncounterNext(m, e, n, roll)
    ensures StepCalls(m, e.(step := n), n, roll) == StepCalls(m, e, n, roll)
  {
    hide FightersNext, NpcsNext, PlayerCalls, NpcsLand;
  }

  function BossesMoved(npcs: seq<NpcState>): (r: seq<NpcState>)
    ensures |r| == |npcs|
    ensures forall i :: 0 <= i < |r| ==> r[i] == npcs[i].(boss := BossNext(npcs[i].boss))
  {
    if npcs == [] then [] else [npcs[0].(boss := BossNext(npcs[0].boss))] + BossesMoved(npcs[1..])
  }

  lemma LandedAndMoved(npcs: seq<NpcState>, n: int, first: Option<string>, roll: Roll)
    ensures BossesMoved(Landed(npcs, n, first, roll)) == NpcsNext(npcs, n, first, roll)
  {
    hide BossNext, AttacksNext;
  }

  lemma InfosOf(players: seq<Player>, fighters: seq<Fighter>)
    requires PlayersAre(players, fighters)
    ensures |players| == |Infos(fighters)| && forall i :: 0 <= i < |players| ==> players[i].info == Infos(fighters)[i]
  {
    hide Player.State;
  }

  /** The NPCs once a step's blows have landed. */
  function Landed(npcs: seq<NpcState>, n: int, first: Option<string>, roll: Roll): (r: seq<NpcState>)
    ensures |r| == |npcs|
    ensures forall i :: 0 <= i < |r| ==>
      r[i] == npcs[i].(attacks := AttacksNext(npcs[i].nid, npcs[i].attacks, n, first, roll))
  {
    if npcs == [] then []
    else
      [npcs[0].(attacks := AttacksNext(npcs[0].nid, npcs[0].attacks, n, first, roll))]
        + Landed(npcs[1..], n, first, roll)
  }

  lemma {:induction false} SameBossCalls(npcs: seq<NpcState>, n: int, first: Option<string>, roll: Roll)
    ensures BossCalls(Landed(npcs, n, first, roll)) == BossCalls(npcs)
    decreases |npcs|
  {
    if npcs != [] { SameBossCalls(npcs[1..], n, first, roll); }
  }

  lemma SamePids(players: seq<Player>, fighters: seq<Fighter>)
    requires PlayersAre(players, fighters)
    ensures (set i | 0 <= i < |players| :: players[i].info.pid) == Present(Infos(fighters))
  {
    hide Player.State;
    var infos := Infos(fighters);
    assert forall i :: 0 <= i < |players| ==> players[i].info == infos[i];
  }

  lemma SameBosses(npcs: seq<Npc>, states: seq<NpcState>)
    requires NpcsAre(npcs, states)
    ensures (set i | 0 <= i < |npcs| && npcs[i].boss != null :: npcs[i].nid) == BossNids(states)
  {
    assert forall i :: 0 <= i < |npcs| ==> npcs[i].Of() == states[i];
  }

  /** The blows of the first i NPCs have landed, and no others. */
  ghost predicate LandedTo(npcs: seq<Npc>, states: seq<NpcState>, n: int, first: Option<string>, roll: Roll, i: nat)
    reads npcs, set n <- npcs :: n.boss
  {
    |npcs| == |states| && forall k :: 0 <= k < |npcs| ==>
      npcs[k].Of() == if k < i then states[k].(attacks := AttacksNext(states[k].nid, states[k].attacks, n, first, roll))
        else states[k]
  }

  lemma NoneLandedYet(npcs: seq<Npc>, states: seq<NpcState>, n: int, first: Option<string>, roll: Roll)
    requires NpcsAre(npcs, states)
    ensures LandedTo(npcs, states, n, first, roll, 0)
  {
    hide Npc.Of, AttacksNext;
  }

  lemma AllLanded(npcs: seq<Npc>, states: seq<NpcState>, n: int, first: Option<string>, roll: Roll)
    requires LandedTo(npcs, states, n, first, roll, |npcs|)
    ensures NpcsAre(npcs, Landed(states, n, first, roll))
  {
    hide Npc.Of, AttacksNext;
  }

  lemma FirstNpcLands(npcs: seq<NpcState>, n: int, first: Option<string>, present: set<string>, roll: Roll)
    requires npcs != []
    ensures NpcsLand(npcs, n, first, present, roll)
      == AttacksLand(npcs[0].nid, npcs[0].attacks, n, first, present, roll)
        + NpcsLand(npcs[1..], n, first, present, roll)
  {
  }

  lemma NoNpcLands(n: int, first: Option<string>, present: set<string>, roll: Roll)
    ensures NpcsLand([], n, first, present, roll) == []
  {
  }

  lemma FirstPlayerCalls(m: Maths, fighters: seq<Fighter>, n: int, landings: seq<Landing>, bosses: set<string>)
    requires fighters != []
    ensures PlayerCalls(m, fighters, n, landings, bosses)
      == PlayerStep(m, fighters[0].info, fighters[0].p, n, Mine(landings, fighters[0].info.pid), bosses).calls
         + PlayerCalls(m, fighters[1..], n, landings, bosses)
  {
    hide PlayerStep, Mine;
  }

  lemma NoPlayerCalls(m: Maths, n: int, landings: seq<Landing>, bosses: set<string>)
    ensures PlayerCalls(m, [], n, landings, bosses) == []
  {
  }

  lemma FirstBossCalls(npcs: seq<NpcState>)
    requires npcs != []
    ensures BossCalls(npcs) == Steadies(npcs[0]) + BossCalls(npcs[1..])
  {
  }

  lemma NoBossCalls()
    ensures BossCalls([]) == []
  {
  }

  lemma FirstLands(nid: string, attacks: seq<Attack>, n: int, first: Option<string>, present: set<string>, roll: Roll)
    requires attacks != []
    ensures AttacksLand(nid, attacks, n, first, present, roll)
      == AttackLands(nid, attacks[0], n, first, present, roll) + AttacksLand(nid, attacks[1..], n, first, present, roll)
  {
  }

  lemma NoneLand(nid: string, n: int, first: Option<string>, present: set<string>, roll: Roll)
    ensures AttacksLand(nid, [], n, first, present, roll) == []
  {
  }
}
