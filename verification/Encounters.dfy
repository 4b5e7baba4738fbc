/** An encounter as its owner keeps it, and what a step, a stall and the rules'
    replies do to it, as functions. The class Owner changes its fields in place
    and is proved to do exactly this. */
module Encounters {
  import opened Basics
  import opened Balance
  import opened Bosses
  import opened Clock
  import opened Fights

  datatype Fighter = Fighter(info: PlayerInfo, p: PlayerState)

  datatype BossInfo = BossInfo(poise: real, rules: Rules, now: BossState)

  datatype NpcState = NpcState(nid: string, attacks: seq<Attack>, boss: Option<BossInfo>)

  /** The direction drawn for an attack announced at a step. */
  type Roll = (int, string, int) -> real

  // Who is first -------------------------------------------------------------------------------

  /** Text in the order of its characters. */
  predicate Less(a: string, b: string) {
    b != [] && (a == [] || a[0] < b[0] || (a[0] == b[0] && Less(a[1..], b[1..])))
  }

  predicate Sooner(a: PlayerInfo, b: PlayerInfo) {
    a.joinMs < b.joinMs || (a.joinMs == b.joinMs && Less(a.pid, b.pid))
  }

  /** The player who joined first, by name among those who joined at once. */
  function First(infos: seq<PlayerInfo>): Option<PlayerInfo> {
    if infos == [] then None
    else
      var best := First(infos[..|infos| - 1]);
      var last := infos[|infos| - 1];
      if best == None || Sooner(last, best.value) then Some(last) else best
  }

  lemma FirstOfMore(infos: seq<PlayerInfo>, info: PlayerInfo)
    ensures First(infos + [info]) ==
      if First(infos) == None || Sooner(info, First(infos).value) then Some(info) else First(infos)
  {
    assert (infos + [info])[..|infos|] == infos;
  }

  lemma NoFirst()
    ensures First([]) == None
  {
  }

  function FirstPid(infos: seq<PlayerInfo>): Option<string> {
    if First(infos).Some? then Some(First(infos).value.pid) else None
  }

  function Present(infos: seq<PlayerInfo>): set<string> {
    set i | 0 <= i < |infos| :: infos[i].pid
  }

  // Blows landing ------------------------------------------------------------------------------

  /** A blow on its way, to a player. */
  datatype Landing = Landing(target: string, incoming: Incoming)

  /** What an attack lands at a step, if it's due and there's someone to land on. */
  function AttackLands(nid: string, a: Attack, n: int, first: Option<string>, present: set<string>,
                       roll: Roll): seq<Landing> {
    var b := Announced(a, n, first, roll(n, nid, a.n));
    var who := Falls(b, first, present);
    if Lands(b, n) && who.Some? then [Landing(who.value, Incoming(nid, a.n, BlowOf(b)))] else []
  }

  function AttacksLand(nid: string, attacks: seq<Attack>, n: int, first: Option<string>, present: set<string>,
                       roll: Roll): seq<Landing> {
    if attacks == [] then []
    else AttackLands(nid, attacks[0], n, first, present, roll) + AttacksLand(nid, attacks[1..], n, first, present, roll)
  }

  function NpcsLand(npcs: seq<NpcState>, n: int, first: Option<string>, present: set<string>,
                    roll: Roll): seq<Landing> {
    if npcs == [] then []
    else
      AttacksLand(npcs[0].nid, npcs[0].attacks, n, first, present, roll) + NpcsLand(npcs[1..], n, first, present, roll)
  }

  function AttacksNext(nid: string, attacks: seq<Attack>, n: int, first: Option<string>, roll: Roll): (r: seq<Attack>)
    ensures |r| == |attacks|
    ensures forall i :: 0 <= i < |r| ==> r[i] == AttackNext(attacks[i], n, first, roll(n, nid, attacks[i].n))
  {
    if attacks == [] then []
    else [AttackNext(attacks[0], n, first, roll(n, nid, attacks[0].n))] + AttacksNext(nid, attacks[1..], n, first, roll)
  }

  /** The blows on their way to one player, in order. */
  function Mine(landings: seq<Landing>, pid: string): seq<Incoming> {
    if landings == [] then []
    else (if landings[0].target == pid then [landings[0].incoming] else []) + Mine(landings[1..], pid)
  }

  // Players and bosses -------------------------------------------------------------------------

  function PlayerCalls(m: Maths, fighters: seq<Fighter>, n: int, landings: seq<Landing>,
                       bosses: set<string>): seq<Call> {
    if fighters == [] then []
    else
      PlayerStep(m, fighters[0].info, fighters[0].p, n, Mine(landings, fighters[0].info.pid), bosses).calls
      + PlayerCalls(m, fighters[1..], n, landings, bosses)
  }

  function FighterNext(m: Maths, f: Fighter, n: int, landings: seq<Landing>, bosses: set<string>): Fighter {
    f.(p := PlayerStep(m, f.info, f.p, n, Mine(landings, f.info.pid), bosses).p)
  }

  function BossNext(b: Option<BossInfo>): Option<BossInfo> {
    if b == None then None else Some(b.value.(now := Drained(b.value.rules, b.value.now)))
  }

  /** A boss back on its feet is told of. */
  function BossCalls(npcs: seq<NpcState>): seq<Call> {
    if npcs == [] then [] else Steadies(npcs[0]) + BossCalls(npcs[1..])
  }

  function Steadies(npc: NpcState): seq<Call> {
    if npc.boss.Some? && npc.boss.value.now.staggered == 1 then [CallNote(npc.nid, "steadies")] else []
  }

  function BossNids(npcs: seq<NpcState>): set<string> {
    set i | 0 <= i < |npcs| && npcs[i].boss.Some? :: npcs[i].nid
  }

  // A step -------------------------------------------------------------------------------------

  datatype Encounter = Encounter(step: int, fighters: seq<Fighter>, npcs: seq<NpcState>, late: seq<Call>)

  function Infos(fighters: seq<Fighter>): (r: seq<PlayerInfo>)
    ensures |r| == |fighters|
    ensures forall i :: 0 <= i < |r| ==> r[i] == fighters[i].info
  {
    if fighters == [] then [] else [fighters[0].info] + Infos(fighters[1..])
  }

  /** The blows of a step. */
  function LandingsOf(e: Encounter, n: int, roll: Roll): seq<Landing> {
    NpcsLand(e.npcs, n, FirstPid(Infos(e.fighters)), Present(Infos(e.fighters)), roll)
  }

  function NpcNext(npc: NpcState, n: int, first: Option<string>, roll: Roll): NpcState {
    npc.(attacks := AttacksNext(npc.nid, npc.attacks, n, first, roll), boss := BossNext(npc.boss))
  }

  /** What a step hands on: the players' calls in order, then the bosses'. */
  function StepCalls(m: Maths, e: Encounter, n: int, roll: Roll): seq<Call> {
    PlayerCalls(m, e.fighters, n, LandingsOf(e, n, roll), BossNids(e.npcs)) + BossCalls(e.npcs)
  }

  function FightersNext(m: Maths, fighters: seq<Fighter>, n: int, landings: seq<Landing>,
                        bosses: set<string>): (r: seq<Fighter>)
    ensures |r| == |fighters|
    ensures forall i :: 0 <= i < |r| ==> r[i] == FighterNext(m, fighters[i], n, landings, bosses)
  {
    hide FighterNext;
    if fighters == [] then []
    else [FighterNext(m, fighters[0], n, landings, bosses)] + FightersNext(m, fighters[1..], n, landings, bosses)
  }

  function NpcsNext(npcs: seq<NpcState>, n: int, first: Option<string>, roll: Roll): (r: seq<NpcState>)
    ensures |r| == |npcs|
    ensures forall i :: 0 <= i < |r| ==> r[i] == NpcNext(npcs[i], n, first, roll)
  {
    if npcs == [] then [] else [NpcNext(npcs[0], n, first, roll)] + NpcsNext(npcs[1..], n, first, roll)
  }

  function EncounterNext(m: Maths, e: Encounter, n: int, roll: Roll): Encounter {
    e.(step := n,
       fighters := FightersNext(m, e.fighters, n, LandingsOf(e, n, roll), BossNids(e.npcs)),
       npcs := NpcsNext(e.npcs, n, FirstPid(Infos(e.fighters)), roll))
  }

  // A stall, a reel, a push back -----------------------------------------------------------------

  function SkippedAll(attacks: seq<Attack>, target: int): (r: seq<Attack>)
    ensures |r| == |attacks|
    ensures forall i :: 0 <= i < |r| ==> r[i] == Skipped(attacks[i], target)
  {
    if attacks == [] then [] else [Skipped(attacks[0], target)] + SkippedAll(attacks[1..], target)
  }

  function NpcsSkipped(npcs: seq<NpcState>, target: int): (r: seq<NpcState>)
    ensures |r| == |npcs|
    ensures forall i :: 0 <= i < |r| ==> r[i] == npcs[i].(attacks := SkippedAll(npcs[i].attacks, target))
  {
    if npcs == [] then []
    else [npcs[0].(attacks := SkippedAll(npcs[0].attacks, target))] + NpcsSkipped(npcs[1..], target)
  }

  function EncounterSkipped(e: Encounter, target: int): Encounter {
    e.(step := target, npcs := NpcsSkipped(e.npcs, target))
  }

  function HeldAll(attacks: seq<Attack>, end: int): (r: seq<Attack>)
    ensures |r| == |attacks|
    ensures forall i :: 0 <= i < |r| ==> r[i] == HeldTo(attacks[i], end)
  {
    if attacks == [] then [] else [HeldTo(attacks[0], end)] + HeldAll(attacks[1..], end)
  }

  function PushedAll(attacks: seq<Attack>, more: int): (r: seq<Attack>)
    ensures |r| == |attacks|
    ensures forall i :: 0 <= i < |r| ==> r[i] == PushedBack(attacks[i], more)
  {
    if attacks == [] then [] else [PushedBack(attacks[0], more)] + PushedAll(attacks[1..], more)
  }

  /** A boss's meter filled by an amount at a step: if that makes it reel, its
      attacks due meanwhile wait for the end. */
  function NpcFilled(npc: NpcState, amount: real, step: int): NpcState {
    if npc.boss == None then npc
    else
      var b := npc.boss.value;
      var after := FilledBy(b.poise, b.rules, b.now, amount);
      npc.(boss := Some(b.(now := after)),
           attacks := if Reels(b.poise, b.now, amount) then HeldAll(npc.attacks, step + after.staggered)
             else npc.attacks)
  }

  predicate NpcReels(npc: NpcState, amount: real) {
    npc.boss.Some? && Reels(npc.boss.value.poise, npc.boss.value.now, amount)
  }

  // The rules' replies ---------------------------------------------------------------------------

  /** The rules' reply to a strike: no such target now, one killed, how long an NPC's
      attacks are pushed back, and whether the strike was by damaging gear. */
  datatype StrikeReply = StrikeReply(gone: bool, killed: bool, staggerMs: real, damages: bool, kick: real)

  /** Where an NPC is among them. */
  function IndexOf(npcs: seq<NpcState>, nid: string): (k: Option<nat>)
    ensures k.Some? ==>
      k.value < |npcs| && npcs[k.value].nid == nid && forall i :: 0 <= i < k.value ==> npcs[i].nid != nid
    ensures k == None ==> forall i :: 0 <= i < |npcs| ==> npcs[i].nid != nid
  {
    if npcs == [] then None
    else if npcs[0].nid == nid then Some(0)
    else
      var k := IndexOf(npcs[1..], nid);
      if k == None then None else Some(k.value + 1)
  }

  function PlayerIndex(fighters: seq<Fighter>, pid: string): (k: Option<nat>)
    ensures k.Some? ==>
      && k.value < |fighters| && fighters[k.value].info.pid == pid
      && forall i :: 0 <= i < k.value ==> fighters[i].info.pid != pid
    ensures k == None ==> forall i :: 0 <= i < |fighters| ==> fighters[i].info.pid != pid
  {
    if fighters == [] then None
    else if fighters[0].info.pid == pid then Some(0)
    else
      var k := PlayerIndex(fighters[1..], pid);
      if k == None then None else Some(k.value + 1)
  }

  /** An NPC struck: pushed back, then a boss's meter filled. */
  function NpcStruck(npc: NpcState, reply: StrikeReply, step: int): NpcState {
    var pushed := if reply.staggerMs != 0.0 then npc.(attacks := PushedAll(npc.attacks, Steps(reply.staggerMs)))
      else npc;
    if reply.damages then NpcFilled(pushed, reply.kick * 10.0, step) else pushed
  }

  function NpcPoised(npc: NpcState, step: int): NpcState {
    if npc.boss == None then npc else NpcFilled(npc, npc.boss.value.rules.perfectBlockPoise, step)
  }

  // Joining and leaving --------------------------------------------------------------------------

  /** What the world says of an NPC's attack. */
  datatype AttackSpec = AttackSpec(info: AttackInfo, period: real, warn: real)

  /** Its attacks as it joins at a step, numbered from 1. */
  function JoiningAttacks(specs: seq<AttackSpec>, join: int, from: nat): (r: seq<Attack>)
    ensures |r| == |specs|
    ensures forall i :: 0 <= i < |r| ==>
      r[i] == Joined(from + i + 1, specs[i].info, Steps(specs[i].period), Steps(specs[i].warn), join)
  {
    if specs == [] then []
    else
      [Joined(from + 1, specs[0].info, Steps(specs[0].period), Steps(specs[0].warn), join)]
        + JoiningAttacks(specs[1..], join, from + 1)
  }

  /** An NPC joining: its poise none, or a boss's. */
  function JoiningNpc(nid: string, specs: seq<AttackSpec>, join: int, poise: real, rules: Rules): NpcState {
    NpcState(nid, JoiningAttacks(specs, join, 0),
             if poise != 0.0 then Some(BossInfo(poise, rules, BossState(0.0, 0))) else None)
  }

  /** A player joining, with the strike that started the fight if they made it. */
  function JoiningPlayer(m: Maths, info: PlayerInfo, seed: int, opening: Option<Act>): PlayerState {
    PlayerState(Start(m, info.cfg, seed), Start(m, info.cfg, seed), 0, 0, if opening.Some? then [opening.value] else [],
                None, false, [])
  }

  function Without<T>(s: seq<T>, k: nat): seq<T>
    requires k < |s|
  {
    s[..k] + s[k + 1..]
  }

  /** Every player's volleys at a target stopped. */
  function AllCancelled(fighters: seq<Fighter>, target: Option<string>): (r: seq<Fighter>)
    ensures |r| == |fighters|
    ensures forall i :: 0 <= i < |r| ==> r[i] == FighterCancelled(fighters[i], target)
  {
    if fighters == [] then [] else [FighterCancelled(fighters[0], target)] + AllCancelled(fighters[1..], target)
  }

  function FighterCancelled(f: Fighter, target: Option<string>): Fighter {
    f.(p := f.p.(dot := Cancelled(f.p.dot, target)))
  }

  /** An NPC gone from the fight, and with it every volley at it. */
  function NpcDropped(e: Encounter, nid: string): Encounter {
    var k := IndexOf(e.npcs, nid);
    e.(npcs := if k.Some? then Without(e.npcs, k.value) else e.npcs,
       fighters := AllCancelled(e.fighters, Some("npc:" + nid)))
  }

  function PlayerDropped(e: Encounter, pid: string): Encounter {
    var k := PlayerIndex(e.fighters, pid);
    if k == None then e else e.(fighters := Without(e.fighters, k.value))
  }

  /** The NPC a strike was aimed at, if it's one in the fight. */
  function StruckNpc(npcs: seq<NpcState>, target: string): Option<nat> {
    if |target| >= 4 && target[..4] == "npc:" then IndexOf(npcs, target[4..]) else None
  }

  /** What follows from a player's strike once the rules have carried it out. */
  function EncounterStruck(e: Encounter, pid: string, target: string, reply: StrikeReply): Encounter {
    var p := PlayerIndex(e.fighters, pid);
    var npc := StruckNpc(e.npcs, target);
    if p == None then e
    else if reply.gone then e.(fighters := e.fighters[p.value := FighterCancelled(e.fighters[p.value], Some(target))])
    else if npc == None then e
    else if reply.killed then NpcDropped(e, e.npcs[npc.value].nid)
    else e.(npcs := e.npcs[npc.value := NpcStruck(e.npcs[npc.value], reply, e.step)])
  }

  /** Whether it makes a boss reel, which is told of. */
  predicate StrikeReels(e: Encounter, pid: string, target: string, reply: StrikeReply) {
    var npc := StruckNpc(e.npcs, target);
    PlayerIndex(e.fighters, pid).Some? && !reply.gone && !reply.killed && reply.damages && npc.Some?
    && NpcReels(e.npcs[npc.value], reply.kick * 10.0)
  }

  /** And from a perfect block of an NPC's blow. */
  function EncounterPoised(e: Encounter, nid: string): Encounter {
    var k := IndexOf(e.npcs, nid);
    if k == None then e else e.(npcs := e.npcs[k.value := NpcPoised(e.npcs[k.value], e.step)])
  }

  /** Whether it makes the boss reel, which is told of. */
  predicate PoiseReels(e: Encounter, nid: string) {
    var k := IndexOf(e.npcs, nid);
    k.Some? && e.npcs[k.value].boss.Some?
      && NpcReels(e.npcs[k.value], e.npcs[k.value].boss.value.rules.perfectBlockPoise)
  }

  // Inputs and ticks -----------------------------------------------------------------------------

  /** An input from a player, if they're in the fight. */
  function EncounterInput(m: Maths, e: Encounter, pid: string, msg: Message): Encounter {
    var k := PlayerIndex(e.fighters, pid);
    if k == None then e
    else
      var f := e.fighters[k.value];
      var o := TakeMessage(m, f.info, f.p, msg);
      e.(fighters := e.fighters[k.value := f.(p := o.p)], late := e.late + o.late)
  }

  datatype Ran = Ran(e: Encounter, calls: seq<Call>)

  /** A number of steps, one after another. */
  function RunSteps(m: Maths, e: Encounter, roll: Roll, k: nat): Ran {
    if k == 0 then Ran(e, [])
    else
      var r := RunSteps(m, e, roll, k - 1);
      Ran(EncounterNext(m, r.e, r.e.step + 1, roll), r.calls + StepCalls(m, r.e, r.e.step + 1, roll))
  }

  /** The most steps of one tick; beyond them it jumps. */
  const MAX_CATCH_UP: nat := 120

  function ToRun(e: Encounter, target: int): nat {
    if target <= e.step then 0 else if target - e.step < MAX_CATCH_UP then target - e.step else MAX_CATCH_UP
  }

  /** A tick: what rewinds left to hand on, then the steps up to the target, or
      as many as it may and the rest skipped. */
  function Ticked(m: Maths, e: Encounter, roll: Roll, target: int): Ran {
    var r := RunSteps(m, e.(late := []), roll, ToRun(e, target));
    Ran(if ToRun(e, target) >= MAX_CATCH_UP then EncounterSkipped(r.e, target) else r.e, e.late + r.calls)
  }

}
