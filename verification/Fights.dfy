/** What the owner of an encounter keeps of a player, and what a step, an input
    and a rewind do to it, as functions. The class Player changes its fields in
    place and is proved to do exactly this. */
module Fights {
  import opened Basics
  import opened Balance

  /** How many steps a player's history keeps: 200 ms. */
  const REWIND_STEPS: nat := 12

  /** What doesn't change about a player in an encounter. */
  datatype PlayerInfo = PlayerInfo(pid: string, joinMs: int, join: int, berserk: bool, cfg: Config)

  datatype Refusal = OfStrike(slot: int, why: Reason) | OfAct(act: Act, why: Reason) | OfFlee | NoTarget(slot: int)

  /** A consequence for the rules to carry out. */
  datatype Call =
    | CallStrike(pid: string, hit: Event)
    | CallBlow(nid: string, attack: int, pid: string, result: Result)
    | CallPoise(nid: string)
    | CallRefused(pid: string, refusal: Refusal)
    | CallPassive(pid: string, passive: string)
    | CallFlee(pid: string, direction: string)
    | CallNote(nid: string, note: string)

  /** A blow on its way to a player: whose, the number of its attack, and the blow. */
  datatype Incoming = Incoming(nid: string, attack: int, blow: Blow)

  /** A step of a player's history: the step, the snapshot before it, what went
      into it and what it reported. */
  datatype Entry = Entry(step: int, snap: Snapshot, keys: Keys, acts: seq<Act>, blows: seq<Blow>, report: seq<Call>)

  datatype PlayerState = PlayerState(dot: DotState, scratch: DotState, keys: Keys, seqNo: int, acts: seq<Act>,
                                     flee: Option<string>, sealed: bool, history: seq<Entry>)

  // Reports ----------------------------------------------------------------------------------

  /** A step's consequences, and whether Berserk Seal has sealed its slot by then. */
  datatype Report = Report(calls: seq<Call>, sealed: bool)

  function CallsOf(info: PlayerInfo, bosses: set<string>, sealed: bool, e: Event, mine: seq<Incoming>): Report {
    match e
    case Struck(_, _, _, _, _) => Report([CallStrike(info.pid, e)], sealed)
    case Blown(result, _) =>
      if mine == [] then Report([], sealed)
      else
        var b := mine[0];
        Report([CallBlow(b.nid, b.attack, info.pid, result)]
               + (if result == PerfectBlock && b.nid in bosses then [CallPoise(b.nid)] else []), sealed)
    case StrikeRefused(slot, why) => Report([CallRefused(info.pid, OfStrike(slot, why))], sealed)
    case Refused(act, why) => Report([CallRefused(info.pid, OfAct(act, why))], sealed)
    case SecondWind => Report([CallPassive(info.pid, "second_wind")], sealed)
    case Staggered(_) =>
      if info.berserk && !sealed then Report([CallPassive(info.pid, "seal")], true) else Report([], sealed)
    case _ => Report([], sealed)
  }

  function Rest(e: Event, mine: seq<Incoming>): seq<Incoming> {
    if e.Blown? && mine != [] then mine[1..] else mine
  }

  /** The calls that some events come to, in their order: the k-th blow's with the k-th of `mine`. */
  function Reportable(info: PlayerInfo, bosses: set<string>, sealed: bool, events: seq<Event>,
                      mine: seq<Incoming>): Report
    decreases |events|
  {
    if events == [] then Report([], sealed)
    else
      var first := CallsOf(info, bosses, sealed, events[0], mine);
      var rest := Reportable(info, bosses, first.sealed, events[1..], Rest(events[0], mine));
      Report(first.calls + rest.calls, rest.sealed)
  }

  function BlowsOf(mine: seq<Incoming>): (blows: seq<Blow>)
    ensures |blows| == |mine|
    ensures forall i :: 0 <= i < |mine| ==> blows[i] == mine[i].blow
  {
    if mine == [] then [] else [mine[0].blow] + BlowsOf(mine[1..])
  }

  // A step -----------------------------------------------------------------------------------

  datatype Stepped = Stepped(p: PlayerState, calls: seq<Call>)

  function CallsLanding(info: PlayerInfo, mine: seq<Incoming>): seq<Call> {
    if mine == [] then [] else [CallBlow(mine[0].nid, mine[0].attack, info.pid, Hit)] + CallsLanding(info, mine[1..])
  }

  function FleeCalls(m: Maths, info: PlayerInfo, p: PlayerState): seq<Call> {
    if p.flee == None then []
    else if p.dot.footing.stagger > 0 || !InCore(m, info.cfg, p.dot) then [CallRefused(info.pid, OfFlee)]
    else [CallFlee(info.pid, p.flee.value)]
  }

  /** The entry a step makes. */
  function EntryOf(n: int, s: DotState, keys: Keys, acts: seq<Act>, mine: seq<Incoming>, report: seq<Call>): Entry {
    Entry(n, SnapshotOf(s), keys, acts, BlowsOf(mine), report)
  }

  /** Global step n for one player: nothing until they're on their feet but the
      blows that land; then any flight, and the dot's step, kept in the history. */
  function PlayerStep(m: Maths, info: PlayerInfo, p: PlayerState, n: int, mine: seq<Incoming>,
                      bosses: set<string>): Stepped {
    if n <= info.join then Stepped(p, CallsLanding(info, mine))
    else
      var o := Step(m, info.cfg, p.dot, p.keys, p.acts, BlowsOf(mine));
      var r := Reportable(info, bosses, p.sealed, o.events, mine);
      var e := EntryOf(n, p.dot, p.keys, p.acts, mine, r.calls);
      Stepped(p.(dot := o.s, acts := [], flee := None, sealed := r.sealed,
        history := LastN(p.history + [e], REWIND_STEPS)),
              FleeCalls(m, info, p) + r.calls)
  }

  // Rewinding --------------------------------------------------------------------------------

  /** Something a client did at a step already run: other keys held, or an act. */
  datatype Revision = Revision(keys: Option<Keys>, act: Option<Act>)

  /** The history entries from a step on. */
  function From(history: seq<Entry>, at: int): seq<Entry> {
    if history == [] then []
    else (if history[0].step >= at then [history[0]] else []) + From(history[1..], at)
  }

  predicate Quiet(e: Entry) { e.blows == [] && e.report == [] }

  /** Nothing in the window has gone to the rules. */
  predicate Clean(history: seq<Entry>, at: int) {
    forall i :: 0 <= i < |From(history, at)| ==> Quiet(From(history, at)[i])
  }

  predicate CanRewind(p: PlayerState, at: int) {
    p.history != [] && at <= p.history[|p.history| - 1].step
  }

  /** How far a replay has got. */
  datatype Replay = Replay(scratch: DotState, sealed: bool, history: seq<Entry>, reported: seq<Call>)

  function Revised(e: Entry, r: Revision): Entry {
    e.(keys := if r.keys.Some? then r.keys.value else e.keys,
       acts := if r.act.Some? then e.acts + [r.act.value] else e.acts)
  }

  /** One entry replayed: its snapshot taken anew, the revision in it, the step
      run, and reported where the window is clean. */
  function ReplayOne(m: Maths, info: PlayerInfo, scratch: DotState, sealed: bool, e: Entry, r: Revision,
                     clean: bool): Replay {
    var e1 := Revised(e, r).(snap := SnapshotOf(scratch));
    var o := Step(m, info.cfg, scratch, e1.keys, e1.acts, e1.blows);
    if clean then
      var told := Reportable(info, {}, sealed, o.events, []);
      Replay(o.s, told.sealed, [e1.(report := told.calls)], told.calls)
    else Replay(o.s, sealed, [e1], [])
  }

  /** The entries before the window as they are, the rest replayed, the act in the first of them. */
  function ReplayAll(m: Maths, info: PlayerInfo, scratch: DotState, sealed: bool, entries: seq<Entry>, at: int,
                     r: Revision, clean: bool): Replay
    decreases |entries|
  {
    if entries == [] then Replay(scratch, sealed, [], [])
    else if entries[0].step < at then
      var rest := ReplayAll(m, info, scratch, sealed, entries[1..], at, r, clean);
      rest.(history := [entries[0]] + rest.history)
    else
      var one := ReplayOne(m, info, scratch, sealed, entries[0], r, clean);
      var rest := ReplayAll(m, info, one.scratch, one.sealed, entries[1..], at, r.(act := None), clean);
      Replay(rest.scratch, rest.sealed, one.history + rest.history, one.reported + rest.reported)
  }

  lemma WindowNotEmpty(history: seq<Entry>, at: int)
    requires history != [] && at <= history[|history| - 1].step
    ensures From(history, at) != []
  {
    if |history| > 1 { WindowNotEmpty(history[1..], at); }
  }

  /** What a rewind leaves: a clean one's dot is the replay's outright; of any
      other only where it is and how it moves. */
  datatype Rewound = Rewound(p: PlayerState, done: bool, late: seq<Call>)

  function Rewind(m: Maths, info: PlayerInfo, p: PlayerState, at: int, r: Revision): Rewound {
    if !CanRewind(p, at) then Rewound(p, false, [])
    else
      WindowNotEmpty(p.history, at);
      var clean := Clean(p.history, at);
      if r.act.Some? && !clean then Rewound(p, false, [])
      else
        var start := Restored(p.scratch, From(p.history, at)[0].snap);
        var replay := ReplayAll(m, info, start, p.sealed, p.history, at, r, clean);
        var dot := if clean then Restored(p.dot, SnapshotOf(replay.scratch))
          else p.dot.(motion := replay.scratch.motion, footing := replay.scratch.footing);
        Rewound(p.(dot := dot, scratch := replay.scratch, sealed := replay.sealed, history := replay.history), true,
                replay.reported)
  }

  // Inputs -----------------------------------------------------------------------------------

  /** What an input asks for; a strike comes with whom it was aimed at, if its
      target named anyone. */
  datatype Ask =
    | NoAsk
    | AskStrike(slot: int, aim: Option<string>)
    | AskDodge
    | AskBlock
    | AskUnblock
    | AskFlee(direction: string)
    | AskRelease

  datatype Message = Message(seqNo: Option<int>, at: Option<int>, keys: Option<int>, ask: Ask)

  datatype Took = Took(p: PlayerState, late: seq<Call>)

  /** `& 15`, of any whole number. */
  function Masked(keys: int): Keys { (keys % 16) as Keys }

  function TakeKeys(m: Maths, info: PlayerInfo, p: PlayerState, at: Option<int>, keys: Keys): Took {
    if keys != p.keys && at.Some? then
      var w := Rewind(m, info, p, at.value, Revision(Some(keys), None));
      Took(w.p.(keys := keys), w.late)
    else Took(p.(keys := keys), [])
  }

  /** An act goes into the step it was done at if it may, else it waits for the next. */
  function TakeAct(m: Maths, info: PlayerInfo, p: PlayerState, at: Option<int>, act: Act): Took {
    if at.Some? then
      var w := Rewind(m, info, p, at.value, Revision(None, Some(act)));
      if w.done then Took(w.p, w.late) else Took(p.(acts := p.acts + [act]), [])
    else Took(p.(acts := p.acts + [act]), [])
  }

  function TakeAsk(m: Maths, info: PlayerInfo, p: PlayerState, at: Option<int>, ask: Ask): Took {
    match ask
    case NoAsk => Took(p, [])
    case AskStrike(slot, aim) =>
      if slot < 1 || 3 < slot then Took(p, [])
      else if aim == None then Took(p, [CallRefused(info.pid, NoTarget(slot))])
      else TakeAct(m, info, p, at, Strike(slot, aim))
    case AskDodge => TakeAct(m, info, p, at, Dodge)
    case AskBlock => TakeAct(m, info, p, at, Block)
    case AskUnblock => TakeAct(m, info, p, at, Unblock)
    case AskFlee(direction) => Took(p.(flee := Some(if |direction| > 16 then direction[..16] else direction)), [])
    case AskRelease => Took(p.(keys := 0, acts := p.acts + [Unblock]), [])
  }

  function Numbered(p: PlayerState, seqNo: Option<int>): PlayerState {
    if seqNo.Some? && seqNo.value > p.seqNo then p.(seqNo := seqNo.value) else p
  }

  function TakeMessage(m: Maths, info: PlayerInfo, p: PlayerState, msg: Message): Took {
    var p1 := Numbered(p, msg.seqNo);
    var k := if msg.keys.Some? then TakeKeys(m, info, p1, msg.at, Masked(msg.keys.value)) else Took(p1, []);
    var a := TakeAsk(m, info, k.p, msg.at, msg.ask);
    Took(a.p, k.late + a.late)
  }
}
