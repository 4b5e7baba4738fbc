/** The steps of a run come in order by themselves: whether a run keeps to the
    terms of RollbackEquivalence is a matter of its rewinds alone. */
module StepOrder {
  import opened Basics
  import opened Balance
  import opened Fights
  import opened Rollback
  import opened RollbackRuns

  ghost predicate HasStep(items: seq<Item>, n: int) {
    exists i :: 0 <= i < |items| && items[i].Ran? && items[i].n == n
  }

  /** The steps of b are steps of a. */
  ghost predicate NoNewSteps(a: seq<Item>, b: seq<Item>) {
    forall n :: HasStep(b, n) ==> HasStep(a, n)
  }

  lemma {:induction false} EntriesHaveSteps(m: Maths, info: PlayerInfo, l: Line, items: seq<Item>, k: nat)
    requires k < |Entries(m, info, l, items)|
    ensures HasStep(items, Entries(m, info, l, items)[k].step)
    decreases |items|
  {
    hide LineNext, EntryFor;
    var first := if items[0].Ran? then 1 else 0;
    if k < first {
      FirstEntryStep(m, info, l, items);
    } else {
      EntriesHaveSteps(m, info, LineNext(m, info, l, items[0]), items[1..], k - first);
      var n := Entries(m, info, l, items)[k].step;
      var i :| 0 <= i < |items[1..]| && items[1..][i].Ran? && items[1..][i].n == n;
      assert items[i + 1] == items[1..][i];
    }
  }

  lemma FirstEntryStep(m: Maths, info: PlayerInfo, l: Line, items: seq<Item>)
    requires items != [] && items[0].Ran?
    ensures Entries(m, info, l, items) != [] && Entries(m, info, l, items)[0].step == items[0].n
  {
    hide LineNext, Told, SnapshotOf;
  }

  lemma RevisitedSteps(items: seq<Item>, w: nat, r: Revision)
    requires w <= |items| && forall i :: |items| - w <= i < |items| ==> items[i].Ran?
    ensures NoNewSteps(items, Revisited(items, w, r))
  {
    hide Revise;
    var tail := items[|items| - w..];
    ReviseRan(tail, r);
    var more := Revisited(items, w, r);
    forall n | HasStep(more, n) ensures HasStep(items, n) {
      var i :| 0 <= i < |more| && more[i].Ran? && more[i].n == n;
      if i >= |items| - w {
        assert more[i] == Revise(tail, r)[i - (|items| - w)] && items[i] == tail[i - (|items| - w)];
      } else {
        assert items[i] == more[i];
      }
    }
  }

  lemma InTimeSteps(m: Maths, info: PlayerInfo, items: seq<Item>, p: PlayerState, at: int, r: Revision)
    ensures NoNewSteps(items, InTime(m, info, items, p, at, r))
  {
    hide Rewind, From, Revisited;
    if CleanWindow(items, p, at) { RevisitedSteps(items, |From(p.history, at)|, r); }
  }

  lemma KeysSteps(m: Maths, info: PlayerInfo, items: seq<Item>, p: PlayerState, at: Option<int>, keys: Keys)
    ensures NoNewSteps(items, KeysInTime(m, info, items, p, at, keys))
  {
    hide InTime;
    if at.Some? { InTimeSteps(m, info, items, p, at.value, Revision(Some(keys), None)); }
  }

  lemma AskSteps(m: Maths, info: PlayerInfo, items: seq<Item>, p: PlayerState, at: Option<int>, ask: Ask)
    ensures NoNewSteps(items, AskInTime(m, info, items, p, at, ask))
  {
    hide InTime, ActOf;
    if ActOf(ask).Some? && at.Some? {
      InTimeSteps(m, info, items, p, at.value, Revision(None, Some(ActOf(ask).value)));
    }
  }

  lemma MessageSteps(m: Maths, info: PlayerInfo, items: seq<Item>, p: PlayerState, msg: Message)
    ensures NoNewSteps(items, MessageInTime(m, info, items, p, msg))
  {
    hide KeysInTime, AskInTime, TakeKeys, Masked, HasStep;
    var p1 := Numbered(p, msg.seqNo);
    if msg.keys.Some? {
      var keys := Masked(msg.keys.value);
      KeysSteps(m, info, items, p1, msg.at, keys);
      AskSteps(m, info, KeysInTime(m, info, items, p1, msg.at, keys), TakeKeys(m, info, p1, msg.at, keys).p, msg.at,
               msg.ask);
    } else {
      AskSteps(m, info, items, p1, msg.at, msg.ask);
    }
  }

  // Runs -----------------------------------------------------------------------------------------

  /** One of the first k operations was step n. */
  ghost predicate Stepped(ops: seq<Op>, k: nat, n: int)
    requires k <= |ops|
  {
    exists i :: 0 <= i < k && ops[i].StepOp? && ops[i].n == n
  }

  ghost predicate Earlier(items: seq<Item>, ops: seq<Op>, k: nat)
    requires k <= |ops|
  {
    forall n :: HasStep(items, n) ==> Stepped(ops, k, n)
  }

  /** Steps are run in order. */
  ghost predicate InOrder(ops: seq<Op>) {
    forall i, j :: 0 <= i < j < |ops| && ops[i].StepOp? && ops[j].StepOp? ==> ops[i].n < ops[j].n
  }

  lemma MoreStepped(ops: seq<Op>, k: nat)
    requires k < |ops|
    ensures forall n :: Stepped(ops, k, n) ==> Stepped(ops, k + 1, n)
    ensures ops[k].StepOp? ==> Stepped(ops, k + 1, ops[k].n)
  {
  }

  lemma HasStepMore(items: seq<Item>, i: Item)
    ensures forall n :: HasStep(items + [i], n) ==> HasStep(items, n) || (i.Ran? && i.n == n)
  {
  }

  lemma {:induction false} ItemsEarlier(m: Maths, info: PlayerInfo, p0: PlayerState, ops: seq<Op>, k: nat)
    requires k <= |ops|
    ensures Earlier(ItemsAt(m, info, p0, ops, k), ops, k)
  {
    hide Apply, MessageInTime, HasStep, Stepped;
    if k == 0 {
      NothingHasStep();
    } else {
      ItemsEarlier(m, info, p0, ops, k - 1);
      MoreStepped(ops, k - 1);
      var items, p := ItemsAt(m, info, p0, ops, k - 1), PlayerAt(m, info, p0, ops, k - 1);
      match ops[k - 1]
      case StepOp(n, mine, bosses) => HasStepMore(items, Ran(n, p.keys, p.acts, mine, bosses));
      case MessageOp(msg) => MessageSteps(m, info, items, p, msg);
      case StopOp(target) => HasStepMore(items, Stopped(target));
    }
  }

  lemma NothingHasStep()
    ensures forall n :: !HasStep([], n)
  {
  }

  /** Every rewind carried out has a clean window with nothing stopped in it. */
  ghost predicate RewindsClean(m: Maths, info: PlayerInfo, p0: PlayerState, ops: seq<Op>) {
    forall i :: 0 <= i < |ops| && ops[i].MessageOp? ==>
      MessageWell(m, info, ItemsAt(m, info, p0, ops, i), PlayerAt(m, info, p0, ops, i), ops[i].msg)
  }

  /** With steps in order, a run keeps to RollbackEquivalence's terms exactly when its rewinds do. */
  lemma RunWellExactlyWhen(m: Maths, info: PlayerInfo, p0: PlayerState, ops: seq<Op>)
    requires InOrder(ops)
    ensures RunWell(m, info, p0, ops, |ops|) <==> RewindsClean(m, info, p0, ops)
  {
    hide MessageWell, ItemsAt, PlayerAt, Entries;
    if RewindsClean(m, info, p0, ops) {
      forall i | 0 <= i < |ops|
        ensures OpWell(m, info, Line(p0.dot, p0.sealed), ItemsAt(m, info, p0, ops, i), PlayerAt(m, info, p0, ops, i),
                       ops[i])
      {
        if ops[i].StepOp? { StepInOrder(m, info, p0, ops, i); }
      }
    }
    if RunWell(m, info, p0, ops, |ops|) {
      forall i | 0 <= i < |ops| && ops[i].MessageOp?
        ensures MessageWell(m, info, ItemsAt(m, info, p0, ops, i), PlayerAt(m, info, p0, ops, i), ops[i].msg)
      {
        assert OpWell(m, info, Line(p0.dot, p0.sealed), ItemsAt(m, info, p0, ops, i), PlayerAt(m, info, p0, ops, i),
                      ops[i]);
      }
    }
  }

  lemma StepInOrder(m: Maths, info: PlayerInfo, p0: PlayerState, ops: seq<Op>, i: nat)
    requires InOrder(ops) && i < |ops| && ops[i].StepOp?
    ensures forall j :: 0 <= j < |Entries(m, info, Line(p0.dot, p0.sealed), ItemsAt(m, info, p0, ops, i))| ==>
      Entries(m, info, Line(p0.dot, p0.sealed), ItemsAt(m, info, p0, ops, i))[j].step < ops[i].n
  {
    hide ItemsAt, Entries, HasStep;
    var items := ItemsAt(m, info, p0, ops, i);
    var es := Entries(m, info, Line(p0.dot, p0.sealed), items);
    ItemsEarlier(m, info, p0, ops, i);
    forall j | 0 <= j < |es| ensures es[j].step < ops[i].n {
      EntriesHaveSteps(m, info, Line(p0.dot, p0.sealed), items, j);
      assert Stepped(ops, i, es[j].step);
    }
  }
}
