/** Reconnecting is invisible: what one connection delivered up to a cursor and
    what the next delivers from it make up one walk of the whole log. */
module Reconnect {
  import opened Basics
  import opened Feeds

  // The reference: the log walked event by event with the channels of each moment ---------

  function ChannelsAfter(chans: set<string>, log: Log, lo: nat, hi: nat): set<string>
    requires lo < hi ==> hi <= |log|
    decreases hi
  {
    if hi <= lo then chans
    else
      var now := ChannelsAfter(chans, log, lo, hi - 1);
      var e := log[hi - 1];
      if e.channel in now && e.body.Subs? then now - Members(e.body.remove) + Members(e.body.add) else now
  }

  function SimpleWalk(chans: set<string>, log: Log, lo: nat, hi: nat): seq<Entry>
    requires lo < hi ==> hi <= |log|
    decreases hi
  {
    if hi <= lo then []
    else
      SimpleWalk(chans, log, lo, hi - 1)
      + if log[hi - 1].channel in ChannelsAfter(chans, log, lo, hi - 1) && log[hi - 1].body.Plain?
        then [Entry(hi, log[hi - 1])] else []
  }

  /** No channel counts as joined later than position n. */
  ghost predicate JoinedBy(subs: map<string, nat>, n: nat) {
    forall c :: c in subs ==> subs[c] <= n
  }

  /** Where every channel was joined by the start, the feed's walk is the simple
      one: sessions, kicks and join numbers make no difference to what is delivered. */
  lemma {:induction false} WalkIsSimple(v: View, session: string, log: Log, lo: nat, hi: nat)
    requires lo <= hi && (lo < hi ==> hi <= |log|)
    requires JoinedBy(v.subs, lo)
    ensures Walk(v, session, log, lo, hi) == SimpleWalk(v.subs.Keys, log, lo, hi)
    ensures WalkView(v, session, log, lo, hi).subs.Keys == ChannelsAfter(v.subs.Keys, log, lo, hi)
    ensures JoinedBy(WalkView(v, session, log, lo, hi).subs, hi)
    decreases hi
  {
    if lo < hi { WalkIsSimple(v, session, log, lo, hi - 1); }
  }

  // The server's record of a player's channels --------------------------------------------

  /** The subscription map the rules keep, changed with each control event they emit. */
  function HeldAt(own: string, held: map<string, nat>, log: Log, lo: nat, hi: nat): map<string, nat>
    requires lo < hi ==> hi <= |log|
    decreases hi
  {
    if hi <= lo then held
    else
      var now := HeldAt(own, held, log, lo, hi - 1);
      var e := log[hi - 1];
      if e.channel == own && e.body.Subs? then WithAll(Without(now, e.body.remove), e.body.add, hi) else now
  }

  /** Control events are exact: they add only channels not held, remove only
      channels held and never the player's own stream, and reach the player on
      no other stream. */
  ghost predicate ExactAt(own: string, now: set<string>, e: Event) {
    e.body.Subs? ==>
      if e.channel == own then
        Members(e.body.add) !! now && Members(e.body.remove) <= now && own !in e.body.remove
      else
        e.channel !in now
  }

  ghost predicate Exact(own: string, held: map<string, nat>, log: Log, lo: nat) {
    forall n :: lo <= n < |log| ==> ExactAt(own, HeldAt(own, held, log, lo, n).Keys, log[n])
  }

  lemma {:induction false} HeldIsChannels(own: string, held: map<string, nat>, log: Log, lo: nat, hi: nat)
    requires lo <= hi && (lo < hi ==> hi <= |log|)
    requires Exact(own, held, log, lo)
    ensures ChannelsAfter(held.Keys + {own}, log, lo, hi) == HeldAt(own, held, log, lo, hi).Keys + {own}
    decreases hi
  {
    if lo < hi {
      HeldIsChannels(own, held, log, lo, hi - 1);
      assert ExactAt(own, HeldAt(own, held, log, lo, hi - 1).Keys, log[hi - 1]);
    }
  }

  lemma {:induction false} HeldJoinedBy(own: string, held: map<string, nat>, log: Log, lo: nat, hi: nat)
    requires lo <= hi && (lo < hi ==> hi <= |log|)
    requires JoinedBy(held, lo)
    ensures JoinedBy(HeldAt(own, held, log, lo, hi), hi)
    decreases hi
  {
    if lo < hi { HeldJoinedBy(own, held, log, lo, hi - 1); }
  }

  lemma {:induction false} HeldInTwo(own: string, held: map<string, nat>, log: Log, lo: nat, mid: nat, hi: nat)
    requires lo <= mid <= hi && (lo < hi ==> hi <= |log|)
    ensures HeldAt(own, held, log, lo, hi) == HeldAt(own, HeldAt(own, held, log, lo, mid), log, mid, hi)
    decreases hi
  {
    if mid < hi { HeldInTwo(own, held, log, lo, mid, hi - 1); }
  }

  // Opening at a cursor undoes the changes since -------------------------------------------

  /** The player's own stream after the cursor. */
  function OwnSince(own: string, log: Log, c: nat, hi: nat): seq<Event>
    requires c < hi ==> hi <= |log|
    decreases hi
  {
    if hi <= c then []
    else OwnSince(own, log, c, hi - 1) + if log[hi - 1].channel == own then [log[hi - 1]] else []
  }

  /** u is the channels held at a moment, give or take the player's own stream,
      each with its join number or none. */
  ghost predicate Rebuilt(own: string, u: map<string, nat>, held: map<string, nat>) {
    && u.Keys + {own} == held.Keys + {own}
    && forall ch :: ch in u && ch != own ==> u[ch] == 0 || (ch in held && u[ch] == held[ch])
  }

  lemma UndoStep(own: string, u: map<string, nat>, now: map<string, nat>, n: nat, e: Event)
    requires e.channel == own && e.body.Subs?
    requires ExactAt(own, now.Keys, e)
    requires Rebuilt(own, u, WithAll(Without(now, e.body.remove), e.body.add, n))
    ensures Rebuilt(own, UndoOne(own, u, e), now)
  {
  }

  /** Exactness is what undoing needs: one change is undone to the channels held
      before it exactly when it removed only channels held and added none that
      stayed held (the player's own stream aside). */
  lemma UndoneExactlyWhen(own: string, now: map<string, nat>, n: nat, e: Event)
    requires e.body.Subs?
    ensures var add, remove := Members(e.body.add), Members(e.body.remove);
      var u := WithAll(Without(now, e.body.remove), e.body.add, n);
      UndoOne(own, u, e).Keys + {own} == now.Keys + {own} <==>
        remove <= now.Keys + {own} && add * (now.Keys - remove) <= {own}
  {
    var add, remove := Members(e.body.add), Members(e.body.remove);
    var u := WithAll(Without(now, e.body.remove), e.body.add, n);
    var back := UndoOne(own, u, e);
    assert back.Keys == (now.Keys - remove + add) - (add - {own}) + remove;
    if back.Keys + {own} == now.Keys + {own} {
      forall x | x in remove ensures x in now.Keys + {own} { assert x in back.Keys + {own}; }
      forall x | x in add * (now.Keys - remove) ensures x in {own} { assert x in back.Keys + {own}; }
    }
  }

  /** Something said in a room, and then the room added though it's held already. */
  function SaidThenReadded(own: string, room: string, text: string): Log {
    [Event(room, Plain(text)), Event(own, Subs([room], []))]
  }

  lemma ReaddedUndone(own: string, room: string, subs: map<string, nat>)
    requires own != room
    ensures room !in Undone(own, subs, [Event(own, Subs([room], []))])
  {
    var e := Event(own, Subs([room], []));
    assert [e][..0] == [];
    assert Undone(own, subs, [e]) == UndoOne(own, subs, e);
    assert [room][0] == room;
  }

  lemma WalkOfUnseen(v: View, session: string, log: Log)
    requires |log| == 2 && log[0].channel !in v.subs && log[1].body.Subs?
    ensures Walk(v, session, log, 0, 2) == []
  {
    hide Changed;
    assert Walk(v, session, log, 0, 0) == [] && WalkView(v, session, log, 0, 0) == v;
    assert Walk(v, session, log, 0, 1) == [];
  }

  lemma SimpleWalkOfHeld(chans: set<string>, log: Log)
    requires |log| == 2 && log[0].channel in chans && log[0].body.Plain? && log[1].body.Subs?
    ensures SimpleWalk(chans, log, 0, 2) == [Entry(1, log[0])]
  {
    assert SimpleWalk(chans, log, 0, 0) == [] && ChannelsAfter(chans, log, 0, 0) == chans;
    assert SimpleWalk(chans, log, 0, 1) == [Entry(1, log[0])];
  }

  /** Where a change isn't exact a reconnection loses events: opened before a room
      already held is added again, a feed doesn't hand on what was said there before. */
  lemma InexactLosesEvents(own: string, room: string, text: string, session: string)
    requires own != room
    ensures var held: map<string, nat>, log := map[own := 0, room := 0], SaidThenReadded(own, room, text);
      var v := View(Opened(own, HeldAt(own, held, log, 0, 2), OwnSince(own, log, 0, 2)), None);
      Walk(v, session, log, 0, 2) == [] && SimpleWalk(held.Keys, log, 0, 2) == [Entry(1, log[0])]
  {
    hide Undone, Walk, SimpleWalk, HeldAt;
    var held: map<string, nat>, log := map[own := 0, room := 0], SaidThenReadded(own, room, text);
    var current := HeldAt(own, held, log, 0, 2);
    assert OwnSince(own, log, 0, 0) == [] && OwnSince(own, log, 0, 1) == [];
    assert OwnSince(own, log, 0, 2) == [log[1]];
    ReaddedUndone(own, room, current);
    WalkOfUnseen(View(Opened(own, current, [log[1]]), None), session, log);
    SimpleWalkOfHeld(held.Keys, log);
  }

  lemma {:induction false} UndoneIsHeld(own: string, u: map<string, nat>, held: map<string, nat>, log: Log, c: nat,
                                        hi: nat)
    requires c <= hi && (c < hi ==> hi <= |log|)
    requires Exact(own, held, log, c)
    requires Rebuilt(own, u, HeldAt(own, held, log, c, hi))
    ensures Rebuilt(own, Undone(own, u, OwnSince(own, log, c, hi)), held)
    decreases hi
  {
    hide Undone, UndoOne, HeldAt, OwnSince, Rebuilt, ExactAt;
    UndoneNothing(own, u, held, log, c);
    if c < hi {
      var e := log[hi - 1];
      var now, since := HeldAt(own, held, log, c, hi - 1), OwnSince(own, log, c, hi - 1);
      OneMoreHeld(own, held, log, c, hi);
      if e.channel == own {
        UndoneLast(own, u, since, e);
        if e.body.Subs? { UndoStep(own, u, now, hi, e); } else { NothingUndone(own, u, e); }
        UndoneIsHeld(own, UndoOne(own, u, e), held, log, c, hi - 1);
      } else {
        UndoneIsHeld(own, u, held, log, c, hi - 1);
      }
    }
  }

  lemma UndoneNothing(own: string, u: map<string, nat>, held: map<string, nat>, log: Log, c: nat)
    ensures Undone(own, u, OwnSince(own, log, c, c)) == u && HeldAt(own, held, log, c, c) == held
  {
  }

  lemma UndoneLast(own: string, u: map<string, nat>, since: seq<Event>, e: Event)
    ensures Undone(own, u, since + [e]) == Undone(own, UndoOne(own, u, e), since)
  {
    hide UndoOne;
    assert (since + [e])[..|since|] == since;
  }

  lemma NothingUndone(own: string, u: map<string, nat>, e: Event)
    requires !e.body.Subs?
    ensures UndoOne(own, u, e) == u
  {
  }

  /** One more event: the player's own is one more since, and a change of theirs one more to what's held. */
  lemma OneMoreHeld(own: string, held: map<string, nat>, log: Log, c: nat, hi: nat)
    requires c < hi <= |log|
    ensures var e, now := log[hi - 1], HeldAt(own, held, log, c, hi - 1);
      && HeldAt(own, held, log, c, hi) ==
           (if e.channel == own && e.body.Subs? then WithAll(Without(now, e.body.remove), e.body.add, hi) else now)
      && OwnSince(own, log, c, hi)
        == (if e.channel == own then OwnSince(own, log, c, hi - 1) + [e] else OwnSince(own, log, c, hi - 1))
  {
    hide WithAll, Without;
    if log[hi - 1].channel != own { assert OwnSince(own, log, c, hi - 1) + [] == OwnSince(own, log, c, hi - 1); }
  }

  /** The subscriptions a feed opened at c starts with. */
  function Opened(own: string, current: map<string, nat>, since: seq<Event>): map<string, nat> {
    Undone(own, current, since)[own := 0]
  }

  /** Opening rebuilds exactly the channels held at the cursor, and the player's
      own stream, even where a channel was left and rejoined since; and it reads
      every one of them from the cursor. */
  lemma OpenedIsHeld(own: string, held: map<string, nat>, log: Log, c: nat)
    requires c <= |log| && Exact(own, held, log, c) && JoinedBy(held, c)
    ensures var subs := Opened(own, HeldAt(own, held, log, c, |log|), OwnSince(own, log, c, |log|));
      subs.Keys == held.Keys + {own} && JoinedBy(subs, c)
  {
    UndoneIsHeld(own, HeldAt(own, held, log, c, |log|), held, log, c, |log|);
  }

  lemma ExactLater(own: string, held: map<string, nat>, log: Log, lo: nat, c: nat)
    requires lo <= c <= |log| && Exact(own, held, log, lo)
    ensures Exact(own, HeldAt(own, held, log, lo, c), log, c)
  {
    var later := HeldAt(own, held, log, lo, c);
    forall n | c <= n < |log| ensures ExactAt(own, HeldAt(own, later, log, c, n).Keys, log[n]) {
      HeldInTwo(own, held, log, lo, c, n);
      assert ExactAt(own, HeldAt(own, held, log, lo, n).Keys, log[n]);
    }
  }

  // Reconnecting ---------------------------------------------------------------------------

  /** A feed at position lo that sees the player's channels as the server holds them. */
  ghost predicate Follows(own: string, v: View, held: map<string, nat>, lo: nat) {
    v.subs.Keys == held.Keys + {own} && JoinedBy(v.subs, lo) && JoinedBy(held, lo)
  }

  /** For every split of the log at a cursor c, what one feed hands on up to c,
      followed by everything a feed opened at c (by another session, when the log
      had grown to `now`) hands on, is the simple walk of the whole log. */
  lemma ReconnectIsInvisible(own: string, v: View, held: map<string, nat>, log: Log, lo: nat, c: nat, now: nat,
                             s1: string, s2: string)
    requires lo <= c <= now <= |log|
    requires Follows(own, v, held, lo) && Exact(own, held, log, lo)
    ensures var current := HeldAt(own, held, log, lo, now);
      var v2 := View(Opened(own, current, OwnSince(own, log, c, now)), None);
      Walk(v, s1, log, lo, c) + Walk(v2, s2, log, c, |log|) == SimpleWalk(held.Keys + {own}, log, lo, |log|)
  {
    var heldC := HeldAt(own, held, log, lo, c);
    var v2 := OpenedFollows(own, held, log, lo, c, now);
    WalkIsSimple(v, s1, log, lo, |log|);
    WalkIsSimple(v, s1, log, lo, c);
    HeldIsChannels(own, held, log, lo, c);
    WalkInTwo(v, s1, log, lo, c, |log|);
    WalkIsSimple(WalkView(v, s1, log, lo, c), s1, log, c, |log|);
    WalkIsSimple(v2, s2, log, c, |log|);
  }

  lemma OpenedFollows(own: string, held: map<string, nat>, log: Log, lo: nat, c: nat, now: nat) returns (v2: View)
    requires lo <= c <= now <= |log|
    requires JoinedBy(held, lo) && Exact(own, held, log, lo)
    ensures v2 == View(Opened(own, HeldAt(own, held, log, lo, now), OwnSince(own, log, c, now)), None)
    ensures Follows(own, v2, HeldAt(own, held, log, lo, c), c)
  {
    var heldC := HeldAt(own, held, log, lo, c);
    var early := log[..now];
    v2 := View(Opened(own, HeldAt(own, held, log, lo, now), OwnSince(own, log, c, now)), None);
    HeldJoinedBy(own, held, log, lo, c);
    HeldInTwo(own, held, log, lo, c, now);
    ExactLater(own, held, log, lo, c);
    HeldPrefix(own, heldC, early, log, c, now);
    OwnPrefix(own, early, log, c, now);
    ExactPrefix(own, heldC, early, log, c);
    OpenedIsHeld(own, heldC, early, c);
  }

  lemma {:induction false} HeldPrefix(own: string, held: map<string, nat>, log: Log, more: Log, lo: nat, hi: nat)
    requires log <= more && (lo < hi ==> hi <= |log|)
    ensures HeldAt(own, held, more, lo, hi) == HeldAt(own, held, log, lo, hi)
    decreases hi
  {
    if lo < hi {
      HeldPrefix(own, held, log, more, lo, hi - 1);
      assert more[hi - 1] == log[hi - 1];
    }
  }

  lemma {:induction false} OwnPrefix(own: string, log: Log, more: Log, lo: nat, hi: nat)
    requires log <= more && (lo < hi ==> hi <= |log|)
    ensures OwnSince(own, more, lo, hi) == OwnSince(own, log, lo, hi)
    decreases hi
  {
    if lo < hi {
      OwnPrefix(own, log, more, lo, hi - 1);
      assert more[hi - 1] == log[hi - 1];
    }
  }

  lemma ExactPrefix(own: string, held: map<string, nat>, log: Log, more: Log, lo: nat)
    requires log <= more && lo <= |log| && Exact(own, held, more, lo)
    ensures Exact(own, held, log, lo)
  {
    forall n | lo <= n < |log| ensures ExactAt(own, HeldAt(own, held, log, lo, n).Keys, log[n]) {
      HeldPrefix(own, held, log, more, lo, n);
      assert ExactAt(own, HeldAt(own, held, more, lo, n).Keys, more[n]);
    }
  }

  // Runs of reads ----------------------------------------------------------------------------

  /** One read of a run: the log it found, and the feed and events it left. */
  datatype Reading = Reading(log: Log, cursor: nat, view: View, events: seq<Entry>)

  /** Reads one after another, with the log only growing in between. */
  ghost predicate IsRun(session: string, c: nat, v: View, run: seq<Reading>)
    decreases |run|
  {
    if run == [] then true
    else
      var before, last := run[..|run| - 1], run[|run| - 1];
      && IsRun(session, c, v, before)
      && (before != [] ==> before[|before| - 1].log <= last.log)
      && ReadStep(session, last.log, CursorOf(c, before), ViewOf(v, before), last.cursor, last.view, last.events)
  }

  function CursorOf(c: nat, run: seq<Reading>): nat {
    if run == [] then c else run[|run| - 1].cursor
  }

  function ViewOf(v: View, run: seq<Reading>): View {
    if run == [] then v else run[|run| - 1].view
  }

  function EventsOf(run: seq<Reading>): seq<Entry> {
    if run == [] then [] else EventsOf(run[..|run| - 1]) + run[|run| - 1].events
  }

  /** Batched reading refines the simple walk: over every interleaving of appends
      and reads, the batches together are exactly the walk up to the cursor, so
      the dropped tail of a cut batch is neither lost nor repeated. */
  lemma {:induction false} RunIsWalk(session: string, c: nat, v: View, run: seq<Reading>, log: Log)
    requires IsRun(session, c, v, run)
    requires run != [] ==> run[|run| - 1].log <= log
    ensures c <= CursorOf(c, run) && (c < CursorOf(c, run) ==> CursorOf(c, run) <= |log|)
    ensures ViewOf(v, run) == WalkView(v, session, log, c, CursorOf(c, run))
    ensures EventsOf(run) == Walk(v, session, log, c, CursorOf(c, run))
    decreases |run|
  {
    if run != [] {
      var before, last := run[..|run| - 1], run[|run| - 1];
      RunIsWalk(session, c, v, before, log);
      var mid := CursorOf(c, before);
      WalkPrefix(ViewOf(v, before), session, last.log, log, mid, last.cursor);
      WalkInTwo(v, session, log, c, mid, last.cursor);
    }
  }

  /** The same, entry by entry: strictly increasing numbers, and exactly the plain
      events past the start whose channel was subscribed at their place. */
  lemma RunDeliversExactly(session: string, c: nat, v: View, run: seq<Reading>, log: Log)
    requires IsRun(session, c, v, run)
    requires run != [] ==> run[|run| - 1].log <= log
    ensures c <= CursorOf(c, run) && (c < CursorOf(c, run) ==> CursorOf(c, run) <= |log|)
    ensures Increasing(EventsOf(run))
    ensures forall x :: x in EventsOf(run) <==>
      c < x.seq_ <= CursorOf(c, run) && x.event == log[x.seq_ - 1] && x.event.body.Plain?
      && Sees(WalkView(v, session, log, c, x.seq_ - 1), x.seq_, x.event)
  {
    RunIsWalk(session, c, v, run, log);
    WalkExact(v, session, log, c, CursorOf(c, run));
  }

  /** Reconnecting in the middle of a run of reads: one session reads up to some
      cursor, another opens a feed there when the log has grown to `now`, and
      reads on until the log is drained. Together they deliver the simple walk. */
  lemma ReconnectedRunsAreOneWalk(own: string, v: View, held: map<string, nat>, log: Log, lo: nat, now: nat,
                                  s1: string, run1: seq<Reading>, s2: string, run2: seq<Reading>)
    requires Follows(own, v, held, lo) && Exact(own, held, log, lo)
    requires IsRun(s1, lo, v, run1) && (run1 != [] ==> run1[|run1| - 1].log <= log)
    requires lo <= CursorOf(lo, run1) <= now <= |log|
    requires var c := CursorOf(lo, run1);
      var v2 := View(Opened(own, HeldAt(own, held, log, lo, now), OwnSince(own, log, c, now)), None);
      IsRun(s2, c, v2, run2) && run2 != [] && run2[|run2| - 1].log == log
        && Drained(s2, log, CursorOf(c, run2), ViewOf(v2, run2))
    ensures EventsOf(run1) + EventsOf(run2) == SimpleWalk(held.Keys + {own}, log, lo, |log|)
  {
    var c := CursorOf(lo, run1);
    var v2 := View(Opened(own, HeldAt(own, held, log, lo, now), OwnSince(own, log, c, now)), None);
    RunIsWalk(s1, lo, v, run1, log);
    RunIsWalk(s2, c, v2, run2, log);
    WalkInTwo(v2, s2, log, c, CursorOf(c, run2), |log|);
    ReconnectIsInvisible(own, v, held, log, lo, c, now, s1, s2);
  }
}
