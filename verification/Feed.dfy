/** Reading one log in batches by a cursor and a changing set of channels, against
    walking it event by event. */
module Feeds {
  import opened Basics

  datatype Body =
    | Plain(text: string)
    | Kick(session: string, reason: string)
    | Subs(add: seq<string>, remove: seq<string>)
    | OtherControl

  datatype Event = Event(channel: string, body: Body)

  /** Everything emitted so far: the event with sequence number n is log[n - 1],
      and a channel's stream is the events with that channel. */
  type Log = seq<Event>

  /** An event as a feed hands it on: with its sequence number. */
  datatype Entry = Entry(seq_: nat, event: Event)

  /** What a feed knows besides its cursor: its channels, each with the sequence
      number it was joined at, and why it was told to close, if it was. */
  datatype View = View(subs: map<string, nat>, ended: Option<string>)

  // One event ----------------------------------------------------------------------------

  predicate Sees(v: View, n: nat, e: Event) {
    e.channel in v.subs && v.subs[e.channel] < n
  }

  function Without(subs: map<string, nat>, channels: seq<string>): (r: map<string, nat>)
    ensures r.Keys == subs.Keys - Members(channels)
    ensures forall c :: c in r ==> r[c] == subs[c]
  {
    if channels == [] then subs else Without(subs - {channels[0]}, channels[1..])
  }

  function WithAll(subs: map<string, nat>, channels: seq<string>, n: nat): (r: map<string, nat>)
    ensures r.Keys == subs.Keys + Members(channels)
    ensures forall c :: c in r ==> r[c] == if c in channels then n else subs[c]
    decreases |channels|
  {
    if channels == [] then subs else WithAll(subs[channels[0] := n], channels[1..], n)
  }

  function Reason(reason: string): string {
    if reason == "" then "Disconnected." else reason
  }

  function Changed(v: View, session: string, n: nat, e: Event): View {
    if !Sees(v, n, e) then v
    else match e.body
      case Kick(s, reason) => if s == session then v.(ended := Some(Reason(reason))) else v
      case Subs(add, remove) => v.(subs := WithAll(Without(v.subs, remove), add, n))
      case _ => v
  }

  function Handed(v: View, n: nat, e: Event): seq<Entry> {
    if Sees(v, n, e) && e.body.Plain? then [Entry(n, e)] else []
  }

  // The simple walk ----------------------------------------------------------------------

  /** The view after walking the log event by event from position lo to hi. */
  function WalkView(v: View, session: string, log: Log, lo: nat, hi: nat): View
    requires lo < hi ==> hi <= |log|
    decreases hi
  {
    if hi <= lo then v
    else Changed(WalkView(v, session, log, lo, hi - 1), session, hi, log[hi - 1])
  }

  /** And what was handed on: each plain event whose channel was subscribed at its place. */
  function Walk(v: View, session: string, log: Log, lo: nat, hi: nat): seq<Entry>
    requires lo < hi ==> hi <= |log|
    decreases hi
  {
    if hi <= lo then []
    else Walk(v, session, log, lo, hi - 1) + Handed(WalkView(v, session, log, lo, hi - 1), hi, log[hi - 1])
  }

  lemma {:induction false} WalkInTwo(v: View, session: string, log: Log, lo: nat, mid: nat, hi: nat)
    requires lo <= mid <= hi && (lo < hi ==> hi <= |log|)
    ensures WalkView(v, session, log, lo, hi) == WalkView(WalkView(v, session, log, lo, mid), session, log, mid, hi)
    ensures Walk(v, session, log, lo, hi) ==
      Walk(v, session, log, lo, mid) + Walk(WalkView(v, session, log, lo, mid), session, log, mid, hi)
    decreases hi
  {
    if mid < hi { WalkInTwo(v, session, log, lo, mid, hi - 1); }
  }

  /** What was appended later doesn't change what was walked. */
  lemma {:induction false} WalkPrefix(v: View, session: string, log: Log, more: Log, lo: nat, hi: nat)
    requires log <= more && (lo < hi ==> hi <= |log|)
    ensures WalkView(v, session, more, lo, hi) == WalkView(v, session, log, lo, hi)
    ensures Walk(v, session, more, lo, hi) == Walk(v, session, log, lo, hi)
    decreases hi
  {
    if lo < hi {
      WalkPrefix(v, session, log, more, lo, hi - 1);
      assert more[hi - 1] == log[hi - 1];
    }
  }

  /** Where nothing is seen, nothing is handed on and nothing changes. */
  lemma {:induction false} WalkUnseen(v: View, session: string, log: Log, lo: nat, hi: nat)
    requires lo < hi ==> hi <= |log|
    requires forall k :: lo <= k < hi ==> !Sees(v, k + 1, log[k])
    ensures WalkView(v, session, log, lo, hi) == v
    ensures Walk(v, session, log, lo, hi) == []
    decreases hi
  {
    if lo < hi { WalkUnseen(v, session, log, lo, hi - 1); }
  }

  ghost predicate Increasing(entries: seq<Entry>) {
    forall i, j :: 0 <= i < j < |entries| ==> entries[i].seq_ < entries[j].seq_
  }

  /** A walk hands on, in strictly increasing order and each once, exactly the
      plain events whose channel was subscribed at their place in the sequence. */
  lemma {:induction false} WalkExact(v: View, session: string, log: Log, lo: nat, hi: nat)
    requires lo < hi ==> hi <= |log|
    ensures Increasing(Walk(v, session, log, lo, hi))
    ensures forall x :: x in Walk(v, session, log, lo, hi) <==>
      lo < x.seq_ <= hi && x.event == log[x.seq_ - 1] && x.event.body.Plain?
      && Sees(WalkView(v, session, log, lo, x.seq_ - 1), x.seq_, x.event)
    decreases hi
  {
    if lo < hi { WalkExact(v, session, log, lo, hi - 1); }
  }

  // Reading in batches -------------------------------------------------------------------

  /** The entries one read finds up to hi: of subscribed channels, past both the
      cursor and the number their channel was joined at. */
  function Visible(log: Log, subs: map<string, nat>, cursor: nat, hi: nat): seq<Entry>
    requires hi <= |log|
    decreases hi
  {
    if hi == 0 then []
    else
      Visible(log, subs, cursor, hi - 1)
      + if cursor < hi && Sees(View(subs, None), hi, log[hi - 1]) then [Entry(hi, log[hi - 1])] else []
  }

  ghost predicate InPlace(log: Log, subs: map<string, nat>, c: nat, x: Entry) {
    c < x.seq_ <= |log| && x.event == log[x.seq_ - 1] && Sees(View(subs, None), x.seq_, x.event)
  }

  lemma {:induction false} VisibleSound(log: Log, subs: map<string, nat>, c: nat, hi: nat)
    requires hi <= |log|
    ensures var entries := Visible(log, subs, c, hi);
      Increasing(entries)
      && forall i :: 0 <= i < |entries| ==> InPlace(log, subs, c, entries[i]) && entries[i].seq_ <= hi
    decreases hi
  {
    if hi > 0 { VisibleSound(log, subs, c, hi - 1); }
  }

  lemma {:induction false} VisibleHas(log: Log, subs: map<string, nat>, c: nat, hi: nat, n: nat)
    requires c < n <= hi <= |log| && Sees(View(subs, None), n, log[n - 1])
    ensures exists i :: 0 <= i < |Visible(log, subs, c, hi)| && Visible(log, subs, c, hi)[i].seq_ == n
    decreases hi
  {
    var all := Visible(log, subs, c, hi);
    if n < hi {
      VisibleHas(log, subs, c, hi - 1, n);
      var less := Visible(log, subs, c, hi - 1);
      var i :| 0 <= i < |less| && less[i].seq_ == n;
      assert all[i] == less[i];
    } else {
      assert all[|all| - 1].seq_ == n;
    }
  }

  ghost predicate Has(entries: seq<Entry>, n: nat) {
    exists i :: 0 <= i < |entries| && entries[i].seq_ == n
  }

  /** In order, the entries of the subscribed streams after the cursor: all of them, and no others. */
  ghost predicate IsReply(log: Log, subs: map<string, nat>, c: nat, entries: seq<Entry>) {
    && Increasing(entries)
    && (forall i :: 0 <= i < |entries| ==> InPlace(log, subs, c, entries[i]))
    && (forall n {:trigger Has(entries, n)} :: c < n <= |log| && Sees(View(subs, None), n, log[n - 1]) ==>
      Has(entries, n))
  }

  lemma VisibleIsReply(log: Log, subs: map<string, nat>, c: nat)
    ensures IsReply(log, subs, c, Visible(log, subs, c, |log|))
  {
    VisibleSound(log, subs, c, |log|);
    var entries := Visible(log, subs, c, |log|);
    forall n {:trigger Has(entries, n)} | c < n <= |log| && Sees(View(subs, None), n, log[n - 1])
      ensures Has(entries, n)
    {
      VisibleHas(log, subs, c, |log|, n);
    }
  }

  function Insert(x: Entry, entries: seq<Entry>): (r: seq<Entry>)
    ensures multiset(r) == multiset(entries) + multiset{x}
  {
    if entries == [] || x.seq_ <= entries[0].seq_ then
      [x] + entries
    else
      assert entries == [entries[0]] + entries[1..];
      [entries[0]] + Insert(x, entries[1..])
  }

  /** Sorting by sequence number. */
  function Sort(entries: seq<Entry>): (r: seq<Entry>)
    ensures multiset(r) == multiset(entries)
  {
    if entries == [] then []
    else
      assert entries == [entries[0]] + entries[1..];
      Insert(entries[0], Sort(entries[1..]))
  }

  ghost predicate Ordered(entries: seq<Entry>) {
    forall i, j :: 0 <= i < j < |entries| ==> entries[i].seq_ <= entries[j].seq_
  }

  lemma {:induction false} InsertOrdered(x: Entry, entries: seq<Entry>)
    requires Ordered(entries)
    ensures Ordered(Insert(x, entries))
  {
    if entries != [] && entries[0].seq_ < x.seq_ {
      InsertOrdered(x, entries[1..]);
      var rest := Insert(x, entries[1..]);
      forall y | y in rest ensures entries[0].seq_ <= y.seq_ {
        assert y in multiset(rest);
        assert y == x || y in multiset(entries[1..]);
      }
    }
  }

  lemma {:induction false} SortOrdered(entries: seq<Entry>)
    ensures Ordered(Sort(entries))
  {
    if entries != [] {
      SortOrdered(entries[1..]);
      InsertOrdered(entries[0], Sort(entries[1..]));
    }
  }

  lemma FirstIsSame(a: seq<Entry>, b: seq<Entry>)
    requires Ordered(a) && Increasing(b) && multiset(a) == multiset(b) && b != []
    ensures a != [] && a[0] == b[0]
  {
    assert b[0] in multiset(a);
    var j :| 0 <= j < |a| && a[j] == b[0];
    assert a[0] in multiset(b);
    var i :| 0 <= i < |b| && b[i] == a[0];
  }

  lemma RestIsSame(a: seq<Entry>, b: seq<Entry>)
    requires a != [] && b != [] && a[0] == b[0] && multiset(a) == multiset(b)
    ensures multiset(a[1..]) == multiset(b[1..])
  {
    assert a == [a[0]] + a[1..] && b == [b[0]] + b[1..];
    assert multiset(a[1..]) == multiset(a) - multiset{a[0]};
    assert multiset(b[1..]) == multiset(b) - multiset{b[0]};
  }

  /** There is only one way to put entries with different numbers in order. */
  lemma {:induction false} OrderedUnique(a: seq<Entry>, b: seq<Entry>)
    requires Ordered(a) && Increasing(b) && multiset(a) == multiset(b)
    ensures a == b
    decreases |b|
  {
    if b == [] {
      assert |multiset(a)| == 0;
    } else {
      FirstIsSame(a, b);
      RestIsSame(a, b);
      OrderedUnique(a[1..], b[1..]);
      assert a == [a[0]] + a[1..] && b == [b[0]] + b[1..];
    }
  }

  /** What one read does to a feed: it hands on what the simple walk hands on up
      to its new cursor, having either drained the log or stopped at a control. */
  ghost predicate ReadStep(session: string, log: Log, c: nat, v: View, c': nat, v': View, events: seq<Entry>) {
    && c <= c' && (c < c' ==> c' <= |log|)
    && v' == WalkView(v, session, log, c, c')
    && events == Walk(v, session, log, c, c')
    && (Drained(session, log, c', v') || (c < c' && IsCut(session, log[c' - 1])))
  }

  ghost predicate Drained(session: string, log: Log, c: nat, v: View) {
    c < |log| ==> Walk(v, session, log, c, |log|) == [] && WalkView(v, session, log, c, |log|) == v
  }

  predicate IsCut(session: string, e: Event) {
    e.body.Subs? || (e.body.Kick? && e.body.session == session)
  }

  class Feed {
    const session: string
    var cursor: nat
    var subs: map<string, nat>
    var ended: Option<string>

    /** A feed from a cursor on: the player's channels now, with the changes in
        their own stream since the cursor undone from the newest back. */
    constructor Open(own: string, session: string, cursor: nat, current: map<string, nat>, since: seq<Event>)
      ensures this.session == session && this.cursor == cursor && ended == None
      ensures subs == Undone(own, current, since)[own := 0]
    {
      this.session, this.cursor, this.ended := session, cursor, None;
      this.subs := current;
      new;
      var k := |since|;
      assert since[..k] == since;
      while k > 0
        invariant 0 <= k <= |since|
        invariant this.session == session && this.cursor == cursor && ended == None
        invariant Undone(own, subs, since[..k]) == Undone(own, current, since)
      {
        k := k - 1;
        assert since[..k + 1][..k] == since[..k];
        if since[k].body.Subs? {
          var was := subs;
          var add, remove := since[k].body.add, since[k].body.remove;
          var i := 0;
          while i < |add|
            invariant 0 <= i <= |add|
            invariant this.session == session && this.cursor == cursor && ended == None
            invariant UndoAdd(own, subs, add[i..]) == UndoAdd(own, was, add)
          {
            assert add[i..][1..] == add[i + 1..];
            if add[i] != own {
              subs := subs - {add[i]};
            }
            i := i + 1;
          }
          i := 0;
          while i < |remove|
            invariant 0 <= i <= |remove|
            invariant this.session == session && this.cursor == cursor && ended == None
            invariant WithAll(subs, remove[i..], 0) == WithAll(UndoAdd(own, was, add), remove, 0)
          {
            assert remove[i..][1..] == remove[i + 1..];
            subs := subs[remove[i] := 0];
            i := i + 1;
          }
        }
      }
      subs := subs[own := 0];
    }

    ghost function Seen(): View reads this { View(subs, ended) }

    /** One read. The reply is every entry past the cursor in the subscribed streams,
        in any order; what comes of it is one step of the walk. */
    method Read(ghost log: Log, reply: seq<Entry>) returns (events: seq<Entry>)
      requires multiset(reply) == multiset(Visible(log, subs, cursor, |log|))
      modifies this
      ensures ReadStep(session, log, old(cursor), old(Seen()), cursor, Seen(), events)
    {
      var entries := Sort(reply);
      SortIsReply(log, subs, cursor, reply);
      events := Deliver(log, entries);
    }

    /** Goes through a batch in order, up to its end or the first control that cuts it. */
    method Deliver(ghost log: Log, entries: seq<Entry>) returns (events: seq<Entry>)
      requires IsReply(log, subs, cursor, entries)
      modifies this
      ensures ReadStep(session, log, old(cursor), old(Seen()), cursor, Seen(), events)
    {
      ghost var c, v := cursor, Seen();
      events := [];
      for i := 0 to |entries|
        invariant cursor == PlaceBefore(entries, c, i) && Seen() == v
        invariant SoFar(v, session, log, c, entries, i, events)
      {
        ToEntry(v, session, log, c, entries, i, events);
        var more, cut := Take(entries[i]);
        events := events + more;
        if cut {
          return;
        }
      }
      ToEnd(v, session, log, c, entries, events);
    }

    /** One entry of a batch: handed on, or a control to act on, which may cut the batch. */
    method Take(x: Entry) returns (events: seq<Entry>, cut: bool)
      requires Sees(Seen(), x.seq_, x.event)
      modifies this
      ensures cursor == x.seq_
      ensures Seen() == Changed(old(Seen()), session, x.seq_, x.event)
      ensures events == Handed(old(Seen()), x.seq_, x.event)
      ensures cut == IsCut(session, x.event)
      ensures !cut ==> Seen() == old(Seen())
    {
      events, cut := [], false;
      cursor := x.seq_;
      match x.event.body {
        case Plain(_) => events := [x];
        case Kick(s, reason) =>
          if s == session {
            ended := Some(Reason(reason));
            cut := true;
          }
        case Subs(add, remove) =>
          subs := WithAll(Without(subs, remove), add, x.seq_);
          cut := true;
        case OtherControl =>
      }
    }
  }

  ghost function PlaceBefore(entries: seq<Entry>, c: nat, i: nat): nat
    requires i <= |entries|
  {
    if i == 0 then c else entries[i - 1].seq_
  }

  /** Between one visible entry and the next the walk sees nothing. */
  lemma Gap(v: View, session: string, log: Log, c: nat, entries: seq<Entry>, i: nat)
    requires IsReply(log, v.subs, c, entries) && i <= |entries|
    ensures c <= PlaceBefore(entries, c, i) && (i > 0 ==> PlaceBefore(entries, c, i) <= |log|)
    ensures var lo := PlaceBefore(entries, c, i); var hi := PlaceAfter(log, entries, i);
      (lo < hi ==> hi <= |log|) && WalkView(v, session, log, lo, hi) == v && Walk(v, session, log, lo, hi) == []
  {
    var lo, hi := PlaceBefore(entries, c, i), PlaceAfter(log, entries, i);
    if i > 0 { assert InPlace(log, v.subs, c, entries[i - 1]); }
    if i < |entries| { assert InPlace(log, v.subs, c, entries[i]); }
    forall k | lo <= k < hi ensures !Sees(v, k + 1, log[k]) {
      if Sees(v, k + 1, log[k]) {
        assert Sees(View(v.subs, None), k + 1, log[k]);
        assert Has(entries, k + 1);
        NoneBetween(log, c, entries, i, k + 1);
        assert false;
      }
    }
    WalkUnseen(v, session, log, lo, hi);
  }

  ghost function PlaceAfter(log: Log, entries: seq<Entry>, i: nat): nat
    requires i <= |entries|
  {
    if i == |entries| then |log| else if entries[i].seq_ == 0 then 0 else entries[i].seq_ - 1
  }

  lemma NoneBetween(log: Log, c: nat, entries: seq<Entry>, i: nat, n: nat)
    requires Increasing(entries) && i <= |entries|
    requires PlaceBefore(entries, c, i) < n <= PlaceAfter(log, entries, i)
    ensures !Has(entries, n)
  {
    forall k | 0 <= k < |entries| ensures entries[k].seq_ != n {
      assert i > 0 && k < i - 1 ==> entries[k].seq_ < entries[i - 1].seq_;
      assert k > i ==> entries[i].seq_ < entries[k].seq_;
    }
  }

  lemma SortIsReply(log: Log, subs: map<string, nat>, c: nat, reply: seq<Entry>)
    requires multiset(reply) == multiset(Visible(log, subs, c, |log|))
    ensures IsReply(log, subs, c, Sort(reply))
  {
    VisibleIsReply(log, subs, c);
    SortOrdered(reply);
    OrderedUnique(Sort(reply), Visible(log, subs, c, |log|));
  }

  lemma EntryAt(v: View, log: Log, c: nat, entries: seq<Entry>, i: nat)
    requires IsReply(log, v.subs, c, entries) && i < |entries|
    ensures PlaceBefore(entries, c, i) < entries[i].seq_ <= |log|
    ensures entries[i] == Entry(entries[i].seq_, log[entries[i].seq_ - 1])
    ensures Sees(v, entries[i].seq_, entries[i].event)
  {
    assert InPlace(log, v.subs, c, entries[i]);
    if i > 0 { assert entries[i - 1].seq_ < entries[i].seq_; }
  }

  /** Walking on to the next visible entry only meets that entry. */
  lemma Jump(v: View, session: string, log: Log, c: nat, lo: nat, n: nat)
    requires c <= lo < n <= |log|
    requires WalkView(v, session, log, c, lo) == v
    requires WalkView(v, session, log, lo, n - 1) == v && Walk(v, session, log, lo, n - 1) == []
    ensures WalkView(v, session, log, c, n) == Changed(v, session, n, log[n - 1])
    ensures Walk(v, session, log, c, n) == Walk(v, session, log, c, lo) + Handed(v, n, log[n - 1])
  {
    WalkInTwo(v, session, log, c, lo, n - 1);
  }

  /** Having taken i entries without a cut, the feed is as it was, and has handed
      on what the walk hands on up to the last of them. */
  ghost predicate SoFar(v: View, session: string, log: Log, c: nat, entries: seq<Entry>, i: nat, events: seq<Entry>)
    requires i <= |entries|
  {
    var at := PlaceBefore(entries, c, i);
    && c <= at && (c < at ==> at <= |log|)
    && WalkView(v, session, log, c, at) == v
    && events == Walk(v, session, log, c, at)
  }

  lemma ToEntry(v: View, session: string, log: Log, c: nat, entries: seq<Entry>, i: nat, events: seq<Entry>)
    requires IsReply(log, v.subs, c, entries) && i < |entries|
    requires SoFar(v, session, log, c, entries, i, events)
    ensures var n, e := entries[i].seq_, entries[i].event;
      && Sees(v, n, e)
      && (Changed(v, session, n, e) == v ==> SoFar(v, session, log, c, entries, i + 1, events + Handed(v, n, e)))
      && (IsCut(session, e) ==> ReadStep(session, log, c, v, n, Changed(v, session, n, e), events + Handed(v, n, e)))
  {
    EntryAt(v, log, c, entries, i);
    Gap(v, session, log, c, entries, i);
    Jump(v, session, log, c, PlaceBefore(entries, c, i), entries[i].seq_);
  }

  lemma ToEnd(v: View, session: string, log: Log, c: nat, entries: seq<Entry>, events: seq<Entry>)
    requires IsReply(log, v.subs, c, entries)
    requires SoFar(v, session, log, c, entries, |entries|, events)
    ensures ReadStep(session, log, c, v, PlaceBefore(entries, c, |entries|), v, events)
  {
    Gap(v, session, log, c, entries, |entries|);
  }

  // Undoing changes ----------------------------------------------------------------------

  function UndoAdd(own: string, subs: map<string, nat>, add: seq<string>): (r: map<string, nat>)
    ensures r.Keys == subs.Keys - (Members(add) - {own})
    ensures forall c :: c in r ==> r[c] == subs[c]
    decreases |add|
  {
    if add == [] then subs else UndoAdd(own, if add[0] != own then subs - {add[0]} else subs, add[1..])
  }

  function UndoOne(own: string, subs: map<string, nat>, e: Event): map<string, nat> {
    if e.body.Subs? then WithAll(UndoAdd(own, subs, e.body.add), e.body.remove, 0) else subs
  }

  function Undone(own: string, subs: map<string, nat>, since: seq<Event>): map<string, nat>
    decreases |since|
  {
    if since == [] then subs
    else Undone(own, UndoOne(own, subs, since[|since| - 1]), since[..|since| - 1])
  }
}
