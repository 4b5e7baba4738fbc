/** The graph of rooms, the search over it, and the problems it shows: told by walks
    of the world. */
module World {
  import opened Basics

  datatype Room = Room(waypoint: bool, exits: map<string, string>, unreachable: bool)

  datatype Route = Route(from: string, to: Option<string>, strand: Option<string>)

  /** The nested objects, lists and values that quests and travel events are. */
  datatype Json = Obj(fields: seq<Field>) | Arr(items: seq<Json>) | Text(text: string) | Atom

  datatype Field = Field(name: string, value: Json)

  datatype Data = Data(rooms: map<string, Room>, routes: seq<Route>, startRoom: string,
                       backgrounds: seq<Option<string>>, quests: Json, travelEvents: Json)

  type Edges = map<string, set<string>>

  // The graph ----------------------------------------------------------------------------

  ghost predicate IsRoom(data: Data, r: string) {
    r in data.rooms && !data.rooms[r].waypoint
  }

  /** You can walk from a to b, ride there, or be stranded there by a failed journey. */
  ghost predicate Link(data: Data, a: string, b: string) {
    && IsRoom(data, a) && IsRoom(data, b)
    && (b in data.rooms[a].exits.Values || exists i :: 0 <= i < |data.routes| && Rides(data.routes[i], a, b))
  }

  ghost predicate Rides(route: Route, a: string, b: string) {
    route.from == a && (route.to == Some(b) || route.strand == Some(b))
  }

  /** The `teleport` and `maroon` effects anywhere inside a value, in order. */
  function Effects(j: Json): (found: seq<Field>)
    decreases j
  {
    match j
    case Obj(fields) => FieldEffects(fields)
    case Arr(items) => ItemEffects(items)
    case _ => []
  }

  function FieldEffects(fields: seq<Field>): seq<Field>
    decreases fields
  {
    if fields == [] then []
    else
      (if fields[0].name in {"teleport", "maroon"} then [fields[0]] else [])
      + Effects(fields[0].value) + FieldEffects(fields[1..])
  }

  function ItemEffects(items: seq<Json>): seq<Field>
    decreases items
  {
    if items == [] then [] else Effects(items[0]) + ItemEffects(items[1..])
  }

  /** The room an effect names: its `room` field if it has fields, else itself. */
  function RoomNamed(value: Json): Option<string> {
    match value
    case Obj(fields) => FieldText(fields, "room")
    case Text(t) => Some(t)
    case _ => None
  }

  function FieldText(fields: seq<Field>, name: string): Option<string> {
    if fields == [] then None
    else if fields[0].name == name then (if fields[0].value.Text? then Some(fields[0].value.text) else None)
    else FieldText(fields[1..], name)
  }

  ghost predicate Sends(data: Data, key: string, r: string) {
    IsRoom(data, r) && Names(Effects(Arr([data.quests, data.travelEvents])), key, r)
  }

  method WorldGraph(data: Data) returns (edges: Edges, teleports: set<string>, marooned: set<string>)
    ensures forall r :: r in edges <==> IsRoom(data, r)
    ensures forall a, b :: a in edges ==> (b in edges[a] <==> Link(data, a, b))
    ensures forall r :: r in teleports <==> Sends(data, "teleport", r)
    ensures forall r :: r in marooned <==> Sends(data, "maroon", r)
  {
    edges := Roads(data);
    var found := Effects(Arr([data.quests, data.travelEvents]));
    teleports, marooned := {}, {};
    for i := 0 to |found|
      invariant forall r :: r in teleports <==> r in edges && Names(found[..i], "teleport", r)
      invariant forall r :: r in marooned <==> r in edges && Names(found[..i], "maroon", r)
    {
      EffectsAreAll(Arr([data.quests, data.travelEvents]), found[i]);
      NamesOneMore(found, i);
      var room := RoomNamed(found[i].value);
      if room.Some? && room.value in edges {
        if found[i].name == "maroon" {
          marooned := marooned + {room.value};
        } else {
          teleports := teleports + {room.value};
        }
      }
    }
    assert found[..|found|] == found;
  }

  ghost predicate Names(found: seq<Field>, key: string, r: string) {
    exists e :: e in found && e.name == key && RoomNamed(e.value) == Some(r)
  }

  lemma NamesOneMore(found: seq<Field>, i: nat)
    requires i < |found|
    ensures forall key, r :: Names(found[..i + 1], key, r) <==>
      Names(found[..i], key, r) || (found[i].name == key && RoomNamed(found[i].value) == Some(r))
  {
    var more := found[..i + 1];
    assert more == found[..i] + [found[i]] && more[i] == found[i];
    forall key, r ensures Names(more, key, r) <==>
      Names(found[..i], key, r) || (found[i].name == key && RoomNamed(found[i].value) == Some(r))
    {
      assert forall e :: e in more <==> e in found[..i] || e == found[i];
      if found[i].name == key && RoomNamed(found[i].value) == Some(r) { assert found[i] in more; }
    }
  }

  /** The first i routes join a to b, or an exit does. */
  ghost predicate LinkedBy(data: Data, i: nat, a: string, b: string)
    requires a in data.rooms && i <= |data.routes|
  {
    IsRoom(data, b) && (b in data.rooms[a].exits.Values || exists k :: 0 <= k < i && Rides(data.routes[k], a, b))
  }

  lemma LinkedByOneMore(data: Data, i: nat, a: string, b: string)
    requires a in data.rooms && i < |data.routes|
    ensures LinkedBy(data, i + 1, a, b) <==> LinkedBy(data, i, a, b) || (IsRoom(data, b) && Rides(data.routes[i], a, b))
  {
  }

  /** The exits, then each route's destination and where it may strand you. */
  method Roads(data: Data) returns (edges: Edges)
    ensures forall r :: r in edges <==> IsRoom(data, r)
    ensures forall a, b :: a in edges ==> (b in edges[a] <==> Link(data, a, b))
  {
    var nodes := set r | r in data.rooms && !data.rooms[r].waypoint;
    assert forall r :: r in nodes <==> IsRoom(data, r);
    edges := if nodes == {} then map[] else map r | r in nodes :: set d | d in data.rooms[r].exits.Values && d in nodes;
    for i := 0 to |data.routes|
      invariant forall r :: r in edges <==> IsRoom(data, r)
      invariant forall a, b :: a in edges ==> (b in edges[a] <==> LinkedBy(data, i, a, b))
    {
      var route := data.routes[i];
      forall a, b | a in edges
        ensures LinkedBy(data, i + 1, a, b) <==> LinkedBy(data, i, a, b) || (IsRoom(data, b) && Rides(route, a, b))
      {
        LinkedByOneMore(data, i, a, b);
      }
      if route.from in edges {
        var more := Among(route.to, edges.Keys) + Among(route.strand, edges.Keys);
        edges := edges[route.from := edges[route.from] + more];
      }
    }
  }

  function Among(r: Option<string>, rooms: set<string>): (s: set<string>)
    ensures forall b :: b in s <==> r == Some(b) && b in rooms
  {
    if r.Some? && r.value in rooms then {r.value} else {}
  }

  /** The field f is somewhere inside the value, however deep. */
  ghost predicate Within(j: Json, f: Field)
    decreases j
  {
    match j
    case Obj(fields) => exists i :: 0 <= i < |fields| && (fields[i] == f || Within(fields[i].value, f))
    case Arr(items) => exists i :: 0 <= i < |items| && Within(items[i], f)
    case _ => false
  }

  /** The search for effects finds every `teleport` and `maroon` field there is,
      at any depth, and nothing else. */
  lemma {:induction false} EffectsAreAll(j: Json, f: Field)
    ensures f in Effects(j) <==> Within(j, f) && f.name in {"teleport", "maroon"}
    decreases j
  {
    match j
    case Obj(fields) => FieldEffectsAreAll(fields, f);
    case Arr(items) => ItemEffectsAreAll(items, f);
    case _ =>
  }

  lemma {:induction false} FieldEffectsAreAll(fields: seq<Field>, f: Field)
    ensures f in FieldEffects(fields) <==>
      f.name in {"teleport", "maroon"} && exists i ::
        0 <= i < |fields| && (fields[i] == f || Within(fields[i].value, f))
    decreases fields
  {
    if fields != [] {
      EffectsAreAll(fields[0].value, f);
      FieldEffectsAreAll(fields[1..], f);
      assert forall i :: 0 < i < |fields| ==> fields[i] == fields[1..][i - 1];
    }
  }

  lemma {:induction false} ItemEffectsAreAll(items: seq<Json>, f: Field)
    ensures f in ItemEffects(items) <==>
      f.name in {"teleport", "maroon"} && exists i :: 0 <= i < |items| && Within(items[i], f)
    decreases items
  {
    if items != [] {
      EffectsAreAll(items[0], f);
      ItemEffectsAreAll(items[1..], f);
      assert forall i :: 0 < i < |items| ==> items[i] == items[1..][i - 1];
    }
  }

  // Reaching -----------------------------------------------------------------------------

  /** Every edge leads to a room of the graph. */
  ghost predicate Closed(edges: Edges) {
    forall a, b :: a in edges && b in edges[a] ==> b in edges
  }

  ghost predicate IsWalk(edges: Edges, p: seq<string>) {
    && p != [] && p[0] in edges
    && forall i :: 0 <= i < |p| - 1 ==> p[i] in edges && p[i + 1] in edges[p[i]]
  }

  ghost predicate WalkBetween(edges: Edges, a: string, b: string, p: seq<string>) {
    IsWalk(edges, p) && p[0] == a && p[|p| - 1] == b
  }

  ghost predicate Joined(edges: Edges, a: string, b: string) {
    exists p :: WalkBetween(edges, a, b, p)
  }

  ghost predicate JoinedFrom(edges: Edges, starts: set<string>, b: string) {
    exists a :: a in starts && Joined(edges, a, b)
  }

  lemma JoinedStart(edges: Edges, a: string)
    requires a in edges
    ensures Joined(edges, a, a)
  {
    assert WalkBetween(edges, a, a, [a]);
  }

  lemma JoinedNext(edges: Edges, starts: set<string>, b: string, c: string)
    requires JoinedFrom(edges, starts, b) && b in edges && c in edges[b]
    ensures JoinedFrom(edges, starts, c)
  {
    var a :| a in starts && Joined(edges, a, b);
    var p :| WalkBetween(edges, a, b, p);
    assert WalkBetween(edges, a, c, p + [c]);
  }

  /** A set that holds the walk's first room and is closed under the edges holds its last. */
  lemma {:induction false} WalkStays(edges: Edges, p: seq<string>, s: set<string>)
    requires IsWalk(edges, p) && p[0] in s
    requires forall a, b :: a in s && a in edges && b in edges[a] ==> b in s
    ensures p[|p| - 1] in s
    decreases |p|
  {
    if |p| > 1 {
      WalkStays(edges, p[..|p| - 1], s);
      assert p[|p| - 2] in edges && p[|p| - 1] in edges[p[|p| - 2]];
    }
  }

  lemma MembersOf(s: seq<string>, t: seq<string>)
    ensures Members(s + t) == Members(s) + Members(t)
  {
    assert forall x :: x in s + t <==> x in s || x in t;
  }

  /** Where a search stands: everything seen or waiting is joined to a start,
      and whatever an edge leads to from a seen room is seen or waiting. */
  ghost predicate Searching(edges: Edges, from: set<string>, seen: set<string>, waiting: set<string>) {
    && seen + waiting <= edges.Keys
    && (forall r :: r in seen + waiting ==> JoinedFrom(edges, from, r))
    && from * edges.Keys <= seen + waiting
    && (forall a :: a in seen ==> edges[a] <= seen + waiting)
  }

  lemma Visit(edges: Edges, from: set<string>, seen: set<string>, waiting: set<string>, rid: string)
    requires Closed(edges) && Searching(edges, from, seen, waiting + {rid})
    ensures Searching(edges, from, seen + {rid}, waiting + (edges[rid] - (seen + {rid})))
  {
    forall b | b in edges[rid] ensures JoinedFrom(edges, from, b) { JoinedNext(edges, from, rid, b); }
  }

  /** The rooms that can be walked to from the starts: a search over a stack of
      rooms to visit, from which a room may be taken more than once. */
  method Reach(edges: Edges, starts: seq<string>) returns (seen: set<string>)
    requires Closed(edges)
    ensures forall r :: r in seen <==> JoinedFrom(edges, Members(starts), r)
  {
    ghost var from := Members(starts);
    seen := {};
    var todo := KnownOf(edges, starts);
    forall s | s in Members(todo) ensures JoinedFrom(edges, from, s) { JoinedStart(edges, s); }
    while todo != []
      invariant Searching(edges, from, seen, Members(todo))
      decreases edges.Keys - seen, |todo|
    {
      var rid := todo[|todo| - 1];
      assert todo == todo[..|todo| - 1] + [rid];
      MembersOf(todo[..|todo| - 1], [rid]);
      todo := todo[..|todo| - 1];
      if rid !in seen {
        Visit(edges, from, seen, Members(todo), rid);
        seen := seen + {rid};
        var more := Listed(edges[rid] - seen);
        MembersOf(todo, more);
        todo := todo + more;
      }
    }
    forall r | JoinedFrom(edges, from, r) ensures r in seen {
      var a :| a in from && Joined(edges, a, r);
      var p :| WalkBetween(edges, a, r, p);
      WalkStays(edges, p, seen);
    }
  }

  function KnownOf(edges: Edges, starts: seq<string>): (known: seq<string>)
    ensures forall s :: s in known <==> s in starts && s in edges
  {
    if starts == [] then [] else (if starts[0] in edges then [starts[0]] else []) + KnownOf(edges, starts[1..])
  }

  /** A set's members one after another, in whatever order they come. */
  method Listed(s: set<string>) returns (list: seq<string>)
    ensures Members(list) == s
  {
    list := [];
    var rest := s;
    while rest != {}
      invariant rest <= s
      invariant Members(list) == s - rest
    {
      var x :| x in rest;
      MembersOf(list, [x]);
      list, rest := list + [x], rest - {x};
    }
  }

  // Walks both ways ----------------------------------------------------------------------

  ghost predicate Reversed(edges: Edges, back: Edges) {
    && back.Keys == edges.Keys
    && forall a, b :: a in edges && b in edges ==> (b in edges[a] <==> a in back[b])
  }

  method Backwards(edges: Edges) returns (back: Edges)
    requires Closed(edges)
    ensures Reversed(edges, back) && Closed(back)
  {
    back := if edges == map[] then map[] else map r | r in edges :: {};
    var rest := edges.Keys;
    while rest != {}
      invariant rest <= edges.Keys && back.Keys == edges.Keys
      invariant forall a, b :: b in edges ==> (a in back[b] <==> a in edges && a !in rest && b in edges[a])
    {
      var rid :| rid in rest;
      back := AddBack(back, rid, edges[rid]);
      rest := rest - {rid};
    }
  }

  /** Adds one room to what leads back from each of its destinations. */
  method AddBack(back: Edges, rid: string, dests: set<string>) returns (more: Edges)
    requires dests <= back.Keys
    ensures more.Keys == back.Keys
    ensures forall b :: b in back ==> more[b] == back[b] + if b in dests then {rid} else {}
  {
    more := back;
    var rest := dests;
    while rest != {}
      invariant rest <= dests && more.Keys == back.Keys
      invariant forall b :: b in back ==> more[b] == back[b] + if b in dests - rest then {rid} else {}
    {
      var dest :| dest in rest;
      more := more[dest := more[dest] + {rid}];
      rest := rest - {dest};
    }
  }

  lemma {:induction false} WalkReversed(edges: Edges, back: Edges, a: string, b: string, p: seq<string>)
    returns (q: seq<string>)
    requires Closed(edges) && Reversed(edges, back)
    requires WalkBetween(edges, a, b, p)
    ensures WalkBetween(back, b, a, q)
    decreases |p|
  {
    if |p| == 1 {
      q := p;
    } else {
      var pre := p[..|p| - 1];
      var m := p[|p| - 2];
      assert WalkBetween(edges, a, m, pre);
      var q' := WalkReversed(edges, back, a, m, pre);
      q := [b] + q';
      forall i | 0 <= i < |q| - 1 ensures q[i] in back && q[i + 1] in back[q[i]] {
        if i > 0 { assert q[i] == q'[i - 1] && q[i + 1] == q'[i]; }
      }
    }
  }

  lemma ReversedTwice(edges: Edges, back: Edges)
    requires Closed(edges) && Reversed(edges, back) && Closed(back)
    ensures Reversed(back, edges)
  {
  }

  lemma JoinedReversed(edges: Edges, back: Edges, a: string, b: string)
    requires Closed(edges) && Reversed(edges, back) && Closed(back)
    ensures Joined(edges, a, b) <==> Joined(back, b, a)
  {
    if Joined(edges, a, b) {
      var p :| WalkBetween(edges, a, b, p);
      var q := WalkReversed(edges, back, a, b, p);
    }
    if Joined(back, b, a) {
      ReversedTwice(edges, back);
      var p :| WalkBetween(back, b, a, p);
      var q := WalkReversed(back, edges, b, a, p);
    }
  }

  // The problems -------------------------------------------------------------------------

  /** The rooms characters can find themselves in without walking: the start
      room, the backgrounds' starts, and where they're teleported or marooned. */
  ghost predicate BeginsAt(data: Data, r: string) {
    r == data.startRoom || Some(r) in data.backgrounds || Sends(data, "teleport", r) || Sends(data, "maroon", r)
  }

  ghost predicate HomeAt(data: Data, r: string) {
    r == data.startRoom || Sends(data, "maroon", r)
  }

  /** A walk of the world itself, told by its links. */
  ghost predicate IsRoute(data: Data, p: seq<string>) {
    p != [] && IsRoom(data, p[0]) && forall i :: 0 <= i < |p| - 1 ==> Link(data, p[i], p[i + 1])
  }

  ghost predicate CanBegin(data: Data, r: string) {
    exists p :: IsRoute(data, p) && BeginsAt(data, p[0]) && p[|p| - 1] == r
  }

  ghost predicate CanGoHome(data: Data, r: string) {
    exists p :: IsRoute(data, p) && p[0] == r && HomeAt(data, p[|p| - 1])
  }

  ghost predicate IsGraphOf(data: Data, edges: Edges) {
    && (forall r :: r in edges <==> IsRoom(data, r))
    && (forall a :: a in edges ==> forall b :: b in edges[a] <==> Link(data, a, b))
  }

  lemma RoutesAreWalks(data: Data, edges: Edges, p: seq<string>)
    requires IsGraphOf(data, edges)
    ensures IsRoute(data, p) <==> IsWalk(edges, p)
  {
    if IsRoute(data, p) {
      forall i | 0 <= i < |p| - 1 ensures p[i] in edges && p[i + 1] in edges[p[i]] {
        assert Link(data, p[i], p[i + 1]);
      }
    }
    if IsWalk(edges, p) {
      forall i | 0 <= i < |p| - 1 ensures Link(data, p[i], p[i + 1]) {
        assert p[i] in edges && p[i + 1] in edges[p[i]];
      }
    }
  }

  lemma CanBeginIsJoined(data: Data, edges: Edges, starts: set<string>, r: string)
    requires IsGraphOf(data, edges)
    requires forall s :: s in starts <==> BeginsAt(data, s)
    ensures CanBegin(data, r) <==> JoinedFrom(edges, starts, r)
  {
    if CanBegin(data, r) {
      var p :| IsRoute(data, p) && BeginsAt(data, p[0]) && p[|p| - 1] == r;
      RoutesAreWalks(data, edges, p);
      assert WalkBetween(edges, p[0], r, p);
    }
    if JoinedFrom(edges, starts, r) {
      var a :| a in starts && Joined(edges, a, r);
      var p :| WalkBetween(edges, a, r, p);
      RoutesAreWalks(data, edges, p);
    }
  }

  lemma CanGoHomeIsJoined(data: Data, edges: Edges, back: Edges, homes: set<string>, r: string)
    requires IsGraphOf(data, edges) && Closed(edges) && Reversed(edges, back) && Closed(back)
    requires forall s :: s in homes <==> HomeAt(data, s)
    ensures CanGoHome(data, r) <==> JoinedFrom(back, homes, r)
  {
    if CanGoHome(data, r) {
      var p :| IsRoute(data, p) && p[0] == r && HomeAt(data, p[|p| - 1]);
      RoutesAreWalks(data, edges, p);
      assert WalkBetween(edges, r, p[|p| - 1], p);
      JoinedReversed(edges, back, r, p[|p| - 1]);
    }
    if JoinedFrom(back, homes, r) {
      var h :| h in homes && Joined(back, h, r);
      JoinedReversed(edges, back, r, h);
      var p :| WalkBetween(edges, r, h, p);
      RoutesAreWalks(data, edges, p);
    }
  }

  /** The rooms reported as cut off, and those reported as traps: exactly the
      non-waypoint rooms no character can come to (unless marked so on purpose),
      and exactly those a character can come to and can't go home from. */
  method GraphProblems(data: Data) returns (cutOff: set<string>, traps: set<string>)
    ensures data.startRoom !in data.rooms ==> cutOff == {} && traps == {}
    ensures data.startRoom in data.rooms ==>
      forall r :: r in cutOff <==> IsRoom(data, r) && !data.rooms[r].unreachable && !CanBegin(data, r)
    ensures data.startRoom in data.rooms ==>
      forall r :: r in traps <==> CanBegin(data, r) && !CanGoHome(data, r)
  {
    cutOff, traps := {}, {};
    if data.startRoom !in data.rooms {
      return;
    }
    var edges, teleports, marooned := WorldGraph(data);
    var begin := Somes(data.backgrounds);
    var extra := Listed(teleports + marooned);
    var starts := [data.startRoom] + begin + extra;
    var reached := Reach(edges, starts);
    ghost var from := Members(starts);
    MembersOf([data.startRoom], begin);
    MembersOf([data.startRoom] + begin, extra);
    forall r ensures r in reached <==> CanBegin(data, r) { CanBeginIsJoined(data, edges, from, r); }
    cutOff := set r | r in edges && r !in reached && !data.rooms[r].unreachable;
    var back := Backwards(edges);
    var camps := Listed(marooned);
    var homes := [data.startRoom] + camps;
    var home := Reach(back, homes);
    ghost var to := Members(homes);
    MembersOf([data.startRoom], camps);
    forall r ensures r in home <==> CanGoHome(data, r) { CanGoHomeIsJoined(data, edges, back, to, r); }
    traps := reached - home;
  }

  function Somes(s: seq<Option<string>>): (r: seq<string>)
    ensures forall x :: x in r <==> Some(x) in s
  {
    if s == [] then [] else (if s[0].Some? then [s[0].value] else []) + Somes(s[1..])
  }
}
