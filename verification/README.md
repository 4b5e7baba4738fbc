# Alzendor, verified

Alzendor is a multi-server MUD. Most of its world rules run in Lua inside Redis;
around them, its Python holds three state machines and two smaller algorithms.
This project models those and proves what they are for:

- the **fight simulation** (`alzendor/balance.py`): a player's dot on its disc, moved
  60 times a second through timers, four random draws, an orbiting well, acts, a
  one-place strike buffer, volleys, blows and the disc's physics; and a boss's
  stagger meter;
- the **encounter's owner** (`alzendor/encounter.py`): it runs the dots and the NPCs'
  attack clock, keeps twelve steps of history for each player, and rewinds and
  replays when an input arrives late;
- the **event feed** (`alzendor/feed.py`): one cursor and a map of subscriptions, read in
  batches that are cut at each control event, and rebuilt on reconnection by
  undoing control events backwards;
- the **world's checks** (`alzendor/world.py`): rooms that can't be reached, rooms with
  no way home, quests whose steps don't make one path;
- the **weather** (`alzendor/weather.py`): a sum of waves evened out by its quantiles and
  stretched.

`dafny verify dfyconfig.toml` checks everything.

## How it is laid out

Where the Python changes objects in place, so does the model: `Dots.Dot`,
`Bosses.Boss`, `Feeds.Feed`, `Players.Player`, `Owners.Npc` and `Owners.Owner` are
classes whose methods follow the functions of the original. Each method is proved
against a specification on values, and what the system promises is then proved of
that specification over whole runs:

| part | classes and methods | specification | theorems |
|---|---|---|---|
| fight | `Dot.dfy` | `Balance.dfy` | `Runs`, `Snapshots`, `Staggers`, `Strikes`, `VolleyRuns`, `Randomness`, `Stops`, `Disc`, `Rim` (with `Rest`) |
| bosses | `Bosses.dfy` | `Bosses.dfy` | `Bosses.dfy` |
| players | `Players.dfy` | `Fights.dfy` | `Rollback`, `RollbackRuns`, `InTimeRuns`, `StepOrder`, `Conservation`, `Published`, `Unclean`, `UncleanRewinds`, `StoppedRewinds`, `Forgotten`, `DiscRuns`, `Blows`, `Sent` |
| encounters | `Owner.dfy` | `Encounters.dfy`, `Clock.dfy` | `Clock`, `Landings`, `Overdue`, `Notices`, `FighterRuns`, `Handovers`, `LandingRuns` |
| feed | `Feed.dfy` | `Feed.dfy` | `Reconnect` |
| world | `World.dfy`, `Quests.dfy` | the same | the same |
| weather | | `Weather.dfy` | `Weather` |

What is taken as given: floats are reals. The library's functions of reals, and the
generator's output as a function of its state, come in a record `Maths`; nothing is
assumed of them but `Maths.Valid` (a direction has length 1, a square root squares
back, an exponential is positive, and below 1 for a decay), and that only where the
disc, and the examples on it, are concerned. The owner's own random directions are an
arbitrary function of step, NPC and attack. The rules' replies (Lua's) are parameters.

## What the code doesn't do, and exactly when

Some things one would expect of the code hold only under a condition. For each
there is a lemma with runs in which it fails, and one that says exactly when it
holds:

- A rewind over a window in which something has gone to the rules stores the
  replay's snapshots in the history, but the dot takes only its place and movement
  from the replay. `Unclean.UncleanRewindBreaksHistory` is a run in which the history no
  longer replays to the dot. A caller can check the window: over a clean one the
  history stays consistent (`Rollback.CoherentIsConsistent`). Over any other,
  `UncleanRewinds.UncleanConsistentExactlyWhen` says where it can go wrong, which is
  its last entry alone, and that it does so just if the replay comes out with more of
  the dot changed than its motion. That is the replay's outcome, which nobody has
  before the rewind.
- A clean rewind doesn't know of volleys stopped between the steps it replays.
  `Forgotten.StoppedVolleyComesBack` is a run in which one comes back, and
  `StoppedRewinds.StopForgotten` says that any does that outlasts the window.
  `StoppedRewinds.StopSurvivesExactlyWhen` and `CoherentStopSurvivesExactlyWhen`: where no
  strike is pressed at the target meanwhile, a stop holds exactly when the window
  began with no volley at that target.
- A dot can be on the rim unstaggered, and staggers can come closer together than
  their length and immunity, by rules whose staggers last no step: `Rim.OntoRim`,
  with attacks as the world's checks allow them, and `Rim.OnRimUnstaggered`. Neither
  can happen by rules whose staggers last one (or, of the second, where there is
  nothing to wait for), and only by those is it out of the question (of the first,
  where the kick that staggers is positive): `Rim.AlwaysOffRimExactlyWhen` and, step by
  step, `Rim.OffRimExactlyWhen`; `Staggers.RationedExactlyWhen`.
- Undoing a change of subscriptions that adds a channel already held leaves it out:
  `Reconnect.InexactLosesEvents` is a reconnection that loses an event, and
  `Reconnect.UndoneExactlyWhen` says what a change must be for its undoing to be right.
- A volley's second hit comes a step sooner after the first than later ones after
  each other: a volley is counted down in the step that creates it
  (`VolleyRuns.ScheduleExact`).

## Model

| member | source | states |
|---|---|---|
| `Feeds.Feed.Open` | alzendor/feed.py:35-56 | opening a feed at a cursor undoes the changes since from newest to oldest: an added channel goes, a removed one comes back to be read from the cursor, and the player's own stream always stays |
| `Feeds.Feed.Read` | alzendor/feed.py:58-85 | a batch (any order of the entries past the cursor in the subscribed streams) becomes one step of the event-by-event walk: cursor, subscriptions and events are the walk's up to the last entry or the cut |
| `Feeds.Feed.Deliver` | alzendor/feed.py:58-85 | the sorted batch taken entry by entry, cut at the first change of subscriptions or kick: what is handed on is the walk's from the old cursor to the new one |
| `Feeds.Feed.Take` | alzendor/feed.py:66-84 | one entry: handed on if it is plain, else it changes the subscriptions or ends the feed, and cuts the batch exactly when it does |
| `Feeds.WalkExact` | alzendor/feed.py:58-85 | the walk hands on, in strictly increasing order, exactly the plain events whose channel was subscribed at their place |
| `Feeds.OrderedUnique` | alzendor/feed.py:64-66 | sorting a batch leaves one possible order: two ordered lists of the same entries are the same list |
| `Reconnect.WalkIsSimple` | alzendor/feed.py:58-85 | sessions, kicks by other sessions and join numbers make no difference: the walk is the simple one over the channels held at each moment |
| `Reconnect.UndoneExactlyWhen` | alzendor/feed.py:42-53 | one change is undone to the channels held before it if and only if it removed only channels held and added none that stayed held (the player's own stream aside) |
| `Reconnect.InexactLosesEvents` | alzendor/feed.py:42-53 | a room added while already held: a feed opened before that hands on nothing of what was said there earlier, though it was held |
| `Reconnect.OpenedIsHeld` | alzendor/feed.py:35-56 | undoing rebuilds exactly the channels held at the cursor, even those left and rejoined since, all read from the cursor |
| `Reconnect.ReconnectIsInvisible` | alzendor/feed.py:35-85 | for every split of the log, what one feed delivers up to the cursor followed by what a feed opened there delivers is the simple walk of the whole log |
| `Reconnect.RunIsWalk` | alzendor/feed.py:58-85 | over every interleaving of appends and reads, the batches together are exactly the walk up to the cursor: a cut batch's tail is neither lost nor repeated and the cursor never goes back |
| `Reconnect.RunDeliversExactly` | alzendor/feed.py:58-85 | entry by entry: increasing numbers, and an event is delivered if and only if it is past the start, plain, and subscribed at its place |
| `Reconnect.ReconnectedRunsAreOneWalk` | alzendor/feed.py:35-85 | a run of reads, a reconnection where it stopped, and a run of reads until the log is drained deliver the simple walk together |
| `Dots.Dot.constructor` | alzendor/balance.py:220-226 | a dot starts at the centre, its well placed by three draws of its seed |
| `Dots.Dot.Next` | alzendor/balance.py:54-59 | a draw moves the additive state by its stride modulo 2^32 and depends on nothing else |
| `Dots.Dot.TakeSnapshot` | alzendor/balance.py:262-271 | everything but the draws and the cooldowns that have run out |
| `Dots.Dot.Restore` | alzendor/balance.py:274-281 | a snapshot put back, the draws left as they were |
| `Dots.Dot.AddDebuff` | alzendor/balance.py:289-294 | a debuff starts afresh at the larger of the old and new strengths, its length scaled |
| `Dots.Dot.ApplyKick` | alzendor/balance.py:320-339 | a knock by its pattern, in the given direction or one drawn, marking the dot knocked if it has force |
| `Dots.Dot.Stagger` | alzendor/balance.py:342-352 | on the rim where it was hit, still, to ease to a point 0.35 out |
| `Dots.Dot.SteadyHands` | alzendor/balance.py:355-362 | catches one stagger a fight, if the perk is held and unspent |
| `Dots.Dot.CancelVolleys` | alzendor/balance.py:385-387 | the volleys at a target stopped (all, if none is named), the others kept in order |
| `Dots.Dot.StrikeWith` | alzendor/balance.py:365-382 | a valid strike: tier, knock, every slot's cooldown, debuff, and the volley of its later hits |
| `Dots.Dot.CoolSlots` | alzendor/balance.py:372-376 | after a strike each slot waits at least the shared cooldown, and the struck slot its own if longer |
| `Dots.Dot.FireBuffered` | alzendor/balance.py:590-600 | a buffered strike fires, is refused when its time or slot is out, or waits with one step less |
| `Dots.Dot.Check` | alzendor/balance.py:307-317 | why a strike can't happen now, in the order the reasons are looked at |
| `Dots.Dot.RunVolleys` | alzendor/balance.py:484-497 | every volley counted down in order, its hit landed when due, dropped after its last |
| `Dots.Dot.ApplyBlow` | alzendor/balance.py:390-418 | a blow met by a parting, a dodge, a block, a stagger under way, or none of them |
| `Dots.Dot.TakeBlow` | alzendor/balance.py:405-418 | a blow not met: its knock and debuff, and a stagger unless immune or caught by Steady Hands |
| `Dots.Dot.LandBlows` | alzendor/balance.py:602-608 | the step's blows one after another, each on the state the last one left |
| `Dots.Dot.RunTimers` | alzendor/balance.py:421-445 | every timer down by one; a dodge's wobble starts as it ends and immunity as a stagger ends |
| `Dots.Dot.FadeDebuffs` | alzendor/balance.py:441-445 | each debuff a step nearer its end, and gone at it |
| `Dots.Dot.MoveWell` | alzendor/balance.py:448-458 | the well turns or makes for another radius by two draws, eases and goes round |
| `Dots.Dot.ActOn` | alzendor/balance.py:461-481 | one act: a press replaces what was buffered; a dodge, block or unblock is done or refused with its reason |
| `Dots.Dot.MeetRim` | alzendor/balance.py:555-568 | at the rim the dot bounces, is caught, or staggers |
| `Dots.Dot.Settle` | alzendor/balance.py:569-575 | Second Wind comes when the dot is back in its core after a knock |
| `Dots.Dot.Move` | alzendor/balance.py:500-575 | a staggered dot eases to its point; a free one is pulled, pushed, wobbled, damped and moved, and meets the rim |
| `Dots.Dot.Step` | alzendor/balance.py:578-610 | one step changes the fields and reports the events in the order timers, draws, well, acts, buffered strike, volleys, blows, movement |
| `Snapshots.StepAlike` | alzendor/balance.py:578-610 | having the same snapshot is a bisimulation: same events and again the same snapshot after any keys, acts and blows |
| `Snapshots.RestoredCarriesOn` | alzendor/balance.py:262-281 | a dot restored from a snapshot gives, at every step of every later run, the events and snapshots of the dot it was taken of |
| `Snapshots.SnapshotRestored` | alzendor/balance.py:258-281 | restoring and taking a snapshot again gives it back if and only if it holds no cooldown that has run out |
| `Snapshots.SnapshotsAreSnapshots` | alzendor/balance.py:262-271 | and no snapshot taken ever does |
| `Staggers.StepWaits` | alzendor/balance.py:405-440 | a step staggers at most once, only when the last stagger and its immunity are over, and starts both afresh |
| `Staggers.StaggersRationed` | alzendor/balance.py:405-440 | in every run, any two staggers, by blows or the rim, are at least a stagger and its immunity apart |
| `Staggers.RationedExactlyWhen` | alzendor/balance.py:342-352 | that holds of every run from the start if and only if a stagger lasts at least a step or there is nothing to ration |
| `Strikes.PressResolvesOnce` | alzendor/balance.py:590-600 | every press, within the buffer's steps, becomes exactly one first hit at its target or one refusal of its slot, or is replaced by a later press |
| `Strikes.StepOfPress` | alzendor/balance.py:590-600 | a step resolves the buffered press in exactly one event or leaves it one step less |
| `Strikes.FirstHitsAreValid` | alzendor/balance.py:307-317 | a first hit happens only unstaggered, unblocking, inside the core, with gear that isn't cooling |
| `Strikes.FirstHitsApart` | alzendor/balance.py:365-382 | first hits are at least the shared cooldown (and a step) apart, and within a slot its own cooldown too |
| `VolleyRuns.ScheduleExact` | alzendor/balance.py:484-497 | a volley on its own lands hit h in step (h - 1) × gap of its life, counting the press's as the first, for each h from 2 to its hits, and nothing else |
| `VolleyRuns.VolleyDelivers` | alzendor/balance.py:381-497 | in any run of steps and stops, whatever staggers, blocks, other volleys or stops aimed elsewhere come, a first hit of gear with several hits is followed by exactly that schedule, at its tier and target; once a stop is aimed at its target, by nothing more |
| `VolleyRuns.CarriedIs` | alzendor/balance.py:385-387 | a volley on its own, with stops between its steps: where its schedule has it while none is aimed at its target, gone for good from the first that is |
| `VolleyRuns.VolleysCarryOn` | alzendor/balance.py:484-497 | volleys among others carry on, in their place among them, as they would on their own, stops and all |
| `Stops.StopLeavesNone` | alzendor/balance.py:385-387 | a stop leaves no volley at its target, and nothing changed if there was none |
| `VolleyRuns.LaterHitsAreVolleys` | alzendor/balance.py:484-497 | every later hit of a step is a volley's and every volley's hit is reported |
| `VolleyRuns.RunSlotsKnown` | alzendor/balance.py:381-382 | every volley in a run is of a slot that has gear |
| `Randomness.DrawIs` | alzendor/balance.py:48-59 | after n draws the state is the seed plus n strides modulo 2^32 |
| `Randomness.NoRepeat` | alzendor/balance.py:48-59 | no state comes back within 2^32 consecutive draws |
| `Randomness.InputsCannotTouchTheStream` | alzendor/balance.py:584-587 | after n steps under any inputs the generator is at seed + (3 + 4n) strides |
| `Randomness.WellsAgree` | alzendor/balance.py:448-458 | two dots with one seed and the same well rules have the same well at every step, whatever their gear and inputs, while their reeling agrees |
| `Disc.BounceReflects` | alzendor/balance.py:557-565 | a bounce keeps the speed, turns an outward radial velocity inward by as much, leaves an inward one, and puts the dot 0.999 out |
| `Disc.EaseStaysIn` | alzendor/balance.py:502-508 | easing toward a point inside the disc stays strictly inside |
| `Disc.RimKeepsIn` | alzendor/balance.py:555-568 | a free dot ends inside the rim, or on it with a rim stagger |
| `Disc.StepKeepsIn` | alzendor/balance.py:578-610 | any step keeps the dot in its disc, on the rim only by a rim stagger |
| `Disc.DiscInvariant` | alzendor/balance.py:500-575 | in every run from the start the dot is in its disc after every step, and short of the rim unless staggered, where staggers last a step |
| `DiscRuns.PlayerStaysInDisc` | alzendor/encounter.py:206-274 | over every run of steps, inputs and stops, rewinds clean or not, a player's dot and every snapshot kept of it are in the disc, and where staggers last a step, short of the rim or staggered |
| `DiscRuns.JoinsInDisc` | alzendor/encounter.py:362-374 | a player joins like that, with whatever strike opens the fight |
| `DiscRuns.EveryoneStaysInDisc` | alzendor/encounter.py:397-449 | the same of every player of an encounter while they stay, over every run of happenings |
| `Rim.OffRimExactlyWhen` | alzendor/balance.py:555-568 | a step ends short of the rim or staggered if and only if the dot doesn't come to its movement past the rim with neither wobble, immunity nor Steady Hands to stop a stagger, or staggers last at least a step |
| `Rim.AlwaysOffRimExactlyWhen` | alzendor/balance.py:342-352 | short of the rim or staggered after every step of every run (of blows whose kicks are not negative, as the world's are) from the start if staggers last at least a step by the rules, and, where it takes some force to stagger, only if |
| `Rim.OntoRim` | alzendor/balance.py:555-568 | by any rules whose staggers last no step and take some force, attacks landing together, none with the force to stagger, put a dot on the rim unstaggered in its first step, past any gravity, damping or Steady Hands |
| `Rim.OnRimUnstaggered` | alzendor/balance.py:342-352 | by rules whose staggers last no step, one push in the first step puts a dot on the rim unstaggered |
| `Bosses.Boss.Add` | alzendor/balance.py:627-636 | a fill adds to the meter, or empties it into a reel when full; nothing while it reels |
| `Bosses.Boss.Strike` | alzendor/balance.py:638-640 | a strike fills by ten times its kick |
| `Bosses.Boss.PerfectBlock` | alzendor/balance.py:642-643 | a perfect block fills by the rules' amount |
| `Bosses.Boss.Step` | alzendor/balance.py:645-650 | a reel counts down, else the meter drains to no less than nothing |
| `Bosses.ReelsArePaidFor` | alzendor/balance.py:616-649 | a poise for each reel and what the meter holds never exceed what was added while it wasn't reeling; the meter stays in [0, poise) |
| `Bosses.NothingBuildsWhileReeling` | alzendor/balance.py:627-636 | the meter is empty until a reel's end |
| `Bosses.ReelsApart` | alzendor/balance.py:627-649 | two reels are at least a reel's length of the boss's steps apart |
| `Clock.KeptAhead` | alzendor/encounter.py:402-414 | a step, a skip, a reel and a push back each leave a landing that was to come still to come |
| `Clock.SkipAgreesWithSlowClock` | alzendor/encounter.py:298-307 | skipping a stall puts a landing exactly where the landing rule run for every step would: the same place in its period, within a period of the target |
| `Notices.EveryLandingWasAnnounced` | alzendor/encounter.py:399-416 | in every run of an encounter without a skipped stall or a reel, every landing of every step, however pushed back and whoever comes and goes, was announced at least min(warning, period - 1) steps before, with the direction it lands from and the target it falls on if still there |
| `Overdue.TickNoneOverdue` | alzendor/encounter.py:575-582 | a tick comes to its target, by steps or by skipping, with nothing overdue |
| `Overdue.NoneOverdue` | alzendor/encounter.py:298-488 | over every run of ticks, replies, inputs, and players and NPCs coming and going, every landing is still to come between ticks, while each NPC is heard of within its attacks' periods of joining and no strike pulls attacks forward |
| `Overdue.JoinAheadExactlyWhen` | alzendor/encounter.py:376-383 | as an NPC is heard of its landings are all to come if and only if it joined less than each of its periods ago |
| `Blows.StepMeetsEachBlow` | alzendor/balance.py:602-608 | a step has exactly one blow event for each blow, whatever else happens in it |
| `Blows.ReportPairsBlows` | alzendor/encounter.py:276-296 | the running index pairs the k-th blow event with the k-th blow: its attack and how it was met |
| `Blows.PlayerStepsBlows` | alzendor/encounter.py:416-433 | a player's step hands on each blow falling on them once, in order, as it was met, or as a hit before they're on their feet |
| `Landings.AttackLandsOnce` | alzendor/encounter.py:402-414 | an attack due lands exactly once if there are players and never if not: on its announced target if still in, else the first player |
| `Landings.EveryLandingAccounted` | alzendor/encounter.py:397-433 | the blows a step hands on are, each once, the attacks landing in it with the players they fall on |
| `Landings.FirstIsEarliest` | alzendor/encounter.py:394-395 | the first player is in the fight and no one there joined sooner (by name among those at once) |
| `Rollback.StepCoherent` | alzendor/encounter.py:426-433 | a step keeps the player as the run with every input in time leaves them, and reports what that run does |
| `Rollback.CancelCoherent` | alzendor/encounter.py:387-390 | so does stopping volleys between steps |
| `Rollback.CleanRewindIsInTime` | alzendor/encounter.py:241-274 | after a clean rewind with late keys or a late act, the dot, seal, every later snapshot and report are those of the run with it there from the step it was done at (or the oldest kept), and what is reported now is what that run reports more |
| `Rollback.CoherentIsConsistent` | alzendor/encounter.py:255-259 | so each history entry, replayed, gives the next one's snapshot, and the last the dot's |
| `RollbackRuns.RollbackEquivalence` | alzendor/encounter.py:206-274 | over every run of steps, inputs and stops in which each rewind carried out has a clean window with nothing stopped in it, the player and everything handed on are those of a run with each input in its window |
| `InTimeRuns.RewindRevisesFrom` | alzendor/encounter.py:249-265 | a clean rewind puts its revision into exactly the steps from the one it was done at, or the oldest kept, on |
| `InTimeRuns.StandsAsInTime` | alzendor/encounter.py:206-274 | and that run is the one told from the inputs alone, each in the steps from where it was done: the player stands as after it, holds and waits with what it does, and everything handed on is, in order, what it reports |
| `RollbackRuns.UncleanTakesOnlyTheMotion` | alzendor/encounter.py:254-273 | late keys over a window that isn't clean take the replay's place and movement, keep everything else as it happened, and hand nothing on |
| `UncleanRewinds.UncleanConsistentExactlyWhen` | alzendor/encounter.py:255-273 | after them every history entry but the last still replays to the next one's snapshot, and the last to the dot if and only if the replay came out with the rest of the dot as it happened |
| `UncleanRewinds.LateActsWait` | alzendor/encounter.py:251-254 | in every run, taking the step out of every act that comes too late for it (its window has gone to the rules) changes neither the player nor anything handed on: it is an act of the next step |
| `RollbackRuns.CleanRewindForgetsStops` | alzendor/encounter.py:268-270 | a clean rewind comes out the same whether volleys were stopped in its window or not |
| `StoppedRewinds.StopSurvivesExactlyWhen` | alzendor/encounter.py:255-270 | with no press at the target in a clean window, a stop made in it holds through a rewind over it (nothing under way at the target, nothing landed) if and only if the window began with no volley at that target |
| `StoppedRewinds.CoherentStopSurvivesExactlyWhen` | alzendor/encounter.py:255-270 | for a player whose history is a run's, the volleys stay stopped if and only if the window began with none |
| `StepOrder.RunWellExactlyWhen` | alzendor/encounter.py:206-274 | with steps in order, a run keeps to those terms if and only if every rewind it carries out has a clean window with no volley stopped in it |
| `StoppedRewinds.StopForgotten` | alzendor/encounter.py:255-270 | a volley that outlasts the window is stopped, and comes back with a clean rewind over it |
| `Forgotten.StoppedVolleyComesBack` | alzendor/encounter.py:255-270 | a run in which it does: joined with the opening strike of gear that hits twice, a step, a quiet step, the target gone, and other keys held since that step |
| `Unclean.UncleanRewindBreaksHistory` | alzendor/encounter.py:255-273 | a refused block and then late steering over it: the history was consistent and isn't after the rewind |
| `Conservation.RewindConserves` | alzendor/encounter.py:241-274 | a rewind, clean or not, puts its act into one entry if it is carried out, keeps every other act, and hands on what it adds to the entries' reports |
| `Conservation.NothingLostOrDoubled` | alzendor/encounter.py:206-274 | in every run, clean or not, the accepted acts are, each once, those of all entries ever and those waiting, and the consequences handed on those of all entries' reports |
| `Published.RewindKeepsOldest` | alzendor/encounter.py:255-259 | no rewind, clean or not, changes the oldest snapshot kept |
| `Published.NoInputChangesThePublished` | alzendor/encounter.py:509-516 | in every run, no input, however late, changes the snapshot published of a dot |
| `FighterRuns.FighterHasItsRun` | alzendor/encounter.py:397-449 | in every run of an encounter a player who stays stands as after their own run of steps with the blows on them, inputs and stops |
| `FighterRuns.RunInOrder` | alzendor/encounter.py:575-582 | the clock never goes back, and a player's steps in an encounter are in strictly increasing order |
| `Handovers.SentGrows` | alzendor/encounter.py:575-584 | what ticks have handed on and what waits in `late` only grows, by what a tick's steps or an input's rewinds told: nothing is dropped and nothing handed on twice |
| `Handovers.SentIsOut` | alzendor/encounter.py:206-274 | of a player who stays, the calls of all ticks and those waiting are, one by one and in order, what their own operations told |
| `Handovers.NothingMoreSent` | alzendor/encounter.py:397-439 | of someone not in the fight nothing more is handed on |
| `Handovers.RunKeepsDistinct` | alzendor/encounter.py:349-360 | no one is in a fight twice, whatever happens |
| `Handovers.EncounterRollback` | alzendor/encounter.py:206-274 | in every run of an encounter, of a player who stays: accepted acts are each once in an entry ever or waiting; the dot's consequences in all ticks' calls and in `late` are exactly the reports of all entries ever (and the blows landed before they were on their feet); and while the rewinds carried out have clean windows the player and those reports are those of the run with every input in time |
| `LandingRuns.LandingsAccounted` | alzendor/encounter.py:397-433 | over every run, the blows handed on are, each once, the attacks that landed in its steps with the players they fell on |
| `Players.Player.constructor` | alzendor/encounter.py:362-374 | a player joins with a dot and one to replay on, the same, and the strike that opened the fight waiting |
| `Players.Player.Report` | alzendor/encounter.py:276-296 | a step's events become calls in order, each blow with its attack; Berserk Seal is spent by the first stagger |
| `Players.Player.RunStep` | alzendor/encounter.py:416-433 | a player's part of a step: blows just land before they're on their feet; else a flight, the dot's step, and an entry of what went in and came out |
| `Players.Player.Rewind` | alzendor/encounter.py:241-274 | the window replayed in place; a clean one replaces the dot, any other only its place and movement; refused for an act over an unclean window, changing nothing |
| `Players.Player.Replay` | alzendor/encounter.py:255-265 | each entry in the window gets its snapshot taken anew, the keys, the act in the first, and (clean) its report; those before it are left |
| `Players.Player.Input` | alzendor/encounter.py:206-239 | sequence number, held keys and act taken in that order, rewinding where the input is late |
| `Players.Player.ActNow` | alzendor/encounter.py:233-234 | an act goes into the step it was done at if it may, else waits |
| `Owners.Npc.constructor` | alzendor/encounter.py:376-385 | an NPC's attacks land first a period after it joins, warned of at most a period before |
| `Owners.Npc.RunAttacks` | alzendor/encounter.py:400-414 | its attacks announced and landing at a step, in order |
| `Owners.Npc.SkipTo` | alzendor/encounter.py:298-307 | each attack due by the target moved to its next landing after it, its announcement forgotten |
| `Owners.Npc.Hold` | alzendor/encounter.py:441-447 | while its boss reels each attack due is put off to the reel's end |
| `Owners.Npc.StrikeBoss` | alzendor/encounter.py:474-475 | a strike fills the meter, and a reel puts off its attacks |
| `Owners.Npc.Struck` | alzendor/encounter.py:471-475 | a strike pushes its attacks back, then fills its meter |
| `Owners.Owner.FirstPlayer` | alzendor/encounter.py:394-395 | the least by joining time and name |
| `Owners.Owner.RunStep` | alzendor/encounter.py:397-439 | a step of the whole encounter: attacks, then players, then bosses, and the calls in that order |
| `Owners.Owner.SkipTo` | alzendor/encounter.py:298-307 | the clock put forward, every NPC's attacks with it |
| `Owners.Owner.Tick` | alzendor/encounter.py:575-582 | late calls first, then steps up to the target, at most MAX_CATCH_UP of them and then a skip |
| `Owners.Owner.Input` | alzendor/encounter.py:206-239 | the named player takes the input and its late calls wait for the next tick; nothing if they aren't in the fight |
| `Owners.Owner.AddPlayer` | alzendor/encounter.py:349-374 | a player not yet in the fight added after those there |
| `Owners.Owner.AddNpc` | alzendor/encounter.py:352-385 | an NPC not yet in the fight added after those there |
| `Owners.Owner.DropPlayer` | alzendor/encounter.py:482-497 | a player dead or fled taken out, the others as they were |
| `Owners.Owner.DropNpc` | alzendor/encounter.py:387-390 | an NPC taken out and every player's volleys at it stopped |
| `Owners.Owner.AfterStrike` | alzendor/encounter.py:453-476 | after a strike: volleys at a target gone stopped, an NPC killed dropped, else pushed back and its meter filled; whether it reels is reported |
| `Owners.Owner.AfterPerfectBlock` | alzendor/encounter.py:484-488 | a perfect block of a boss's blow fills its meter; whether it reels is reported |
| `World.WorldGraph` | alzendor/world.py:296-326 | an edge for exactly each way to walk, ride or be stranded between rooms that aren't waypoints; exactly the rooms some effect teleports to or maroons in |
| `World.EffectsAreAll` | alzendor/world.py:311-323 | the effects found are exactly those anywhere inside, however nested |
| `World.Reach` | alzendor/world.py:329-336 | the search ends with exactly the rooms a walk joins to its starts |
| `World.Backwards` | alzendor/world.py:352-355 | every edge turned round, and no other |
| `World.JoinedReversed` | alzendor/world.py:352-358 | a walk leads home if and only if the turned graph has a walk from home |
| `World.GraphProblems` | alzendor/world.py:339-359 | reported cut off: exactly the rooms no character can come to, unless marked so; traps: exactly those a character can come to and can't go home from |
| `Quests.Search` | alzendor/world.py:569-579 | the steps reached are exactly those on the chain of `then`, and it ends if and only if one of them has none |
| `Quests.StepProblems` | alzendor/world.py:563-585 | each problem is reported if and only if the quest has it |
| `Quests.AcceptedIsSimplePath` | alzendor/world.py:563-586 | nothing wrong with the steps if and only if they form one simple path from the start through every step |
| `Quests.SimplePathLength` | alzendor/world.py:569-579 | which is as long as there are steps |
| `Quests.CheckSteps` | alzendor/world.py:563-586 | the check finds nothing wrong if and only if the quest is one simple path |
| `Weather.EvenedBracket` | alzendor/weather.py:47-49 | a sum inside the table lies in one proper step of it, so the zero-span guard is never taken |
| `Weather.EvenedRange` | alzendor/weather.py:39-50 | evened values lie in [-1, 1]: -1 exactly for a sum no more than the table's first, 1 only for one no less than its last (and more than its first) |
| `Weather.EvenedMonotone` | alzendor/weather.py:39-50 | never decreasing in the wave sum, and strictly increasing inside the table |
| `Weather.EvenedAtQuantile` | alzendor/weather.py:47-50 | at a quantile of the table, exactly its share of the way |
| `Weather.StretchOdd` | alzendor/weather.py:53-57 | odd |
| `Weather.StretchRoundTrip` | alzendor/weather.py:53-57 | one-to-one from [-1, 1] onto [-1, 1], undone both ways by its inverse |
| `Weather.StretchMonotone` | alzendor/weather.py:53-57 | strictly increasing |
| `Weather.TemperateThird` | alzendor/weather.py:19-57 | a stretched value is within a half if and only if the value is within the centre share, whose square is a third |
| `Weather.SkyKeepsOrder` | alzendor/weather.py:60-66 | every reading of a realm's sky is in range and keeps the order of its wave sums |

## Left out

- The rules in Lua, and the web client's copy of the simulation: what Lua replies to a strike, a blow or a flight is a parameter of what follows from it.
- Redis, sockets, publishing, leases, heartbeats, and the tasks that run the loop: input and output. Stream entries are numbered one after another, as the rules number them, and none is trimmed while a feed reads.
- The feed's theorems about reconnection assume control events are exact (they add only channels not held, remove only channels held, and never the player's own stream), as the rules write them; `Reconnect.UndoneExactlyWhen` says what undoing one needs.
- Rounding of floats, the values of the trigonometric functions, and statistical claims. How mulberry32 mixes its state into a number: the output is an arbitrary function of the state into [0, 1).
- Seeds from names, rules read from the world or changed by a player's stats, and gear read from dictionaries: the model starts from the values they come to.
- A tick's calls carried out one after another, and broken off if the encounter ends meanwhile: the model hands a tick's calls on whole, and what follows from each reply is an operation of its own.
- A boss's `damage_mult`, which only goes into a call to the rules.
- Whom a strike is aimed at by name: an input carries what that comes to, or that it named no one.
- That an opening strike is put in once a player an encounter: whoever adds the player says whether there is one.
- Groups of the dot's fields (place and movement, stagger, well, guard, feats) are records, assigned together where the original assigns them one by one.
- A debuff's strength is not negative and its length is at least a step, by the types that hold them.
- The cooldowns of a strike and of a step are changed for all slots at once rather than slot by slot; slots don't affect each other there.
- The order of problems and the text of their messages: a check gives the set of what it reports.
- The rest of the checks of world data and of quests, field by field.
- RollbackEquivalence: needs each rewind carried out to have a clean window with no volley stopped in it, because without that the claim is false (see above). That steps come in order, which it needs too, holds in every encounter (`FighterRuns.RunInOrder`).
- EveryLandingWasAnnounced: allows push backs but no skipped stall or boss's reel, which take an announcement back, and starts from where nothing is late; each NPC is heard of before the first of its warnings is due, and an attack whose warning is negative is never told of.
- NoneOverdue: assumes an NPC is heard of less than each of its attacks' periods after it joined, and that no reply's `stagger_ms` is negative: neither is the owner's to see to. `JoinAheadExactlyWhen` says what the first comes to.
- AlwaysOffRimExactlyWhen: by rules under which a blow without any force staggers, says only that staggers that last a step keep the dot off the rim.
- ReelsArePaidFor: is of fills and drains that are not negative, and a positive poise, as all are.
- WellsAgree: needs the two dots' reeling debuffs to agree at each step, because reeling moves the well.
