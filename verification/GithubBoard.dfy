/**
  The GitHub board: each tick compares the observed Status of every item with the last
  one on record, and turns the transitions that dispatch into work in one atomic save.
*/
module GithubBoard {
  import opened Basics
  import opened DispatchOutbox

  type Status = Option<string>

  // project, item, option and updatedAt
  datatype Generation = Generation(project: nat, item: ItemId, optionId: string, updatedAt: string)

  datatype Item = Item(id: ItemId, optionId: string, status: Status, updatedAt: string)

  /** A record restored by prune recovery has no generation. */
  datatype Observation = Observation(generation: Option<Generation>, status: Status)

  datatype Answer = NoAnswer | Closed | Readded(id: ItemId, status: string)

  function DispatchInto(status: Status): Option<string> {
    if status == Some("Ready") then Some("agent::ready")
    else if status == Some("Ready-research") then Some("agent::ready-research")
    else None
  }

  predicate DispatchFrom(status: Status) {
    status == Some("Triage") || status == Some("Needs-info") || status == Some("Failed") || status == None
  }

  predicate Enabled(status: Status, enabled: Option<set<string>>) {
    DispatchInto(status).Some? && (enabled.Some? ==> DispatchInto(status).value in enabled.value)
  }

  predicate Dispatches(before: Status, after: Status, enabled: Option<set<string>>) {
    Enabled(after, enabled) && DispatchFrom(before)
  }

  function GenerationOf(project: nat, item: Item): Generation {
    Generation(project, item.id, item.optionId, item.updatedAt)
  }

  function RecordOf(project: nat, item: Item): Observation {
    Observation(Some(GenerationOf(project, item)), item.status)
  }

  // ---- one tick's diff

  datatype Poll = Poll(bootstrapped: bool, observations: map<ItemId, Observation>, outbox: map<Generation, Entry>)

  datatype Config = Config(project: nat, enabled: Option<set<string>>)

  predicate Fires(p: Poll, c: Config, item: Item) {
    && p.bootstrapped && item.id in p.observations
    && p.observations[item.id].generation != Some(GenerationOf(c.project, item))
    && Dispatches(p.observations[item.id].status, item.status, c.enabled)
  }

  function Command(item: Item, now: real): Entry {
    Entry(item.id, if DispatchInto(item.status).Some? then DispatchInto(item.status).value else "", false, now)
  }

  /** A record whose generation has not changed is left as it is. */
  predicate Unchanged(p: Poll, c: Config, item: Item) {
    && p.bootstrapped && item.id in p.observations
    && p.observations[item.id].generation == Some(GenerationOf(c.project, item))
  }

  function Observed(p: Poll, c: Config, item: Item, now: real): Poll {
    if Unchanged(p, c, item) then p
    else p.(observations := p.observations[item.id := RecordOf(c.project, item)],
       outbox := if Fires(p, c, item) then p.outbox[GenerationOf(c.project, item) := Command(item, now)] else p.outbox)
  }

  function ObservedAll(p: Poll, c: Config, items: seq<Item>, now: real): Poll
    decreases |items|
  {
    if items == [] then p
    else Observed(ObservedAll(p, c, items[..|items| - 1], now), c, items[|items| - 1], now)
  }

  // ---- prune recovery

  function Recovered(observations: map<ItemId, Observation>, present: set<ItemId>, id: ItemId, answer: Answer)
    : map<ItemId, Observation>
  {
    if id in present || id !in observations then observations
    else
      match answer
      case NoAnswer => observations
      case Closed => observations - {id}
      case Readded(added, status) => (observations - {id})[added := Observation(None, Some(status))]
  }

  /** `answers` holds what the forge said of each missing item, in the order asked. */
  function RecoveredAll(
      observations: map<ItemId, Observation>, present: set<ItemId>, answers: seq<(ItemId, Answer)>)
    : map<ItemId, Observation>
    decreases |answers|
  {
    if answers == [] then observations
    else
      var last := answers[|answers| - 1];
      Recovered(RecoveredAll(observations, present, answers[..|answers| - 1]), present, last.0, last.1)
  }

  // ---- ticks

  /** `saved` is false when the tick was aborted, or the process died, before its save. */
  datatype Tick = Tick(
    items: seq<Item>, answers: seq<(ItemId, Answer)>, enabled: Option<set<string>>, now: real, saved: bool)

  datatype Board = Board(poll: Poll, work: seq<Work<Generation>>)

  const EMPTY := Board(Poll(false, map[], map[]), [])

  function Ids(items: seq<Item>): set<ItemId> {
    set i | 0 <= i < |items| :: items[i].id
  }

  function Fetched(p: Poll, project: nat, tick: Tick): Poll {
    var q := ObservedAll(p, Config(project, tick.enabled), tick.items, tick.now);
    if p.bootstrapped then q.(observations := RecoveredAll(q.observations, Ids(tick.items), tick.answers)) else q
  }

  ghost predicate Ticks(b: Board, project: nat, tick: Tick, e: Board) {
    if !tick.saved then e == b
    else
      exists fires, trimmed ::
        var q := Fetched(b.poll, project, tick);
        && Enumerates(fires, Undispatched(q.outbox)) && Trimmed(Marked(q.outbox, fires), trimmed)
        && e == Board(q.(bootstrapped := true, outbox := trimmed), b.work + WorkOf(q.outbox, fires))
  }

  // ---- what one tick queues

  /** The item is compared with what the items before it in the listing have left. */
  predicate FiresAt(p: Poll, c: Config, items: seq<Item>, now: real, i: nat)
    requires i < |items|
  {
    Fires(ObservedAll(p, c, items[..i], now), c, items[i])
  }

  /** It fires, and no later item of the listing fires under the same generation. */
  predicate FiresLast(p: Poll, c: Config, items: seq<Item>, now: real, i: nat)
    requires i < |items|
  {
    && FiresAt(p, c, items, now, i)
    && forall k :: i < k < |items| && FiresAt(p, c, items, now, k) ==>
         GenerationOf(c.project, items[k]) != GenerationOf(c.project, items[i])
  }

  predicate Fired(p: Poll, c: Config, items: seq<Item>, now: real, g: Generation) {
    exists i :: 0 <= i < |items| && FiresLast(p, c, items, now, i) && g == GenerationOf(c.project, items[i])
  }

  /** Among the items before the last, it fires last unless the last one fires under its generation. */
  lemma FiresLastAmong(p: Poll, c: Config, items: seq<Item>, now: real, i: nat)
    requires i < |items| - 1
    ensures var init := items[..|items| - 1];
            && (FiresAt(p, c, items, now, i) <==> FiresAt(p, c, init, now, i))
            && (FiresLast(p, c, items, now, i) <==>
                  && FiresLast(p, c, init, now, i)
                  && !(FiresAt(p, c, items, now, |items| - 1)
                       && GenerationOf(c.project, items[|items| - 1]) == GenerationOf(c.project, items[i])))
  {
    var init := items[..|items| - 1];
    forall k | 0 <= k < |init| ensures FiresAt(p, c, items, now, k) <==> FiresAt(p, c, init, now, k) {
      assert init[..k] == items[..k];
    }
  }

  /** The commands queued are exactly those of the items that fire, each as its last such item gives it. */
  lemma {:induction false} QueuesExactlyWhatFires(p: Poll, c: Config, items: seq<Item>, now: real)
    requires Undispatched(p.outbox) == {}
    ensures var q := ObservedAll(p, c, items, now);
            && (forall g :: g in Undispatched(q.outbox) <==> Fired(p, c, items, now, g))
            && (forall i :: 0 <= i < |items| && FiresLast(p, c, items, now, i) ==>
                  Queued(q.outbox, c.project, items[i], now))
    decreases |items|
  {
    if items != [] {
      var last := |items| - 1;
      var init := items[..last];
      QueuesExactlyWhatFires(p, c, init, now);
      var q := ObservedAll(p, c, items, now);
      forall i | 0 <= i < |items| && FiresLast(p, c, items, now, i) ensures Queued(q.outbox, c.project, items[i], now) {
        if i < last {
          FiresLastAmong(p, c, items, now, i);
          assert Queued(ObservedAll(p, c, init, now).outbox, c.project, init[i], now);
        }
      }
      forall g ensures g in Undispatched(q.outbox) <==> Fired(p, c, items, now, g) {
        QueuedByStep(p, c, items, now, g);
      }
    }
  }

  predicate Queued(outbox: map<Generation, Entry>, project: nat, item: Item, now: real) {
    GenerationOf(project, item) in outbox && outbox[GenerationOf(project, item)] == Command(item, now)
  }

  lemma QueuedByStep(p: Poll, c: Config, items: seq<Item>, now: real, g: Generation)
    requires items != []
    requires var init := items[..|items| - 1];
             g in Undispatched(ObservedAll(p, c, init, now).outbox) <==> Fired(p, c, init, now, g)
    ensures g in Undispatched(ObservedAll(p, c, items, now).outbox) <==> Fired(p, c, items, now, g)
  {
    var last := |items| - 1;
    var init := items[..last];
    if FiresAt(p, c, items, now, last) && g == GenerationOf(c.project, items[last]) {
      assert FiresLast(p, c, items, now, last);
    } else {
      assert g in Undispatched(ObservedAll(p, c, items, now).outbox) <==>
               g in Undispatched(ObservedAll(p, c, init, now).outbox);
      if i :| 0 <= i < |init| && FiresLast(p, c, init, now, i) && g == GenerationOf(c.project, init[i]) {
        FiresLastAmong(p, c, items, now, i);
        assert FiresLast(p, c, items, now, i);
      }
      if i :| 0 <= i < |items| && FiresLast(p, c, items, now, i) && g == GenerationOf(c.project, items[i]) {
        FiresLastAmong(p, c, items, now, i);
        assert FiresLast(p, c, init, now, i);
      }
    }
  }

  function WorkFor(project: nat, item: Item): Work<Generation> {
    Work(GenerationOf(project, item), item.id, Command(item, 0.0).trigger)
  }

  /** One piece of work for each generation that fires. */
  function Due(p: Poll, c: Config, items: seq<Item>, now: real): set<Work<Generation>> {
    set i | 0 <= i < |items| && FiresLast(p, c, items, now, i) :: WorkFor(c.project, items[i])
  }

  function DueIn(p: Poll, project: nat, t: Tick): set<Work<Generation>> {
    Due(p, Config(project, t.enabled), t.items, t.now)
  }

  lemma DueIsQueued(p: Poll, c: Config, items: seq<Item>, now: real, fires: seq<Generation>)
    requires Undispatched(p.outbox) == {}
    requires Enumerates(fires, Undispatched(ObservedAll(p, c, items, now).outbox))
    ensures var work := WorkOf(ObservedAll(p, c, items, now).outbox, fires);
            && (forall w :: w in work <==> w in Due(p, c, items, now))
            && (forall k, m :: 0 <= k < m < |work| ==> work[k].generation != work[m].generation)
  {
    QueuesExactlyWhatFires(p, c, items, now);
    var o := ObservedAll(p, c, items, now).outbox;
    forall g | g in Undispatched(o) ensures Work(g, o[g].item, o[g].trigger) in Due(p, c, items, now) {
      assert Fired(p, c, items, now, g);
      var i :| 0 <= i < |items| && FiresLast(p, c, items, now, i) && g == GenerationOf(c.project, items[i]);
      assert Queued(o, c.project, items[i], now);
      assert Work(g, o[g].item, o[g].trigger) == WorkFor(c.project, items[i]);
    }
    forall w | w in Due(p, c, items, now)
      ensures w.generation in Undispatched(o) && w == Work(w.generation, o[w.generation].item, o[w.generation].trigger)
    {
      var i :| 0 <= i < |items| && FiresLast(p, c, items, now, i) && w == WorkFor(c.project, items[i]);
      assert Queued(o, c.project, items[i], now);
    }
    FiresBecomeWork(o, fires, Due(p, c, items, now));
  }

  // ---- sightings: the history of one item, read off the ticks alone

  datatype Sighting = Never | Sighted(generation: Option<Generation>, status: Status)

  /** The last thing that recovery did to the item with this id, on top of `before`. */
  function AfterAnswers(before: Sighting, present: set<ItemId>, answers: seq<(ItemId, Answer)>, id: ItemId): Sighting
    decreases |answers|
  {
    if answers == [] then before
    else
      var n := |answers| - 1;
      var earlier := AfterAnswers(before, present, answers[..n], id);
      var asked, answer := answers[n].0, answers[n].1;
      if asked in present || answer.NoAnswer? then earlier
      else if answer.Readded? && answer.id == id then Sighted(None, Some(answer.status))
      else if asked == id then Never
      else earlier
  }

  predicate Bootstrapped(ticks: seq<Tick>) {
    exists i :: 0 <= i < |ticks| && ticks[i].saved
  }

  /** `started` says that the project was bootstrapped before. */
  function AfterItems(before: Sighting, started: bool, project: nat, items: seq<Item>, id: ItemId): Sighting
    decreases |items|
  {
    if items == [] then before
    else
      var earlier := AfterItems(before, started, project, items[..|items| - 1], id);
      var item := items[|items| - 1];
      if item.id != id then earlier
      else if started && earlier.Sighted? && earlier.generation == Some(GenerationOf(project, item)) then earlier
      else Sighted(Some(GenerationOf(project, item)), item.status)
  }

  /** How the item was last seen, or restored, in the committed ticks. */
  function LastSighting(ticks: seq<Tick>, project: nat, id: ItemId): Sighting
    decreases |ticks|
  {
    if ticks == [] then Never
    else
      var earlier, t := ticks[..|ticks| - 1], ticks[|ticks| - 1];
      var before := LastSighting(earlier, project, id);
      if !t.saved then before
      else
        var seen := AfterItems(before, Bootstrapped(earlier), project, t.items, id);
        if Bootstrapped(earlier) then AfterAnswers(seen, Ids(t.items), t.answers, id) else seen
  }

  /** How item `i` of tick `n` was last seen: in the earlier ticks, or before it in this listing. */
  function SeenBefore(ticks: seq<Tick>, project: nat, n: nat, i: nat): Sighting
    requires n < |ticks| && i < |ticks[n].items|
  {
    var id := ticks[n].items[i].id;
    AfterItems(LastSighting(ticks[..n], project, id), Bootstrapped(ticks[..n]), project, ticks[n].items[..i], id)
  }

  /** Item `i` of tick `n` makes a transition that dispatches. */
  predicate Transition(ticks: seq<Tick>, project: nat, n: nat, i: nat)
    requires n < |ticks| && i < |ticks[n].items|
  {
    var item, last := ticks[n].items[i], SeenBefore(ticks, project, n, i);
    && ticks[n].saved && Bootstrapped(ticks[..n])
    && last.Sighted? && last.generation != Some(GenerationOf(project, item))
    && Dispatches(last.status, item.status, ticks[n].enabled)
  }

  /** The last transition of tick `n` under its generation. */
  predicate LastTransition(ticks: seq<Tick>, project: nat, n: nat, i: nat)
    requires n < |ticks| && i < |ticks[n].items|
  {
    && Transition(ticks, project, n, i)
    && forall k :: i < k < |ticks[n].items| && Transition(ticks, project, n, k) ==>
         GenerationOf(project, ticks[n].items[k]) != GenerationOf(project, ticks[n].items[i])
  }

  /** Some item of tick `n` makes a transition that asks for this work; if an item is listed
      several times, under one generation, the last one says what work it is. */
  predicate Warranted(ticks: seq<Tick>, project: nat, n: nat, w: Work<Generation>)
    requires n < |ticks|
  {
    exists i ::
      && 0 <= i < |ticks[n].items| && LastTransition(ticks, project, n, i)
      && w == WorkFor(project, ticks[n].items[i])
  }

  /** Where the listing shows each item once, every transition asks for its work. */
  lemma OnceListedIsLast(ticks: seq<Tick>, project: nat, n: nat, i: nat)
    requires n < |ticks| && i < |ticks[n].items|
    requires forall k :: 0 <= k < |ticks[n].items| && k != i ==> ticks[n].items[k].id != ticks[n].items[i].id
    ensures SeenBefore(ticks, project, n, i) == LastSighting(ticks[..n], project, ticks[n].items[i].id)
    ensures LastTransition(ticks, project, n, i) <==> Transition(ticks, project, n, i)
  {
    var id := ticks[n].items[i].id;
    var before := LastSighting(ticks[..n], project, id);
    OthersShowNothing(before, Bootstrapped(ticks[..n]), project, ticks[n].items[..i], id);
  }

  lemma {:induction false} OthersShowNothing(
      before: Sighting, started: bool, project: nat, items: seq<Item>, id: ItemId)
    requires forall k :: 0 <= k < |items| ==> items[k].id != id
    ensures AfterItems(before, started, project, items, id) == before
    decreases |items|
  {
    if items != [] { OthersShowNothing(before, started, project, items[..|items| - 1], id); }
  }

  // ---- the records are the sightings

  function SightingOf(observations: map<ItemId, Observation>, id: ItemId): Sighting {
    if id in observations then Sighted(observations[id].generation, observations[id].status) else Never
  }

  /** Recovery asks once about each item on record. */
  predicate Asks(answers: seq<(ItemId, Answer)>, observations: map<ItemId, Observation>) {
    && (forall i :: 0 <= i < |answers| ==> answers[i].0 in observations)
    && (forall i, k :: 0 <= i < k < |answers| ==> answers[i].0 != answers[k].0)
  }

  predicate AsksAfter(p: Poll, project: nat, t: Tick) {
    Asks(t.answers, ObservedAll(p, Config(project, t.enabled), t.items, t.now).observations)
  }

  lemma {:induction false} UnaskedStays(
      observations: map<ItemId, Observation>, present: set<ItemId>, answers: seq<(ItemId, Answer)>, id: ItemId)
    requires id in observations && forall i :: 0 <= i < |answers| ==> answers[i].0 != id
    ensures id in RecoveredAll(observations, present, answers)
    decreases |answers|
  {
    if answers != [] { UnaskedStays(observations, present, answers[..|answers| - 1], id); }
  }

  lemma {:induction false} RecordsAfterAnswers(
      observations: map<ItemId, Observation>, present: set<ItemId>, answers: seq<(ItemId, Answer)>, id: ItemId)
    requires Asks(answers, observations)
    ensures SightingOf(RecoveredAll(observations, present, answers), id)
            == AfterAnswers(SightingOf(observations, id), present, answers, id)
    decreases |answers|
  {
    if answers != [] {
      var init := answers[..|answers| - 1];
      RecordsAfterAnswers(observations, present, init, id);
      UnaskedStays(observations, present, init, answers[|answers| - 1].0);
    }
  }

  lemma {:induction false} RecordsAfterItems(p: Poll, c: Config, items: seq<Item>, now: real, id: ItemId)
    ensures SightingOf(ObservedAll(p, c, items, now).observations, id)
            == AfterItems(SightingOf(p.observations, id), p.bootstrapped, c.project, items, id)
    ensures ObservedAll(p, c, items, now).bootstrapped == p.bootstrapped
    decreases |items|
  {
    if items != [] { RecordsAfterItems(p, c, items[..|items| - 1], now, id); }
  }

  // ---- runs

  ghost predicate TickAt(states: seq<Board>, project: nat, ticks: seq<Tick>, i: nat)
    requires |states| == |ticks| + 1 && i < |ticks|
  {
    && Ticks(states[i], project, ticks[i], states[i + 1])
    && AsksAfter(states[i].poll, project, ticks[i])
  }

  ghost predicate IsHistory(states: seq<Board>, project: nat, ticks: seq<Tick>) {
    && |states| == |ticks| + 1 && states[0] == EMPTY
    && forall i :: 0 <= i < |ticks| ==> TickAt(states, project, ticks, i)
  }

  lemma TickKeepsRecords(b: Board, project: nat, earlier: seq<Tick>, t: Tick, e: Board, id: ItemId)
    requires Ticks(b, project, t, e) && AsksAfter(b.poll, project, t)
    requires b.poll.bootstrapped == Bootstrapped(earlier)
    requires SightingOf(b.poll.observations, id) == LastSighting(earlier, project, id)
    ensures SightingOf(e.poll.observations, id) == LastSighting(earlier + [t], project, id)
    ensures e.poll.bootstrapped == Bootstrapped(earlier + [t])
  {
    assert (earlier + [t])[..|earlier|] == earlier;
    var c := Config(project, t.enabled);
    RecordsAfterItems(b.poll, c, t.items, t.now, id);
    RecordsAfterAnswers(ObservedAll(b.poll, c, t.items, t.now).observations, Ids(t.items), t.answers, id);
    if t.saved { assert (earlier + [t])[|earlier|].saved; }
    if i :| 0 <= i < |earlier| && earlier[i].saved { assert (earlier + [t])[i].saved; }
  }

  lemma {:induction false} RecordsAreSightings(states: seq<Board>, project: nat, ticks: seq<Tick>, n: nat, id: ItemId)
    requires IsHistory(states, project, ticks) && n <= |ticks|
    ensures SightingOf(states[n].poll.observations, id) == LastSighting(ticks[..n], project, id)
    ensures states[n].poll.bootstrapped == Bootstrapped(ticks[..n])
  {
    if n > 0 {
      RecordsAreSightings(states, project, ticks, n - 1, id);
      assert TickAt(states, project, ticks, n - 1);
      assert ticks[..n] == ticks[..n - 1] + [ticks[n - 1]];
      TickKeepsRecords(states[n - 1], project, ticks[..n - 1], ticks[n - 1], states[n], id);
    }
  }

  lemma {:induction false} NothingStaysQueued(states: seq<Board>, project: nat, ticks: seq<Tick>, n: nat)
    requires IsHistory(states, project, ticks) && n <= |ticks|
    ensures Undispatched(states[n].poll.outbox) == {}
  {
    if n > 0 {
      NothingStaysQueued(states, project, ticks, n - 1);
      assert TickAt(states, project, ticks, n - 1);
      if ticks[n - 1].saved {
        var q := Fetched(states[n - 1].poll, project, ticks[n - 1]);
        var fires, trimmed :| Enumerates(fires, Undispatched(q.outbox)) && Trimmed(Marked(q.outbox, fires), trimmed)
          && states[n] == Board(
               q.(bootstrapped := true, outbox := trimmed), states[n - 1].work + WorkOf(q.outbox, fires));
        CommitSettles(q.outbox, fires, trimmed);
      }
    }
  }

  /** The poller's test against its records is the transition told by the history. */
  lemma TransitionsFire(states: seq<Board>, project: nat, ticks: seq<Tick>, n: nat, i: nat)
    requires IsHistory(states, project, ticks) && n < |ticks| && ticks[n].saved && i < |ticks[n].items|
    ensures FiresAt(states[n].poll, Config(project, ticks[n].enabled), ticks[n].items, ticks[n].now, i)
            <==> Transition(ticks, project, n, i)
  {
    var t := ticks[n];
    RecordsAreSightings(states, project, ticks, n, t.items[i].id);
    RecordsAfterItems(states[n].poll, Config(project, t.enabled), t.items[..i], t.now, t.items[i].id);
  }

  lemma LastTransitionsFireLast(states: seq<Board>, project: nat, ticks: seq<Tick>, n: nat, i: nat)
    requires IsHistory(states, project, ticks) && n < |ticks| && ticks[n].saved && i < |ticks[n].items|
    ensures FiresLast(states[n].poll, Config(project, ticks[n].enabled), ticks[n].items, ticks[n].now, i)
            <==> LastTransition(ticks, project, n, i)
  {
    var t, c := ticks[n], Config(project, ticks[n].enabled);
    forall k | 0 <= k < |t.items|
      ensures FiresAt(states[n].poll, c, t.items, t.now, k) <==> Transition(ticks, project, n, k)
    {
      TransitionsFire(states, project, ticks, n, k);
    }
  }

  /** A committed tick adds the work that is due. */
  lemma TickAddsDue(b: Board, project: nat, t: Tick, e: Board)
    requires Ticks(b, project, t, e) && t.saved && Undispatched(b.poll.outbox) == {}
    ensures b.work <= e.work
    ensures var added := e.work[|b.work|..];
            && (forall w :: w in added <==> w in DueIn(b.poll, project, t))
            && (forall k, m :: 0 <= k < m < |added| ==> added[k].generation != added[m].generation)
  {
    var q := Fetched(b.poll, project, t);
    var fires, trimmed :| Enumerates(fires, Undispatched(q.outbox)) && Trimmed(Marked(q.outbox, fires), trimmed)
      && e == Board(q.(bootstrapped := true, outbox := trimmed), b.work + WorkOf(q.outbox, fires));
    DueIsQueued(b.poll, Config(project, t.enabled), t.items, t.now, fires);
    assert e.work[|b.work|..] == WorkOf(q.outbox, fires);
  }

  lemma DueIsWarranted(states: seq<Board>, project: nat, ticks: seq<Tick>, n: nat, w: Work<Generation>)
    requires IsHistory(states, project, ticks) && n < |ticks| && ticks[n].saved
    ensures w in DueIn(states[n].poll, project, ticks[n]) <==> Warranted(ticks, project, n, w)
  {
    var p, t, c := states[n].poll, ticks[n], Config(project, ticks[n].enabled);
    if w in DueIn(p, project, t) {
      var i :| 0 <= i < |t.items| && FiresLast(p, c, t.items, t.now, i) && w == WorkFor(project, t.items[i]);
      LastTransitionsFireLast(states, project, ticks, n, i);
    }
    if Warranted(ticks, project, n, w) {
      var i :| 0 <= i < |t.items| && LastTransition(ticks, project, n, i) && w == WorkFor(project, t.items[i]);
      LastTransitionsFireLast(states, project, ticks, n, i);
    }
  }

  /** The work added by a tick is exactly one piece for each dispatching transition it
      observed.  An aborted tick adds none and changes nothing, so what it saw is still
      to be seen by the next. */
  lemma WorkIsExactlyTheTransitions(states: seq<Board>, project: nat, ticks: seq<Tick>, n: nat)
    requires IsHistory(states, project, ticks) && n < |ticks|
    ensures states[n].work <= states[n + 1].work
    ensures var added := states[n + 1].work[|states[n].work|..];
            && (forall w :: w in added <==> Warranted(ticks, project, n, w))
            && (forall k, m :: 0 <= k < m < |added| ==> added[k].generation != added[m].generation)
    ensures !ticks[n].saved ==> states[n + 1] == states[n]
  {
    assert TickAt(states, project, ticks, n);
    if ticks[n].saved {
      NothingStaysQueued(states, project, ticks, n);
      TickAddsDue(states[n], project, ticks[n], states[n + 1]);
      forall w ensures w in DueIn(states[n].poll, project, ticks[n]) <==> Warranted(ticks, project, n, w) {
        DueIsWarranted(states, project, ticks, n, w);
      }
    }
  }

  /** A stretch of aborted ticks changes no sighting. */
  lemma {:induction false} AbortedTicksShowNothing(ticks: seq<Tick>, project: nat, id: ItemId, m: nat, n: nat)
    requires m <= n <= |ticks| && forall x :: m <= x < n ==> !ticks[x].saved
    ensures LastSighting(ticks[..n], project, id) == LastSighting(ticks[..m], project, id)
    decreases n - m
  {
    if m < n {
      assert ticks[..n][..n - 1] == ticks[..n - 1];
      AbortedTicksShowNothing(ticks, project, id, m, n - 1);
    }
  }

  lemma {:induction false} LastAnswerStands(
      before: Sighting, present: set<ItemId>, answers: seq<(ItemId, Answer)>, k: nat, id: ItemId, status: string)
    requires k < |answers| && answers[k].0 !in present && answers[k].1 == Readded(id, status)
    requires forall m :: k < m < |answers| ==> answers[m].0 != id && !(answers[m].1.Readded? && answers[m].1.id == id)
    ensures AfterAnswers(before, present, answers, id) == Sighted(None, Some(status))
    decreases |answers|
  {
    if k < |answers| - 1 { LastAnswerStands(before, present, answers[..|answers| - 1], k, id, status); }
  }

  /** An item that a committed tick re-added at some Status, and that the next committed
      tick lists at that Status, does not fire there. */
  lemma RecoveredItemNeverFires(ticks: seq<Tick>, project: nat, m: nat, k: nat, n: nat, i: nat, status: string)
    requires m < n < |ticks| && i < |ticks[n].items| && k < |ticks[m].answers|
    requires ticks[m].saved && Bootstrapped(ticks[..m]) && forall x :: m < x < n ==> !ticks[x].saved
    requires var id := ticks[n].items[i].id;
             && ticks[m].answers[k].0 !in Ids(ticks[m].items) && ticks[m].answers[k].1 == Readded(id, status)
             && (forall x :: k < x < |ticks[m].answers| ==>
                   ticks[m].answers[x].0 != id && !(ticks[m].answers[x].1.Readded? && ticks[m].answers[x].1.id == id))
    requires forall x :: 0 <= x <= i && ticks[n].items[x].id == ticks[n].items[i].id ==>
               ticks[n].items[x].status == Some(status)
    ensures LastSighting(ticks[..n], project, ticks[n].items[i].id) == Sighted(None, Some(status))
    ensures !Transition(ticks, project, n, i)
  {
    var id := ticks[n].items[i].id;
    AbortedTicksShowNothing(ticks, project, id, m + 1, n);
    assert ticks[..m + 1][..m] == ticks[..m];
    var before := AfterItems(LastSighting(ticks[..m], project, id), true, project, ticks[m].items, id);
    LastAnswerStands(before, Ids(ticks[m].items), ticks[m].answers, k, id, status);
    StatusStands(Sighted(None, Some(status)), Bootstrapped(ticks[..n]), project, ticks[n].items[..i], id);
  }

  lemma {:induction false} StatusStands(before: Sighting, started: bool, project: nat, items: seq<Item>, id: ItemId)
    requires before.Sighted? && forall k :: 0 <= k < |items| && items[k].id == id ==> items[k].status == before.status
    ensures var after := AfterItems(before, started, project, items, id);
            after.Sighted? && after.status == before.status
    decreases |items|
  {
    if items != [] { StatusStands(before, started, project, items[..|items| - 1], id); }
  }

  // ---- which transitions dispatch, and what work they ask for

  /** An item makes a dispatching transition when a committed tick sees it, under a generation it
      was not last seen under, at a Status that has its trigger enabled, after it was last seen
      at one that waits to be dispatched; never on the first committed tick. */
  lemma TransitionsIntoReady(ticks: seq<Tick>, project: nat, n: nat, i: nat)
    requires n < |ticks| && i < |ticks[n].items|
    ensures Transition(ticks, project, n, i) <==>
              var t, item, last := ticks[n], ticks[n].items[i], SeenBefore(ticks, project, n, i);
              && t.saved && (exists k :: 0 <= k < n && ticks[k].saved)
              && last.Sighted?
              && last.generation != Some(Generation(project, item.id, item.optionId, item.updatedAt))
              && (last.status == None || last.status == Some("Triage") || last.status == Some("Needs-info")
                  || last.status == Some("Failed"))
              && ((item.status == Some("Ready") && (t.enabled == None || "agent::ready" in t.enabled.value))
                  || (item.status == Some("Ready-research")
                      && (t.enabled == None || "agent::ready-research" in t.enabled.value)))
  {
    if k :| 0 <= k < n && ticks[k].saved { assert ticks[..n][k].saved; }
    if Bootstrapped(ticks[..n]) {
      var k :| 0 <= k < |ticks[..n]| && ticks[..n][k].saved;
      assert ticks[k].saved;
    }
  }

  /** The work names the observation, the item and the trigger of the Status. */
  lemma WorkNamesTrigger(project: nat, item: Item)
    requires item.status == Some("Ready") || item.status == Some("Ready-research")
    ensures WorkFor(project, item) ==
              Work(Generation(project, item.id, item.optionId, item.updatedAt), item.id,
                   if item.status == Some("Ready") then "agent::ready" else "agent::ready-research")
  {
  }
}
