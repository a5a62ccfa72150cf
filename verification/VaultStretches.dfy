/**
  Which sightings of a note dispatch it, said of its history alone: the first sighting
  in a stretch of `agent` sightings at which nothing blocks it.
*/
module VaultStretches {
  import opened Basics
  import opened DispatchOutbox
  import opened VaultBoard

  /** One committed observation of a note. */
  datatype Sight = Sight(status: string, enabled: bool, blocked: bool)

  predicate Agent(x: Sight) {
    x.status == "agent"
  }

  predicate Ready(x: Sight) {
    x.enabled && !x.blocked
  }

  /** The note became `agent` here; being `agent` when first seen does not count. */
  predicate Begins(sights: seq<Sight>, s: int) {
    0 < s < |sights| && Agent(sights[s]) && !Agent(sights[s - 1])
  }

  predicate InStretch(sights: seq<Sight>, s: int, k: int) {
    Begins(sights, s) && s <= k < |sights| && forall m :: s <= m <= k ==> Agent(sights[m])
  }

  predicate FirstReady(sights: seq<Sight>, s: int, k: int) {
    InStretch(sights, s, k) && sights[s].enabled && Ready(sights[k]) && forall m :: s <= m < k ==> !Ready(sights[m])
  }

  predicate Dispatched(sights: seq<Sight>, k: int) {
    exists s :: 0 <= s <= k && FirstReady(sights, s, k)
  }

  /** The last sighting belongs to a stretch that is still to be dispatched. */
  predicate WaitingSince(sights: seq<Sight>, s: int) {
    InStretch(sights, s, |sights| - 1) && sights[s].enabled && forall m :: s <= m < |sights| ==> !Ready(sights[m])
  }

  predicate Waiting(sights: seq<Sight>) {
    exists s :: 0 <= s < |sights| && WaitingSince(sights, s)
  }

  // ---- what the reference says

  /** A stretch is dispatched once if its trigger was enabled when it began and the note is
      ready at some sighting of it, and otherwise never. */
  lemma OncePerStretch(sights: seq<Sight>, s: int, e: int)
    requires InStretch(sights, s, e)
    ensures forall k, m :: s <= k <= e && s <= m <= e && Dispatched(sights, k) && Dispatched(sights, m) ==> k == m
    ensures (exists k :: s <= k <= e && Dispatched(sights, k)) <==>
              sights[s].enabled && exists m :: s <= m <= e && Ready(sights[m])
  {
    forall k | s <= k <= e ensures Dispatched(sights, k) <==> FirstReady(sights, s, k) {
      OneBeginning(sights, s, k);
    }
    if sights[s].enabled && exists m :: s <= m <= e && Ready(sights[m]) {
      var m :| s <= m <= e && Ready(sights[m]);
      var k := LeastReady(sights, s, m);
      assert FirstReady(sights, s, k);
    }
  }

  lemma OneBeginning(sights: seq<Sight>, s: int, k: int)
    requires InStretch(sights, s, k)
    ensures Dispatched(sights, k) <==> FirstReady(sights, s, k)
  {
    if Dispatched(sights, k) {
      var t :| 0 <= t <= k && FirstReady(sights, t, k);
      var beforeThis, beforeThat := sights[s - 1], sights[t - 1];
    }
  }

  lemma LeastReady(sights: seq<Sight>, s: int, m: int) returns (k: int)
    requires 0 <= s <= m < |sights| && Ready(sights[m])
    ensures s <= k <= m && Ready(sights[k]) && forall i :: s <= i < k ==> !Ready(sights[i])
  {
    k := s;
    while !Ready(sights[k])
      invariant s <= k <= m && forall i :: s <= i < k ==> !Ready(sights[i])
      decreases m - k
    {
      k := k + 1;
    }
  }

  /** Later sightings change nothing about an earlier one. */
  lemma DispatchIsLocal(sights: seq<Sight>, k: int)
    requires 0 <= k < |sights|
    ensures Dispatched(sights, k) <==> Dispatched(sights[..k + 1], k)
  {
    var upTo := sights[..k + 1];
    forall s ensures FirstReady(sights, s, k) <==> FirstReady(upTo, s, k) {
      assert forall m :: 0 <= m <= k ==> upTo[m] == sights[m];
      if InStretch(sights, s, k) { assert forall m :: s <= m <= k ==> Agent(upTo[m]); }
      if InStretch(upTo, s, k) { assert forall m :: s <= m <= k ==> Agent(sights[m]); }
    }
    if s :| 0 <= s <= k && FirstReady(sights, s, k) { assert FirstReady(upTo, s, k); }
    if s :| 0 <= s <= k && FirstReady(upTo, s, k) { assert FirstReady(sights, s, k); }
  }

  /** A note that has been `agent` ever since it was first seen is never dispatched. */
  lemma AdoptionStretchNeverFires(sights: seq<Sight>, k: int)
    requires 0 <= k < |sights| && forall m :: 0 <= m <= k ==> Agent(sights[m])
    ensures !Dispatched(sights, k)
  {
  }

  // ---- what the poller keeps of it

  predicate Sound(sights: seq<Sight>) {
    forall k :: 0 <= k < |sights| ==> (sights[k].enabled ==> Agent(sights[k]))
  }

  predicate SameStatus(sights: seq<Sight>, x: Sight) {
    |sights| > 0 && sights[|sights| - 1].status == x.status
  }

  lemma Extends(sights: seq<Sight>, x: Sight, s: int)
    requires |sights| > 0
    ensures InStretch(sights + [x], s, |sights|) <==>
              Agent(x) && ((s == |sights| && !Agent(sights[|sights| - 1])) || InStretch(sights, s, |sights| - 1))
  {
    var more := sights + [x];
    assert more[|sights|] == x && forall m :: 0 <= m < |sights| ==> more[m] == sights[m];
    if InStretch(more, s, |sights|) && s < |sights| {
      forall m | s <= m < |sights| ensures Agent(sights[m]) { assert Agent(more[m]); }
    }
    if InStretch(sights, s, |sights| - 1) && Agent(x) {
      forall m | s <= m <= |sights| ensures Agent(more[m]) { assert m < |sights| ==> Agent(sights[m]); }
    }
  }

  /** Seen again with the same status: dispatched if it was waiting and is now ready. */
  lemma AgainStep(sights: seq<Sight>, x: Sight)
    requires Sound(sights + [x]) && SameStatus(sights, x)
    ensures Dispatched(sights + [x], |sights|) <==> Waiting(sights) && Ready(x)
    ensures Waiting(sights + [x]) <==> Waiting(sights) && !Ready(x)
  {
    var more := sights + [x];
    assert more[|sights|] == x && forall m :: 0 <= m < |sights| ==> more[m] == sights[m];
    forall s ensures WaitingSince(more, s) <==> WaitingSince(sights, s) && !Ready(x) { Extends(sights, x, s); }
    forall s ensures FirstReady(more, s, |sights|) <==> WaitingSince(sights, s) && Ready(x) { Extends(sights, x, s); }
    if Waiting(sights) {
      var s :| 0 <= s < |sights| && WaitingSince(sights, s);
      if Ready(x) { assert FirstReady(more, s, |sights|); } else { assert WaitingSince(more, s); }
    }
  }

  /** Seen with another status: dispatched or made to wait if it has just become `agent`. */
  lemma ChangeStep(sights: seq<Sight>, x: Sight)
    requires Sound(sights + [x]) && |sights| > 0 && !SameStatus(sights, x)
    ensures Dispatched(sights + [x], |sights|) <==> Ready(x)
    ensures Waiting(sights + [x]) <==> x.enabled && x.blocked
  {
    var more := sights + [x];
    assert more[|sights|] == x && forall m :: 0 <= m < |sights| ==> more[m] == sights[m];
    forall s ensures InStretch(more, s, |sights|) <==> Agent(x) && s == |sights| { Extends(sights, x, s); }
    if x.enabled {
      assert InStretch(more, |sights|, |sights|);
      if Ready(x) { assert FirstReady(more, |sights|, |sights|); } else { assert WaitingSince(more, |sights|); }
    }
  }

  lemma FirstStep(x: Sight)
    ensures !Dispatched([x], 0) && !Waiting([x])
  {
  }

  // ---- histories

  function Find(items: seq<Item>, id: ItemId): Option<Item>
    decreases |items|
  {
    if items == [] then None
    else if items[|items| - 1].id == id then Some(items[|items| - 1])
    else Find(items[..|items| - 1], id)
  }

  function SightOf(item: Item, c: Config): Sight {
    Sight(OrEmpty(item.status), Enabled(item.status, c.enabled), Blocked(item, c.index))
  }

  /** Every committed observation of the note, in order. */
  function Sights(ticks: seq<Tick>, project: nat, id: ItemId): seq<Sight>
    decreases |ticks|
  {
    if ticks == [] then []
    else
      var before, t := Sights(ticks[..|ticks| - 1], project, id), ticks[|ticks| - 1];
      if t.saved && Find(t.items, id).Some?
      then before + [SightOf(Find(t.items, id).value, ConfigOf(project, t))] else before
  }

  lemma {:induction false} SightsAreSound(ticks: seq<Tick>, project: nat, id: ItemId)
    ensures Sound(Sights(ticks, project, id))
    decreases |ticks|
  {
    if ticks != [] { SightsAreSound(ticks[..|ticks| - 1], project, id); }
  }

  predicate Bootstrapped(ticks: seq<Tick>) {
    exists i :: 0 <= i < |ticks| && ticks[i].saved
  }

  /** The record of a note is its last sighting, marked if it is waiting. */
  predicate Reflects(obs: Option<Observation>, project: nat, id: ItemId, sights: seq<Sight>) {
    if sights == [] then obs == None
    else
      && obs.Some? && obs.value.generation == Generation(project, id, sights[|sights| - 1].status)
      && OrEmpty(obs.value.status) == sights[|sights| - 1].status
      && (obs.value.deferred <==> Waiting(sights))
  }

  /** One observation of the note. */
  lemma ObserveStep(obs: Option<Observation>, bootstrapped: bool, c: Config, item: Item, sights: seq<Sight>)
    requires Reflects(obs, c.project, item.id, sights) && Sound(sights) && (sights != [] ==> bootstrapped)
    ensures var (record, fires) := Observed(obs, bootstrapped, c, item);
            var more := sights + [SightOf(item, c)];
            && Reflects(Some(record), c.project, item.id, more)
            && (fires <==> Dispatched(more, |sights|))
  {
    var x := SightOf(item, c);
    if sights == [] {
      FirstStep(x);
      assert sights + [x] == [x];
    } else if SameStatus(sights, x) {
      AgainStep(sights, x);
    } else {
      ChangeStep(sights, x);
    }
  }

  // ---- runs

  ghost predicate TickAt(states: seq<Board>, project: nat, ticks: seq<Tick>, i: nat)
    requires |states| == |ticks| + 1 && i < |ticks|
  {
    Ticks(states[i], project, ticks[i], states[i + 1]) && Distinct(ticks[i].items)
  }

  ghost predicate IsHistory(states: seq<Board>, project: nat, ticks: seq<Tick>) {
    && |states| == |ticks| + 1 && states[0] == EMPTY
    && forall i :: 0 <= i < |ticks| ==> TickAt(states, project, ticks, i)
  }

  lemma {:induction false} FindIsMember(items: seq<Item>, id: ItemId)
    requires Distinct(items)
    ensures Find(items, id).Some? ==>
              exists i :: 0 <= i < |items| && items[i] == Find(items, id).value && items[i].id == id
    ensures Find(items, id) == None ==> forall i :: 0 <= i < |items| ==> items[i].id != id
    ensures forall i :: 0 <= i < |items| && items[i].id == id ==> Find(items, id) == Some(items[i])
    decreases |items|
  {
    if items != [] {
      var init := items[..|items| - 1];
      FindIsMember(init, id);
      if items[|items| - 1].id == id {
        assert items[|items| - 1] == Find(items, id).value;
      } else if Find(init, id).Some? {
        var i :| 0 <= i < |init| && init[i] == Find(init, id).value && init[i].id == id;
        assert items[i] == Find(items, id).value;
      }
      forall i | 0 <= i < |items| && items[i].id == id ensures Find(items, id) == Some(items[i]) {
        if i < |init| { assert init[i].id == id; }
      }
    }
  }

  lemma TickKeepsRecord(b: Board, project: nat, earlier: seq<Tick>, t: Tick, e: Board, id: ItemId)
    requires Ticks(b, project, t, e) && Distinct(t.items) && Undispatched(b.poll.outbox) == {}
    requires b.poll.bootstrapped == Bootstrapped(earlier)
    requires Reflects(Recorded(b.poll, id), project, id, Sights(earlier, project, id))
    ensures Reflects(Recorded(e.poll, id), project, id, Sights(earlier + [t], project, id))
    ensures e.poll.bootstrapped == Bootstrapped(earlier + [t])
  {
    assert (earlier + [t])[..|earlier|] == earlier;
    if i :| 0 <= i < |earlier| && earlier[i].saved { assert (earlier + [t])[i].saved; }
    if t.saved {
      assert (earlier + [t])[|earlier|].saved;
      var c := ConfigOf(project, t);
      QueuesExactlyWhatFires(b.poll, c, t.items, t.now);
      FindIsMember(t.items, id);
      SightsAreSound(earlier, project, id);
      SightsNeedBootstrap(earlier, project, id);
      if Find(t.items, id).Some? {
        ObserveStep(Recorded(b.poll, id), b.poll.bootstrapped, c, Find(t.items, id).value,
            Sights(earlier, project, id));
      } else {
        OthersUntouched(b.poll, c, t.items, t.now, id);
      }
    }
  }

  lemma {:induction false} SightsNeedBootstrap(ticks: seq<Tick>, project: nat, id: ItemId)
    ensures Sights(ticks, project, id) != [] ==> Bootstrapped(ticks)
    decreases |ticks|
  {
    if ticks != [] {
      var init := ticks[..|ticks| - 1];
      SightsNeedBootstrap(init, project, id);
      if i :| 0 <= i < |init| && init[i].saved { assert ticks[i].saved; }
    }
  }

  lemma {:induction false} NothingStaysQueued(states: seq<Board>, project: nat, ticks: seq<Tick>, n: nat)
    requires IsHistory(states, project, ticks) && n <= |ticks|
    ensures Undispatched(states[n].poll.outbox) == {}
  {
    if n > 0 {
      NothingStaysQueued(states, project, ticks, n - 1);
      assert TickAt(states, project, ticks, n - 1);
      var t, b := ticks[n - 1], states[n - 1];
      if t.saved {
        var q := VaultBoard.AfterItems(b.poll, ConfigOf(project, t), t.items, t.now);
        var fires, trimmed :| Enumerates(fires, Undispatched(q.outbox)) && Trimmed(Marked(q.outbox, fires), trimmed)
          && states[n] == Board(q.(bootstrapped := true, outbox := trimmed), b.work + WorkOf(q.outbox, fires));
        CommitSettles(q.outbox, fires, trimmed);
      }
    }
  }

  lemma {:induction false} RecordsReflect(states: seq<Board>, project: nat, ticks: seq<Tick>, n: nat, id: ItemId)
    requires IsHistory(states, project, ticks) && n <= |ticks|
    ensures Reflects(Recorded(states[n].poll, id), project, id, Sights(ticks[..n], project, id))
    ensures states[n].poll.bootstrapped == Bootstrapped(ticks[..n])
  {
    if n > 0 {
      RecordsReflect(states, project, ticks, n - 1, id);
      NothingStaysQueued(states, project, ticks, n - 1);
      assert TickAt(states, project, ticks, n - 1);
      assert ticks[..n] == ticks[..n - 1] + [ticks[n - 1]];
      TickKeepsRecord(states[n - 1], project, ticks[..n - 1], ticks[n - 1], states[n], id);
    }
  }

  /** Item `i` of tick `n` is the sighting that dispatches its note. */
  predicate DispatchedAt(ticks: seq<Tick>, project: nat, n: nat, i: nat)
    requires n < |ticks| && i < |ticks[n].items|
  {
    var sights := Sights(ticks[..n + 1], project, ticks[n].items[i].id);
    ticks[n].saved && Dispatched(sights, |sights| - 1)
  }

  /** Some note of tick `n` is dispatched by its sighting there. */
  predicate Warranted(ticks: seq<Tick>, project: nat, n: nat, w: Work<Generation>)
    requires n < |ticks|
  {
    exists i :: 0 <= i < |ticks[n].items| && DispatchedAt(ticks, project, n, i)
        && w == WorkFor(project, ticks[n].items[i])
  }

  lemma SightsGrow(ticks: seq<Tick>, project: nat, n: nat, i: nat)
    requires n < |ticks| && ticks[n].saved && Distinct(ticks[n].items) && i < |ticks[n].items|
    ensures var item := ticks[n].items[i];
            Sights(ticks[..n + 1], project, item.id)
            == Sights(ticks[..n], project, item.id) + [SightOf(item, ConfigOf(project, ticks[n]))]
  {
    FindIsMember(ticks[n].items, ticks[n].items[i].id);
    assert ticks[..n + 1][..n] == ticks[..n];
  }

  lemma FiresAreDispatched(states: seq<Board>, project: nat, ticks: seq<Tick>, n: nat, i: nat)
    requires IsHistory(states, project, ticks) && n < |ticks| && ticks[n].saved && i < |ticks[n].items|
    ensures Fires(states[n].poll, ConfigOf(project, ticks[n]), ticks[n].items[i]) <==>
              DispatchedAt(ticks, project, n, i)
  {
    var item, c := ticks[n].items[i], ConfigOf(project, ticks[n]);
    var sights := Sights(ticks[..n], project, item.id);
    assert Distinct(ticks[n].items) by { assert TickAt(states, project, ticks, n); }
    assert Reflects(Recorded(states[n].poll, item.id), project, item.id, sights)
           && states[n].poll.bootstrapped == Bootstrapped(ticks[..n]) by {
      RecordsReflect(states, project, ticks, n, item.id);
    }
    SightsGrow(ticks, project, n, i);
    SightsAreSound(ticks[..n], project, item.id);
    SightsNeedBootstrap(ticks[..n], project, item.id);
    ObserveStep(Recorded(states[n].poll, item.id), states[n].poll.bootstrapped, c, item, sights);
  }

  /** A committed tick adds the work that is due. */
  lemma TickAddsDue(b: Board, project: nat, t: Tick, e: Board)
    requires Ticks(b, project, t, e) && t.saved && Distinct(t.items) && Undispatched(b.poll.outbox) == {}
    ensures b.work <= e.work
    ensures var added := e.work[|b.work|..];
            && (forall w :: w in added <==> w in Due(b.poll, ConfigOf(project, t), t.items))
            && (forall k, m :: 0 <= k < m < |added| ==> added[k].generation != added[m].generation)
  {
    var c := ConfigOf(project, t);
    var q := VaultBoard.AfterItems(b.poll, c, t.items, t.now);
    var fires, trimmed :| Enumerates(fires, Undispatched(q.outbox)) && Trimmed(Marked(q.outbox, fires), trimmed)
      && e == Board(q.(bootstrapped := true, outbox := trimmed), b.work + WorkOf(q.outbox, fires));
    DueIsQueued(b.poll, c, t.items, t.now, fires);
    assert e.work[|b.work|..] == WorkOf(q.outbox, fires);
  }

  lemma DueIsWarranted(states: seq<Board>, project: nat, ticks: seq<Tick>, n: nat, w: Work<Generation>)
    requires IsHistory(states, project, ticks) && n < |ticks| && ticks[n].saved
    ensures w in Due(states[n].poll, ConfigOf(project, ticks[n]), ticks[n].items) <==> Warranted(ticks, project, n, w)
  {
    var c, items := ConfigOf(project, ticks[n]), ticks[n].items;
    if w in Due(states[n].poll, c, items) {
      var i :| 0 <= i < |items| && Fires(states[n].poll, c, items[i]) && w == WorkFor(project, items[i]);
      FiresAreDispatched(states, project, ticks, n, i);
    }
    if Warranted(ticks, project, n, w) {
      var i :| 0 <= i < |items| && DispatchedAt(ticks, project, n, i) && w == WorkFor(project, items[i]);
      FiresAreDispatched(states, project, ticks, n, i);
    }
  }

  /** The work added by a committed tick is one piece for each note whose sighting at this
      tick is the first ready one of its stretch, and no other; an aborted tick changes nothing. */
  lemma WorkIsExactlyTheDispatches(states: seq<Board>, project: nat, ticks: seq<Tick>, n: nat)
    requires IsHistory(states, project, ticks) && n < |ticks|
    ensures states[n].work <= states[n + 1].work
    ensures var added := states[n + 1].work[|states[n].work|..];
            && (forall w :: w in added <==> Warranted(ticks, project, n, w))
            && (forall k, m :: 0 <= k < m < |added| ==> added[k].generation != added[m].generation)
    ensures !ticks[n].saved ==> states[n + 1] == states[n]
  {
    assert TickAt(states, project, ticks, n);
    if ticks[n].saved {
      NothingStaysQueued(states, project, ticks, n);
      TickAddsDue(states[n], project, ticks[n], states[n + 1]);
      forall w
        ensures w in Due(states[n].poll, ConfigOf(project, ticks[n]), ticks[n].items)
                <==> Warranted(ticks, project, n, w)
      {
        DueIsWarranted(states, project, ticks, n, w);
      }
    }
  }
}
