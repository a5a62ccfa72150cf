/**
  The vault board: a note that becomes `agent` is dispatched, unless a task it is
  blocked by is unfinished; then it is deferred, re-examined at every tick, and
  dispatched as soon as its blockers are done.
*/
module VaultBoard {
  import opened Basics
  import opened DispatchOutbox

  // project, item and status, a missing status counting as empty
  datatype Generation = Generation(project: nat, item: ItemId, status: string)

  datatype Item = Item(id: ItemId, path: string, title: string, status: Option<string>, blockedBy: seq<string>)

  datatype Observation = Observation(generation: Generation, status: Option<string>, deferred: bool)

  function DispatchInto(status: Option<string>): Option<string> {
    if status == Some("agent") then Some("agent::ready") else None
  }

  predicate Enabled(status: Option<string>, enabled: Option<set<string>>) {
    DispatchInto(status).Some? && (enabled.Some? ==> DispatchInto(status).value in enabled.value)
  }

  predicate Done(status: string) {
    status == "done" || status == "archived"
  }

  function GenerationOf(project: nat, item: Item): Generation {
    Generation(project, item.id, OrEmpty(item.status))
  }

  function OrEmpty(status: Option<string>): string {
    if status.Some? then status.value else ""
  }

  // ---- blockers

  type Index = map<string, Option<string>>

  function Bare(path: string): string {
    if |path| >= 3 && path[|path| - 3..] == ".md" then path[..|path| - 3] else path
  }

  /** What follows the last slash. */
  function Stem(path: string): string
    decreases |path|
  {
    if path == [] || path[|path| - 1] == '/' then []
    else Stem(path[..|path| - 1]) + [path[|path| - 1]]
  }

  /** A note answers to its path, with and without ".md", to its stem, and to its title;
      later notes take over the names of earlier ones. */
  function IndexOf(items: seq<Item>): Index
    decreases |items|
  {
    if items == [] then map[]
    else
      var it := items[|items| - 1];
      IndexOf(items[..|items| - 1])[it.path := it.status][Bare(it.path) := it.status]
        [Stem(Bare(it.path)) := it.status][it.title := it.status]
  }

  function Lookup(index: Index, name: string): Option<string> {
    if name in index then index[name] else None
  }

  predicate Truthy(status: Option<string>) {
    status.Some? && status.value != ""
  }

  function BlockerStatus(index: Index, target: string): Option<string> {
    if Truthy(Lookup(index, target)) then Lookup(index, target)
    else if Truthy(Lookup(index, Bare(target))) then Lookup(index, Bare(target))
    else Lookup(index, Stem(Bare(target)))
  }

  /** A target that names no note does not block. */
  predicate Unresolved(index: Index, target: string) {
    BlockerStatus(index, target).Some? && !Done(BlockerStatus(index, target).value)
  }

  predicate Blocked(item: Item, index: Index) {
    exists k :: 0 <= k < |item.blockedBy| && Unresolved(index, item.blockedBy[k])
  }

  // ---- one tick's diff

  datatype Poll = Poll(bootstrapped: bool, observations: map<ItemId, Observation>, outbox: map<Generation, Entry>)

  datatype Config = Config(project: nat, enabled: Option<set<string>>, index: Index)

  function Command(item: Item, now: real): Entry {
    Entry(item.id, if DispatchInto(item.status).Some? then DispatchInto(item.status).value else "", false, now)
  }

  /** What is recorded of one note, and whether it is dispatched now. */
  function Observed(prev: Option<Observation>, bootstrapped: bool, c: Config, item: Item): (Observation, bool) {
    var record := Observation(GenerationOf(c.project, item), item.status, false);
    if !bootstrapped || prev == None then (record, false)
    else if prev.value.generation == record.generation then
      if prev.value.deferred && Enabled(item.status, c.enabled) && !Blocked(item, c.index) then (record, true)
      else (prev.value, false)
    else if Enabled(item.status, c.enabled) && prev.value.status != item.status then
      if Blocked(item, c.index) then (record.(deferred := true), false) else (record, true)
    else (record, false)
  }

  function Recorded(p: Poll, id: ItemId): Option<Observation> {
    if id in p.observations then Some(p.observations[id]) else None
  }

  function AfterItem(p: Poll, c: Config, item: Item, now: real): Poll {
    var (record, fires) := Observed(Recorded(p, item.id), p.bootstrapped, c, item);
    p.(observations := p.observations[item.id := record],
       outbox := if fires then p.outbox[GenerationOf(c.project, item) := Command(item, now)] else p.outbox)
  }

  function AfterItems(p: Poll, c: Config, items: seq<Item>, now: real): Poll
    decreases |items|
  {
    if items == [] then p
    else AfterItem(AfterItems(p, c, items[..|items| - 1], now), c, items[|items| - 1], now)
  }

  // ---- ticks

  datatype Tick = Tick(items: seq<Item>, enabled: Option<set<string>>, now: real, saved: bool)

  datatype Board = Board(poll: Poll, work: seq<Work<Generation>>)

  const EMPTY := Board(Poll(false, map[], map[]), [])

  function ConfigOf(project: nat, t: Tick): Config {
    Config(project, t.enabled, IndexOf(t.items))
  }

  ghost predicate Ticks(b: Board, project: nat, t: Tick, e: Board) {
    if !t.saved then e == b
    else
      exists fires, trimmed ::
        var q := AfterItems(b.poll, ConfigOf(project, t), t.items, t.now);
        && Enumerates(fires, Undispatched(q.outbox)) && Trimmed(Marked(q.outbox, fires), trimmed)
        && e == Board(q.(bootstrapped := true, outbox := trimmed), b.work + WorkOf(q.outbox, fires))
  }

  /** The board lists a note once. */
  predicate Distinct(items: seq<Item>) {
    forall i, k :: 0 <= i < k < |items| ==> items[i].id != items[k].id
  }

  predicate Fires(p: Poll, c: Config, item: Item) {
    Observed(Recorded(p, item.id), p.bootstrapped, c, item).1
  }

  lemma {:induction false} OthersUntouched(p: Poll, c: Config, items: seq<Item>, now: real, id: ItemId)
    requires forall i :: 0 <= i < |items| ==> items[i].id != id
    ensures var q := AfterItems(p, c, items, now);
            q.bootstrapped == p.bootstrapped && Recorded(q, id) == Recorded(p, id)
    decreases |items|
  {
    if items != [] { OthersUntouched(p, c, items[..|items| - 1], now, id); }
  }

  predicate Fired(p: Poll, c: Config, items: seq<Item>, g: Generation) {
    exists i :: 0 <= i < |items| && Fires(p, c, items[i]) && g == GenerationOf(c.project, items[i])
  }

  /** Whether a note fires does not depend on the notes polled before it. */
  lemma LastFires(p: Poll, c: Config, items: seq<Item>, now: real)
    requires items != [] && Distinct(items)
    ensures var item := items[|items| - 1];
            var before := AfterItems(p, c, items[..|items| - 1], now);
            before.bootstrapped == p.bootstrapped && Recorded(before, item.id) == Recorded(p, item.id)
            && (Fires(before, c, item) <==> Fires(p, c, item))
  {
    OthersUntouched(p, c, items[..|items| - 1], now, items[|items| - 1].id);
  }

  lemma FiredGrows(p: Poll, c: Config, items: seq<Item>, g: Generation)
    requires items != []
    ensures var init, item := items[..|items| - 1], items[|items| - 1];
            Fired(p, c, items, g) <==> Fired(p, c, init, g) || (Fires(p, c, item) && g == GenerationOf(c.project, item))
  {
    var init := items[..|items| - 1];
    if i :| 0 <= i < |init| && Fires(p, c, init[i]) && g == GenerationOf(c.project, init[i]) {
      assert Fires(p, c, items[i]);
    }
    if i :| 0 <= i < |items| && Fires(p, c, items[i]) && g == GenerationOf(c.project, items[i]) {
      if i < |init| { assert Fires(p, c, init[i]); }
    }
  }

  /** The commands queued are exactly those of the notes that fire. */
  lemma {:induction false} QueuesExactlyWhatFires(p: Poll, c: Config, items: seq<Item>, now: real)
    requires Distinct(items) && Undispatched(p.outbox) == {}
    ensures var q := AfterItems(p, c, items, now);
            && q.bootstrapped == p.bootstrapped
            && (forall g :: g in Undispatched(q.outbox) <==> Fired(p, c, items, g))
            && (forall i :: 0 <= i < |items| && Fires(p, c, items[i]) ==>
                  GenerationOf(c.project, items[i]) in q.outbox
                  && q.outbox[GenerationOf(c.project, items[i])] == Command(items[i], now))
            && (forall i :: 0 <= i < |items| ==>
                  Recorded(q, items[i].id) == Some(Observed(Recorded(p, items[i].id), p.bootstrapped, c, items[i]).0))
    decreases |items|
  {
    if items != [] {
      var init, item := items[..|items| - 1], items[|items| - 1];
      QueuesExactlyWhatFires(p, c, init, now);
      LastFires(p, c, items, now);
      forall i | 0 <= i < |init| ensures items[i] == init[i] && items[i].id != item.id {}
      forall g ensures g in Undispatched(AfterItems(p, c, items, now).outbox) <==> Fired(p, c, items, g) {
        FiredGrows(p, c, items, g);
        assert g in Undispatched(AfterItems(p, c, init, now).outbox) <==> Fired(p, c, init, g);
      }
    }
  }

  function WorkFor(project: nat, item: Item): Work<Generation> {
    Work(GenerationOf(project, item), item.id, Command(item, 0.0).trigger)
  }

  function Due(p: Poll, c: Config, items: seq<Item>): set<Work<Generation>> {
    set i | 0 <= i < |items| && Fires(p, c, items[i]) :: WorkFor(c.project, items[i])
  }

  lemma DueIsQueued(p: Poll, c: Config, items: seq<Item>, now: real, fires: seq<Generation>)
    requires Distinct(items) && Undispatched(p.outbox) == {}
    requires Enumerates(fires, Undispatched(AfterItems(p, c, items, now).outbox))
    ensures var work := WorkOf(AfterItems(p, c, items, now).outbox, fires);
            && (forall w :: w in work <==> w in Due(p, c, items))
            && (forall k, m :: 0 <= k < m < |work| ==> work[k].generation != work[m].generation)
  {
    QueuesExactlyWhatFires(p, c, items, now);
    var o := AfterItems(p, c, items, now).outbox;
    forall g | g in Undispatched(o) ensures Work(g, o[g].item, o[g].trigger) in Due(p, c, items) {
      assert Fired(p, c, items, g);
      var i :| 0 <= i < |items| && Fires(p, c, items[i]) && g == GenerationOf(c.project, items[i]);
      assert Work(g, o[g].item, o[g].trigger) == WorkFor(c.project, items[i]);
    }
    FiresBecomeWork(o, fires, Due(p, c, items));
  }

  // ---- names, blockers and triggers

  predicate EndsInMd(path: string) {
    |path| >= 3 && path[|path| - 3] == '.' && path[|path| - 2] == 'm' && path[|path| - 1] == 'd'
  }

  /** `stem` is what follows the last slash. */
  predicate IsStem(path: string, stem: string) {
    && |stem| <= |path| && path[|path| - |stem|..] == stem && '/' !in stem
    && (|stem| == |path| || path[|path| - |stem| - 1] == '/')
  }

  lemma {:induction false} StemIsStem(path: string)
    ensures IsStem(path, Stem(path))
    decreases |path|
  {
    if path != [] && path[|path| - 1] != '/' {
      var init := path[..|path| - 1];
      StemIsStem(init);
      var stem := Stem(path);
      assert path[|path| - |stem|..] == init[|init| - |Stem(init)|..] + [path[|path| - 1]];
    }
  }

  lemma BareDropsMd(path: string)
    ensures if EndsInMd(path) then path == Bare(path) + ".md" else Bare(path) == path
  {
    if EndsInMd(path) { assert path[|path| - 3..] == ".md"; }
    if |path| >= 3 && path[|path| - 3..] == ".md" {
      assert path == path[..|path| - 3] + path[|path| - 3..];
      assert ".md"[0] == '.' && ".md"[1] == 'm' && ".md"[2] == 'd';
    }
  }

  /** The note goes by its path, by that without ".md", by what then follows the last slash, and
      by its title. */
  predicate GoesBy(item: Item, name: string) {
    name == item.path || name == Bare(item.path) || name == Stem(Bare(item.path)) || name == item.title
  }

  predicate LastBy(items: seq<Item>, name: string, i: int) {
    0 <= i < |items| && GoesBy(items[i], name) && forall k :: i < k < |items| ==> !GoesBy(items[k], name)
  }

  lemma FourNames(before: Index, a: string, b: string, c: string, d: string, status: Option<string>, name: string)
    ensures var after := before[a := status][b := status][c := status][d := status];
            var given := name == a || name == b || name == c || name == d;
            && (name in after <==> given || name in before)
            && (name in after ==> after[name] == if given then status else before[name])
  {
  }

  lemma IndexGrows(items: seq<Item>, name: string)
    requires items != []
    ensures var last, before := items[|items| - 1], IndexOf(items[..|items| - 1]);
            && (name in IndexOf(items) <==> GoesBy(last, name) || name in before)
            && (name in IndexOf(items) ==>
                  IndexOf(items)[name] == if GoesBy(last, name) then last.status else before[name])
  {
    var it := items[|items| - 1];
    FourNames(IndexOf(items[..|items| - 1]), it.path, Bare(it.path), Stem(Bare(it.path)), it.title, it.status, name);
  }

  lemma LastByStays(items: seq<Item>, name: string, i: int)
    requires items != [] && !GoesBy(items[|items| - 1], name) && LastBy(items[..|items| - 1], name, i)
    ensures LastBy(items, name, i)
  {
    var init := items[..|items| - 1];
    forall k | i < k < |items| ensures !GoesBy(items[k], name) { if k < |init| { assert init[k] == items[k]; } }
  }

  ghost predicate LeadsToLast(index: Index, items: seq<Item>, name: string) {
    if name in index then exists i :: LastBy(items, name, i) && index[name] == items[i].status
    else forall i :: 0 <= i < |items| ==> !GoesBy(items[i], name)
  }

  /** A name leads to the status of the last note that goes by it, and no other name leads anywhere. */
  lemma {:induction false} LastNoteTakesName(items: seq<Item>, name: string)
    ensures LeadsToLast(IndexOf(items), items, name)
    decreases |items|
  {
    if items != [] {
      LastNoteTakesName(items[..|items| - 1], name);
      IndexGrows(items, name);
      LastStep(IndexOf(items[..|items| - 1]), IndexOf(items), items, name);
    }
  }

  lemma LastStep(before: Index, after: Index, items: seq<Item>, name: string)
    requires items != []
    requires var last := items[|items| - 1];
             && (name in after <==> GoesBy(last, name) || name in before)
             && (name in after ==> after[name] == if GoesBy(last, name) then last.status else before[name])
    requires LeadsToLast(before, items[..|items| - 1], name)
    ensures LeadsToLast(after, items, name)
  {
    var init, n := items[..|items| - 1], |items| - 1;
    if GoesBy(items[n], name) {
      assert LastBy(items, name, n);
    } else if name in before {
      var i :| LastBy(init, name, i) && before[name] == init[i].status;
      LastByStays(items, name, i);
    } else {
      forall i | 0 <= i < |items| ensures !GoesBy(items[i], name) {
        if i < n { assert init[i] == items[i]; }
      }
    }
  }

  /** A target blocks exactly if it leads to a status other than done and archived: its own, or
      else that of its name without ".md", or else of what follows the last slash of that. */
  lemma BlockingIsUnfinished(item: Item, index: Index)
    ensures Blocked(item, index) <==>
              exists k :: 0 <= k < |item.blockedBy| && Unfinished(index, item.blockedBy[k])
  {
    forall target ensures Unresolved(index, target) <==> Unfinished(index, target) {}
  }

  predicate Unfinished(index: Index, target: string) {
    var names := [target, Bare(target), Stem(Bare(target))];
    var pick := if Truthy(Lookup(index, names[0])) then 0 else if Truthy(Lookup(index, names[1])) then 1 else 2;
    && names[pick] in index && index[names[pick]].Some?
    && index[names[pick]] != Some("done") && index[names[pick]] != Some("archived")
  }

  /** Only the status `agent` dispatches, and as an implementation. */
  lemma OnlyAgentDispatches(project: nat, item: Item, enabled: Option<set<string>>)
    ensures Enabled(item.status, enabled) <==>
              item.status == Some("agent") && (enabled == None || "agent::ready" in enabled.value)
    ensures item.status == Some("agent") ==>
              WorkFor(project, item) == Work(Generation(project, item.id, "agent"), item.id, "agent::ready")
  {
  }
}
