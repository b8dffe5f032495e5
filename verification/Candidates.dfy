/** Staging of local ICE candidates: the queues shared by engine callbacks and flushes, and that no candidate is lost or doubled. */
module Candidates {
  import opened Results

  const MAX_STAGED_LOCAL_CANDIDATES := 64
  const SIGNAL_EVENT_CAPACITY := 128

  /** A candidate, by the order of its generation; the wire sequence number is this modulo 2^32. */
  type Item = nat

  // ---- The shared queues and their critical sections ----

  /** The staged queue after pushing one item, and what made room for it. */
  function Staged(staged: seq<Item>, item: Item): (seq<Item>, seq<Item>) {
    if |staged| == MAX_STAGED_LOCAL_CANDIDATES then (staged[1..] + [item], staged[..1]) else (staged + [item], [])
  }

  /** The candidates waiting in the signal channel after trying to send one, and what was dropped. */
  function Sent(channel: seq<Item>, others: nat, item: Item): (seq<Item>, seq<Item>) {
    if |channel| + others >= SIGNAL_EVENT_CAPACITY then (channel, [item]) else (channel + [item], [])
  }

  /** Whether a claim of the terminal flag is granted, and the flag after it. */
  function Claimed(terminal: bool): (bool, bool) {
    (!terminal, true)
  }

  class Shared {
    var staged: seq<Item>
    var channel: seq<Item>
    var others: nat
    var terminal: bool

    constructor ()
      ensures staged == [] && channel == [] && others == 0 && !terminal
    {
      staged, channel, others, terminal := [], [], 0, false;
    }

    method Stage(item: Item) returns (evicted: seq<Item>)
      modifies this`staged
      ensures (staged, evicted) == Staged(old(staged), item)
    {
      evicted := [];
      if |staged| == MAX_STAGED_LOCAL_CANDIDATES {
        evicted := staged[..1];
        staged := staged[1..];
      }
      staged := staged + [item];
    }

    method TrySend(item: Item) returns (dropped: seq<Item>)
      modifies this`channel
      ensures (channel, dropped) == Sent(old(channel), others, item)
    {
      dropped := [item];
      if |channel| + others < SIGNAL_EVENT_CAPACITY {
        channel := channel + [item];
        dropped := [];
      }
    }

    method TakeStaged() returns (all: seq<Item>)
      modifies this`staged
      ensures all == old(staged) && staged == []
    {
      all := staged;
      staged := [];
    }

    /** Compares and exchanges the terminal flag: the claim is granted to the first claimant. */
    method ClaimTerminal() returns (first: bool)
      modifies this`terminal
      ensures (first, terminal) == Claimed(old(terminal))
    {
      first := false;
      if !terminal {
        terminal := true;
        first := true;
      }
    }
  }

  // ---- Concurrent callbacks and flushes ----

  /** The item a task is working on: not yet signed, signed, or refused by the connection. */
  datatype Hand = Empty | Fresh(item: Item) | Signed(item: Item) | Unsigned(item: Item)

  /** A task of the session: an engine callback has one item, a flush a list of them. */
  datatype Task = Task(hand: Hand, rest: seq<Item>)

  datatype World = World(
    generated: nat, tasks: seq<Task>, staged: seq<Item>, channel: seq<Item>, others: nat,
    taken: seq<Item>, evicted: seq<Item>, dropped: seq<Item>)

  datatype Event =
    | Spawn
    | Generate(task: nat)
    | StartFlush(task: nat)
    | PickNext(task: nat)
    | TrySign(task: nat, poisoned: bool, accepted: bool)
    | TrySend(task: nat, poisoned: bool)
    | TryStage(task: nat, poisoned: bool)
    | SendOther
    | TakeOther
    | TakeCandidate

  const START := World(0, [], [], [], 0, [], [], [])

  function WithHand(w: World, k: nat, hand: Hand): World
    requires k < |w.tasks|
  {
    w.(tasks := w.tasks[k := w.tasks[k].(hand := hand)])
  }

  function TaskStep(w: World, k: nat, e: Event): World
    requires k < |w.tasks|
  {
    var task := w.tasks[k];
    match (e, task.hand)
    case (Generate(_), Empty) =>
      if task.rest != [] then w else WithHand(w, k, Fresh(w.generated)).(generated := w.generated + 1)
    case (StartFlush(_), Empty) =>
      if task.rest != [] then w else w.(tasks := w.tasks[k := Task(Empty, w.staged)], staged := [])
    case (PickNext(_), Empty) =>
      if task.rest == [] then w else w.(tasks := w.tasks[k := Task(Fresh(task.rest[0]), task.rest[1..])])
    case (TrySign(_, poisoned, accepted), Fresh(item)) =>
      if poisoned then WithHand(w, k, Empty).(dropped := w.dropped + [item])
      else WithHand(w, k, if accepted then Signed(item) else Unsigned(item))
    case (TrySend(_, poisoned), Signed(item)) =>
      var (channel, lost) := if poisoned then (w.channel, [item]) else Sent(w.channel, w.others, item);
      WithHand(w, k, Empty).(channel := channel, dropped := w.dropped + lost)
    case (TryStage(_, poisoned), Unsigned(item)) =>
      if poisoned then WithHand(w, k, Empty).(dropped := w.dropped + [item])
      else
        var (staged, lost) := Staged(w.staged, item);
        WithHand(w, k, Empty).(staged := staged, evicted := w.evicted + lost)
    case _ => w
  }

  function Next(w: World, e: Event): World {
    match e
    case Spawn => w.(tasks := w.tasks + [Task(Empty, [])])
    case SendOther => if |w.channel| + w.others >= SIGNAL_EVENT_CAPACITY then w else w.(others := w.others + 1)
    case TakeOther => if w.others == 0 then w else w.(others := w.others - 1)
    case TakeCandidate => if w.channel == [] then w else w.(channel := w.channel[1..], taken := w.taken + w.channel[..1])
    case _ => if e.task < |w.tasks| then TaskStep(w, e.task, e) else w
  }

  ghost predicate IsRun(worlds: seq<World>, events: seq<Event>) {
    && |worlds| == |events| + 1 && worlds[0] == START
    && forall i | 0 <= i < |events| :: worlds[i + 1] == Next(worlds[i], events[i])
  }

  // ---- Conservation ----

  /** How often an item occurs. */
  function Count(s: seq<Item>, x: Item): nat {
    if s == [] then 0 else Count(s[..|s| - 1], x) + if s[|s| - 1] == x then 1 else 0
  }

  lemma {:induction false} CountConcat(a: seq<Item>, b: seq<Item>, x: Item)
    ensures Count(a + b, x) == Count(a, x) + Count(b, x)
  {
    if b == [] {
      assert a + b == a;
    } else {
      CountConcat(a, b[..|b| - 1], x);
      assert (a + b)[..|a + b| - 1] == a + b[..|b| - 1];
    }
  }

  function InTask(task: Task, x: Item): nat {
    (if task.hand != Empty && task.hand.item == x then 1 else 0) + Count(task.rest, x)
  }

  /** How often the tasks are working on an item. */
  function InFlight(tasks: seq<Task>, x: Item): nat {
    if tasks == [] then 0 else InFlight(tasks[..|tasks| - 1], x) + InTask(tasks[|tasks| - 1], x)
  }

  /** How often an item occurs, over every place a candidate can be. */
  function Everywhere(w: World, x: Item): nat {
    InFlight(w.tasks, x) + Count(w.staged, x) + Count(w.channel, x) + Count(w.taken, x) + Count(w.evicted, x) + Count(w.dropped, x)
  }

  ghost predicate Conserved(w: World, x: Item) {
    Everywhere(w, x) == if x < w.generated then 1 else 0
  }

  ghost predicate Bounded(w: World) {
    |w.staged| <= MAX_STAGED_LOCAL_CANDIDATES && |w.channel| + w.others <= SIGNAL_EVENT_CAPACITY
  }

  lemma {:induction false} TaskChanges(tasks: seq<Task>, k: nat, task: Task, x: Item)
    requires k < |tasks|
    ensures InFlight(tasks[k := task], x) == InFlight(tasks, x) - InTask(tasks[k], x) + InTask(task, x)
  {
    var init := tasks[..|tasks| - 1];
    var changed := tasks[k := task];
    if k == |tasks| - 1 {
      assert changed[..|tasks| - 1] == init;
    } else {
      TaskChanges(init, k, task, x);
      assert changed[..|tasks| - 1] == init[k := task];
    }
  }

  lemma StagedConserves(staged: seq<Item>, item: Item, x: Item)
    ensures var (after, lost) := Staged(staged, item);
            Count(after, x) + Count(lost, x) == Count(staged, x) + Count([item], x)
  {
    CountConcat(staged, [item], x);
    if |staged| == MAX_STAGED_LOCAL_CANDIDATES {
      assert staged == staged[..1] + staged[1..];
      CountConcat(staged[..1], staged[1..], x);
      CountConcat(staged[1..], [item], x);
    }
  }

  /** How often an item occurs in one task and the shared places. */
  function Around(w: World, task: Task, x: Item): nat {
    InTask(task, x) + Count(w.staged, x) + Count(w.channel, x) + Count(w.taken, x) + Count(w.evicted, x) + Count(w.dropped, x)
  }

  /** The surplus of a task's surroundings over what was generated. */
  function Surplus(w: World, k: nat, x: Item): int
    requires k < |w.tasks|
  {
    Around(w, w.tasks[k], x) - if x < w.generated then 1 else 0
  }

  /** Only the task that moves and the shared places need to balance. */
  lemma Balanced(w: World, w': World, k: nat, x: Item)
    requires Conserved(w, x) && k < |w.tasks| && |w'.tasks| == |w.tasks| && w'.tasks == w.tasks[k := w'.tasks[k]]
    requires Surplus(w', k, x) == Surplus(w, k, x)
    ensures Conserved(w', x)
  {
    TaskChanges(w.tasks, k, w'.tasks[k], x);
  }

  lemma PickBalances(w: World, k: nat, x: Item)
    requires k < |w.tasks| && w.tasks[k].hand.Empty? && w.tasks[k].rest != []
    ensures var w' := TaskStep(w, k, PickNext(k)); Around(w', w'.tasks[k], x) == Around(w, w.tasks[k], x)
  {
    var rest := w.tasks[k].rest;
    assert rest == [rest[0]] + rest[1..];
    CountConcat([rest[0]], rest[1..], x);
  }

  lemma SendBalances(w: World, k: nat, poisoned: bool, x: Item)
    requires k < |w.tasks| && w.tasks[k].hand.Signed?
    ensures var w' := TaskStep(w, k, TrySend(k, poisoned)); Around(w', w'.tasks[k], x) == Around(w, w.tasks[k], x)
  {
    var item := w.tasks[k].hand.item;
    if poisoned || |w.channel| + w.others >= SIGNAL_EVENT_CAPACITY {
      CountConcat(w.dropped, [item], x);
    } else {
      CountConcat(w.channel, [item], x);
      assert w.dropped + [] == w.dropped;
    }
  }

  lemma StageBalances(w: World, k: nat, poisoned: bool, x: Item)
    requires k < |w.tasks| && w.tasks[k].hand.Unsigned?
    ensures var w' := TaskStep(w, k, TryStage(k, poisoned)); Around(w', w'.tasks[k], x) == Around(w, w.tasks[k], x)
  {
    var item := w.tasks[k].hand.item;
    var w' := TaskStep(w, k, TryStage(k, poisoned));
    assert InTask(w.tasks[k], x) == Count([item], x) + InTask(w'.tasks[k], x);
    if poisoned {
      CountConcat(w.dropped, [item], x);
    } else {
      var after, lost := Staged(w.staged, item).0, Staged(w.staged, item).1;
      StagedConserves(w.staged, item, x);
      CountConcat(w.evicted, lost, x);
      assert w'.staged == after && w'.evicted == w.evicted + lost;
    }
  }

  lemma SignBalances(w: World, k: nat, poisoned: bool, accepted: bool, x: Item)
    requires k < |w.tasks| && w.tasks[k].hand.Fresh?
    ensures var w' := TaskStep(w, k, TrySign(k, poisoned, accepted)); Around(w', w'.tasks[k], x) == Around(w, w.tasks[k], x)
  {
    CountConcat(w.dropped, [w.tasks[k].hand.item], x);
  }

  /** A task's step changes that task only. */
  lemma TaskStepFrame(w: World, k: nat, e: Event)
    requires k < |w.tasks|
    ensures var w' := TaskStep(w, k, e); |w'.tasks| == |w.tasks| && w'.tasks == w.tasks[k := w'.tasks[k]]
  {
  }

  lemma HandStepBalances(w: World, k: nat, e: Event, x: Item)
    requires k < |w.tasks| && w.tasks[k].hand.Empty? && |TaskStep(w, k, e).tasks| == |w.tasks|
    ensures Surplus(TaskStep(w, k, e), k, x) == Surplus(w, k, x)
  {
    if e.PickNext? && w.tasks[k].rest != [] {
      PickBalances(w, k, x);
    }
  }

  lemma ItemStepBalances(w: World, k: nat, e: Event, x: Item)
    requires k < |w.tasks| && !w.tasks[k].hand.Empty? && |TaskStep(w, k, e).tasks| == |w.tasks|
    ensures Surplus(TaskStep(w, k, e), k, x) == Surplus(w, k, x)
  {
    var task := w.tasks[k];
    if e.TrySign? && task.hand.Fresh? {
      SignBalances(w, k, e.poisoned, e.accepted, x);
    } else if e.TrySend? && task.hand.Signed? {
      SendBalances(w, k, e.poisoned, x);
    } else if e.TryStage? && task.hand.Unsigned? {
      StageBalances(w, k, e.poisoned, x);
    }
  }

  lemma TaskStepConserves(w: World, k: nat, e: Event, x: Item)
    requires Conserved(w, x) && k < |w.tasks|
    ensures Conserved(TaskStep(w, k, e), x)
  {
    TaskStepFrame(w, k, e);
    if w.tasks[k].hand.Empty? {
      HandStepBalances(w, k, e, x);
    } else {
      ItemStepBalances(w, k, e, x);
    }
    Balanced(w, TaskStep(w, k, e), k, x);
  }

  lemma NextConserves(w: World, e: Event, x: Item)
    requires Conserved(w, x)
    ensures Conserved(Next(w, e), x)
  {
    match e
    case Spawn => assert (w.tasks + [Task(Empty, [])])[..|w.tasks|] == w.tasks;
    case TakeCandidate =>
      if w.channel != [] {
        assert w.channel == w.channel[..1] + w.channel[1..];
        CountConcat(w.channel[..1], w.channel[1..], x);
        CountConcat(w.taken, w.channel[..1], x);
      }
    case SendOther =>
    case TakeOther =>
    case _ =>
      if e.task < |w.tasks| {
        TaskStepConserves(w, e.task, e, x);
      }
  }

  lemma NextBounded(w: World, e: Event)
    requires Bounded(w)
    ensures Bounded(Next(w, e))
  {
  }

  /** In every state each generated candidate is in exactly one place, and both queues are bounded. */
  lemma {:induction false} Conservation(worlds: seq<World>, events: seq<Event>, n: nat, x: Item)
    requires IsRun(worlds, events) && n < |worlds|
    ensures var w := worlds[n];
            InFlight(w.tasks, x) + Count(w.staged, x) + Count(w.channel, x) + Count(w.taken, x) + Count(w.evicted, x) + Count(w.dropped, x)
            == if x < w.generated then 1 else 0
    ensures |worlds[n].staged| <= MAX_STAGED_LOCAL_CANDIDATES
    ensures |worlds[n].channel| + worlds[n].others <= SIGNAL_EVENT_CAPACITY
  {
    if n > 0 {
      Conservation(worlds, events, n - 1, x);
      assert Conserved(worlds[n - 1], x) && Bounded(worlds[n - 1]);
      NextConserves(worlds[n - 1], events[n - 1], x);
      NextBounded(worlds[n - 1], events[n - 1]);
    }
  }

  /** No candidate is emitted twice. */
  lemma EmittedOnce(worlds: seq<World>, events: seq<Event>, n: nat, i: nat, j: nat)
    requires IsRun(worlds, events) && n < |worlds| && i < j < |worlds[n].taken + worlds[n].channel|
    ensures (worlds[n].taken + worlds[n].channel)[i] != (worlds[n].taken + worlds[n].channel)[j]
  {
    var w := worlds[n];
    var emitted := w.taken + w.channel;
    Conservation(worlds, events, n, emitted[i]);
    CountConcat(w.taken, w.channel, emitted[i]);
    if emitted[i] == emitted[j] {
      CountTwice(emitted, i, j);
    }
  }

  lemma CountTwice(s: seq<Item>, i: nat, j: nat)
    requires i < j < |s| && s[i] == s[j]
    ensures Count(s, s[i]) >= 2
  {
    var x := s[i];
    assert s == (s[..i] + [x]) + (s[i + 1..j] + ([x] + s[j + 1..]));
    CountConcat(s[..i] + [x], s[i + 1..j] + ([x] + s[j + 1..]), x);
    CountConcat(s[..i], [x], x);
    CountConcat(s[i + 1..j], [x] + s[j + 1..], x);
    CountConcat([x], s[j + 1..], x);
  }

  // ---- Order ----

  /** The last 64 of a list, in order. */
  function Newest(s: seq<Item>): seq<Item> {
    if |s| <= MAX_STAGED_LOCAL_CANDIDATES then s else s[|s| - MAX_STAGED_LOCAL_CANDIDATES..]
  }

  /** The item an event stages, if it stages one. */
  function StagedBy(w: World, e: Event): seq<Item> {
    if e.TryStage? && !e.poisoned && e.task < |w.tasks| && w.tasks[e.task].hand.Unsigned? then [w.tasks[e.task].hand.item] else []
  }

  /** The event is a flush that takes the staged queue. */
  predicate Flushes(w: World, e: Event) {
    e.StartFlush? && e.task < |w.tasks| && w.tasks[e.task].hand.Empty? && w.tasks[e.task].rest == []
  }

  /** The staged queue at `m`, and whatever was staged from then on, in order. */
  function StagedFrom(worlds: seq<World>, events: seq<Event>, m: nat, n: nat): seq<Item>
    requires m <= n <= |events| < |worlds|
  {
    if m == n then worlds[m].staged else StagedFrom(worlds, events, m, n - 1) + StagedBy(worlds[n - 1], events[n - 1])
  }

  /** Of all these, the newest 64 are staged and the older ones were evicted after the ones before, in order. */
  predicate KeepsNewest(evicted: seq<Item>, all: seq<Item>, w: World) {
    w.staged == Newest(all) && w.evicted + w.staged == evicted + all
  }

  /** A step appends what it stages and moves to the evicted list what no longer fits, from the front. */
  lemma StageStep(w: World, e: Event)
    requires |w.staged| <= MAX_STAGED_LOCAL_CANDIDATES
    ensures var w' := Next(w, e);
            if Flushes(w, e) then w'.staged == [] && w'.evicted == w.evicted && w'.tasks[e.task].rest == w.staged
            else
              && w'.staged == Newest(w.staged + StagedBy(w, e))
              && w'.evicted + w'.staged == w.evicted + (w.staged + StagedBy(w, e))
  {
    if !Flushes(w, e) {
      StagedAfter(w, e);
      if StagedBy(w, e) == [] {
        assert w.staged + [] == w.staged;
      } else {
        StagedKeepsNewest(w.evicted, w.staged, StagedBy(w, e)[0]);
      }
    }
  }

  lemma StagedAfter(w: World, e: Event)
    requires !Flushes(w, e)
    ensures var w', pushed := Next(w, e), StagedBy(w, e);
            if pushed == [] then w'.staged == w.staged && w'.evicted == w.evicted
            else w'.staged == Staged(w.staged, pushed[0]).0 && w'.evicted == w.evicted + Staged(w.staged, pushed[0]).1
  {
  }

  /** Staging one item keeps the newest, and evicts from the front. */
  lemma StagedKeepsNewest(evicted: seq<Item>, staged: seq<Item>, item: Item)
    requires |staged| <= MAX_STAGED_LOCAL_CANDIDATES
    ensures var (after, lost) := Staged(staged, item);
            after == Newest(staged + [item]) && (evicted + lost) + after == evicted + (staged + [item])
  {
    if |staged| == MAX_STAGED_LOCAL_CANDIDATES {
      assert staged == staged[..1] + staged[1..];
    } else {
      assert evicted + [] == evicted;
    }
  }

  lemma StagedFits(worlds: seq<World>, events: seq<Event>, n: nat)
    requires IsRun(worlds, events) && n < |worlds|
    ensures |worlds[n].staged| <= MAX_STAGED_LOCAL_CANDIDATES
  {
    Conservation(worlds, events, n, 0);
  }

  lemma RunStageStep(worlds: seq<World>, events: seq<Event>, i: nat)
    requires IsRun(worlds, events) && i < |events| && !Flushes(worlds[i], events[i])
    ensures KeepsNewest(worlds[i].evicted, worlds[i].staged + StagedBy(worlds[i], events[i]), worlds[i + 1])
  {
    StagedFits(worlds, events, i);
    StageStep(worlds[i], events[i]);
  }

  lemma EvictionExtends(evicted: seq<Item>, all: seq<Item>, w: World, pushed: seq<Item>, w': World)
    requires KeepsNewest(evicted, all, w) && KeepsNewest(w.evicted, w.staged + pushed, w')
    ensures KeepsNewest(evicted, all + pushed, w')
  {
    assert w.evicted + (w.staged + pushed) == (w.evicted + w.staged) + pushed;
    assert (evicted + all) + pushed == evicted + (all + pushed);
  }

  /** Steps that each keep the newest together keep the newest. */
  lemma {:induction false} StepsKeepNewest(worlds: seq<World>, events: seq<Event>, m: nat, n: nat)
    requires m <= n <= |events| < |worlds| && |worlds[m].staged| <= MAX_STAGED_LOCAL_CANDIDATES
    requires forall i | m <= i < n :: KeepsNewest(worlds[i].evicted, worlds[i].staged + StagedBy(worlds[i], events[i]), worlds[i + 1])
    ensures KeepsNewest(worlds[m].evicted, StagedFrom(worlds, events, m, n), worlds[n])
    decreases n
  {
    if m < n {
      StepsKeepNewest(worlds, events, m, n - 1);
      EvictionExtends(worlds[m].evicted, StagedFrom(worlds, events, m, n - 1), worlds[n - 1],
                      StagedBy(worlds[n - 1], events[n - 1]), worlds[n]);
    }
  }

  /**
   While no flush comes between, the staged queue is the newest 64 of what it was and what was staged since, in order;
   and what was evicted, followed by the queue, is everything: the oldest entries go first.
   */
  lemma OldestIsEvicted(worlds: seq<World>, events: seq<Event>, m: nat, n: nat)
    requires IsRun(worlds, events) && m <= n < |worlds|
    requires forall i | m <= i < n :: !Flushes(worlds[i], events[i])
    ensures KeepsNewest(worlds[m].evicted, StagedFrom(worlds, events, m, n), worlds[n])
  {
    forall i | m <= i < n
      ensures KeepsNewest(worlds[i].evicted, worlds[i].staged + StagedBy(worlds[i], events[i]), worlds[i + 1])
    {
      RunStageStep(worlds, events, i);
    }
    StagedFits(worlds, events, m);
    StepsKeepNewest(worlds, events, m, n);
  }

  /** A task takes the whole staged queue and works through it from the front, without changing the rest. */
  lemma FlushKeepsOrder(w: World, e: Event, k: nat)
    requires k < |w.tasks|
    ensures var w' := Next(w, e);
            && k < |w'.tasks|
            && var rest, rest' := w.tasks[k].rest, w'.tasks[k].rest;
               || rest' == rest
               || (Flushes(w, e) && e.task == k && rest == [] && rest' == w.staged && w'.staged == [])
               || (rest != [] && w.tasks[k].hand.Empty? && w'.tasks[k].hand == Fresh(rest[0]) && rest' == rest[1..])
  {
  }

  /** The item an event puts into the channel: a signed one, whenever the lock is sound and there is room. */
  function EmittedBy(w: World, e: Event): seq<Item> {
    if e.TrySend? && !e.poisoned && e.task < |w.tasks| && w.tasks[e.task].hand.Signed?
       && |w.channel| + w.others < SIGNAL_EVENT_CAPACITY
    then [w.tasks[e.task].hand.item] else []
  }

  function Emitted(worlds: seq<World>, events: seq<Event>, n: nat): seq<Item>
    requires n <= |events| < |worlds|
  {
    if n == 0 then [] else Emitted(worlds, events, n - 1) + EmittedBy(worlds[n - 1], events[n - 1])
  }

  lemma EmitStep(w: World, e: Event)
    ensures var w' := Next(w, e); w'.taken + w'.channel == (w.taken + w.channel) + EmittedBy(w, e)
  {
    var w' := Next(w, e);
    if e.TakeCandidate? && w.channel != [] {
      assert w.channel == w.channel[..1] + w.channel[1..];
    } else if EmittedBy(w, e) == [] {
      assert w'.taken == w.taken && w'.channel == w.channel;
    } else {
      assert w'.taken == w.taken && w'.channel == w.channel + EmittedBy(w, e);
    }
  }

  /** What the application took, followed by what waits for it, is everything sent while there was room, in the order of sending. */
  lemma {:induction false} EmittedInOrder(worlds: seq<World>, events: seq<Event>, n: nat)
    requires IsRun(worlds, events) && n < |worlds|
    ensures worlds[n].taken + worlds[n].channel == Emitted(worlds, events, n)
  {
    if n > 0 {
      EmittedInOrder(worlds, events, n - 1);
      EmitStep(worlds[n - 1], events[n - 1]);
    }
  }

  /** A candidate is dropped only at a poisoned lock or a full channel. */
  lemma DroppedOnlyWhenFull(w: World, e: Event)
    requires Next(w, e).dropped != w.dropped
    ensures (e.TrySign? || e.TrySend? || e.TryStage?) && e.task < |w.tasks|
    ensures e.poisoned || (e.TrySend? && |w.channel| + w.others >= SIGNAL_EVENT_CAPACITY)
    ensures w.tasks[e.task].hand != Empty && Next(w, e).dropped == w.dropped + [w.tasks[e.task].hand.item]
  {
    if e.TrySend? {
      assert w.dropped + [] == w.dropped;
    }
  }

  // ---- Terminal events ----

  datatype TerminalEvent = Failed | ClosedBy(reason: nat)

  /** The flag, the tasks whose claim was granted and who have yet to send, and what was sent or met a closed channel. */
  datatype Ending = Ending(flag: bool, granted: map<nat, TerminalEvent>, sent: seq<TerminalEvent>, undelivered: seq<TerminalEvent>)

  datatype EndingStep = Claim(task: nat, event: TerminalEvent) | Emit(task: nat, listening: bool)

  function EndingNext(s: Ending, e: EndingStep): Ending {
    match e
    case Claim(k, event) =>
      if k in s.granted then s
      else
        var (first, flag) := Claimed(s.flag);
        s.(flag := flag, granted := if first then s.granted[k := event] else s.granted)
    case Emit(k, listening) =>
      if k !in s.granted then s
      else if listening then s.(granted := s.granted - {k}, sent := s.sent + [s.granted[k]])
      else s.(granted := s.granted - {k}, undelivered := s.undelivered + [s.granted[k]])
  }

  ghost predicate IsEndingRun(states: seq<Ending>, steps: seq<EndingStep>) {
    && |states| == |steps| + 1 && states[0] == Ending(false, map[], [], [])
    && forall i | 0 <= i < |steps| :: states[i + 1] == EndingNext(states[i], steps[i])
  }

  /** How many claims were granted so far. */
  function Grants(s: Ending): nat {
    |s.granted| + |s.sent| + |s.undelivered|
  }

  /** Every granted claim was for this event. */
  ghost predicate AllFor(s: Ending, event: TerminalEvent) {
    && (forall k | k in s.granted :: s.granted[k] == event)
    && (forall i | 0 <= i < |s.sent| :: s.sent[i] == event)
    && (forall i | 0 <= i < |s.undelivered| :: s.undelivered[i] == event)
  }

  lemma EndingStepKeeps(s: Ending, e: EndingStep)
    requires Grants(s) == if s.flag then 1 else 0
    ensures var s' := EndingNext(s, e);
            && Grants(s') == (if s'.flag then 1 else 0)
            && (s'.flag <==> s.flag || e.Claim?)
            && (forall event | s.flag && AllFor(s, event) :: AllFor(s', event))
            && (!s.flag && e.Claim? ==> AllFor(s', e.event))
  {
    if !s.flag {
      assert s.granted == map[];
    }
    if e.Emit? && e.task in s.granted {
      assert |s.granted - {e.task}| == |s.granted| - 1 by {
        assert (s.granted - {e.task}).Keys == s.granted.Keys - {e.task};
      }
    }
  }

  /** The flag is up exactly when some task has claimed, and then exactly one claim was granted. */
  lemma {:induction false} OneTerminalClaim(states: seq<Ending>, steps: seq<EndingStep>, n: nat)
    requires IsEndingRun(states, steps) && n < |states|
    ensures Grants(states[n]) == if states[n].flag then 1 else 0
    ensures states[n].flag <==> exists i :: 0 <= i < n && steps[i].Claim?
  {
    if n > 0 {
      OneTerminalClaim(states, steps, n - 1);
      EndingStepKeeps(states[n - 1], steps[n - 1]);
    }
  }

  /** At most one terminal event is ever sent, and it is the one claimed first. */
  lemma {:induction false} FirstTerminalWins(states: seq<Ending>, steps: seq<EndingStep>, first: nat, n: nat)
    requires IsEndingRun(states, steps) && first < n < |states| && steps[first].Claim?
    requires forall i | 0 <= i < first :: !steps[i].Claim?
    ensures |states[n].sent| <= 1 && (states[n].sent == [] || states[n].sent == [steps[first].event])
    ensures Grants(states[n]) == 1 && AllFor(states[n], steps[first].event)
    decreases n
  {
    OneTerminalClaim(states, steps, n - 1);
    OneTerminalClaim(states, steps, n);
    EndingStepKeeps(states[n - 1], steps[n - 1]);
    if first < n - 1 {
      FirstTerminalWins(states, steps, first, n - 1);
    }
  }
}
