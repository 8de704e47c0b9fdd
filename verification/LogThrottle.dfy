/**
 The lock-free throttle on repeated warnings: one line in an interval, the rest counted and
 reported on the next line.
 (internal/logx/throttle.go)

 A call takes the time, loads `next`, tries to swap it, then either swaps the counter out and
 logs or adds to the counter. Steps of any number of callers interleave freely. Clocks are
 parameters, in nanoseconds; 64-bit overflow of the time is not modelled.
 */
module LogThrottle {
  import opened Text

  const THIRTY_SECONDS := 30_000_000_000

  function IntervalOf(requested: int): (r: int)
    ensures 0 < r && (0 < requested ==> r == requested) && (requested <= 0 ==> r == 30_000_000_000)
  {
    if requested <= 0 then THIRTY_SECONDS else requested
  }

  /** Where a call is: it has the time; it has loaded the deadline, after `seen` swaps; it has
      swapped; it has given up. */
  datatype Phase = Timed(now: int) | Loaded(now: int, deadline: int, seen: nat) | Won | Lost

  /** `wins` are the times of the successful swaps in order, `lines` the counts logged in order. */
  datatype World = World(
    next: int,
    suppressed: nat,
    callers: map<nat, Phase>,
    started: nat,
    wins: seq<int>,
    lines: seq<nat>)

  const QUIET := World(0, 0, map[], 0, [], [])

  datatype Event = Begins(id: nat, now: int) | Loads(id: nat) | Tries(id: nat) | Finishes(id: nat)

  /** One atomic step; an event that does not apply changes nothing. */
  function Step(interval: int, w: World, e: Event): World {
    match e
    case Begins(id, now) =>
      if id in w.callers then w else w.(callers := w.callers[id := Timed(now)], started := w.started + 1)
    case Loads(id) =>
      if id in w.callers && w.callers[id].Timed?
      then w.(callers := w.callers[id := Loaded(w.callers[id].now, w.next, |w.wins|)]) else w
    case Tries(id) =>
      if id in w.callers && w.callers[id].Loaded? then
        var now, deadline := w.callers[id].now, w.callers[id].deadline;
        if now < deadline || w.next != deadline then w.(callers := w.callers[id := Lost])
        else w.(next := now + interval, callers := w.callers[id := Won], wins := w.wins + [now])
      else w
    case Finishes(id) =>
      if id in w.callers && w.callers[id].Won? then
        w.(callers := w.callers - {id}, lines := w.lines + [w.suppressed], suppressed := 0)
      else if id in w.callers && w.callers[id].Lost? then
        w.(callers := w.callers - {id}, suppressed := w.suppressed + 1)
      else w
  }

  function Run(interval: int, events: seq<Event>): World {
    if events == [] then QUIET
    else Step(interval, Run(interval, events[..|events| - 1]), events[|events| - 1])
  }

  function Sum(lines: seq<nat>): nat {
    if lines == [] then 0 else Sum(lines[..|lines| - 1]) + lines[|lines| - 1]
  }

  /** The deadline after the first k swaps. */
  function Deadline(wins: seq<int>, interval: int, k: nat): int
    requires k <= |wins|
  {
    if k == 0 then 0 else wins[k - 1] + interval
  }

  ghost predicate Spaced(wins: seq<int>, interval: int) {
    forall k :: 0 <= k < |wins| ==> wins[k] >= Deadline(wins, interval, k)
  }

  ghost predicate Consistent(wins: seq<int>, interval: int, phase: Phase) {
    phase.Loaded? ==> phase.seen <= |wins| && phase.deadline == Deadline(wins, interval, phase.seen)
  }

  ghost predicate Inv(interval: int, w: World) {
    && w.next == Deadline(w.wins, interval, |w.wins|)
    && Spaced(w.wins, interval)
    && (forall id :: id in w.callers ==> Consistent(w.wins, interval, w.callers[id]))
    && w.started == |w.callers| + |w.lines| + Sum(w.lines) + w.suppressed
    && |w.wins| == |w.lines| + |Winners(w.callers)|
  }

  ghost function Winners(callers: map<nat, Phase>): set<nat> {
    set id | id in callers && callers[id].Won?
  }

  lemma {:induction false} SumStep(lines: seq<nat>, n: nat)
    ensures Sum(lines + [n]) == Sum(lines) + n
  {
    assert (lines + [n])[..|lines|] == lines;
  }

  lemma {:induction false} SizeOfUpdate(callers: map<nat, Phase>, id: nat, phase: Phase)
    ensures |callers[id := phase]| == if id in callers then |callers| else |callers| + 1
    ensures |Winners(callers[id := phase])| ==
            |Winners(callers)| + (if phase.Won? then 1 else 0) - if id in callers && callers[id].Won? then 1 else 0
  {
    KeysOfUpdate(callers, id, phase);
    var winners := Winners(callers);
    assert Winners(callers[id := phase]) == if phase.Won? then winners + {id} else winners - {id};
    assert id in winners <==> id in callers && callers[id].Won?;
    hide Winners;
    SizeOfAdding(winners, id);
    SizeOfTaking(winners, id);
  }

  lemma {:induction false} KeysOfUpdate(callers: map<nat, Phase>, id: nat, phase: Phase)
    ensures |callers[id := phase]| == if id in callers then |callers| else |callers| + 1
  {
    assert callers[id := phase].Keys == callers.Keys + {id};
    SizeOfAdding(callers.Keys, id);
  }

  lemma {:induction false} SizeOfAdding(ids: set<nat>, id: nat)
    ensures |ids + {id}| == if id in ids then |ids| else |ids| + 1
  {
    if id in ids { assert ids + {id} == ids; }
  }

  lemma {:induction false} SizeOfTaking(ids: set<nat>, id: nat)
    ensures |ids - {id}| == if id in ids then |ids| - 1 else |ids|
  {
    if id !in ids { assert ids - {id} == ids; }
  }

  lemma {:induction false} SizeOfRemoval(callers: map<nat, Phase>, id: nat)
    requires id in callers
    ensures |callers - {id}| == |callers| - 1
    ensures |Winners(callers - {id})| == |Winners(callers)| - if callers[id].Won? then 1 else 0
  {
    assert (callers - {id}).Keys == callers.Keys - {id};
    assert Winners(callers - {id}) == Winners(callers) - {id};
  }

  lemma {:induction false} WinKeeps(wins: seq<int>, interval: int, now: int)
    requires Spaced(wins, interval) && now >= Deadline(wins, interval, |wins|)
    ensures Spaced(wins + [now], interval)
    ensures forall phase :: Consistent(wins, interval, phase) ==> Consistent(wins + [now], interval, phase)
    ensures Deadline(wins + [now], interval, |wins| + 1) == now + interval
  {
    var after := wins + [now];
    forall k | 0 <= k < |after| ensures after[k] >= Deadline(after, interval, k) {
      if k < |wins| { assert wins[k] >= Deadline(wins, interval, k); }
    }
  }

  lemma {:induction false} StepKeepsInv(interval: int, w: World, e: Event)
    requires Inv(interval, w)
    ensures Inv(interval, Step(interval, w, e))
  {
    hide Winners, Sum, Spaced;
    match e
    case Begins(id, now) => SizeOfUpdate(w.callers, id, Timed(now));
    case Loads(id) =>
      if id in w.callers && w.callers[id].Timed? {
        SizeOfUpdate(w.callers, id, Loaded(w.callers[id].now, w.next, |w.wins|));
      }
    case Tries(id) => TryKeepsInv(interval, w, id);
    case Finishes(id) => FinishKeepsInv(interval, w, id);
  }

  lemma {:induction false} TryKeepsInv(interval: int, w: World, id: nat)
    requires Inv(interval, w)
    ensures Inv(interval, Step(interval, w, Tries(id)))
  {
    hide Winners, Sum, Spaced;
    SizeOfUpdate(w.callers, id, Lost);
    SizeOfUpdate(w.callers, id, Won);
    if id in w.callers && w.callers[id].Loaded? && w.callers[id].now >= w.next {
      WinKeeps(w.wins, interval, w.callers[id].now);
    }
  }

  lemma {:induction false} FinishKeepsInv(interval: int, w: World, id: nat)
    requires Inv(interval, w)
    ensures Inv(interval, Step(interval, w, Finishes(id)))
  {
    hide Winners, Sum, Spaced, Consistent;
    SumStep(w.lines, w.suppressed);
    if id in w.callers { SizeOfRemoval(w.callers, id); }
  }

  lemma {:induction false} RunKeepsInv(interval: int, events: seq<Event>)
    ensures Inv(interval, Run(interval, events))
  {
    if events == [] {
      assert Winners(map[]) == {};
    } else {
      hide Inv, Step;
      RunKeepsInv(interval, events[..|events| - 1]);
      StepKeepsInv(interval, Run(interval, events[..|events| - 1]), events[|events| - 1]);
    }
  }

  lemma {:induction false} SpacedApart(wins: seq<int>, interval: int, i: nat, j: nat)
    requires Spaced(wins, interval) && i <= j < |wins|
    ensures wins[j] - wins[i] >= (j - i) * interval
    decreases j
  {
    if i < j {
      SpacedApart(wins, interval, i, j - 1);
      assert wins[j] >= Deadline(wins, interval, j);
      assert (j - i) * interval == (j - 1 - i) * interval + interval;
    }
  }

  /** In every interleaving, callers that log are at least an interval apart in time: between
      the i-th and the j-th lie at least j - i intervals. */
  lemma {:induction false} LinesApart(requested: int, events: seq<Event>, i: nat, j: nat)
    requires i <= j < |Run(IntervalOf(requested), events).wins|
    ensures var wins := Run(IntervalOf(requested), events).wins;
            wins[j] - wins[i] >= (j - i) * IntervalOf(requested)
  {
    RunKeepsInv(IntervalOf(requested), events);
    SpacedApart(Run(IntervalOf(requested), events).wins, IntervalOf(requested), i, j);
  }

  /** How many calls have given up since the last line. */
  ghost function LostSince(interval: int, events: seq<Event>): nat {
    if events == [] then 0
    else
      var before, e := events[..|events| - 1], events[|events| - 1];
      var w := Run(interval, before);
      if e.Finishes? && e.id in w.callers && w.callers[e.id].Lost? then LostSince(interval, before) + 1
      else if e.Finishes? && e.id in w.callers && w.callers[e.id].Won? then 0
      else LostSince(interval, before)
  }

  /** Each line reports the calls that gave up since the line before, and no others. */
  lemma {:induction false} LineReports(interval: int, events: seq<Event>, id: nat)
    requires id in Run(interval, events).callers && Run(interval, events).callers[id].Won?
    ensures var w := Run(interval, events);
            Run(interval, events + [Finishes(id)]).lines == w.lines + [LostSince(interval, events)]
  {
    CountIsLost(interval, events);
    assert (events + [Finishes(id)])[..|events|] == events;
  }

  lemma {:induction false} CountIsLost(interval: int, events: seq<Event>)
    ensures Run(interval, events).suppressed == LostSince(interval, events)
  {
    if events != [] { CountIsLost(interval, events[..|events| - 1]); }
  }

  /** No call goes uncounted: the finished ones are the lines logged, the counts those lines
      reported and the counter; once all have finished, every swap has logged its line. */
  lemma {:induction false} CallsConserved(interval: int, events: seq<Event>)
    ensures var w := Run(interval, events);
            && w.started - |w.callers| == |w.lines| + Sum(w.lines) + w.suppressed
            && (w.callers == map[] ==> |w.wins| == |w.lines| && w.started == |w.lines| + Sum(w.lines) + w.suppressed)
  {
    RunKeepsInv(interval, events);
    var w := Run(interval, events);
    if w.callers == map[] { assert Winners(w.callers) == {}; }
  }

  lemma {:induction false} DeadlinesAscend(wins: seq<int>, interval: int, i: nat, j: nat)
    requires 0 < interval && Spaced(wins, interval) && i < j <= |wins|
    ensures Deadline(wins, interval, i) < Deadline(wins, interval, j)
    decreases j
  {
    assert wins[j - 1] >= Deadline(wins, interval, j - 1);
    if i < j - 1 { DeadlinesAscend(wins, interval, i, j - 1); }
  }

  /** A caller whose time has come gives up its line exactly when another one has won since it
      looked: the swap is not fooled by an old value coming back. */
  lemma {:induction false} LosesOnlyToWinner(requested: int, events: seq<Event>, id: nat)
    requires var w := Run(IntervalOf(requested), events);
             id in w.callers && w.callers[id].Loaded? && w.callers[id].now >= w.callers[id].deadline
    ensures var w := Run(IntervalOf(requested), events);
            Step(IntervalOf(requested), w, Tries(id)).callers[id] == Lost <==> w.callers[id].seen < |w.wins|
  {
    var interval := IntervalOf(requested);
    RunKeepsInv(interval, events);
    var w := Run(interval, events);
    hide Run;
    assert Consistent(w.wins, interval, w.callers[id]);
    if w.callers[id].seen < |w.wins| { DeadlinesAscend(w.wins, interval, w.callers[id].seen, |w.wins|); }
  }

  // ----- One call on its own -----

  class Throttle {
    const interval: int
    var next: int
    var suppressed: nat

    constructor (requested: int)
      ensures interval == IntervalOf(requested) && next == 0 && suppressed == 0
    {
      interval := if requested <= 0 then THIRTY_SECONDS else requested;
      next, suppressed := 0, 0;
    }

    /** Logs, with the count to report, or counts. */
    method Warn(now: int) returns (line: Option<nat>)
      modifies this
      ensures line == (if now < old(next) then None else Some(old(suppressed)))
      ensures next == (if now < old(next) then old(next) else now + interval)
      ensures suppressed == (if now < old(next) then old(suppressed) + 1 else 0)
    {
      var deadline := next;
      if now < deadline {
        suppressed := suppressed + 1;
        return None;
      }
      next := now + interval;
      var n := suppressed;
      suppressed := 0;
      return Some(n);
    }
  }

  /** The steps of a call that nobody interrupts. */
  lemma {:induction false} AloneIsWarn(interval: int, w: World, id: nat, now: int)
    requires id !in w.callers
    ensures var w1 := Step(interval, Step(interval, w, Begins(id, now)), Loads(id));
            var done := Step(interval, Step(interval, w1, Tries(id)), Finishes(id));
            && done.callers == w.callers
            && done.next == (if now < w.next then w.next else now + interval)
            && done.suppressed == (if now < w.next then w.suppressed + 1 else 0)
            && done.lines == (if now < w.next then w.lines else w.lines + [w.suppressed])
  {
    assert w.callers[id := Won] - {id} == w.callers && w.callers[id := Lost] - {id} == w.callers;
  }
}
