/**
 The circuit breaker shared by all requests to an origin. Admissions and recorded outcomes
 are atomic steps that interleave freely.
 (internal/httpx/breaker.go)

 `gen` does not wrap. Clocks and the jitter's random draws are parameters.
 */
module Breaker {
  import opened Text
  import opened Backoff

  datatype State = Closed | Open | HalfOpen

  datatype Circuit = Circuit(state: State, consecFails: nat, reopens: nat, openUntil: int, probes: nat, gen: nat)

  const INITIAL := Circuit(Closed, 0, 0, 0, 0, 0)

  datatype Error = Canceled | OtherError

  /** How a request ended: an error, or a response with a status code, if there is one. */
  datatype Reply = Reply(error: Option<Error>, status: Option<int>)

  datatype Verdict = Success | Failure | Neutral

  /** A canceled request says nothing about the origin; other errors and 5xx count against it. */
  function Classify(reply: Reply): Verdict {
    match reply.error
    case Some(Canceled) => Neutral
    case Some(OtherError) => Failure
    case None => if reply.status.Some? && reply.status.value >= 500 then Failure else Success
  }

  /** The circuit after an admission request, and the generation it admits under, if it does. */
  function Admit(cfg: Config, c: Circuit, now: int): (Circuit, Option<nat>) {
    match c.state
    case Closed => (c, Some(c.gen))
    case Open => if now < c.openUntil then (c, None) else (c.(state := HalfOpen, probes := 1), Some(c.gen))
    case HalfOpen => if c.probes >= cfg.halfOpenProbes then (c, None) else (c.(probes := c.probes + 1), Some(c.gen))
  }

  function Opened(cfg: Config, c: Circuit, reopens: nat, now: int, draw: nat): Circuit
    requires cfg.Valid() && draw <= Period(cfg, reopens) / 2
  {
    Circuit(Open, 0, reopens, now + FullJitter(Period(cfg, reopens), draw), 0, c.gen + 1)
  }

  /** A random draw that is in range whatever period it is used for. */
  function Draw(cfg: Config, reopens: nat, seed: nat): (r: nat)
    requires cfg.Valid()
    ensures r <= Period(cfg, reopens) / 2
  {
    seed % (Period(cfg, reopens) / 2 + 1)
  }

  /** The circuit after an outcome of a request admitted under `gen`. */
  function Record(cfg: Config, c: Circuit, gen: nat, verdict: Verdict, now: int, seed: nat): Circuit
    requires cfg.Valid()
  {
    if gen != c.gen then c
    else match verdict
      case Neutral => if c.state == HalfOpen && c.probes > 0 then c.(probes := c.probes - 1) else c
      case Failure =>
        (match c.state
         case Closed =>
           if c.consecFails + 1 >= cfg.failureThreshold then Opened(cfg, c, 0, now, Draw(cfg, 0, seed))
           else c.(consecFails := c.consecFails + 1)
         case HalfOpen => Opened(cfg, c, c.reopens + 1, now, Draw(cfg, c.reopens + 1, seed))
         case Open => c)
      case Success => c.(state := Closed, consecFails := 0, reopens := 0, probes := 0)
  }

  class BreakerTransport {
    const cfg: Config
    var state: State
    var consecFails: nat
    var reopens: nat
    var openUntil: int
    var probes: nat
    var gen: nat

    ghost function View(): Circuit
      reads this
    {
      Circuit(state, consecFails, reopens, openUntil, probes, gen)
    }

    constructor (cfg: Config)
      ensures this.cfg == WithDefaults(cfg) && View() == INITIAL
    {
      this.cfg := WithDefaults(cfg);
      state, consecFails, reopens, openUntil, probes, gen := Closed, 0, 0, 0, 0, 0;
    }

    method TryAdmit(now: int) returns (r: Option<nat>)
      modifies this
      ensures (View(), r) == Admit(cfg, old(View()), now)
    {
      match state {
        case Closed => return Some(gen);
        case Open =>
          if now < openUntil {
            return None;
          }
          state, probes := HalfOpen, 1;
          return Some(gen);
        case HalfOpen =>
          if probes >= cfg.halfOpenProbes {
            return None;
          }
          probes := probes + 1;
          return Some(gen);
      }
    }

    method RecordOutcome(admitted: nat, reply: Reply, now: int, seed: nat)
      requires cfg.Valid()
      modifies this
      ensures View() == Record(cfg, old(View()), admitted, Classify(reply), now, seed)
    {
      if admitted != gen {
        return;
      }
      if reply.error == Some(Canceled) {
        if state == HalfOpen && probes > 0 {
          probes := probes - 1;
        }
        return;
      }
      var failure := reply.error.Some? || (reply.status.Some? && reply.status.value >= 500);
      if failure {
        match state {
          case Closed =>
            consecFails := consecFails + 1;
            if consecFails >= cfg.failureThreshold {
              reopens := 0;
              OpenCircuit(now, seed);
            }
          case HalfOpen =>
            reopens := reopens + 1;
            OpenCircuit(now, seed);
          case Open =>
        }
        return;
      }
      state, consecFails, reopens, probes := Closed, 0, 0, 0;
    }

    method OpenCircuit(now: int, seed: nat)
      requires cfg.Valid()
      modifies this
      ensures View() == Opened(cfg, old(View()), old(reopens), now, Draw(cfg, old(reopens), seed))
    {
      var period := Wrap(cfg.openBase * Pow2(reopens));
      if period > cfg.openMax || period <= 0 {
        period := cfg.openMax;
      }
      period := FullJitter(period, seed % (period / 2 + 1));
      state, openUntil, consecFails, probes, gen := Open, now + period, 0, 0, gen + 1;
    }
  }

  // ----- Runs -----

  /** A request asks to be admitted, or one admitted under `gen` ends. */
  datatype Event = Asks(now: int) | Ends(gen: nat, reply: Reply, now: int, seed: nat)

  /** The circuit, the generations of the requests in flight, the replies since the generation
      began that belong to it and were not canceled, and how often the circuit has opened since
      it was last closed. */
  datatype World = World(c: Circuit, inFlight: multiset<nat>, judged: seq<Reply>, opens: nat)

  const QUIET := World(INITIAL, multiset{}, [], 0)

  /** A request ends once for each time it was admitted. */
  ghost predicate Possible(w: World, e: Event) {
    e.Ends? ==> e.gen in w.inFlight
  }

  ghost function Judged(judged: seq<Reply>, gen: nat, c: Circuit, reply: Reply): seq<Reply> {
    if gen == c.gen && reply.error != Some(Canceled) then judged + [reply] else judged
  }

  ghost function Step(cfg: Config, w: World, e: Event): World
    requires cfg.Valid()
  {
    match e
    case Asks(now) =>
      var (c, admitted) := Admit(cfg, w.c, now);
      World(c, if admitted.Some? then w.inFlight + multiset{admitted.value} else w.inFlight, w.judged, w.opens)
    case Ends(gen, reply, now, seed) =>
      var c := Record(cfg, w.c, gen, Classify(reply), now, seed);
      World(c,
            w.inFlight - multiset{gen},
            if c.gen != w.c.gen then [] else Judged(w.judged, gen, w.c, reply),
            if c.state == Closed then 0 else if c.gen != w.c.gen then w.opens + 1 else w.opens)
  }

  ghost function Run(cfg: Config, w: World, events: seq<Event>): World
    requires cfg.Valid()
    decreases events
  {
    if events == [] then w else Run(cfg, Step(cfg, w, events[0]), events[1..])
  }

  ghost predicate AllPossible(cfg: Config, w: World, events: seq<Event>)
    requires cfg.Valid()
    decreases events
  {
    events == [] || (Possible(w, events[0]) && AllPossible(cfg, Step(cfg, w, events[0]), events[1..]))
  }

  /** The reply carries an error or a server error's status. */
  ghost predicate Bad(reply: Reply) {
    reply.error.Some? || (reply.status.Some? && reply.status.value >= 500)
  }

  /** The number of bad replies at the end. */
  ghost function Trailing(judged: seq<Reply>): nat {
    if judged == [] || !Bad(judged[|judged| - 1]) then 0 else 1 + Trailing(judged[..|judged| - 1])
  }

  ghost predicate Inv(cfg: Config, w: World) {
    var c := w.c;
    && (forall g :: g in w.inFlight ==> g <= c.gen)
    && (c.state == HalfOpen ==> c.probes == w.inFlight[c.gen] <= cfg.halfOpenProbes)
    && (c.state == Open ==> w.inFlight[c.gen] == 0)
    && (c.state != HalfOpen ==> c.probes == 0)
    && (c.state == Closed ==> c.consecFails == Trailing(w.judged) < cfg.failureThreshold && c.reopens == w.opens == 0)
    && (c.state != Closed ==> c.consecFails == 0 && w.judged == [] && w.opens == c.reopens + 1)
  }

  lemma {:induction false} TrailingStep(judged: seq<Reply>, reply: Reply)
    ensures Trailing(judged + [reply]) == if Bad(reply) then Trailing(judged) + 1 else 0
  {
    assert (judged + [reply])[..|judged|] == judged;
  }

  lemma {:induction false} StepKeepsInv(cfg: Config, w: World, e: Event)
    requires cfg.Valid() && Inv(cfg, w) && Possible(w, e)
    ensures Inv(cfg, Step(cfg, w, e))
  {
    hide Opened, Trailing, Draw;
    if e.Ends? { EndKeepsInv(cfg, w, e); }
  }

  lemma {:induction false} EndKeepsInv(cfg: Config, w: World, e: Event)
    requires cfg.Valid() && Inv(cfg, w) && Possible(w, e) && e.Ends?
    ensures Inv(cfg, Step(cfg, w, e))
  {
    hide Trailing, Draw, Period, FullJitter;
    TrailingStep(w.judged, e.reply);
    assert Trailing([]) == 0 by { TrailingEmpty(); }
  }

  lemma {:induction false} TrailingEmpty()
    ensures Trailing([]) == 0
  {
  }

  /** In-flight accounting, for every interleaving: while half-open the probe count is the
      number of current requests in flight and within its limit; while open none is in flight;
      while closed the failure count is that of the trailing judged failures. */
  lemma {:induction false} RunKeepsInv(cfg: Config, w: World, events: seq<Event>)
    requires cfg.Valid() && Inv(cfg, w) && AllPossible(cfg, w, events)
    ensures Inv(cfg, Run(cfg, w, events))
    decreases events
  {
    hide Inv, Step, Possible;
    if events != [] {
      StepKeepsInv(cfg, w, events[0]);
      RunKeepsInv(cfg, Step(cfg, w, events[0]), events[1..]);
    }
  }

  ghost predicate Reachable(cfg: Config, w: World)
    requires cfg.Valid()
  {
    exists events :: AllPossible(cfg, QUIET, events) && Run(cfg, QUIET, events) == w
  }

  lemma {:induction false} ReachableInv(cfg: Config, w: World)
    requires cfg.Valid() && Reachable(cfg, w)
    ensures Inv(cfg, w)
  {
    var events :| AllPossible(cfg, QUIET, events) && Run(cfg, QUIET, events) == w;
    RunKeepsInv(cfg, QUIET, events);
  }

  /** No request of the current generation can end while the circuit is open. */
  lemma {:induction false} NoCurrentEndWhileOpen(cfg: Config, w: World, e: Event)
    requires cfg.Valid() && Reachable(cfg, w) && Possible(w, e) && e.Ends?
    ensures w.c.state == Open ==> e.gen != w.c.gen
  {
    ReachableInv(cfg, w);
  }

  /** A half-open circuit refuses a request exactly when all its probes are in flight, so it
      always has a live probe or room for one. */
  lemma {:induction false} HalfOpenNeverWedges(cfg: Config, w: World, now: int)
    requires cfg.Valid() && Reachable(cfg, w) && w.c.state == HalfOpen
    ensures Admit(cfg, w.c, now).1.None? <==> w.inFlight[w.c.gen] == cfg.halfOpenProbes
  {
    ReachableInv(cfg, w);
  }

  /** Whatever has happened, once nothing of the current generation is in flight and the open
      period is over, one request answered below 500 closes the circuit and clears its counters. */
  lemma {:induction false} AlwaysRecovers(cfg: Config, w: World, now: int, reply: Reply, later: int, seed: nat)
    requires cfg.Valid() && Reachable(cfg, w) && w.inFlight[w.c.gen] == 0
    requires w.c.state == Open ==> w.c.openUntil <= now
    requires reply.error.None? && (reply.status.Some? ==> reply.status.value < 500)
    ensures var events := [Asks(now), Ends(w.c.gen, reply, later, seed)];
            AllPossible(cfg, w, events) &&
            Run(cfg, w, events).c == Circuit(Closed, 0, 0, w.c.openUntil, 0, w.c.gen)
  {
    ReachableInv(cfg, w);
    hide AllPossible, Run, Reachable;
    var first, second := Asks(now), Ends(w.c.gen, reply, later, seed);
    var w1 := Step(cfg, w, first);
    assert Possible(w, first) && w1.c.gen == w.c.gen && w.c.gen in w1.inFlight;
    TwoSteps(cfg, w, first, second);
  }

  lemma {:induction false} TwoSteps(cfg: Config, w: World, first: Event, second: Event)
    requires cfg.Valid()
    ensures Run(cfg, w, [first, second]) == Step(cfg, Step(cfg, w, first), second)
    ensures AllPossible(cfg, w, [first, second]) <==> Possible(w, first) && Possible(Step(cfg, w, first), second)
  {
    hide Step, Possible;
    assert [first, second][1..] == [second] && [second][1..] == [];
    var w1 := Step(cfg, w, first);
    assert Run(cfg, w1, [second]) == Run(cfg, Step(cfg, w1, second), []);
    assert AllPossible(cfg, w1, [second]) <==> Possible(w1, second) && AllPossible(cfg, Step(cfg, w1, second), []);
  }

  // ----- The open window -----

  ghost predicate AsksBefore(events: seq<Event>, until: int) {
    forall i :: 0 <= i < |events| && events[i].Asks? ==> events[i].now < until
  }

  /** Until an open circuit's time is up nothing is admitted and nothing that is recorded
      changes any of its fields. */
  lemma {:induction false} OpenWindow(cfg: Config, w: World, events: seq<Event>)
    requires cfg.Valid() && Inv(cfg, w) && w.c.state == Open
    requires AllPossible(cfg, w, events) && AsksBefore(events, w.c.openUntil)
    ensures Run(cfg, w, events).c == w.c
    ensures Run(cfg, w, events).inFlight <= w.inFlight
    decreases events
  {
    if events != [] {
      var w1 := Step(cfg, w, events[0]);
      StepKeepsInv(cfg, w, events[0]);
      assert w1.c == w.c && w1.inFlight <= w.inFlight;
      assert AsksBefore(events[1..], w.c.openUntil);
      OpenWindow(cfg, w1, events[1..]);
    }
  }

  lemma {:induction false} GenerationsGrow(cfg: Config, w: World, events: seq<Event>)
    requires cfg.Valid()
    ensures w.c.gen <= Run(cfg, w, events).c.gen
    decreases events
  {
    hide Step;
    if events != [] {
      GenerationGrows(cfg, w, events[0]);
      GenerationsGrow(cfg, Step(cfg, w, events[0]), events[1..]);
    }
  }

  lemma {:induction false} GenerationGrows(cfg: Config, w: World, e: Event)
    requires cfg.Valid()
    ensures w.c.gen <= Step(cfg, w, e).c.gen
  {
    hide Draw, Period, FullJitter;
  }

  /** Once the circuit opens, the outcome of a request admitted before is ignored however
      much later it comes. */
  lemma {:induction false} StaleForEver(cfg: Config, w: World, opening: Event, events: seq<Event>, gen: nat,
                                        reply: Reply, now: int, seed: nat)
    requires cfg.Valid() && Reachable(cfg, w) && Possible(w, opening) && gen in w.inFlight
    requires w.c.state != Open && Step(cfg, w, opening).c.state == Open
    ensures var c := Run(cfg, Step(cfg, w, opening), events).c;
            Record(cfg, c, gen, Classify(reply), now, seed) == c
  {
    hide Draw, Period, FullJitter, Run, AllPossible;
    ReachableInv(cfg, w);
    assert Step(cfg, w, opening).c.gen == w.c.gen + 1;
    GenerationsGrow(cfg, Step(cfg, w, opening), events);
  }

  /** The last `count` replies exist, and each is an error or has a status of at least 500. */
  ghost predicate LastAllFail(judged: seq<Reply>, count: nat) {
    count <= |judged| &&
    forall i :: |judged| - count <= i < |judged| ==>
      judged[i].error.Some? || (judged[i].status.Some? && judged[i].status.value >= 500)
  }

  lemma {:induction false} TrailingMeans(judged: seq<Reply>, count: nat)
    ensures Trailing(judged) >= count <==> LastAllFail(judged, count)
  {
    if judged != [] && Bad(judged[|judged| - 1]) && count > 0 {
      var rest := judged[..|judged| - 1];
      TrailingMeans(rest, count - 1);
      assert LastAllFail(judged, count) ==> LastAllFail(rest, count - 1);
      if LastAllFail(rest, count - 1) {
        forall i | |judged| - count <= i < |judged| ensures Bad(judged[i]) {
          if i < |rest| { assert judged[i] == rest[i]; }
        }
      }
    }
  }

  /** A closed circuit opens exactly when a reply of the current generation that was not
      canceled makes the last `failureThreshold` such replies all errors or server errors. */
  lemma {:induction false} OpensExactly(cfg: Config, w: World, e: Event)
    requires cfg.Valid() && Reachable(cfg, w) && Possible(w, e) && w.c.state == Closed
    ensures Step(cfg, w, e).c.state == Open <==>
              && e.Ends? && e.gen == w.c.gen && e.reply.error != Some(Canceled)
              && LastAllFail(w.judged + [e.reply], cfg.failureThreshold)
  {
    ReachableInv(cfg, w);
    if e.Ends? {
      TrailingStep(w.judged, e.reply);
      TrailingMeans(w.judged + [e.reply], cfg.failureThreshold);
    }
  }

  /** A half-open circuit opens again exactly when a probe of its own generation ends in an
      error that is not a cancellation or in a server error. */
  lemma {:induction false} ReopensExactly(cfg: Config, w: World, e: Event)
    requires cfg.Valid() && Reachable(cfg, w) && Possible(w, e) && w.c.state == HalfOpen
    ensures Step(cfg, w, e).c.state == Open <==>
              && e.Ends? && e.gen == w.c.gen && e.reply.error != Some(Canceled)
              && (e.reply.error.Some? || (e.reply.status.Some? && e.reply.status.value >= 500))
  {
    hide Draw, Period, FullJitter, Reachable;
  }

  /** A canceled request gives back its half-open probe and changes nothing else. */
  lemma {:induction false} CanceledFreesProbe(cfg: Config, w: World, e: Event)
    requires cfg.Valid() && Reachable(cfg, w) && Possible(w, e)
    requires e.Ends? && e.reply.error == Some(Canceled)
    ensures var after := Step(cfg, w, e);
            && after.judged == w.judged && after.opens == w.opens
            && after.c == w.c.(probes := after.c.probes)
            && (w.c.state == HalfOpen && e.gen == w.c.gen ==> after.c.probes + 1 == w.c.probes)
            && (w.c.state != HalfOpen || e.gen != w.c.gen ==> after.c.probes == w.c.probes)
  {
    ReachableInv(cfg, w);
    hide Reachable, Trailing;
  }

  /** A current reply without an error and with a status below 500 closes the circuit and
      clears its counters, whatever its state. */
  lemma {:induction false} GoodReplyCloses(cfg: Config, w: World, e: Event)
    requires cfg.Valid() && Reachable(cfg, w) && Possible(w, e)
    requires e.Ends? && e.gen == w.c.gen && e.reply.error.None?
    requires e.reply.status.Some? ==> e.reply.status.value < 500
    ensures var after := Step(cfg, w, e);
            && after.c == Circuit(Closed, 0, 0, w.c.openUntil, 0, w.c.gen)
            && after.judged == w.judged + [e.reply] && after.opens == 0
  {
    hide Reachable, Trailing;
  }

  /** What is admitted, over any run: everything while closed, nothing before the open period is
      over and then one probe, and a further probe while half-open exactly as long as fewer than
      `halfOpenProbes` of the current generation are in flight. The generation is the current one. */
  lemma {:induction false} AdmitsExactly(cfg: Config, w: World, now: int)
    requires cfg.Valid() && Reachable(cfg, w)
    ensures var after := Step(cfg, w, Asks(now));
            && after.c.gen == w.c.gen && after.judged == w.judged && after.opens == w.opens
            && (w.c.state == Closed ==> after.c == w.c && after.inFlight == w.inFlight + multiset{w.c.gen})
            && (w.c.state == Open ==>
                  if now < w.c.openUntil then after == w
                  else after.c.state == HalfOpen && after.inFlight == w.inFlight + multiset{w.c.gen})
            && (w.c.state == HalfOpen ==>
                  if w.inFlight[w.c.gen] >= cfg.halfOpenProbes then after == w
                  else after.c.state == HalfOpen && after.inFlight == w.inFlight + multiset{w.c.gen})
  {
    ReachableInv(cfg, w);
    hide Reachable, Trailing;
  }

  /** The n-th opening in a row lasts the n-th period, jittered. */
  lemma {:induction false} OpenPeriods(cfg: Config, w: World, e: Event)
    requires cfg.Valid() && Reachable(cfg, w) && Possible(w, e) && e.Ends? && Step(cfg, w, e).c.gen != w.c.gen
    ensures var after, period := Step(cfg, w, e), Period(cfg, w.opens);
            && after.c.state == Open && after.opens == w.opens + 1
            && period / 2 <= after.c.openUntil - e.now <= period
  {
    ReachableInv(cfg, w);
  }

  /** And within what halving rounds off, every such length occurs: for each there is a draw that
      gives it. */
  lemma {:induction false} EveryPeriodOccurs(cfg: Config, w: World, e: Event, length: int)
    requires cfg.Valid() && Reachable(cfg, w) && Possible(w, e) && e.Ends? && Step(cfg, w, e).c.gen != w.c.gen
    requires var period := Period(cfg, w.opens); period / 2 <= length <= period - period % 2
    ensures var drawn := e.(seed := length - Period(cfg, w.opens) / 2);
            Step(cfg, w, drawn).c.openUntil == e.now + length
  {
    ReachableInv(cfg, w);
    hide Period, Reachable, Trailing;
    var period := Period(cfg, w.opens);
    DrawOf(cfg, w.opens, length - period / 2);
  }

  lemma {:induction false} DrawOf(cfg: Config, reopens: nat, draw: nat)
    requires cfg.Valid() && draw <= Period(cfg, reopens) / 2
    ensures Draw(cfg, reopens, draw) == draw
  {
    hide Period;
  }
}
