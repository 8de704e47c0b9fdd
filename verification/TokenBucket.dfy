/**
 The shared rate limiter: a token bucket that refills continuously, kept by a script that
 every proxy replica calls with its own clock, and dropped when idle.
 (internal/middleware/ratelimit/redis.go)

 Tokens are reals. Clocks are milliseconds and are parameters.
 */
module TokenBucket {
  import opened Text

  /** Tokens a second, the most a bucket holds, and what a call consumes. */
  datatype Params = Params(rate: real, burst: real, cost: real) {
    ghost predicate Valid() {
      0.0 < rate && 0.0 < cost
    }
  }

  datatype Bucket = Bucket(tokens: real, ts: int)

  datatype Decision = Decision(allowed: bool, pre: real, retryMs: int)

  function Ceil(x: real): (r: int)
    ensures r as real - 1.0 < x <= r as real
  {
    -(-x).Floor
  }

  /** What a bucket gains in `ms` milliseconds. */
  function Gain(p: Params, ms: int): real {
    ms as real / 1000.0 * p.rate
  }

  /** How many milliseconds it takes to gain `amount`. */
  function Wait(p: Params, amount: real): int
    requires p.rate != 0.0
  {
    Ceil(amount / p.rate * 1000.0)
  }

  /** The idle time after which a bucket is dropped. */
  function Ttl(p: Params): int
    requires p.rate != 0.0
  {
    Wait(p, p.burst) * 2
  }

  /** The bucket a call finds, refilled; a missing one is full. A clock that runs behind the
      bucket's adds nothing and does not set it back. */
  function Refilled(p: Params, b: Option<Bucket>, now: int): Bucket {
    match b
    case None => Bucket(p.burst, now)
    case Some(Bucket(tokens, ts)) =>
      if now > ts then
        var full := tokens + Gain(p, now - ts);
        Bucket(if p.burst < full then p.burst else full, now)
      else Bucket(tokens, ts)
  }

  function Decide(p: Params, tokens: real): Decision
    requires p.rate != 0.0
  {
    if tokens >= p.cost then Decision(true, tokens, 0)
    else Decision(false, tokens, Wait(p, p.cost - tokens))
  }

  /** The bucket a call leaves. */
  function Left(p: Params, b: Option<Bucket>, now: int): Bucket {
    var r := Refilled(p, b, now);
    if r.tokens >= p.cost then r.(tokens := r.tokens - p.cost) else r
  }

  function Decided(p: Params, b: Option<Bucket>, now: int): Decision
    requires p.rate != 0.0
  {
    Decide(p, Refilled(p, b, now).tokens)
  }

  /** The script as it updates the stored hash. */
  class SharedBucket {
    var stored: Option<Bucket>
    var ttl: int

    constructor ()
      ensures stored == None
    {
      stored, ttl := None, 0;
    }

    method Call(p: Params, now: int) returns (d: Decision)
      requires p.rate != 0.0
      modifies this
      ensures d == Decided(p, old(stored), now)
      ensures stored == Some(Left(p, old(stored), now)) && ttl == Ttl(p)
    {
      hide Gain, Wait;
      var tokens, ts := p.burst, now;
      if stored.Some? {
        tokens, ts := stored.value.tokens, stored.value.ts;
      }
      if now > ts {
        var full := tokens + Gain(p, now - ts);
        tokens := if p.burst < full then p.burst else full;
        ts := now;
      }
      var pre := tokens;
      var allowed, retryMs := false, 0;
      if tokens >= p.cost {
        tokens := tokens - p.cost;
        allowed := true;
      } else {
        retryMs := Wait(p, p.cost - tokens);
      }
      stored := Some(Bucket(tokens, ts));
      ttl := Wait(p, p.burst) * 2;
      d := Decision(allowed, pre, retryMs);
    }
  }

  // ----- Arithmetic of the refill -----

  lemma {:induction false} GainSums(p: Params, a: int, b: int)
    ensures Gain(p, a + b) == Gain(p, a) + Gain(p, b)
  {
  }

  lemma {:induction false} GainGrows(p: Params, ms: int)
    requires p.Valid() && 0 <= ms
    ensures 0.0 <= Gain(p, ms)
  {
  }

  /** The wait for an amount is the least number of milliseconds that gains it. */
  lemma {:induction false} WaitIsLeast(p: Params, amount: real, ms: int)
    requires p.Valid()
    ensures Gain(p, ms) >= amount <==> ms >= Wait(p, amount)
  {
    GainReaches(p, amount, ms);
    AtLeastCeil(amount / p.rate * 1000.0, ms);
  }

  lemma {:induction false} GainReaches(p: Params, amount: real, ms: int)
    requires p.Valid()
    ensures Gain(p, ms) >= amount <==> ms as real >= amount / p.rate * 1000.0
  {
    var exact := amount / p.rate * 1000.0;
    assert amount == exact / 1000.0 * p.rate;
    Scaled(ms as real / 1000.0, exact / 1000.0, p.rate);
  }

  lemma {:induction false} Scaled(a: real, b: real, c: real)
    requires 0.0 < c
    ensures a * c >= b * c <==> a >= b
  {
    var d := a - b;
    assert a * c - b * c == d * c;
    assert d >= 0.0 <==> d * c >= 0.0;
  }

  lemma {:induction false} AtLeastCeil(x: real, n: int)
    ensures n as real >= x <==> n >= Ceil(x)
  {
  }

  // ----- Runs -----

  /** A call by some replica's clock. `dropped` says that the bucket had been dropped. */
  datatype Call = Call(now: int, dropped: bool)

  function Found(b: Option<Bucket>, call: Call): Option<Bucket> {
    if call.dropped then None else b
  }

  function After(p: Params, b: Option<Bucket>, calls: seq<Call>): Option<Bucket> {
    if calls == [] then b
    else Some(Left(p, Found(After(p, b, calls[..|calls| - 1]), calls[|calls| - 1]), calls[|calls| - 1].now))
  }

  function Decisions(p: Params, b: Option<Bucket>, calls: seq<Call>): (r: seq<Decision>)
    requires p.rate != 0.0
    ensures |r| == |calls|
  {
    if calls == [] then []
    else
      var n := |calls| - 1;
      Decisions(p, b, calls[..n]) + [Decided(p, Found(After(p, b, calls[..n]), calls[n]), calls[n].now)]
  }

  function Allowed(decisions: seq<Decision>): nat {
    if decisions == [] then 0
    else
      var n := |decisions| - 1;
      if decisions[n].allowed then Allowed(decisions[..n]) + 1 else Allowed(decisions[..n])
  }

  ghost predicate InRange(p: Params, b: Option<Bucket>) {
    b.Some? ==> b.value.tokens <= p.burst && (0.0 <= b.value.tokens || b.value.tokens == p.burst)
  }

  lemma {:induction false} LeftInRange(p: Params, b: Option<Bucket>, now: int)
    requires p.Valid() && InRange(p, b)
    ensures InRange(p, Some(Refilled(p, b, now))) && InRange(p, Some(Left(p, b, now)))
  {
    hide Gain;
    if b.Some? && now > b.value.ts { GainGrows(p, now - b.value.ts); }
  }

  /** Tokens stay between zero and the burst, whatever the clocks do and whenever the bucket is
      dropped. (With a negative burst they are always the burst.) */
  lemma {:induction false} TokensInRange(p: Params, b: Option<Bucket>, calls: seq<Call>)
    requires p.Valid() && InRange(p, b)
    ensures InRange(p, After(p, b, calls))
  {
    hide Left;
    if calls != [] {
      var n := |calls| - 1;
      TokensInRange(p, b, calls[..n]);
      LeftInRange(p, Found(After(p, b, calls[..n]), calls[n]), calls[n].now);
    }
  }

  /** A burst below the cost allows nothing, ever; any other allows the first call. */
  lemma {:induction false} NothingAllowedIff(p: Params)
    requires p.Valid()
    ensures (forall calls :: Allowed(Decisions(p, None, calls)) == 0) <==> p.burst < p.cost
  {
    if p.burst < p.cost {
      forall calls ensures Allowed(Decisions(p, None, calls)) == 0 { NothingAllowed(p, calls); }
    } else {
      var call := Call(0, false);
      assert [call][..0] == [];
      assert Decisions(p, None, [call]) == [Decided(p, None, 0)];
      assert [Decided(p, None, 0)][..0] == [];
      assert Allowed(Decisions(p, None, [call])) == 1;
    }
  }

  lemma {:induction false} NothingAllowed(p: Params, calls: seq<Call>)
    requires p.Valid() && p.burst < p.cost
    ensures Allowed(Decisions(p, None, calls)) == 0
  {
    hide Left, Refilled;
    if calls != [] {
      var n := |calls| - 1;
      NothingAllowed(p, calls[..n]);
      TokensInRange(p, None, calls[..n]);
      LeftInRange(p, Found(After(p, None, calls[..n]), calls[n]), calls[n].now);
      AllowedPrefix(p, None, calls);
    }
  }

  lemma {:induction false} AllowedPrefix(p: Params, b: Option<Bucket>, calls: seq<Call>)
    requires p.rate != 0.0 && calls != []
    ensures var n := |calls| - 1;
            var d := Decided(p, Found(After(p, b, calls[..n]), calls[n]), calls[n].now);
            Allowed(Decisions(p, b, calls)) == Allowed(Decisions(p, b, calls[..n])) + if d.allowed then 1 else 0
  {
    var n := |calls| - 1;
    assert Decisions(p, b, calls)[..n] == Decisions(p, b, calls[..n]);
  }

  // ----- The window bound -----

  ghost predicate Live(calls: seq<Call>) {
    forall i :: 0 <= i < |calls| ==> !calls[i].dropped
  }

  function MaxClock(start: int, calls: seq<Call>): int {
    if calls == [] then start
    else
      var before, now := MaxClock(start, calls[..|calls| - 1]), calls[|calls| - 1].now;
      if before < now then now else before
  }

  /** A live bucket's time stamp is the running maximum of the clocks. */
  lemma {:induction false} StampIsMaxClock(p: Params, b: Bucket, calls: seq<Call>)
    requires Live(calls)
    ensures After(p, Some(b), calls).value.ts == MaxClock(b.ts, calls)
  {
    if calls != [] { StampIsMaxClock(p, b, calls[..|calls| - 1]); }
  }

  /** What is left and what was allowed never exceed what there was and what was gained. */
  lemma {:induction false} TokensConserved(p: Params, b: Bucket, calls: seq<Call>)
    requires p.Valid() && Live(calls)
    ensures var end := After(p, Some(b), calls).value;
            end.tokens + Allowed(Decisions(p, Some(b), calls)) as real * p.cost <= b.tokens + Gain(p, end.ts - b.ts)
  {
    hide Left, Decided, Allowed, Decisions;
    if calls == [] {
      NoneConserved(p, b);
    } else {
      var n := |calls| - 1;
      var before := After(p, Some(b), calls[..n]).value;
      TokensConserved(p, b, calls[..n]);
      AllowedPrefix(p, Some(b), calls);
      CallConserves(p, before, calls[n].now);
      GainSums(p, before.ts - b.ts, Left(p, Some(before), calls[n].now).ts - before.ts);
      hide Gain;
      Conserve(p, b, before, Left(p, Some(before), calls[n].now), Allowed(Decisions(p, Some(b), calls[..n])),
               Decided(p, Some(before), calls[n].now).allowed);
    }
  }

  lemma {:induction false} NoneConserved(p: Params, b: Bucket)
    requires p.rate != 0.0
    ensures After(p, Some(b), []) == Some(b) && Allowed(Decisions(p, Some(b), [])) == 0 && Gain(p, 0) == 0.0
  {
  }

  lemma {:induction false} Conserve(p: Params, b: Bucket, before: Bucket, end: Bucket, count: nat, allowed: bool)
    requires before.tokens + count as real * p.cost <= b.tokens + Gain(p, before.ts - b.ts)
    requires end.tokens + (if allowed then p.cost else 0.0) <= before.tokens + Gain(p, end.ts - before.ts)
    requires Gain(p, before.ts - b.ts + (end.ts - before.ts)) == Gain(p, before.ts - b.ts) + Gain(p, end.ts - before.ts)
    ensures end.tokens + (count + if allowed then 1 else 0) as real * p.cost <= b.tokens + Gain(p, end.ts - b.ts)
  {
    hide Gain;
    assert before.ts - b.ts + (end.ts - before.ts) == end.ts - b.ts;
    assert (count + 1) as real * p.cost == count as real * p.cost + p.cost;
  }

  lemma {:induction false} CallConserves(p: Params, b: Bucket, now: int)
    requires p.Valid()
    ensures var end := Left(p, Some(b), now);
            end.tokens + (if Decided(p, Some(b), now).allowed then p.cost else 0.0) <= b.tokens + Gain(p, end.ts - b.ts)
  {
    assert Gain(p, 0) == 0.0;
    hide Gain;
  }

  lemma {:induction false} RunSplits(p: Params, b: Option<Bucket>, first: seq<Call>, second: seq<Call>)
    requires p.rate != 0.0
    ensures After(p, b, first + second) == After(p, After(p, b, first), second)
    ensures Decisions(p, b, first + second) == Decisions(p, b, first) + Decisions(p, After(p, b, first), second)
  {
    hide Left, Decided;
    if second == [] {
      assert first + second == first;
    } else {
      var n := |second| - 1;
      var calls := first + second;
      assert calls[..|calls| - 1] == first + second[..n];
      RunSplits(p, b, first, second[..n]);
    }
  }

  /** The first call of a run as one that finds the bucket already refilled. */
  lemma {:induction false} SameFromRefilled(p: Params, b: Option<Bucket>, calls: seq<Call>)
    requires p.rate != 0.0 && calls != [] && !calls[0].dropped
    ensures var r := Some(Refilled(p, b, calls[0].now));
            After(p, b, calls) == After(p, r, calls) && Decisions(p, b, calls) == Decisions(p, r, calls)
  {
    var r := Some(Refilled(p, b, calls[0].now));
    var head := [calls[0]];
    assert calls == head + calls[1..];
    assert head[..0] == [];
    assert After(p, b, head) == After(p, r, head) && Decisions(p, b, head) == Decisions(p, r, head);
    RunSplits(p, b, head, calls[1..]);
    RunSplits(p, r, head, calls[1..]);
  }

  /** A run that begins with any bucket, or none, allows at most the burst plus what is gained
      between its first and its last time stamp. */
  lemma {:induction false} RunBound(p: Params, b: Option<Bucket>, calls: seq<Call>)
    requires p.Valid() && InRange(p, b) && 0.0 <= p.burst && calls != [] && Live(calls)
    ensures Allowed(Decisions(p, b, calls)) as real * p.cost
            <= p.burst + Gain(p, After(p, b, calls).value.ts - Left(p, b, calls[0].now).ts)
  {
    hide Refilled, Gain, Decided, Left, Allowed, Decisions, After;
    var r := Refilled(p, b, calls[0].now);
    LeftStamp(p, b, calls[0].now);
    SameFromRefilled(p, b, calls);
    LeftInRange(p, b, calls[0].now);
    TokensConserved(p, r, calls);
    TokensInRange(p, Some(r), calls);
    AfterSome(p, Some(r), calls);
  }

  lemma {:induction false} LeftStamp(p: Params, b: Option<Bucket>, now: int)
    ensures Left(p, b, now).ts == Refilled(p, b, now).ts
  {
  }

  lemma {:induction false} AfterSome(p: Params, b: Option<Bucket>, calls: seq<Call>)
    requires b.Some? || calls != []
    ensures After(p, b, calls).Some?
  {
  }

  lemma {:induction false} DecisionsWithin(p: Params, b: Option<Bucket>, calls: seq<Call>, i: nat, j: nat)
    requires p.rate != 0.0 && i <= j <= |calls|
    ensures Decisions(p, b, calls)[i..j] == Decisions(p, After(p, b, calls[..i]), calls[i..j])
    ensures After(p, b, calls[..j]) == After(p, After(p, b, calls[..i]), calls[i..j])
  {
    hide *;
    assert calls[..j] + calls[j..] == calls;
    assert calls[..i] + calls[i..j] == calls[..j];
    RunSplits(p, b, calls[..j], calls[j..]);
    RunSplits(p, b, calls[..i], calls[i..j]);
  }

  /** The window bound: in any run, with clocks that may go backwards, the calls from the i-th
      to the one before the j-th consume at most the burst and what the bucket gained between
      their time stamps. */
  lemma {:induction false} WindowBound(p: Params, b: Option<Bucket>, calls: seq<Call>, i: nat, j: nat)
    requires p.Valid() && InRange(p, b) && 0.0 <= p.burst && i < j <= |calls| && Live(calls)
    ensures Allowed(Decisions(p, b, calls)[i..j]) as real * p.cost
            <= p.burst + Gain(p, After(p, b, calls[..j]).value.ts - After(p, b, calls[..i + 1]).value.ts)
  {
    hide Gain, Left, Decided, Decisions, Allowed, InRange;
    var start := After(p, b, calls[..i]);
    TokensInRange(p, b, calls[..i]);
    DecisionsWithin(p, b, calls, i, j);
    RunBound(p, start, calls[i..j]);
    assert calls[..i + 1][..i] == calls[..i];
  }

  // ----- Dropping an idle bucket -----

  /** A call cannot tell a dropped bucket from a kept one exactly when the kept one would be
      full and its time stamp not ahead of the clock. */
  lemma {:induction false} DropUnseenIff(p: Params, b: Bucket, now: int)
    requires p.Valid()
    ensures (Left(p, None, now) == Left(p, Some(b), now) && Decided(p, None, now) == Decided(p, Some(b), now))
            <==> Refilled(p, Some(b), now).tokens == p.burst && b.ts <= now
  {
    hide Gain, Wait;
  }

  /** With one clock that does not go back, buckets are dropped only after their idle time. */
  ghost predicate DropsWhenIdle(p: Params, last: int, calls: seq<Call>)
    requires p.rate != 0.0
    decreases |calls|
  {
    calls == [] ||
    (&& last <= calls[0].now
     && (calls[0].dropped ==> calls[0].now - last >= Ttl(p))
     && DropsWhenIdle(p, calls[0].now, calls[1..]))
  }

  function Keep(calls: seq<Call>): (r: seq<Call>)
    ensures |r| == |calls|
    ensures forall i :: 0 <= i < |calls| ==> r[i] == Call(calls[i].now, false)
  {
    seq(|calls|, i requires 0 <= i < |calls| => Call(calls[i].now, false))
  }

  /** After its idle time a bucket would be full. */
  lemma {:induction false} IdleIsFull(p: Params, b: Bucket, now: int)
    requires p.Valid() && InRange(p, Some(b)) && b.ts <= now && now - b.ts >= Ttl(p)
    ensures Refilled(p, Some(b), now) == Bucket(p.burst, now)
  {
    if p.burst >= 0.0 {
      WaitIsLeast(p, p.burst, now - b.ts);
      WaitIsLeast(p, p.burst, 0);
      hide Wait;
    }
  }

  /** The idle time is twice the time an empty bucket takes to fill: half of it is the least
      number of milliseconds that gains the burst. */
  lemma {:induction false} TtlIsTwiceFilling(p: Params, ms: int)
    requires p.Valid()
    ensures Ttl(p) % 2 == 0 && (ms as real / 1000.0 * p.rate >= p.burst <==> ms >= Ttl(p) / 2)
  {
    WaitIsLeast(p, p.burst, ms);
  }

  /** Dropping idle buckets cannot be observed: every call is decided as if none had been. */
  lemma {:induction false} ExpiryUnseen(p: Params, b: Bucket, calls: seq<Call>)
    requires p.Valid() && InRange(p, Some(b)) && DropsWhenIdle(p, b.ts, calls)
    ensures Decisions(p, Some(b), calls) == Decisions(p, Some(b), Keep(calls))
    ensures After(p, Some(b), calls) == After(p, Some(b), Keep(calls))
    decreases |calls|
  {
    hide Decided, Left, InRange;
    if calls != [] {
      var head, kept := [calls[0]], [Call(calls[0].now, false)];
      assert calls == head + calls[1..] && Keep(calls) == kept + Keep(calls[1..]);
      RunSplits(p, Some(b), head, calls[1..]);
      RunSplits(p, Some(b), kept, Keep(calls[1..]));
      FirstUnseen(p, b, calls[0]);
      ExpiryUnseen(p, Left(p, Some(b), calls[0].now), calls[1..]);
    }
  }

  lemma {:induction false} FirstUnseen(p: Params, b: Bucket, call: Call)
    requires p.Valid() && InRange(p, Some(b)) && b.ts <= call.now
    requires call.dropped ==> call.now - b.ts >= Ttl(p)
    ensures After(p, Some(b), [call]) == Some(Left(p, Some(b), call.now)) == After(p, Some(b), [Call(call.now, false)])
    ensures Decisions(p, Some(b), [call]) == Decisions(p, Some(b), [Call(call.now, false)])
    ensures InRange(p, Some(Left(p, Some(b), call.now))) && Left(p, Some(b), call.now).ts == call.now
  {
    hide Ttl;
    var kept := Call(call.now, false);
    assert [call][..0] == [] && [kept][..0] == [];
    if call.dropped { IdleIsFull(p, b, call.now); }
    LeftInRange(p, Some(b), call.now);
  }

  /** So the window bound holds of runs with expiry too. */
  lemma {:induction false} WindowBoundWithExpiry(p: Params, b: Bucket, calls: seq<Call>, i: nat, j: nat)
    requires p.Valid() && InRange(p, Some(b)) && 0.0 <= p.burst && i < j <= |calls| && DropsWhenIdle(p, b.ts, calls)
    ensures Allowed(Decisions(p, Some(b), calls)[i..j]) as real * p.cost
            <= p.burst + Gain(p, calls[j - 1].now - calls[i].now)
  {
    hide Gain, InRange, Decisions, Allowed, After, DropsWhenIdle;
    var kept := Keep(calls);
    AfterSome(p, Some(b), kept[..i + 1]);
    AfterSome(p, Some(b), kept[..j]);
    ExpiryUnseen(p, b, calls);
    WindowBound(p, Some(b), kept, i, j);
    StampAt(p, b, b.ts, kept, i + 1, calls);
    StampAt(p, b, b.ts, kept, j, calls);
  }

  lemma {:induction false} StampAt(p: Params, b: Bucket, last: int, kept: seq<Call>, k: nat, calls: seq<Call>)
    requires p.rate != 0.0 && b.ts <= last && DropsWhenIdle(p, last, calls) && kept == Keep(calls) && 0 < k <= |calls|
    ensures After(p, Some(b), kept[..k]).value.ts == calls[k - 1].now
  {
    StampIsMaxClock(p, b, kept[..k]);
    MaxIsLast(b.ts, last, p, calls, kept, k);
  }

  lemma {:induction false} MaxIsLast(start: int, last: int, p: Params, calls: seq<Call>, kept: seq<Call>, k: nat)
    requires p.rate != 0.0 && start <= last && DropsWhenIdle(p, last, calls) && kept == Keep(calls) && 0 < k <= |calls|
    ensures MaxClock(start, kept[..k]) == calls[k - 1].now
  {
    assert kept[..k][..k - 1] == kept[..k - 1];
    ClocksAscend(p, last, calls, k - 1);
    if k > 1 { MaxIsLast(start, last, p, calls, kept, k - 1); }
  }

  lemma {:induction false} ClocksAscend(p: Params, last: int, calls: seq<Call>, k: nat)
    requires p.rate != 0.0 && DropsWhenIdle(p, last, calls) && k < |calls|
    ensures (if k == 0 then last else calls[k - 1].now) <= calls[k].now
    decreases k
  {
    if k > 0 { ClocksAscend(p, calls[0].now, calls[1..], k - 1); }
  }

  // ----- When to retry -----

  /** After a refused call, the next one is allowed exactly when the burst can pay for it and
      the wait has passed since the bucket's time stamp. */
  lemma {:induction false} AllowedExactlyFrom(p: Params, b: Option<Bucket>, now: int, later: int)
    requires p.Valid() && InRange(p, b) && !Decided(p, b, now).allowed
    ensures var left := Left(p, b, now);
            Decided(p, Some(left), later).allowed <==>
            p.cost <= p.burst && left.ts + Decided(p, b, now).retryMs <= later
  {
    LeftInRange(p, b, now);
    var left := Left(p, b, now);
    WaitIsLeast(p, p.cost - left.tokens, later - left.ts);
    WaitIsLeast(p, p.cost - left.tokens, 0);
    assert Gain(p, 0) == 0.0;
    hide Wait, Gain, InRange;
  }

  /** Waiting `retry_ms` is enough, when the burst can pay, exactly for a caller whose clock is
      not behind the bucket's time stamp. */
  lemma {:induction false} RetrySufficesIff(p: Params, b: Bucket, now: int)
    requires p.Valid() && InRange(p, Some(b)) && p.cost <= p.burst
    requires !Decided(p, Some(b), now).allowed
    ensures var retry := Decided(p, Some(b), now).retryMs;
            && retry > 0
            && (Decided(p, Some(Left(p, Some(b), now)), now + retry).allowed <==> b.ts <= now)
  {
    AllowedExactlyFrom(p, Some(b), now, now + Decided(p, Some(b), now).retryMs);
    WaitIsLeast(p, p.cost - Refilled(p, Some(b), now).tokens, 0);
    assert Gain(p, 0) == 0.0;
    hide Wait, Gain, InRange;
  }

  /** A caller whose clock is a second behind is refused, told to wait a second, and then refused
      again. */
  lemma {:induction false} RetryTooEarly()
    ensures var p, b := Params(1.0, 1.0, 1.0), Bucket(0.0, 1000);
            && p.Valid() && InRange(p, Some(b))
            && Decided(p, Some(b), 0) == Decision(false, 0.0, 1000)
            && Decided(p, Some(Left(p, Some(b), 0)), 0 + 1000) == Decision(false, 0.0, 1000)
  {
    var p := Params(1.0, 1.0, 1.0);
    assert Wait(p, 1.0) == 1000;
  }

  // ----- The limiter -----

  /** Requests allowed in a window of `window` nanoseconds; a burst of 0 means `requests`. */
  datatype Quota = Quota(requests: int, window: int, burst: int)

  datatype Info = Info(limit: int, remaining: nat, resetAt: int, retryAfter: nat)

  /** The call to the store gets its answer, or fails before or after the script has run. */
  datatype Transport = Answered | Lost(applied: bool)

  datatype Answer = Limited(allowed: bool, info: Info) | Unavailable

  /** Seconds at which a bucket that holds `tokens` at `nowNs` nanoseconds would be full. */
  function ResetAt(p: Params, nowNs: int, tokens: real): int
    requires p.rate != 0.0
  {
    if tokens >= p.burst then nowNs / 1_000_000_000
    else
      var held := if tokens < 0.0 then 0.0 else tokens;
      (nowNs + ((p.burst - held) / p.rate * 1_000_000_000.0).Floor) / 1_000_000_000
  }

  /** For a full bucket the reported time is the current second. */
  lemma {:induction false} FullResetsNow(p: Params, nowNs: int, tokens: real)
    requires p.Valid() && p.burst <= tokens
    ensures var reset := ResetAt(p, nowNs, tokens);
            reset * 1_000_000_000 <= nowNs < (reset + 1) * 1_000_000_000
  {
  }

  /** The reported time is right to the second: left alone, the bucket is not full a millisecond
      before it and is full a second after it. */
  lemma {:induction false} ResetIsWhenFull(p: Params, nowNs: int, tokens: real, later: int)
    requires p.Valid() && 0.0 <= tokens < p.burst && nowNs / 1_000_000 < later
    ensures var reset := ResetAt(p, nowNs, tokens);
            var full := Refilled(p, Some(Bucket(tokens, nowNs / 1_000_000)), later).tokens == p.burst;
            (later < reset * 1000 ==> !full) && ((reset + 1) * 1000 <= later ==> full)
  {
    var now := nowNs / 1_000_000;
    var seconds := (p.burst - tokens) / p.rate;
    GainReaches(p, p.burst - tokens, later - now);
    ResetBounds(nowNs, seconds, later);
    hide Gain;
  }

  lemma {:induction false} ResetBounds(nowNs: int, seconds: real, later: int)
    ensures var reset := (nowNs + (seconds * 1_000_000_000.0).Floor) / 1_000_000_000;
            && (later < reset * 1000 ==> ((later - nowNs / 1_000_000) as real) < seconds * 1000.0)
            && ((reset + 1) * 1000 <= later ==> (later - nowNs / 1_000_000) as real >= seconds * 1000.0)
  {
    var now, ns := nowNs / 1_000_000, (seconds * 1_000_000_000.0).Floor;
    var reset := (nowNs + ns) / 1_000_000_000;
    assert now * 1_000_000 <= nowNs < now * 1_000_000 + 1_000_000;
    assert reset * 1_000_000_000 <= nowNs + ns < reset * 1_000_000_000 + 1_000_000_000;
    assert ns as real <= seconds * 1_000_000_000.0 < ns as real + 1.0;
    if later < reset * 1000 {
      assert (later - now) * 1_000_000 <= ns - 1;
      assert ((later - now) * 1_000_000) as real <= (ns - 1) as real;
    }
    if (reset + 1) * 1000 <= later {
      assert (later - now) * 1_000_000 >= ns + 1;
      assert ((later - now) * 1_000_000) as real >= (ns + 1) as real;
    }
  }

  function ParamsOf(quota: Quota): (p: Params)
    requires 0 < quota.requests && 0 < quota.window
    ensures p.Valid() && p.cost == 1.0
  {
    Params(quota.requests as real / (quota.window as real / 1_000_000_000.0),
           if quota.burst == 0 then quota.requests as real else quota.burst as real,
           1.0)
  }

  // ----- A quota's bound -----

  /** A call to the limiter for one key and quota. */
  datatype Use = Use(nowNs: int, call: Transport)

  /** The bucket that calls for one key and quota leave, one after the other. */
  function BucketAfter(quota: Quota, uses: seq<Use>): Option<Bucket>
    requires 0 < quota.requests && 0 < quota.window
  {
    if uses == [] then None
    else
      var n := |uses| - 1;
      var before := BucketAfter(quota, uses[..n]);
      if uses[n].call == Lost(false) then before
      else Some(Left(ParamsOf(quota), before, uses[n].nowNs / 1_000_000))
  }

  lemma {:induction false} UseAdds(quota: Quota, uses: seq<Use>, use: Use)
    requires 0 < quota.requests && 0 < quota.window
    ensures var p, now, before := ParamsOf(quota), use.nowNs / 1_000_000, BucketAfter(quota, uses);
            && BucketAfter(quota, uses + [use]) == (if use.call == Lost(false) then before
                                                    else Some(Left(p, before, now)))
            && (Granted(quota, uses + [use], |uses|) <==> use.call == Answered && Decided(p, before, now).allowed)
  {
    assert (uses + [use])[..|uses|] == uses;
  }

  /** The k-th call is told that it is allowed. */
  predicate Granted(quota: Quota, uses: seq<Use>, k: nat)
    requires 0 < quota.requests && 0 < quota.window && k < |uses|
  {
    && uses[k].call == Answered
    && Decided(ParamsOf(quota), BucketAfter(quota, uses[..k]), uses[k].nowNs / 1_000_000).allowed
  }

  function GrantedBetween(quota: Quota, uses: seq<Use>, i: nat, j: nat): (count: nat)
    requires 0 < quota.requests && 0 < quota.window && i <= j <= |uses|
    decreases j
  {
    if i == j then 0
    else if Granted(quota, uses, j - 1) then GrantedBetween(quota, uses, i, j - 1) + 1
    else GrantedBetween(quota, uses, i, j - 1)
  }

  /** The clocks of the calls from the i-th to the one before the j-th, in the milliseconds the
      script is given, lie within one window. */
  ghost predicate WithinWindow(quota: Quota, uses: seq<Use>, i: nat, j: nat)
    requires i <= j <= |uses|
  {
    forall k, l :: i <= k < j && i <= l < j ==>
      (uses[l].nowNs / 1_000_000 - uses[k].nowNs / 1_000_000) * 1_000_000 <= quota.window
  }

  /** For a window of whole milliseconds it is enough that the clocks themselves,
      in nanoseconds, lie within one. */
  lemma {:induction false} ClocksWithinWindow(quota: Quota, uses: seq<Use>, i: nat, j: nat)
    requires i <= j <= |uses| && quota.window % 1_000_000 == 0
    requires forall k, l :: i <= k < j && i <= l < j ==> uses[l].nowNs - uses[k].nowNs <= quota.window
    ensures WithinWindow(quota, uses, i, j)
  {
    forall k, l | i <= k < j && i <= l < j
      ensures (uses[l].nowNs / 1_000_000 - uses[k].nowNs / 1_000_000) * 1_000_000 <= quota.window
    {
      var ms := quota.window / 1_000_000;
      assert quota.window == ms * 1_000_000;
      assert uses[l].nowNs - uses[k].nowNs <= quota.window;
    }
  }

  /** What has been granted since the stamp `base` is paid for by the burst and the gain since. */
  ghost predicate Paid(p: Params, base: int, b: Option<Bucket>, granted: nat) {
    && InRange(p, b)
    && (b.None? || b.value.ts < base ==> granted == 0)
    && (b.Some? && b.value.ts >= base ==> b.value.tokens + granted as real <= p.burst + Gain(p, b.value.ts - base))
  }

  lemma {:induction false} PaidStep(p: Params, base: int, b: Option<Bucket>, granted: nat, now: int)
    requires p.Valid() && p.cost == 1.0 && Paid(p, base, b, granted)
    requires b.None? || b.value.ts < base ==> base <= now
    ensures Paid(p, base, Some(Left(p, b, now)), granted + if Decided(p, b, now).allowed then 1 else 0)
    ensures Left(p, b, now).ts == if b.Some? && now <= b.value.ts then b.value.ts else now
  {
    LeftInRange(p, b, now);
    var left := Left(p, b, now);
    if b.Some? && base <= b.value.ts < now {
      GainSums(p, b.value.ts - base, now - b.value.ts);
    } else if base <= left.ts {
      GainGrows(p, left.ts - base);
    }
    hide Gain, Wait;
  }

  /** Fewer grants are paid for too. */
  lemma {:induction false} PaidLess(p: Params, base: int, b: Option<Bucket>, granted: nat, fewer: nat)
    requires Paid(p, base, b, granted) && fewer <= granted
    ensures Paid(p, base, b, fewer)
  {
    hide Gain;
  }

  lemma {:induction false} BucketInRange(quota: Quota, uses: seq<Use>)
    requires 0 < quota.requests && 0 < quota.window
    ensures InRange(ParamsOf(quota), BucketAfter(quota, uses))
  {
    hide Left, ParamsOf;
    if uses != [] {
      BucketInRange(quota, uses[..|uses| - 1]);
      LeftInRange(ParamsOf(quota), BucketAfter(quota, uses[..|uses| - 1]), uses[|uses| - 1].nowNs / 1_000_000);
    }
  }

  /** The stamp from which a stretch's gain is counted: its bucket's, or its earliest clock. */
  ghost function Base(b: Option<Bucket>, lo: int): int {
    if b.Some? && lo < b.value.ts then b.value.ts else lo
  }

  /** A stretch up to the bucket `b` has been paid for, and the stamps are where they should be. */
  ghost predicate PaidUpTo(p: Params, start: Option<Bucket>, b: Option<Bucket>, granted: nat, lo: int, hi: int) {
    var base := Base(start, lo);
    && Paid(p, base, b, granted)
    && (b.Some? ==> b.value.ts <= base || b.value.ts <= hi)
    && (b.None? || b.value.ts < base ==> base == lo)
  }

  lemma {:induction false} PaidAtFirst(p: Params, b: Option<Bucket>, lo: int, hi: int)
    requires InRange(p, b)
    ensures PaidUpTo(p, b, b, 0, lo, hi)
  {
    assert Gain(p, 0) == 0.0;
    hide Gain;
  }

  lemma {:induction false} PaidNext(p: Params, start: Option<Bucket>, b: Option<Bucket>, granted: nat, lo: int, hi: int,
                                    now: int, told: bool)
    requires p.Valid() && p.cost == 1.0 && PaidUpTo(p, start, b, granted, lo, hi) && lo <= now <= hi
    ensures var more := if told && Decided(p, b, now).allowed then granted + 1 else granted;
            PaidUpTo(p, start, Some(Left(p, b, now)), more, lo, hi)
  {
    hide Left, Decided, Paid;
    var base, left := Base(start, lo), Some(Left(p, b, now));
    PaidStep(p, base, b, granted, now);
    if Decided(p, b, now).allowed { PaidLess(p, base, left, granted + 1, granted); }
  }

  lemma {:induction false} StretchPaid(quota: Quota, uses: seq<Use>, i: nat, j: nat, lo: int, hi: int)
    requires 0 < quota.requests && 0 < quota.window && i <= j <= |uses|
    requires forall k :: i <= k < j ==> lo <= uses[k].nowNs / 1_000_000 <= hi
    ensures PaidUpTo(ParamsOf(quota), BucketAfter(quota, uses[..i]), BucketAfter(quota, uses[..j]),
                     GrantedBetween(quota, uses, i, j), lo, hi)
    decreases j
  {
    hide Left, Decided, ParamsOf, PaidUpTo;
    var p, start := ParamsOf(quota), BucketAfter(quota, uses[..i]);
    if i == j {
      BucketInRange(quota, uses[..i]);
      PaidAtFirst(p, start, lo, hi);
    } else {
      StretchPaid(quota, uses, i, j - 1, lo, hi);
      assert uses[..j][..j - 1] == uses[..j - 1];
      var use := uses[j - 1];
      if use.call != Lost(false) {
        PaidNext(p, start, BucketAfter(quota, uses[..j - 1]), GrantedBetween(quota, uses, i, j - 1), lo, hi,
                 use.nowNs / 1_000_000, use.call == Answered);
      }
    }
  }

  /** The bound in the quota's own terms: of any stretch of calls on one key and quota whose
      clocks lie within one window, at most `requests` and the burst are allowed. A burst of 0 is
      one of `requests`; a negative burst allows nothing. */
  lemma {:induction false} QuotaBound(quota: Quota, uses: seq<Use>, i: nat, j: nat)
    requires 0 < quota.requests && 0 < quota.window && i <= j <= |uses| && WithinWindow(quota, uses, i, j)
    ensures quota.burst == 0 ==> GrantedBetween(quota, uses, i, j) <= 2 * quota.requests
    ensures quota.burst > 0 ==> GrantedBetween(quota, uses, i, j) <= quota.requests + quota.burst
    ensures quota.burst < 0 ==> GrantedBetween(quota, uses, i, j) == 0
  {
    if i < j {
      if quota.burst < 0 {
        NegativeBurst(quota, uses, i, j);
      } else {
        WindowPaid(quota, uses, i, j);
      }
    }
  }

  lemma {:induction false} NegativeBurst(quota: Quota, uses: seq<Use>, i: nat, j: nat)
    requires 0 < quota.requests && 0 < quota.window && i <= j <= |uses| && quota.burst < 0
    ensures GrantedBetween(quota, uses, i, j) == 0
    decreases j
  {
    if i < j {
      NegativeBurst(quota, uses, i, j - 1);
      var before := BucketAfter(quota, uses[..j - 1]);
      BucketInRange(quota, uses[..j - 1]);
      LeftInRange(ParamsOf(quota), before, uses[j - 1].nowNs / 1_000_000);
      hide Refilled, Wait, BucketAfter;
    }
  }

  lemma {:induction false} WindowPaid(quota: Quota, uses: seq<Use>, i: nat, j: nat)
    requires 0 < quota.requests && 0 < quota.window && i < j <= |uses| && WithinWindow(quota, uses, i, j)
    requires 0 <= quota.burst
    ensures GrantedBetween(quota, uses, i, j) as real <= ParamsOf(quota).burst + quota.requests as real
  {
    var lo, p, ms := Earliest(uses, i, j), ParamsOf(quota), quota.window / 1_000_000;
    hide BucketAfter, GrantedBetween, PaidUpTo;
    StretchPaid(quota, uses, i, j, lo, lo + ms);
    WindowGain(quota, ms);
    PaidMeans(p, BucketAfter(quota, uses[..i]), BucketAfter(quota, uses[..j]), GrantedBetween(quota, uses, i, j), lo,
              ms);
  }

  lemma {:induction false} PaidMeans(p: Params, start: Option<Bucket>, b: Option<Bucket>, granted: nat, lo: int,
                                     ms: nat)
    requires p.Valid() && 0.0 <= p.burst && PaidUpTo(p, start, b, granted, lo, lo + ms)
    ensures granted as real <= p.burst + Gain(p, ms)
  {
    var base := Base(start, lo);
    GainGrows(p, ms);
    if b.Some? && b.value.ts >= base {
      var past := ms - (b.value.ts - base);
      GainSums(p, b.value.ts - base, past);
      GainGrows(p, past);
    }
    hide Gain;
  }

  /** A window gains at most the quota's requests. */
  lemma {:induction false} WindowGain(quota: Quota, ms: int)
    requires 0 < quota.requests && 0 < quota.window && 0 <= ms && ms * 1_000_000 <= quota.window
    ensures Gain(ParamsOf(quota), ms) <= quota.requests as real
  {
    QuotaGain(quota, ms);
    var share := (ms * 1_000_000) as real / quota.window as real;
    assert share <= 1.0;
  }

  /** The gain is the requests' share for the time. */
  lemma {:induction false} QuotaGain(quota: Quota, ms: int)
    requires 0 < quota.requests && 0 < quota.window
    ensures Gain(ParamsOf(quota), ms) == (ms * 1_000_000) as real / quota.window as real * quota.requests as real
  {
    var window, requests := quota.window as real, quota.requests as real;
    var rate := ParamsOf(quota).rate;
    assert rate * (window / 1_000_000_000.0) == requests;
    assert requests / window * 1_000_000_000.0 == rate;
    assert (ms * 1_000_000) as real == ms as real * 1_000_000.0;
    assert Gain(ParamsOf(quota), ms) == ms as real / 1000.0 * (requests / window * 1_000_000_000.0);
  }

  /** The earliest clock of a stretch. */
  ghost function Earliest(uses: seq<Use>, i: nat, j: nat): (lo: int)
    requires i < j <= |uses|
    ensures forall k :: i <= k < j ==> lo <= uses[k].nowNs / 1_000_000
    ensures exists k :: i <= k < j && lo == uses[k].nowNs / 1_000_000
    decreases j
  {
    var last := uses[j - 1].nowNs / 1_000_000;
    if i + 1 == j then last
    else
      var before := Earliest(uses, i, j - 1);
      if before < last then before else last
  }

  /** What the limiter finds in a bucket, in the quota's own terms: the burst if there is none;
      else what was left, refilled by `requests` a window, up to the burst. */
  lemma {:induction false} RefillsByTheWindow(quota: Quota, b: Option<Bucket>, now: int)
    requires 0 < quota.requests && 0 < quota.window && InRange(ParamsOf(quota), b)
    ensures var burst := if quota.burst == 0 then quota.requests as real else quota.burst as real;
            var pre := Decided(ParamsOf(quota), b, now).pre;
            match b
            case None => pre == burst
            case Some(Bucket(tokens, ts)) =>
              var gained := if now <= ts then 0.0
                            else ((now - ts) * 1_000_000) as real / quota.window as real * quota.requests as real;
              pre == if burst < tokens + gained then burst else tokens + gained
  {
    if b.Some? { QuotaGain(quota, now - b.value.ts); }
  }

  /** An emptied bucket left alone for one window holds `requests` tokens, or the burst if that
      is less. */
  lemma {:induction false} EmptiedRefills(quota: Quota, ts: int, now: int)
    requires 0 < quota.requests && 0 < quota.window && 0 <= quota.burst && (now - ts) * 1_000_000 == quota.window
    ensures var burst := if quota.burst == 0 then quota.requests else quota.burst;
            Decided(ParamsOf(quota), Some(Bucket(0.0, ts)), now).pre == Min(burst, quota.requests) as real
  {
    RefillsByTheWindow(quota, Some(Bucket(0.0, ts)), now);
    assert quota.window as real / quota.window as real * quota.requests as real == quota.requests as real;
  }

  ghost function UsesIn(history: map<(string, Quota), seq<Use>>, which: (string, Quota)): seq<Use> {
    if which in history then history[which] else []
  }

  ghost function BucketIn(buckets: map<(string, Quota), Bucket>, which: (string, Quota)): Option<Bucket> {
    if which in buckets then Some(buckets[which]) else None
  }

  /** Each bucket is the one its own calls leave. */
  ghost predicate Consistent(buckets: map<(string, Quota), Bucket>, history: map<(string, Quota), seq<Use>>) {
    forall key, quota: Quota :: 0 < quota.requests && 0 < quota.window ==>
      BucketIn(buckets, (key, quota)) == BucketAfter(quota, UsesIn(history, (key, quota)))
  }

  lemma {:induction false} CallKeepsConsistent(buckets: map<(string, Quota), Bucket>,
                                               history: map<(string, Quota), seq<Use>>, key: string, quota: Quota,
                                               use: Use)
    requires Consistent(buckets, history) && 0 < quota.requests && 0 < quota.window
    ensures var which, p, now := (key, quota), ParamsOf(quota), use.nowNs / 1_000_000;
            var uses, found := UsesIn(history, which), BucketIn(buckets, which);
            && Consistent(if use.call == Lost(false) then buckets else buckets[which := Left(p, found, now)],
                          history[which := uses + [use]])
            && (Granted(quota, uses + [use], |uses|) <==> use.call == Answered && Decided(p, found, now).allowed)
  {
    hide BucketAfter, Granted, Left, Decided, ParamsOf;
    UseAdds(quota, UsesIn(history, (key, quota)), use);
  }

  class RedisLimiter {
    /** One bucket for each caller key and quota. */
    var buckets: map<(string, Quota), Bucket>

    /** The calls so far with a quota that limits anything. */
    ghost var history: map<(string, Quota), seq<Use>>

    ghost predicate Valid()
      reads this
    {
      Consistent(buckets, history)
    }

    constructor ()
      ensures Valid() && buckets == map[] && history == map[]
    {
      buckets, history := map[], map[];
    }

    /** The decision on the bucket of this key and quota alone. An unavailable store is reported to
        the caller; the script may have run all the same. */
    method Allow(key: string, quota: Quota, nowNs: int, call: Transport) returns (answer: Answer)
      requires Valid()
      modifies this
      ensures Valid()
      ensures quota.requests <= 0 || quota.window <= 0 ==>
                && answer == Limited(false, Info(quota.requests, 0, 0, 1))
                && buckets == old(buckets) && history == old(history)
      ensures 0 < quota.requests && 0 < quota.window ==>
                var uses := UsesIn(old(history), (key, quota)) + [Use(nowNs, call)];
                && history == old(history)[(key, quota) := uses]
                && (answer.Limited? && answer.allowed <==> Granted(quota, uses, |uses| - 1))
      ensures 0 < quota.requests && 0 < quota.window ==>
                var p, now := ParamsOf(quota), nowNs / 1_000_000;
                var found := BucketIn(old(buckets), (key, quota));
                var d := Decided(p, found, now);
                && buckets == (if call == Lost(false) then old(buckets)
                               else old(buckets)[(key, quota) := Left(p, found, now)])
                && (answer.Unavailable? <==> call.Lost?)
                && (answer.Limited? ==>
                    var info := answer.info;
                    && answer.allowed == d.allowed && info.limit == quota.requests
                    && info.remaining == (if d.pre.Floor < 0 then 0 else d.pre.Floor)
                    && info.resetAt == ResetAt(p, nowNs, d.pre)
                    && (answer.allowed ==> info.remaining >= 1 && info.retryAfter == 0)
                    && (!answer.allowed ==> info.remaining == 0 && info.retryAfter >= 1 &&
                                            (info.retryAfter - 1) * 1000 < d.retryMs <= info.retryAfter * 1000))
    {
      if quota.requests <= 0 || quota.window <= 0 {
        return Limited(false, Info(quota.requests, 0, 0, 1));
      }
      CallKeepsConsistent(buckets, history, key, quota, Use(nowNs, call));
      hide Consistent, BucketAfter, Granted;
      history := history[(key, quota) := UsesIn(history, (key, quota)) + [Use(nowNs, call)]];
      if call == Lost(false) {
        return Unavailable;
      }
      var p := ParamsOf(quota);
      var shared := new SharedBucket();
      shared.stored := if (key, quota) in buckets then Some(buckets[(key, quota)]) else None;
      var d := shared.Call(p, nowNs / 1_000_000);
      buckets := buckets[(key, quota) := shared.stored.value];
      if call.Lost? {
        return Unavailable;
      }
      hide Left, Refilled, ResetAt;
      var info := Headers(p, quota, nowNs, d);
      return Limited(d.allowed, info);
    }

    static method Headers(p: Params, quota: Quota, nowNs: int, d: Decision) returns (info: Info)
      requires p.Valid() && p.cost == 1.0 && d == Decide(p, d.pre)
      ensures info.limit == quota.requests && info.resetAt == ResetAt(p, nowNs, d.pre)
      ensures info.remaining == (if d.pre.Floor < 0 then 0 else d.pre.Floor)
      ensures d.allowed ==> info.remaining >= 1 && info.retryAfter == 0
      ensures !d.allowed ==> info.remaining == 0 && info.retryAfter >= 1 &&
                             (info.retryAfter - 1) * 1000 < d.retryMs <= info.retryAfter * 1000
    {
      var remaining := d.pre.Floor;
      if remaining < 0 {
        remaining := 0;
      }
      var retryAfter := 0;
      if !d.allowed {
        WaitPositive(p, p.cost - d.pre);
        retryAfter := Ceil(d.retryMs as real / 1000.0);
        if retryAfter < 1 {
          retryAfter := 1;
        }
      }
      info := Info(quota.requests, remaining, ResetAt(p, nowNs, d.pre), retryAfter);
    }
  }

  lemma {:induction false} WaitPositive(p: Params, amount: real)
    requires p.Valid() && 0.0 < amount
    ensures 0 < Wait(p, amount)
  {
    WaitIsLeast(p, amount, 0);
  }
}
