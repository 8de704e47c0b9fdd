/**
 The federated pagination cursor. (internal/federation/cursor.go)

 The saved upstream state (NextToken, NextURL, NextBody) is a position in the origin's
 result list: None is the state of an origin that was never paged, and also what an
 upstream returns when it has no next page.
 */
module Cursor {
  import opened Text
  import opened Items

  const MAX_ORIGIN_ERROR_RETRIES := 3

  datatype OriginCursor = OriginCursor(
    next: Option<nat>,
    exhausted: bool,
    error: bool,
    errorCount: nat,
    itemCount: nat,
    stash: seq<Item>)
  {
    predicate Retired() {
      error && errorCount >= MAX_ORIGIN_ERROR_RETRIES
    }

    predicate HasMore() {
      stash != [] || (!Retired() && !exhausted)
    }

    /** The effect of MarkError. */
    function Failed(): OriginCursor {
      this.(error := true, errorCount := errorCount + 1)
    }

    /** The effect of UpdateOriginState; `exhausted` is set and never cleared. */
    function Advanced(count: nat, next': Option<nat>): OriginCursor {
      this.(itemCount := itemCount + count, next := next', error := false, errorCount := 0,
            exhausted := exhausted || next'.None?)
    }

    /** What Clone copies: everything but the error count. */
    function Cloned(): OriginCursor {
      this.(errorCount := 0)
    }
  }

  const FRESH := OriginCursor(None, false, false, 0, 0, [])

  type Origins = map<string, OriginCursor>

  /** Active origins in the order ActiveOrigins returns them. */
  ghost function Active(origins: Origins): seq<string> {
    Keep(Sorted(origins.Keys), origins)
  }

  function Keep(ids: seq<string>, origins: Origins): seq<string> {
    if ids == [] then []
    else if ids[0] in origins && origins[ids[0]].HasMore() then [ids[0]] + Keep(ids[1..], origins)
    else Keep(ids[1..], origins)
  }

  lemma {:induction false} KeepMember(ids: seq<string>, origins: Origins, x: string)
    ensures x in Keep(ids, origins) <==> x in ids && x in origins && origins[x].HasMore()
  {
    if ids != [] {
      KeepMember(ids[1..], origins, x);
      assert ids == [ids[0]] + ids[1..];
    }
  }

  lemma {:induction false} KeepIncreasing(ids: seq<string>, origins: Origins)
    requires Increasing(ids)
    ensures Increasing(Keep(ids, origins))
  {
    if ids != [] {
      KeepIncreasing(ids[1..], origins);
      var rest := Keep(ids[1..], origins);
      forall j | 0 <= j < |rest| ensures Less(ids[0], rest[j]) {
        KeepMember(ids[1..], origins, rest[j]);
        assert rest[j] in ids[1..];
      }
    }
  }

  /** Some origin has more. */
  ghost predicate AnyMore(origins: Origins) {
    exists id :: id in origins && origins[id].HasMore()
  }

  function CloneAll(origins: Origins): (r: Origins)
    ensures r.Keys == origins.Keys
  {
    map id | id in origins :: origins[id].Cloned()
  }

  class FederatedCursor {
    var origins: Origins
    var totalReturned: nat

    constructor (originIds: seq<string>)
      ensures origins == map id | id in originIds :: FRESH
      ensures totalReturned == 0
    {
      origins := map[];
      totalReturned := 0;
      new;
      for i := 0 to |originIds|
        invariant origins == map id | id in originIds[..i] :: FRESH
        invariant totalReturned == 0
      {
        origins := origins[originIds[i] := FRESH];
      }
      assert originIds[..|originIds|] == originIds;
    }

    constructor Copy(origins: Origins, totalReturned: nat)
      ensures this.origins == origins && this.totalReturned == totalReturned
    {
      this.origins := origins;
      this.totalReturned := totalReturned;
    }

    /** A failure is counted against the origin and moves nothing else; an unknown
        origin is ignored. */
    method MarkError(id: string)
      modifies this`origins
      ensures origins == if id in old(origins) then old(origins)[id := old(origins)[id].Failed()] else old(origins)
    {
      if id in origins {
        var origin := origins[id];
        origins := origins[id := origin.(error := true, errorCount := origin.errorCount + 1)];
      }
    }

    /** A successful fetch: counts, moves the position, clears the error state. */
    method UpdateOriginState(id: string, count: nat, next: Option<nat>)
      modifies this`origins
      ensures var was := if id in old(origins) then old(origins)[id] else FRESH;
              origins == old(origins)[id := was.Advanced(count, next)]
    {
      var origin := if id in origins then origins[id] else FRESH;
      origin := origin.(itemCount := origin.itemCount + count, next := next);
      origin := origin.(error := false, errorCount := 0);
      if next.None? {
        origin := origin.(exhausted := true);
      }
      origins := origins[id := origin];
    }

    method HasMore() returns (more: bool)
      ensures more <==> AnyMore(origins)
    {
      var todo := origins.Keys;
      while todo != {}
        invariant todo <= origins.Keys
        invariant forall id :: id in origins && id !in todo ==> !origins[id].HasMore()
      {
        var id :| id in todo;
        if origins[id].HasMore() {
          return true;
        }
        todo := todo - {id};
      }
      return false;
    }

    method ActiveOrigins() returns (active: seq<string>)
      ensures active == Active(origins)
    {
      active := [];
      var todo := origins.Keys;
      while todo != {}
        invariant todo <= origins.Keys
        invariant Increasing(active)
        invariant forall x :: x in active <==> x in origins && x !in todo && origins[x].HasMore()
      {
        var id :| id in todo;
        if origins[id].HasMore() {
          active := InsertSorted(active, id);
        }
        todo := todo - {id};
      }
      KeepIncreasing(Sorted(origins.Keys), origins);
      forall x ensures x in active <==> x in Active(origins) {
        KeepMember(Sorted(origins.Keys), origins, x);
      }
      IncreasingUnique(active, Active(origins));
    }

    /** The copy has the positions, the stashes and the totals; its error counts are 0. */
    method Clone() returns (c: FederatedCursor)
      ensures fresh(c) && c.origins == CloneAll(origins) && c.totalReturned == totalReturned
    {
      var copied: Origins := map[];
      var todo := origins.Keys;
      while todo != {}
        invariant todo <= origins.Keys
        invariant copied == map id | id in origins && id !in todo :: origins[id].Cloned()
      {
        var id :| id in todo;
        var o := origins[id];
        copied := copied[id := OriginCursor(o.next, o.exhausted, o.error, 0, o.itemCount, o.stash)];
        todo := todo - {id};
      }
      c := new FederatedCursor.Copy(copied, totalReturned);
    }
  }

  // ----- The retry budget on one cursor object -----

  datatype Outcome = Failure | Success(count: nat, next: Option<nat>)

  function Replay(oc: OriginCursor, outcomes: seq<Outcome>): OriginCursor {
    if outcomes == [] then oc
    else
      var before := Replay(oc, outcomes[..|outcomes| - 1]);
      match outcomes[|outcomes| - 1]
      case Failure => before.Failed()
      case Success(count, next) => before.Advanced(count, next)
  }

  /** Failures since the last success. */
  function Streak(outcomes: seq<Outcome>): nat {
    if outcomes == [] || outcomes[|outcomes| - 1].Success? then 0
    else 1 + Streak(outcomes[..|outcomes| - 1])
  }

  /** The last three outcomes were failures. */
  predicate ThreeStrikes(outcomes: seq<Outcome>) {
    |outcomes| >= 3 && forall i :: |outcomes| - 3 <= i < |outcomes| ==> outcomes[i].Failure?
  }

  /** The position the origin's last success left, and what it returned in all. */
  function LastNext(outcomes: seq<Outcome>): Option<nat> {
    if outcomes == [] then None
    else match outcomes[|outcomes| - 1]
      case Failure => LastNext(outcomes[..|outcomes| - 1])
      case Success(_, next) => next
  }

  function Counted(outcomes: seq<Outcome>): nat {
    if outcomes == [] then 0
    else match outcomes[|outcomes| - 1]
      case Failure => Counted(outcomes[..|outcomes| - 1])
      case Success(count, _) => Counted(outcomes[..|outcomes| - 1]) + count
  }

  /** Some success came without a next position. */
  ghost predicate Ended(outcomes: seq<Outcome>) {
    exists i :: 0 <= i < |outcomes| && outcomes[i].Success? && outcomes[i].next.None?
  }

  lemma {:induction false} EndedStep(outcomes: seq<Outcome>)
    requires outcomes != []
    ensures var last := outcomes[|outcomes| - 1];
            Ended(outcomes) <==> Ended(outcomes[..|outcomes| - 1]) || (last.Success? && last.next.None?)
  {
    var before := outcomes[..|outcomes| - 1];
    if i :| 0 <= i < |outcomes| && outcomes[i].Success? && outcomes[i].next.None? {
      if i < |before| { assert before[i] == outcomes[i]; }
    }
    if i :| 0 <= i < |before| && before[i].Success? && before[i].next.None? {
      assert outcomes[i] == before[i];
    }
  }

  lemma {:induction false} RetryBudget(outcomes: seq<Outcome>, stash: seq<Item>)
    ensures var oc := Replay(FRESH.(stash := stash), outcomes);
            && oc.errorCount == Streak(outcomes)
            && oc.error == (Streak(outcomes) > 0)
            && oc.next == LastNext(outcomes)
            && oc.stash == stash
            && (oc.Retired() <==> ThreeStrikes(outcomes))
            && oc.itemCount == Counted(outcomes)
            && (oc.exhausted <==> Ended(outcomes))
            && (oc.HasMore() <==> stash != [] || (!ThreeStrikes(outcomes) && !Ended(outcomes)))
  {
    StreakIsThree(outcomes);
    if outcomes != [] {
      RetryBudget(outcomes[..|outcomes| - 1], stash);
      EndedStep(outcomes);
      hide Ended, ThreeStrikes;
    }
  }

  lemma {:induction false} StreakIsThree(outcomes: seq<Outcome>)
    ensures Streak(outcomes) >= 3 <==> ThreeStrikes(outcomes)
  {
    var n := |outcomes|;
    if n >= 3 {
      var a := outcomes[..n - 1];
      var b := a[..n - 2];
      assert a[n - 2] == outcomes[n - 2] && b[n - 3] == outcomes[n - 3];
      assert Streak(outcomes) >= 3 <==> outcomes[n - 1].Failure? && Streak(a) >= 2;
      assert Streak(a) >= 2 <==> a[n - 2].Failure? && Streak(b) >= 1;
      assert Streak(b) >= 1 <==> b[n - 3].Failure?;
    } else {
      StreakBound(outcomes);
    }
  }

  lemma {:induction false} StreakBound(outcomes: seq<Outcome>)
    ensures Streak(outcomes) <= |outcomes|
  {
    if outcomes != [] { StreakBound(outcomes[..|outcomes| - 1]); }
  }
}
