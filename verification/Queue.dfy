/** The bounded request queue: at most `depth` requests have a place; at most as many callers more
    wait a bounded time for one; the rest are turned away. Callers run concurrently: each step
    below is what one caller does between taking the lock and letting it go, and steps come in
    any order. */
module RequestQueue {
  type Caller = nat

  /** Where a caller is: holding a place, asleep waiting for one, woken and about to look, having
      given its place back but not yet woken anyone, through, or turned away. */
  datatype Place = Holds | Asleep | Woken | Leaving | Through | Refused

  /** `queued` and `waiters` are the counters the code keeps. */
  datatype Queue = Queue(depth: nat, queued: int, waiters: int, at: map<Caller, Place>)
  {
    function In(p: Place): set<Caller> {
      set t | t in at && at[t] == p
    }

    function Size(p: Place): nat {
      |In(p)|
    }

    predicate Is(t: Caller, p: Place) {
      t in at && at[t] == p
    }

    /** The counters are exact and within the depth, and no free place is forgotten: while anyone
        sleeps, at least as many callers are on their way to look or to wake someone as there are
        free places. */
    predicate Inv() {
      && depth >= 1 && queued == Size(Holds) && queued <= depth
      && waiters == Size(Asleep) + Size(Woken) && waiters <= depth
      && (Size(Asleep) == 0 || Size(Woken) + Size(Leaving) >= depth - queued)
    }
  }

  /** `late` says whether the caller's deadline has passed when it looks. */
  datatype Step =
    | Arrive(t: Caller, late: bool)
    | Look(t: Caller, late: bool)
    | Wake(t: Caller)
    | GiveBack(t: Caller)
    | Notify(t: Caller, wakes: Caller)

  predicate Enabled(q: Queue, s: Step) {
    match s
    case Arrive(t, _) => t !in q.at
    case Look(t, _) => q.Is(t, Woken)
    // a deadline passing, or a wake-up for no reason
    case Wake(t) => q.Is(t, Asleep)
    case GiveBack(t) => q.Is(t, Holds)
    case Notify(t, w) => q.Is(t, Leaving) && (q.Size(Asleep) != 0 ==> q.Is(w, Asleep))
  }

  /** One step under the lock (a notification is sent after it). */
  function After(q: Queue, s: Step): Queue
    requires Enabled(q, s)
  {
    match s
    case Arrive(t, late) =>
      if q.queued >= q.depth then
        if q.waiters >= q.depth || late then q.(at := q.at[t := Refused])
        else q.(waiters := q.waiters + 1, at := q.at[t := Asleep])
      else q.(queued := q.queued + 1, at := q.at[t := Holds])
    case Look(t, late) =>
      if q.queued >= q.depth then
        if late then q.(waiters := q.waiters - 1, at := q.at[t := Refused])
        else q.(at := q.at[t := Asleep])
      else q.(waiters := q.waiters - 1, queued := q.queued + 1, at := q.at[t := Holds])
    case Wake(t) => q.(at := q.at[t := Woken])
    case GiveBack(t) => q.(queued := q.queued - 1, at := q.at[t := Leaving])
    case Notify(t, w) =>
      var at := q.at[t := Through];
      q.(at := if q.Size(Asleep) == 0 then at else at[w := Woken])
  }

  predicate Run(q: Queue, steps: seq<Step>)
    decreases |steps|
  {
    steps == [] || (Enabled(q, steps[0]) && Run(After(q, steps[0]), steps[1..]))
  }

  function AfterAll(q: Queue, steps: seq<Step>): Queue
    requires Run(q, steps)
    decreases |steps|
  {
    if steps == [] then q else AfterAll(After(q, steps[0]), steps[1..])
  }

  function Fresh(depth: nat): Queue {
    Queue(depth, 0, 0, map[])
  }

  lemma Moves(q: Queue, r: Queue, t: Caller, p: Place)
    requires r.at == q.at[t := p]
    ensures forall x: Place :: r.Size(x) == q.Size(x) + (if x == p && !q.Is(t, x) then 1 else 0) - (if x != p && q.Is(t, x) then 1 else 0)
  {
    forall x: Place
      ensures r.Size(x) == q.Size(x) + (if x == p && !q.Is(t, x) then 1 else 0) - (if x != p && q.Is(t, x) then 1 else 0)
    {
      MovesAt(q, r, t, p, x);
    }
  }

  lemma MovesAt(q: Queue, r: Queue, t: Caller, p: Place, x: Place)
    requires r.at == q.at[t := p]
    ensures r.Size(x) == q.Size(x) + (if x == p && !q.Is(t, x) then 1 else 0) - (if x != p && q.Is(t, x) then 1 else 0)
  {
    InMoves(q, r, t, p, x);
    hide Queue.In;
    if x == p {
      OneMore(q.In(x), r.In(x), t);
    } else {
      OneMore(r.In(x), q.In(x), t);
    }
  }

  lemma InMoves(q: Queue, r: Queue, t: Caller, p: Place, x: Place)
    requires r.at == q.at[t := p]
    ensures t in q.In(x) <==> q.Is(t, x)
    ensures t in r.In(x) <==> x == p
    ensures r.In(x) - {t} == q.In(x) - {t}
  {
  }

  /** Sets that differ in `t` at most. */
  lemma OneMore(a: set<Caller>, b: set<Caller>, t: Caller)
    requires a - {t} == b - {t}
    ensures |b| - |a| == (if t in b then 1 else 0) - (if t in a then 1 else 0)
  {
    assert t in a ==> a == (a - {t}) + {t};
    assert t in b ==> b == (b - {t}) + {t};
    assert t !in a ==> a == a - {t};
    assert t !in b ==> b == b - {t};
  }

  lemma StepInv(q: Queue, s: Step)
    requires q.Inv() && Enabled(q, s)
    ensures After(q, s).Inv()
  {
    hide Queue.Size;
    var r := After(q, s);
    if s.Notify? && q.Size(Asleep) != 0 {
      var mid := q.(at := q.at[s.t := Through]);
      Moves(q, mid, s.t, Through);
      Moves(mid, r, s.wakes, Woken);
    } else {
      Moves(q, r, s.t, r.at[s.t]);
    }
  }

  /** Whatever callers do in whatever order, the invariant holds: the counters never pass the
      depth, never go below zero, and no wake-up is lost. */
  lemma {:induction false} RunInv(q: Queue, steps: seq<Step>)
    requires q.Inv() && Run(q, steps)
    ensures var r := AfterAll(q, steps); r.Inv() && 0 <= r.queued <= r.depth && 0 <= r.waiters <= r.depth
    decreases |steps|
  {
    if steps != [] {
      StepInv(q, steps[0]);
      RunInv(After(q, steps[0]), steps[1..]);
    }
  }

  /** From an empty queue every run does. */
  lemma FreshRun(depth: nat, steps: seq<Step>)
    requires depth >= 1 && Run(Fresh(depth), steps)
    ensures var r := AfterAll(Fresh(depth), steps); r.Inv() && 0 <= r.queued <= r.depth && 0 <= r.waiters <= r.depth
  {
    var q := Fresh(depth);
    assert q.In(Holds) == {} && q.In(Asleep) == {} && q.In(Woken) == {};
    RunInv(q, steps);
  }

  /** While a place is free and someone sleeps, someone awake will look at it or wake a sleeper. */
  lemma NoLostWake(q: Queue)
    requires q.Inv() && q.queued < q.depth && q.Size(Asleep) != 0
    ensures exists s: Step :: (s.Look? || s.Notify?) && Enabled(q, s)
  {
    if q.Size(Woken) != 0 {
      var t :| t in q.In(Woken);
      assert Enabled(q, Look(t, true));
    } else {
      var t :| t in q.In(Leaving);
      var w :| w in q.In(Asleep);
      assert Enabled(q, Notify(t, w));
    }
  }

  /** How often a caller gives its place back in a run. */
  function Returns(steps: seq<Step>, t: Caller): nat {
    if steps == [] then 0 else (if steps[0] == GiveBack(t) then 1 else 0) + Returns(steps[1..], t)
  }

  /** The caller has had a place and given it back. */
  predicate Had(q: Queue, t: Caller) {
    q.Is(t, Leaving) || q.Is(t, Through)
  }

  /** A place is given back once, by a caller that held it; one that was turned away stays so. */
  lemma {:induction false} ReturnsOnce(q: Queue, steps: seq<Step>, t: Caller)
    requires q.Inv() && Run(q, steps)
    ensures Returns(steps, t) + (if Had(q, t) then 1 else 0) == (if Had(AfterAll(q, steps), t) then 1 else 0)
    ensures q.Is(t, Refused) ==> AfterAll(q, steps).Is(t, Refused)
    decreases |steps|
  {
    if steps != [] {
      hide Queue.Size, Queue.Inv;
      StepInv(q, steps[0]);
      ReturnsOnce(After(q, steps[0]), steps[1..], t);
    }
  }

  /** A caller is turned away only while every place is taken, on arriving or by a deadline that
      has passed when it looks. */
  lemma {:induction false} RefusedWhenFull(q: Queue, steps: seq<Step>, t: Caller) returns (k: nat)
    requires q.Inv() && Run(q, steps) && !q.Is(t, Refused) && AfterAll(q, steps).Is(t, Refused)
    ensures k < |steps| && Run(q, steps[..k]) && AfterAll(q, steps[..k]).Size(Holds) == q.depth
    ensures steps[k].t == t && (steps[k].Arrive? || (steps[k].Look? && steps[k].late))
    decreases |steps|
  {
    hide Queue.Size;
    StepInv(q, steps[0]);
    var r := After(q, steps[0]);
    if r.Is(t, Refused) {
      k := 0;
    } else {
      var j := RefusedWhenFull(r, steps[1..], t);
      k := j + 1;
      assert steps[..k][0] == steps[0] && steps[..k][1..] == steps[1..][..j];
    }
  }
}
