/** How requests are taken in: from the queue, from those deferred behind a prompt they extend,
    and the one that found no memory. Every request that arrives is in exactly one place, none is
    dropped but by its client or for want of memory with nothing else held, and none is prefilled
    while an earlier prompt it extends still is. */
module Intake {
  import opened Basics
  import Decode
  import opened Snapshots
  import opened SlotPool
  import opened Lifecycle
  import opened Scheduling

  /** A request that never got a slot: its client had gone, or memory was refused with no other
      request held. */
  datatype Lost = Lost(job: Job, gone: bool)

  /** Everything the loop holds, and how many questions have been asked of the surroundings. */
  datatype Line = Line(waiting: seq<Job>, deferred: seq<Job>, stalled: Option<Job>, lost: seq<Lost>, view: View, asked: nat)

  // ---- Who is next.

  datatype Source = Stalled | Ready(at: nat) | Oldest | Nobody | Waits

  /** The first deferred request that no prompt in flight holds back. */
  function FirstReady(ds: seq<Job>, ps: seq<Filling>): (i: nat)
    ensures i <= |ds| && (forall k :: 0 <= k < i ==> ExtendsAny(ds[k].ids, ps))
    ensures i < |ds| ==> !ExtendsAny(ds[i].ids, ps)
  {
    if ds == [] || !ExtendsAny(ds[0].ids, ps) then 0
    else
      var i := FirstReady(ds[1..], ps);
      assert forall k :: 1 <= k < i + 1 ==> ds[k] == ds[1..][k - 1];
      1 + i
  }

  /** The stalled request, else the first deferred one that is ready, else the oldest waiting; and
      the queue is waited on only when no request at all is held. */
  function NextOf(l: Line): Source {
    if l.stalled.Some? then Stalled
    else
      var i := FirstReady(l.deferred, l.view.filling);
      if i < |l.deferred| then Ready(i)
      else if l.waiting != [] then Oldest
      else if l.view.filling == [] && l.view.sending == [] then Waits
      else Nobody
  }

  predicate HasNext(l: Line) {
    NextOf(l).Stalled? || NextOf(l).Ready? || NextOf(l).Oldest?
  }

  function RemoveAt<T>(s: seq<T>, k: nat): (r: seq<T>)
    requires k < |s|
    ensures |r| == |s| - 1 && forall i :: 0 <= i < |r| ==> r[i] == s[if i < k then i else i + 1]
  {
    s[..k] + s[k + 1..]
  }

  function NextJob(l: Line): Job
    requires HasNext(l)
  {
    match NextOf(l)
    case Stalled => l.stalled.value
    case Ready(at) => l.deferred[at]
    case Oldest => l.waiting[0]
  }

  /** What is left when the next request is in hand. */
  function WithoutNext(l: Line): Line
    requires HasNext(l)
  {
    match NextOf(l)
    case Stalled => l.(stalled := None)
    case Ready(at) => l.(deferred := RemoveAt(l.deferred, at))
    case Oldest => l.(waiting := l.waiting[1..])
  }

  // ---- What becomes of it.

  datatype Fate =
    | Withdrawn           // its client has gone
    | PutOff              // deferred behind a prompt it extends
    | TakenIn(did: Did)
    | Stalls              // it waits for the memory that others hold
    | TurnedAway          // memory was refused, and nobody else holds any

  /** How a turn goes: whether the client of the request has gone, whether a first token could be
      drawn, and the questions asked in it (from where the line stands to `upto`). */
  datatype Luck = Luck(gone: bool, draws: bool, upto: nat)

  predicate Idle(v: View) {
    v.filling == [] && v.sending == []
  }

  /** When the request in hand can meet that fate: it stalls or is turned away only if memory was
      refused on a question of its own turn. */
  ghost predicate Meets(e: Engine, l: Line, job: Job, k: Luck, f: Fate) {
    var held := ExtendsAny(job.ids, l.view.filling);
    match f
    case Withdrawn => k.gone
    case PutOff => !k.gone && held
    case TakenIn(d) => !k.gone && !held && Arrival(d, job, k.draws, l.asked, k.upto) && !d.Refused? && Possible(e, l.view, d)
    case Stalls => !k.gone && !held && !Idle(l.view) && Tight(e, l.asked, k.upto)
    case TurnedAway => !k.gone && !held && Idle(l.view) && Tight(e, l.asked, k.upto)
  }

  ghost function Met(e: Engine, l: Line, job: Job, k: Luck, f: Fate): Line
    requires Meets(e, l, job, k, f)
  {
    match f
    case Withdrawn => l.(lost := l.lost + [Lost(job, true)])
    case PutOff => l.(deferred := l.deferred + [job])
    case TakenIn(d) => l.(view := Then(e, l.view, d))
    case Stalls => l.(stalled := Some(job))
    case TurnedAway => l.(lost := l.lost + [Lost(job, false)])
  }

  /** A move of the loop: a request arrives; a turn takes the next one in; a turn finds nobody; the
      scheduler takes a step, asking up to question `upto`. */
  datatype Move = Arrives(job: Job) | Turns(luck: Luck, fate: Fate) | Finds | Does(did: Did, upto: nat)

  predicate Brings(d: Did) {
    d.Joined? || d.Started? || d.Undrawn? || d.Refused? || d.Denied?
  }

  ghost predicate CanMove(e: Engine, l: Line, mv: Move) {
    match mv
    case Arrives(job) => JobOk(e.argmax, job)
    case Turns(k, fate) => HasNext(l) && l.asked <= k.upto && Meets(e, WithoutNext(l), NextJob(l), k, fate)
    case Finds => !HasNext(l)
    case Does(d, upto) => !Brings(d) && l.asked <= upto && Possible(e, l.view, d)
  }

  ghost function MoveOn(e: Engine, l: Line, mv: Move): Line
    requires CanMove(e, l, mv)
  {
    match mv
    case Arrives(job) => l.(waiting := l.waiting + [job])
    case Turns(k, fate) => Met(e, WithoutNext(l), NextJob(l), k, fate).(asked := k.upto)
    case Finds => l
    case Does(d, upto) => l.(view := Then(e, l.view, d), asked := upto)
  }

  // ---- Every request is in exactly one place.

  ghost function LostJobs(ls: seq<Lost>): multiset<Job> {
    if ls == [] then multiset{} else LostJobs(ls[..|ls| - 1]) + multiset{ls[|ls| - 1].job}
  }

  ghost function OneOf(s: Option<Job>): multiset<Job> {
    if s.Some? then multiset{s.value} else multiset{}
  }

  ghost function Everyone(l: Line): multiset<Job> {
    multiset(l.waiting) + multiset(l.deferred) + OneOf(l.stalled) + LostJobs(l.lost) + Jobs(l.view)
  }

  lemma LosesOne(ls: seq<Lost>, x: Lost)
    ensures LostJobs(ls + [x]) == LostJobs(ls) + multiset{x.job}
  {
    assert (ls + [x])[..|ls|] == ls;
  }

  lemma RemovedOne(s: seq<Job>, k: nat)
    requires k < |s|
    ensures multiset(s) == multiset(RemoveAt(s, k)) + multiset{s[k]}
  {
    var a, b := s[..k], s[k + 1..];
    assert s == a + ([s[k]] + b);
    assert multiset(s) == multiset(a) + (multiset{s[k]} + multiset(b));
  }

  lemma FirstOff(s: seq<Job>)
    requires s != []
    ensures multiset(s) == multiset(s[1..]) + multiset{s[0]}
  {
    assert s == [s[0]] + s[1..];
  }

  lemma TakesOne(l: Line)
    requires HasNext(l)
    ensures Everyone(l) == Everyone(WithoutNext(l)) + multiset{NextJob(l)}
  {
    hide FirstReady, Jobs, LostJobs, RemoveAt, Everyone;
    match NextOf(l)
    case Stalled => StalledOne(l);
    case Ready(at) => ReadyOne(l, at);
    case Oldest => OldestOne(l);
  }

  lemma StalledOne(l: Line)
    requires l.stalled.Some?
    ensures Everyone(l) == Everyone(l.(stalled := None)) + multiset{l.stalled.value}
  {
    hide Jobs, LostJobs;
  }

  lemma ReadyOne(l: Line, at: nat)
    requires at < |l.deferred|
    ensures Everyone(l) == Everyone(l.(deferred := RemoveAt(l.deferred, at))) + multiset{l.deferred[at]}
  {
    hide Jobs, LostJobs, RemoveAt;
    RemovedOne(l.deferred, at);
  }

  lemma OldestOne(l: Line)
    requires l.waiting != []
    ensures Everyone(l) == Everyone(l.(waiting := l.waiting[1..])) + multiset{l.waiting[0]}
  {
    hide Jobs, LostJobs;
    FirstOff(l.waiting);
  }

  lemma MeetsOne(e: Engine, l: Line, job: Job, k: Luck, f: Fate)
    requires Meets(e, l, job, k, f) && l.stalled == None
    ensures Everyone(Met(e, l, job, k, f)) == Everyone(l) + multiset{job}
  {
    hide Jobs, LostJobs, Possible, Then, ExtendsAny;
    match f
    case Withdrawn => LosesOne(l.lost, Lost(job, true));
    case PutOff =>
    case TakenIn(d) => StepConserves(e, l.view, d);
    case Stalls =>
    case TurnedAway => LosesOne(l.lost, Lost(job, false));
  }

  /** A move brings at most the request that arrives, and loses or doubles none. */
  lemma MoveConserves(e: Engine, l: Line, mv: Move)
    requires CanMove(e, l, mv)
    ensures Everyone(MoveOn(e, l, mv)) == Everyone(l) + if mv.Arrives? then multiset{mv.job} else multiset{}
  {
    hide Jobs, LostJobs, Possible, Then, NextJob, WithoutNext, Meets, Met, HasNext;
    match mv
    case Arrives(job) =>
    case Turns(k, fate) =>
      NoStalled(l);
      TakesOne(l);
      MeetsOne(e, WithoutNext(l), NextJob(l), k, fate);
    case Finds =>
    case Does(d, _) => StepConserves(e, l.view, d);
  }

  lemma NoStalled(l: Line)
    requires HasNext(l)
    ensures WithoutNext(l).stalled == None && WithoutNext(l).view == l.view && WithoutNext(l).lost == l.lost
    ensures WithoutNext(l).asked == l.asked
  {
  }

  // ---- What every move keeps.

  ghost predicate AllOk(argmax: Argmax, jobs: seq<Job>) {
    forall i :: 0 <= i < |jobs| ==> JobOk(argmax, jobs[i])
  }

  /** What is sent lies on the reference runs, and no prompt in flight extends one admitted before
      it. */
  ghost predicate InOrder(e: Engine, l: Line) {
    && Lifecycle.Sound(e, l.view) && Ordered(l.view)
    && AllOk(e.argmax, l.waiting) && AllOk(e.argmax, l.deferred) && (l.stalled.Some? ==> JobOk(e.argmax, l.stalled.value))
  }

  lemma NextOk(e: Engine, l: Line)
    requires InOrder(e, l) && HasNext(l)
    ensures InOrder(e, WithoutNext(l)) && JobOk(e.argmax, NextJob(l))
  {
    hide JobOk, Lifecycle.Sound, Ordered, FirstReady, RemoveAt;
  }

  lemma MeetsKeeps(e: Engine, l: Line, job: Job, k: Luck, f: Fate)
    requires InOrder(e, l) && JobOk(e.argmax, job) && Meets(e, l, job, k, f)
    ensures InOrder(e, Met(e, l, job, k, f))
  {
    hide JobOk, Lifecycle.Sound, Ordered, Possible, Then, ExtendsAny;
    if f.TakenIn? {
      StepKeeps(e, l.view, f.did);
      OrderKept(e, l.view, f.did);
    }
  }

  lemma MoveKeeps(e: Engine, l: Line, mv: Move)
    requires InOrder(e, l) && CanMove(e, l, mv)
    ensures InOrder(e, MoveOn(e, l, mv))
  {
    hide JobOk, Lifecycle.Sound, Ordered, Possible, Then, NextJob, WithoutNext, Meets, Met, HasNext;
    match mv
    case Arrives(job) =>
    case Turns(k, fate) =>
      NextOk(e, l);
      MeetsKeeps(e, WithoutNext(l), NextJob(l), k, fate);
    case Finds =>
    case Does(d, _) =>
      StepKeeps(e, l.view, d);
      OrderKept(e, l.view, d);
  }

  // ---- Runs.

  ghost function MoveAll(e: Engine, l: Line, ms: seq<Move>): Line {
    if ms == [] then l
    else
      var k := MoveAll(e, l, ms[..|ms| - 1]);
      if CanMove(e, k, ms[|ms| - 1]) then MoveOn(e, k, ms[|ms| - 1]) else k
  }

  ghost predicate CanAll(e: Engine, l: Line, ms: seq<Move>) {
    forall i :: 0 <= i < |ms| ==> CanMove(e, MoveAll(e, l, ms[..i]), ms[i])
  }

  /** The requests that arrive. */
  ghost function Arrived(ms: seq<Move>): multiset<Job> {
    if ms == [] then multiset{}
    else Arrived(ms[..|ms| - 1]) + if ms[|ms| - 1].Arrives? then multiset{ms[|ms| - 1].job} else multiset{}
  }

  lemma MovesLast(e: Engine, l: Line, ms: seq<Move>)
    requires ms != [] && CanMove(e, MoveAll(e, l, ms[..|ms| - 1]), ms[|ms| - 1])
    ensures MoveAll(e, l, ms) == MoveOn(e, MoveAll(e, l, ms[..|ms| - 1]), ms[|ms| - 1])
  {
    hide CanMove, MoveOn;
  }

  lemma MovesInit(e: Engine, l: Line, ms: seq<Move>)
    requires ms != [] && CanAll(e, l, ms)
    ensures var k := |ms| - 1;
      CanAll(e, l, ms[..k]) && CanMove(e, MoveAll(e, l, ms[..k]), ms[k]) &&
      MoveAll(e, l, ms) == MoveOn(e, MoveAll(e, l, ms[..k]), ms[k])
  {
    hide CanMove, MoveOn, MoveAll;
    var k := |ms| - 1;
    assert forall i :: 0 <= i < k ==> ms[..k][..i] == ms[..i];
    assert CanMove(e, MoveAll(e, l, ms[..k]), ms[k]);
    MovesLast(e, l, ms);
  }

  lemma MovesPush(e: Engine, l: Line, ms: seq<Move>, mv: Move)
    requires CanAll(e, l, ms) && CanMove(e, MoveAll(e, l, ms), mv)
    ensures CanAll(e, l, ms + [mv]) && MoveAll(e, l, ms + [mv]) == MoveOn(e, MoveAll(e, l, ms), mv)
  {
    hide CanMove, MoveOn, MoveAll;
    var more := ms + [mv];
    assert more[..|ms|] == ms;
    forall i | 0 <= i < |more|
      ensures CanMove(e, MoveAll(e, l, more[..i]), more[i])
    {
      assert i < |ms| ==> more[..i] == ms[..i] && more[i] == ms[i];
    }
    MovesLast(e, l, more);
  }

  /** Over every run: each request that arrived is waiting, deferred, stalled, prefilling, running,
      over or lost, and in one of these places only. */
  lemma {:induction false} RunAccounts(e: Engine, l: Line, ms: seq<Move>)
    requires CanAll(e, l, ms)
    ensures Everyone(MoveAll(e, l, ms)) == Everyone(l) + Arrived(ms)
  {
    hide CanMove, MoveOn, Everyone;
    if ms != [] {
      hide CanAll;
      MovesInit(e, l, ms);
      RunAccounts(e, l, ms[..|ms| - 1]);
      MoveConserves(e, MoveAll(e, l, ms[..|ms| - 1]), ms[|ms| - 1]);
    }
  }

  /** Over every run: no prompt in flight extends one admitted before it, and what is sent lies on
      the reference runs. */
  lemma {:induction false} RunInOrder(e: Engine, l: Line, ms: seq<Move>)
    requires InOrder(e, l) && CanAll(e, l, ms)
    ensures InOrder(e, MoveAll(e, l, ms))
  {
    hide CanMove, MoveOn, InOrder;
    if ms != [] {
      hide CanAll;
      MovesInit(e, l, ms);
      RunInOrder(e, l, ms[..|ms| - 1]);
      MoveKeeps(e, MoveAll(e, l, ms[..|ms| - 1]), ms[|ms| - 1]);
    }
  }

  /** The move loses this request, at its own turn: by then its client had gone, or memory was refused
      in it with no other request held. */
  ghost predicate LostBy(e: Engine, l: Line, mv: Move, x: Lost) {
    && mv.Turns? && HasNext(l) && NextJob(l) == x.job
    && if x.gone then mv.luck.gone else !mv.luck.gone && Idle(l.view) && Tight(e, l.asked, mv.luck.upto)
  }

  /** Over every run: a request is lost only if its client has gone by its turn, or if memory was
      refused on a question of its own turn while nothing else was held; and it stays lost. */
  lemma {:induction false} RunLoses(e: Engine, l: Line, ms: seq<Move>)
    requires CanAll(e, l, ms)
    ensures l.lost <= MoveAll(e, l, ms).lost
    ensures forall i :: |l.lost| <= i < |MoveAll(e, l, ms).lost| ==>
      exists k :: 0 <= k < |ms| && LostBy(e, MoveAll(e, l, ms[..k]), ms[k], MoveAll(e, l, ms).lost[i])
  {
    hide CanMove, MoveOn, LostBy;
    if ms != [] {
      hide CanAll, MoveAll;
      var n := |ms| - 1;
      var last, was, now := ms[n], MoveAll(e, l, ms[..n]), MoveAll(e, l, ms);
      MovesInit(e, l, ms);
      RunLoses(e, l, ms[..n]);
      MoveLoses(e, was, last);
      forall i | |l.lost| <= i < |now.lost|
        ensures exists k :: 0 <= k < |ms| && LostBy(e, MoveAll(e, l, ms[..k]), ms[k], now.lost[i])
      {
        if i < |was.lost| {
          var k :| 0 <= k < n && LostBy(e, MoveAll(e, l, ms[..n][..k]), ms[..n][k], was.lost[i]);
          assert ms[..n][..k] == ms[..k] && now.lost[i] == was.lost[i];
        } else {
          assert LostBy(e, MoveAll(e, l, ms[..n]), ms[n], now.lost[i]);
        }
      }
    }
  }

  lemma MoveLoses(e: Engine, l: Line, mv: Move)
    requires CanMove(e, l, mv)
    ensures var k := MoveOn(e, l, mv);
      k.lost == l.lost || (|k.lost| == |l.lost| + 1 && k.lost[..|l.lost|] == l.lost && LostBy(e, l, mv, k.lost[|l.lost|]))
  {
    hide Possible, Then, NextJob, WithoutNext, HasNext, ExtendsAny, JobOk, Tight;
    if mv.Turns? {
      NoStalled(l);
    }
  }

  /** Where memory is never refused, no request stalls and only those whose clients have gone are
      lost. */
  lemma {:induction false} RunSpares(e: Engine, l: Line, ms: seq<Move>)
    requires CanAll(e, l, ms) && forall q: nat :: e.easy(q)
    ensures forall i :: |l.lost| <= i < |MoveAll(e, l, ms).lost| ==> MoveAll(e, l, ms).lost[i].gone
    ensures MoveAll(e, l, ms).stalled.Some? ==> l.stalled.Some?
  {
    hide CanMove, MoveOn;
    RunLoses(e, l, ms);
    if ms != [] {
      hide CanAll;
      MovesInit(e, l, ms);
      RunSpares(e, l, ms[..|ms| - 1]);
      MoveSpares(e, MoveAll(e, l, ms[..|ms| - 1]), ms[|ms| - 1]);
    }
  }

  lemma MoveSpares(e: Engine, l: Line, mv: Move)
    requires CanMove(e, l, mv) && forall q: nat :: e.easy(q)
    ensures MoveOn(e, l, mv).stalled.Some? ==> l.stalled.Some?
  {
    hide Possible, Then, NextJob, HasNext, ExtendsAny, JobOk;
  }

  // ---- How far a pass can go.

  /** What bounds a pass: each request is looked at twice at most. */
  function LineWork(l: Line): nat {
    2 * |l.waiting| + (if l.stalled.Some? then 2 else 0) + |l.deferred|
  }

  lemma TurnWorks(e: Engine, l: Line, mv: Move)
    requires CanMove(e, l, mv) && mv.Turns? && MoveOn(e, l, mv).stalled == None
    ensures LineWork(MoveOn(e, l, mv)) < LineWork(l)
  {
    hide Possible, Then, ExtendsAny;
  }

  /** Where a pass stops: a request waits for memory, nobody is next, or every slot is taken. */
  predicate PassEnds(e: Engine, l: Line) {
    l.stalled.Some? || !HasNext(l) || |l.view.filling| + |l.view.sending| >= e.slots
  }

  /** What happens to the loop: a request comes to the queue; a pass takes requests in, those of
      whose turns `cancelled` says so being cancelled by then; anything else that happens to the
      scheduler. */
  datatype Tick =
    | Comes(job: Job)
    | TakesIn(cancelled: nat -> bool, gone: bool, draws: nat -> bool)
    | Happens(event: Event)

  ghost predicate TickOk(argmax: Argmax, t: Tick) {
    match t
    case Comes(job) => JobOk(argmax, job)
    case TakesIn(_, _, _) => true
    case Happens(event) => !event.Arrive? && (event.Step? ==> forall i :: event.drafts(i).Valid())
  }

  ghost predicate TurnsAs(cancelled: nat -> bool, draws: nat -> bool, ms: seq<Move>) {
    forall k :: 0 <= k < |ms| ==> ms[k].Finds? || (ms[k].Turns? && ms[k].luck.gone == cancelled(k) && ms[k].luck.draws == draws(k))
  }

  /** The moves a tick amounts to. */
  ghost predicate TickFits(e: Engine, l: Line, t: Tick, ms: seq<Move>) {
    && CanAll(e, l, ms)
    && match t
       case Comes(job) => ms == [Arrives(job)]
       case TakesIn(cancelled, _, draws) => TurnsAs(cancelled, draws, ms) && PassEnds(e, MoveAll(e, l, ms))
       case Happens(event) =>
         |ms| == 1 && ms[0].Does? && exists alone :: Fits(e, l.view, event, ms[0].did, Around(l.asked, ms[0].upto, alone))
  }

  /** The tick was a round that took the request running alone to `h` and cost it its window. */
  ghost predicate Spoilt(e: Engine, l: Line, t: Tick, ms: seq<Move>, h: seq<Token>) {
    t.Happens? && |ms| == 1 && ms[0].Does? &&
    exists alone :: Spoils(e, l.view, t.event, ms[0].did, Around(l.asked, ms[0].upto, alone), h)
  }

  /** Then some request of the line outgrows what a windowed layer is built for. */
  lemma SpoiltHeld(e: Engine, l: Line, t: Tick, ms: seq<Move>, h: seq<Token>)
    requires TickFits(e, l, t, ms) && Spoilt(e, l, t, ms, h)
    ensures Grown(e, Everyone(MoveAll(e, l, ms)))
  {
    hide Decode.Costs, Decode.Outgrows, Everyone, CanAll, MoveAll, Fits, Jobs, PassEnds;
    TickAccounts(e, l, t, ms);
    var alone :| Spoils(e, l.view, t.event, ms[0].did, Around(l.asked, ms[0].upto, alone), h);
    SpoiltOutgrows(e.m, t.event.two && e.lanes >= 2, l.view.sending, alone, h);
    InJobs(l.view);
    InLine(l, l.view.sending[0].job);
  }

  lemma InLine(l: Line, job: Job)
    requires job in Jobs(l.view)
    ensures job in Everyone(l)
  {
    hide Jobs;
  }

  ghost predicate Grown(e: Engine, jobs: multiset<Job>) {
    exists j :: j in jobs && Decode.Outgrows(e.m, |j.ids| + j.max)
  }

  /** The line after the moves of every tick. */
  ghost function Stages(e: Engine, l: Line, runs: seq<seq<Move>>): Line {
    if runs == [] then l else MoveAll(e, Stages(e, l, runs[..|runs| - 1]), runs[|runs| - 1])
  }

  ghost function Coming(ticks: seq<Tick>): multiset<Job> {
    if ticks == [] then multiset{}
    else Coming(ticks[..|ticks| - 1]) + if ticks[|ticks| - 1].Comes? then multiset{ticks[|ticks| - 1].job} else multiset{}
  }

  lemma StagesPush(e: Engine, l: Line, runs: seq<seq<Move>>, ms: seq<Move>)
    ensures Stages(e, l, runs + [ms]) == MoveAll(e, Stages(e, l, runs), ms)
  {
    hide MoveAll;
    assert (runs + [ms])[..|runs|] == runs;
  }

  /** The first ticks amount to these moves. */
  ghost predicate Fitting(e: Engine, l: Line, ticks: seq<Tick>, runs: seq<seq<Move>>) {
    |runs| <= |ticks| && forall i :: 0 <= i < |runs| ==> TickFits(e, Stages(e, l, runs[..i]), ticks[i], runs[i])
  }

  lemma ComingPush(ticks: seq<Tick>, i: nat)
    requires i < |ticks|
    ensures Coming(ticks[..i + 1]) == Coming(ticks[..i]) + if ticks[i].Comes? then multiset{ticks[i].job} else multiset{}
  {
    assert ticks[..i + 1][..i] == ticks[..i];
  }

  lemma FittingPush(e: Engine, l: Line, ticks: seq<Tick>, runs: seq<seq<Move>>, ms: seq<Move>)
    requires |runs| < |ticks| && Fitting(e, l, ticks, runs) && TickFits(e, Stages(e, l, runs), ticks[|runs|], ms)
    ensures Fitting(e, l, ticks, runs + [ms]) && Stages(e, l, runs + [ms]) == MoveAll(e, Stages(e, l, runs), ms)
    ensures Everyone(Stages(e, l, runs)) == Everyone(l) + Coming(ticks[..|runs|]) ==>
              Everyone(Stages(e, l, runs + [ms])) == Everyone(l) + Coming(ticks[..|runs| + 1])
  {
    hide TickFits, Stages, MoveAll, Everyone, Coming;
    TickAccounts(e, Stages(e, l, runs), ticks[|runs|], ms);
    StagesPush(e, l, runs, ms);
    ComingPush(ticks, |runs|);
    assert (runs + [ms])[..|runs|] == runs;
    assert forall i :: 0 <= i < |runs| ==> (runs + [ms])[..i] == runs[..i];
  }

  lemma {:induction false} NobodyArrives(ms: seq<Move>)
    requires forall k :: 0 <= k < |ms| ==> !ms[k].Arrives?
    ensures Arrived(ms) == multiset{}
  {
    if ms != [] {
      NobodyArrives(ms[..|ms| - 1]);
    }
  }

  lemma OneMove(e: Engine, l: Line, mv: Move)
    requires CanMove(e, l, mv)
    ensures CanAll(e, l, [mv]) && MoveAll(e, l, [mv]) == MoveOn(e, l, mv)
  {
    hide CanMove, MoveOn;
    MovesNone(e, l);
    MovesPush(e, l, [], mv);
    assert [] + [mv] == [mv];
  }

  lemma MovesNone(e: Engine, l: Line)
    ensures CanAll(e, l, []) && MoveAll(e, l, []) == l
  {
  }

  /** A tick brings the request that comes, and nobody else. */
  lemma TickAccounts(e: Engine, l: Line, t: Tick, ms: seq<Move>)
    requires TickFits(e, l, t, ms)
    ensures Everyone(MoveAll(e, l, ms)) == Everyone(l) + if t.Comes? then multiset{t.job} else multiset{}
  {
    hide Everyone, CanAll, MoveAll, PassEnds, Fits;
    RunAccounts(e, l, ms);
    if t.Comes? {
      assert ms[..0] == [];
    } else {
      NobodyArrives(ms);
    }
  }

  /** A request to admit, or why there is none: the queue is empty, or it is waited on. */
  datatype Taken = Got(job: Job) | Empty | Waiting

  class Loop {
    const sched: Scheduler
    /** What has arrived in the queue, oldest first. */
    var waiting: seq<Job>
    var deferred: seq<Job>
    var stalled: Option<Job>
    ghost var lost: seq<Lost>

    ghost function Held(): Line
      reads this, sched`view, sched.pool`asked
    {
      Line(waiting, deferred, stalled, lost, sched.view, sched.pool.asked)
    }

    /** Everything the loop keeps. */
    ghost predicate Kept()
      reads this, sched, sched.pool, sched.wire, sched.slots, Requests(sched.active)
    {
      sched.Whole() && InOrder(sched.Setup(), Held())
    }

    /** So but for a request that lost its window. */
    ghost predicate KeptBut(bad: Option<Decode.Active>)
      reads this, sched, sched.pool, sched.wire, sched.slots, Requests(sched.active), sched.TheBad(bad)
    {
      if bad.None? then Kept() else sched.WholeBut(bad) && InOrder(sched.Setup(), Held())
    }

    constructor (sched: Scheduler)
      requires sched.Whole() && sched.view == View(0, [], [], [])
      ensures this.sched == sched && Kept() && Held() == Line([], [], None, [], sched.view, sched.pool.asked)
    {
      hide Kept, Scheduler.Whole;
      this.sched := sched;
      waiting, deferred, stalled, lost := [], [], None, [];
      new;
      sched.Still();
      Begins();
    }

    lemma Begins()
      requires sched.Whole() && sched.view == View(0, [], [], []) && Held() == Line([], [], None, [], sched.view, sched.pool.asked)
      ensures Kept()
    {
      hide Scheduler.Whole;
      sched.WholeParts();
    }

    /** A request joins the queue. */
    method Arrive(job: Job) returns (ghost ms: seq<Move>)
      requires Kept() && JobOk(sched.argmax, job)
      modifies this`waiting
      ensures Kept() && TickFits(sched.Setup(), old(Held()), Comes(job), ms)
      ensures Held() == MoveAll(sched.Setup(), old(Held()), ms)
    {
      hide Scheduler.Whole, Scheduler.Setup, InOrder, CanMove, MoveOn, CanAll, MoveAll;
      ghost var e, l := sched.Setup(), Held();
      sched.SetupIs();
      waiting := waiting + [job];
      ms := [Arrives(job)];
      Joining(e, l, job);
      OneMove(e, l, Arrives(job));
      MoveKeeps(e, l, Arrives(job));
      sched.Still();
    }

    lemma Joining(e: Engine, l: Line, job: Job)
      requires JobOk(e.argmax, job)
      ensures CanMove(e, l, Arrives(job)) && MoveOn(e, l, Arrives(job)) == l.(waiting := l.waiting + [job])
    {
    }

    /** The prompts in flight are those that can be seen. */
    lemma InFlight()
      requires Kept()
      ensures FilledAs(sched.prefilling, sched.view.filling) && |sched.active| == |sched.view.sending| && sched.m.Valid()
    {
      hide Scheduler.Inv, SentAs, InOrder, Lifecycle.Sound;
      sched.WholeParts();
    }

    method HeldBack(job: Job) returns (held: bool)
      requires FilledAs(sched.prefilling, sched.view.filling)
      ensures held == ExtendsAny(job.ids, sched.view.filling)
    {
      held := false;
      var i := 0;
      while i < |sched.prefilling| && !held
        invariant i <= |sched.prefilling| && (held ==> ExtendsAny(job.ids, sched.view.filling))
        invariant !held ==> forall k :: 0 <= k < i ==> !Extends(job.ids, sched.view.filling[k].job.ids)
      {
        held := Extends(job.ids, sched.prefilling[i].job.ids);
        i := i + 1;
      }
    }

    /** The first deferred request that no prompt in flight holds back. */
    method ReadyFirst() returns (i: nat)
      requires FilledAs(sched.prefilling, sched.view.filling)
      ensures i == FirstReady(deferred, sched.view.filling)
    {
      i := 0;
      assert deferred[0..] == deferred;
      while i < |deferred|
        invariant i <= |deferred|
        invariant FirstReady(deferred, sched.view.filling) == i + FirstReady(deferred[i..], sched.view.filling)
      {
        var held := HeldBack(deferred[i]);
        if !held {
          return;
        }
        assert deferred[i..][1..] == deferred[i + 1..];
        i := i + 1;
      }
    }

    /** Take the next request in hand: the stalled one, else the first deferred one that is ready,
        else the oldest waiting. */
    method TakeNext() returns (r: Taken)
      requires FilledAs(sched.prefilling, sched.view.filling) && |sched.active| == |sched.view.sending|
      modifies this`waiting, this`deferred, this`stalled
      ensures r.Got? <==> HasNext(old(Held()))
      ensures r.Got? ==> r.job == NextJob(old(Held())) && Held() == WithoutNext(old(Held()))
      ensures !r.Got? ==> Held() == old(Held()) && (r.Waiting? <==> NextOf(old(Held())).Waits?)
    {
      hide FirstReady, RemoveAt;
      var i := ReadyFirst();
      if stalled.Some? {
        r := Got(stalled.value);
        stalled := None;
      } else if i < |deferred| {
        r := Got(deferred[i]);
        deferred := RemoveAt(deferred, i);
      } else if waiting != [] {
        r := Got(waiting[0]);
        waiting := waiting[1..];
      } else if sched.active == [] && sched.prefilling == [] {
        r := Waiting;
      } else {
        r := Empty;
      }
    }

    /** Admit one request, defer it behind a prompt in flight that it extends, or leave it: lost
        when its client has gone or memory is refused with nothing else held, stalled while others
        hold the memory. */
    method Offer(job: Job, cancelled: bool, gone: bool, draws: bool) returns (ghost f: Fate)
      requires sched.Whole() && JobOk(sched.argmax, job) && stalled == None
      requires sched.pool.free != [] || sched.pool.retained != []
      modifies this`deferred, this`stalled, this`lost, sched`active, sched`prefilling, sched`view, sched.pool, sched.slots
      ensures sched.Whole() && fresh(Requests(sched.active) - old(Requests(sched.active)))
      ensures var k := Luck(cancelled, draws, sched.pool.asked);
        old(Held()).asked <= k.upto && Meets(sched.Setup(), old(Held()), job, k, f) &&
        Held() == Met(sched.Setup(), old(Held()), job, k, f).(asked := k.upto)
    {
      hide Scheduler.Whole, Scheduler.Setup, Possible, Then, JobOk, ExtendsAny;
      sched.WholeParts();
      Filled();
      var held := HeldBack(job);
      if cancelled {
        f := Withdrawn;
        lost := lost + [Lost(job, true)];
        sched.Still();
      } else if held {
        f := PutOff;
        deferred := deferred + [job];
        sched.Still();
      } else {
        sched.Still();
        f := Try(job, gone, draws);
      }
    }

    lemma Filled()
      requires sched.Whole()
      ensures FilledAs(sched.prefilling, sched.view.filling)
    {
      hide Scheduler.Inv, SentAs, Lifecycle.Sound;
    }

    /** Ask for a slot. */
    method Try(job: Job, gone: bool, draws: bool) returns (ghost f: Fate)
      requires sched.Whole() && JobOk(sched.argmax, job) && stalled == None
      requires sched.pool.free != [] || sched.pool.retained != []
      requires !ExtendsAny(job.ids, sched.view.filling)
      modifies this`stalled, this`lost, sched`active, sched`prefilling, sched`view, sched.pool, sched.slots
      ensures sched.Whole() && fresh(Requests(sched.active) - old(Requests(sched.active)))
      ensures var k := Luck(false, draws, sched.pool.asked);
        old(Held()).asked <= k.upto && Meets(sched.Setup(), old(Held()), job, k, f) &&
        Held() == Met(sched.Setup(), old(Held()), job, k, f).(asked := k.upto)
    {
      hide Scheduler.Whole, Scheduler.Setup, Possible, Then, JobOk, ExtendsAny, Banks.All;
      sched.WholeParts();
      HasSlot();
      var taken, begun;
      ghost var did;
      ghost var e, l, a := sched.Setup(), Held(), sched.pool.asked;
      taken, begun, did := sched.AdmitJob(job, gone, draws);
      if taken {
        f := TakenIn(did);
        if begun {
          sched.LimitBanks();
        }
      } else {
        sched.IsTight(a, sched.pool.asked);
        RefusedSame(e, l.view, did);
        if sched.active != [] || sched.prefilling != [] {
          f := Stalls;
          stalled := Some(job);
        } else {
          f := TurnedAway;
          lost := lost + [Lost(job, false)];
        }
      }
    }

    lemma RefusedSame(e: Engine, v: View, d: Did)
      requires Possible(e, v, d) && d.Refused?
      ensures Then(e, v, d) == v
    {
    }

    lemma HasSlot()
      requires sched.pool.free != [] || sched.pool.retained != []
      ensures sched.pool.Kvs() != {}
    {
      var p := sched.pool;
      if p.free != [] {
        assert p.free[0] in FreeSet(p.free);
      } else {
        assert p.retained[0].kv in KvSet(p.retained);
      }
    }

    /** One turn of a pass: the next request, if there is one, meets its fate. `cancelled` says
        whether its client has gone by then. */
    method Turn(cancelled: bool, gone: bool, draws: bool) returns (r: Taken, ghost mv: Move)
      requires Kept() && (sched.pool.free != [] || sched.pool.retained != [])
      modifies this`waiting, this`deferred, this`stalled, this`lost, sched`active, sched`prefilling, sched`view, sched.pool, sched.slots
      ensures Kept() && fresh(Requests(sched.active) - old(Requests(sched.active)))
      ensures CanMove(sched.Setup(), old(Held()), mv) && Held() == MoveOn(sched.Setup(), old(Held()), mv)
      ensures mv.Finds? || (mv.Turns? && mv.luck == Luck(cancelled, draws, sched.pool.asked))
      ensures (r.Got? <==> mv.Turns?) && (r.Waiting? <==> NextOf(old(Held())).Waits?)
    {
      hide Scheduler.Whole, Scheduler.Setup, InOrder, Meets, Met, NextOf, NextJob, WithoutNext;
      ghost var e, l := sched.Setup(), Held();
      sched.SetupIs();
      InFlight();
      r := TakeNext();
      sched.Still();
      if r.Got? {
        NextOk(e, l);
        NoStalled(l);
        OkIsOk(e, WithoutNext(l));
        ghost var f := Offer(r.job, cancelled, gone, draws);
        mv := Turns(Luck(cancelled, draws, sched.pool.asked), f);
      } else {
        mv := Finds;
      }
      MoveKeeps(e, l, mv);
    }

    lemma OkIsOk(e: Engine, l: Line)
      requires InOrder(e, l)
      ensures AllOk(e.argmax, l.waiting)
    {
    }

    /** Take requests in while there are slots. The pass ends because every slot is taken, because a
        request waits for memory, because the queue is empty and every deferred request still has
        the prompt it waits for in flight, or (`waits`) to wait on the queue with nothing held. */
    method Pass(cancelled: nat -> bool, gone: bool, draws: nat -> bool) returns (waits: bool, ghost ms: seq<Move>)
      requires Kept()
      modifies this`waiting, this`deferred, this`stalled, this`lost, sched`active, sched`prefilling, sched`view, sched.pool, sched.slots
      ensures Kept() && fresh(Requests(sched.active) - old(Requests(sched.active)))
      ensures TickFits(sched.Setup(), old(Held()), TakesIn(cancelled, gone, draws), ms)
      ensures Held() == MoveAll(sched.Setup(), old(Held()), ms)
      ensures waits ==> NextOf(Held()).Waits?
    {
      hide Kept, Scheduler.Setup, CanMove, MoveOn, CanAll, MoveAll, NextOf, InOrder;
      ghost var e, l := sched.Setup(), Held();
      MovesNone(e, l);
      ms, waits := [], false;
      var going, turn := true, 0;
      while going && (sched.pool.free != [] || sched.pool.retained != [])
        invariant Kept() && fresh(Requests(sched.active) - old(Requests(sched.active)))
        invariant turn == |ms| && CanAll(e, l, ms) && Held() == MoveAll(e, l, ms) && TurnsAs(cancelled, draws, ms)
        invariant !going ==> stalled.Some? || !HasNext(Held())
        invariant waits ==> NextOf(Held()).Waits?
        decreases if going then LineWork(Held()) + 1 else 0
      {
        ghost var now, was := Held(), ms;
        var r;
        ghost var mv;
        r, mv := Turn(cancelled(turn), gone, draws(turn));
        MovesPush(e, l, was, mv);
        ms := was + [mv];
        turn := turn + 1;
        going := r.Got? && stalled == None;
        if going {
          TurnWorks(e, now, mv);
        }
        waits := r.Waiting?;
        Found(e, now, mv);
      }
      NoSlotLeft();
    }

    lemma Found(e: Engine, l: Line, mv: Move)
      requires CanMove(e, l, mv)
      ensures mv.Finds? ==> MoveOn(e, l, mv) == l && !HasNext(l)
    {
    }

    /** With nothing free and nothing retained every slot is taken. */
    lemma NoSlotLeft()
      requires Kept()
      ensures sched.pool.free == [] && sched.pool.retained == [] ==>
                |sched.view.filling| + |sched.view.sending| >= sched.Setup().slots
    {
      hide Scheduler.Inv, Scheduler.Shown, InOrder, Lifecycle.Sound;
      if sched.pool.free == [] && sched.pool.retained == [] {
        assert sched.pool.Kvs() == {};
        sched.AllTaken();
      }
    }

    /** Anything that happens to the scheduler; after a round that cost a request its window (`bad`)
        everything but that request is as it should be. */
    method Do(event: Event) returns (bad: Option<Decode.Active>, ghost ms: seq<Move>)
      requires Kept() && TickOk(sched.argmax, Happens(event))
      modifies sched, sched.pool, sched.wire, sched.slots, Requests(sched.active)
      ensures KeptBut(bad) && fresh(Requests(sched.active) - old(Requests(sched.active)))
      ensures TickFits(sched.Setup(), old(Held()), Happens(event), ms)
      ensures Held() == MoveAll(sched.Setup(), old(Held()), ms)
      ensures bad.Some? ==> Spoilt(sched.Setup(), old(Held()), Happens(event), ms, bad.value.hist)
    {
      hide Scheduler.Whole, Scheduler.Setup, Scheduler.Alone, InOrder, CanAll, MoveAll, Possible, Then, Fits, JobOk, Spoils;
      ghost var e, l, alone := sched.Setup(), Held(), sched.Alone();
      ghost var did;
      bad, did := sched.One(event);
      ghost var o := Around(l.asked, sched.pool.asked, alone);
      NotBrings(e, l.view, event, did, o);
      ghost var mv := Does(did, sched.pool.asked);
      ms := [mv];
      OneMove(e, l, mv);
      MoveKeeps(e, l, mv);
      assert Fits(e, l.view, event, did, o);
      assert bad.Some? ==> Spoils(e, l.view, event, did, o, bad.value.hist);
    }

    lemma NotBrings(e: Engine, v: View, event: Event, d: Did, o: Around)
      requires Fits(e, v, event, d, o) && !event.Arrive?
      ensures !Brings(d)
    {
      hide SegmentFails;
    }

    /** Any run of the loop: requests come, passes take them in, and everything else happens to the
        scheduler, in any order. Each tick does what the moves returned for it say; every request
        that came is in exactly one place, those in flight are in order, and what was sent lies on
        the one-token-per-step runs. The run stops only at a round whose split of a lone
        block cost the window of its request (`bad`), which takes a request whose prompt and budget
        outgrow what a windowed layer is built for. */
    method Run(ticks: seq<Tick>) returns (bad: Option<Decode.Active>, ghost runs: seq<seq<Move>>)
      requires Kept() && forall i :: 0 <= i < |ticks| ==> TickOk(sched.argmax, ticks[i])
      modifies this, sched, sched.pool, sched.wire, sched.slots, Requests(sched.active)
      ensures KeptBut(bad) && |runs| <= |ticks| && (bad.None? ==> |runs| == |ticks|)
      ensures bad.Some? ==> runs != [] && var n := |runs| - 1;
        Spoilt(sched.Setup(), Stages(sched.Setup(), old(Held()), runs[..n]), ticks[n], runs[n], bad.value.hist)
      ensures !Grown(sched.Setup(), Everyone(old(Held())) + Coming(ticks[..|runs|])) ==> bad.None?
      ensures Fitting(sched.Setup(), old(Held()), ticks, runs) && Held() == Stages(sched.Setup(), old(Held()), runs)
      ensures Everyone(Held()) == Everyone(old(Held())) + Coming(ticks[..|runs|])
    {
      hide Kept, Scheduler.WholeBut, Scheduler.Setup, Fitting, Stages, MoveAll, Everyone, TickFits, TickOk, Coming, Spoilt, Grown, InOrder;
      ghost var e, l := sched.Setup(), Held();
      runs, bad := [], None;
      NoTicks(e, l, ticks);
      var i := 0;
      while i < |ticks| && bad.None?
        invariant i <= |ticks| && |runs| == i && KeptBut(bad) && fresh(Requests(sched.active) - old(Requests(sched.active)))
        invariant bad.Some? ==> i > 0 && Spoilt(e, Stages(e, l, runs[..i - 1]), ticks[i - 1], runs[i - 1], bad.value.hist)
        invariant bad.Some? ==> Grown(e, Everyone(l) + Coming(ticks[..i]))
        invariant Fitting(e, l, ticks, runs) && Held() == Stages(e, l, runs) && Everyone(Held()) == Everyone(l) + Coming(ticks[..i])
      {
        ghost var was, ms := runs, [];
        bad, ms := OneTick(ticks[i]);
        FittingPush(e, l, ticks, was, ms);
        if bad.Some? {
          SpoiltHeld(e, Stages(e, l, was), ticks[i], ms, bad.value.hist);
        }
        runs := was + [ms];
        assert runs[..i] == was;
        i := i + 1;
      }
    }

    lemma NoTicks(e: Engine, l: Line, ticks: seq<Tick>)
      ensures Fitting(e, l, ticks, []) && Stages(e, l, []) == l && Coming(ticks[..0]) == multiset{}
    {
    }

    method OneTick(t: Tick) returns (bad: Option<Decode.Active>, ghost ms: seq<Move>)
      requires Kept() && TickOk(sched.argmax, t)
      modifies this, sched, sched.pool, sched.wire, sched.slots, Requests(sched.active)
      ensures KeptBut(bad) && fresh(Requests(sched.active) - old(Requests(sched.active)))
      ensures TickFits(sched.Setup(), old(Held()), t, ms) && Held() == MoveAll(sched.Setup(), old(Held()), ms)
      ensures bad.Some? ==> Spoilt(sched.Setup(), old(Held()), t, ms, bad.value.hist)
    {
      hide Scheduler.Whole, Scheduler.Setup, TickFits, MoveAll, JobOk, InOrder, Spoilt;
      bad := None;
      match t {
        case Comes(job) =>
          ms := Arrive(job);
        case TakesIn(cancelled, gone, draws) =>
          var waits;
          waits, ms := Pass(cancelled, gone, draws);
        case Happens(event) =>
          bad, ms := Do(event);
      }
    }
  }
}
