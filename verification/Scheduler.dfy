/** The scheduler: prompts are admitted to slots (resuming from snapshots), prefilled in
    segments, decoded together in speculative rounds and retired to the pool. Whatever was
    resumed, however prompts were cut and whatever was proposed, it does to requests exactly what
    the steps of `Lifecycle` say, and every slot is in exactly one place. */
module Scheduling {
  import opened Basics
  import opened Transformer
  import opened DeviceKvCache
  import opened KvSound
  import opened Lanes
  import opened Speculate
  import opened Decode
  import opened Snapshots
  import opened DeviceHits
  import opened SlotPool
  import opened Lifecycle
  import Banks
  import Chunks
  import Prefill

  datatype Prefilling = Prefilling(job: Job, kv: DeviceKv, done: nat, after: Option<After>, points: seq<Point>)

  datatype Live = Live(job: Job, a: Active, points: seq<Point>)

  /** The GA rows a request is admitted with: its prompt, its budget between 1024 and 8192 tokens,
      and room for a verify block. */
  function AdmitRows(j: Job): nat {
    |j.ids| + Min(Max(j.max, 1024), 8192) + 64
  }

  // ---- Where slots are.

  function PreKvs(ps: seq<Prefilling>): set<DeviceKv> {
    set i | 0 <= i < |ps| :: ps[i].kv
  }

  function ActKvs(ls: seq<Live>): set<DeviceKv> {
    set i | 0 <= i < |ls| :: ls[i].a.kv
  }

  function Requests(ls: seq<Live>): set<Active> {
    set i | 0 <= i < |ls| :: ls[i].a
  }

  predicate DistinctPre(ps: seq<Prefilling>) {
    forall i, j :: 0 <= i < j < |ps| ==> ps[i].kv != ps[j].kv
  }

  predicate DistinctLive(ls: seq<Live>) {
    forall i, j :: 0 <= i < j < |ls| ==> ls[i].a != ls[j].a && ls[i].a.kv != ls[j].a.kv
  }

  /** A prompt being prefilled: its slot stands for what is done of it. */
  ghost predicate PreOk(m: Model, argmax: Argmax, maxChunk: nat, p: Prefilling)
    reads p.kv
  {
    && m.Valid() && JobOk(argmax, p.job) && p.done < |p.job.ids| && p.kv.maxChunk == maxChunk
    && Stands(m, p.kv.Value(), p.job.ids[..p.done]) && PointsAt(m, argmax, p.job.ids[..p.done], p.points)
    && (p.after.Some? ==> AfterOk(m, argmax, p.after.value, p.job.ids[..p.done]))
  }

  /** A running request: on its way to its reference output. */
  ghost predicate LiveOk(m: Model, argmax: Argmax, eos: set<Token>, l: Live)
    reads l.a, l.a.kv
  {
    && JobOk(argmax, l.job) && l.a.Ok(m) && l.a.plen == |l.job.ids| && l.a.max == l.job.max && l.a.pick == l.job.pick
    && l.a.hist <= Target(m, l.job, eos)
    && DecodeRun(m, l.a.pick, l.a.plen, l.a.hist, l.a.max, eos) == Target(m, l.job, eos)
    && l.a.alive + |l.a.hist| == |l.job.ids| + l.job.alive
    && PointsAt(m, argmax, l.a.hist[..|l.a.hist| - 1], l.points)
  }

  /** The running requests, as far as they can be seen. */
  ghost predicate SentAs(ls: seq<Live>, ss: seq<Sending>)
    reads Requests(ls)
  {
    |ls| == |ss| && forall i :: 0 <= i < |ls| ==> (assert ls[i].a in Requests(ls); ss[i] == Sending(ls[i].job, ls[i].a.hist))
  }

  ghost predicate FilledAs(ps: seq<Prefilling>, fs: seq<Filling>) {
    |ps| == |fs| && forall i :: 0 <= i < |ps| ==> fs[i].job == ps[i].job && fs[i].done == ps[i].done
  }

  class Scheduler {
    const m: Model
    const argmax: Argmax
    const eos: set<Token>
    const maxChunk: nat
    const pool: Pool
    const wire: Wire
    ghost const slots: set<DeviceKv>
    var active: seq<Live>
    var prefilling: seq<Prefilling>
    ghost var view: View

    ghost function Setup(): Engine {
      Engine(m, argmax, eos, maxChunk, wire.limit, |slots|, (q: nat) => pool.world.Easy(q))
    }

    lemma SetupIs()
      ensures var e := Setup(); e.m == m && e.argmax == argmax && e.eos == eos && e.maxChunk == maxChunk &&
                                e.lanes == wire.limit && e.slots == |slots|
    {
    }

    lemma IsTight(a: nat, b: nat)
      requires !pool.world.Generous(a, b)
      ensures Tight(Setup(), a, b)
    {
      var q: nat :| a <= q < b && !pool.world.Easy(q);
      assert !Setup().easy(q);
    }

    /** Every slot is in exactly one of the pool (free or retained), the prompts being prefilled,
        the running requests, and `out`. */
    ghost predicate Placed(out: set<DeviceKv>)
      reads this`active, this`prefilling, pool
    {
      && DistinctPre(prefilling) && DistinctLive(active)
      && pool.Kvs() + PreKvs(prefilling) + ActKvs(active) + out == slots
      && pool.Kvs() !! PreKvs(prefilling) && pool.Kvs() !! ActKvs(active) && pool.Kvs() !! out
      && PreKvs(prefilling) !! ActKvs(active) && PreKvs(prefilling) !! out && ActKvs(active) !! out
    }

    /** What holds of the slots between any two operations, those in `out` being in hand. */
    ghost predicate Inv(out: set<DeviceKv>)
      reads this`active, this`prefilling, pool, wire, slots, Requests(active)
    {
      && m.Valid() && pool.m == m && pool.argmax == argmax && maxChunk > 0
      && wire.inflight == [] && wire.limit >= 1 && Placed(out) && pool.Sound()
      && (forall k :: k in slots ==> k.maxChunk == maxChunk)
      && (forall i :: 0 <= i < |prefilling| ==> prefilling[i].kv in slots && PreOk(m, argmax, maxChunk, prefilling[i]))
      && (forall i :: 0 <= i < |active| ==> active[i].a.kv in slots && LiveOk(m, argmax, eos, active[i]))
    }

    ghost predicate Shown(v: View)
      reads this`active, this`prefilling, Requests(active)
    {
      FilledAs(prefilling, v.filling) && SentAs(active, v.sending)
    }

    /** What every step keeps. */
    ghost predicate Whole()
      reads this, pool, wire, slots, Requests(active)
    {
      Inv({}) && Shown(view) && Lifecycle.Sound(Setup(), view)
    }

    constructor (m: Model, argmax: Argmax, eos: set<Token>, maxChunk: nat, pool: Pool, wire: Wire)
      requires m.Valid() && pool.m == m && pool.argmax == argmax && maxChunk > 0 && wire.inflight == [] && wire.limit >= 1
      requires pool.Sound() && forall k :: k in pool.Kvs() ==> k.maxChunk == maxChunk
      ensures Whole() && active == [] && prefilling == [] && slots == pool.Kvs() && view == View(0, [], [], [])
      ensures this.m == m && this.argmax == argmax && this.eos == eos && this.maxChunk == maxChunk && this.pool == pool && this.wire == wire
    {
      hide Whole, Pool.Sound;
      this.m, this.argmax, this.eos, this.maxChunk, this.pool, this.wire := m, argmax, eos, maxChunk, pool, wire;
      slots := pool.Kvs();
      active, prefilling, view := [], [], View(0, [], [], []);
      new;
      Empty();
    }

    lemma Empty()
      requires m.Valid() && pool.m == m && pool.argmax == argmax && maxChunk > 0 && wire.inflight == [] && wire.limit >= 1
      requires pool.Sound() && slots == pool.Kvs() && forall k :: k in slots ==> k.maxChunk == maxChunk
      requires active == [] && prefilling == [] && view == View(0, [], [], [])
      ensures Whole()
    {
      hide Pool.Sound;
      assert PreKvs(prefilling) == {} && ActKvs(active) == {};
    }

    /** A step of the pool with the slots that are out leaves the rest alone. */
    twostate lemma PoolStep(was: set<DeviceKv>, new out: set<DeviceKv>)
      requires old(Inv(was)) && active == old(active) && prefilling == old(prefilling)
      requires pool.Sound() && wire.inflight == []
      requires pool.Kvs() + out == old(pool.Kvs()) + was && pool.Kvs() !! out
      requires forall k :: k in slots && k !in old(pool.Kvs()) && k !in was ==> unchanged(k)
      requires forall a :: a in Requests(active) ==> unchanged(a)
      ensures Inv(out)
    {
      hide Stands, PointsAt, JobOk, Pool.Sound;
      forall i | 0 <= i < |prefilling|
        ensures PreOk(m, argmax, maxChunk, prefilling[i])
      {
        var p := prefilling[i];
        assert p.kv in PreKvs(prefilling);
        assert old(PreOk(m, argmax, maxChunk, p));
        assert p.kv.Value() == old(p.kv.Value());
      }
      forall i | 0 <= i < |active|
        ensures LiveOk(m, argmax, eos, active[i])
      {
        var l := active[i];
        assert l.a.kv in ActKvs(active) && l.a in Requests(active);
        assert old(LiveOk(m, argmax, eos, l));
        assert l.a.kv.Value() == old(l.a.kv.Value());
      }
    }

    /** What can be seen does not change where requests do not. */
    twostate lemma StillShown(v: View)
      requires old(Shown(v)) && active == old(active) && prefilling == old(prefilling)
      requires forall a :: a in Requests(active) ==> unchanged(a)
      ensures Shown(v)
    {
      forall i | 0 <= i < |active|
        ensures v.sending[i] == Sending(active[i].job, active[i].a.hist)
      {
        assert active[i].a in Requests(active);
        assert old(active[i].a.hist) == active[i].a.hist;
      }
    }

    /** Nothing that happens elsewhere touches the scheduler. */
    twostate lemma Still()
      requires old(Whole()) && unchanged(this) && unchanged(pool) && unchanged(wire)
      requires forall k :: k in slots ==> unchanged(k)
      requires forall a :: a in Requests(active) ==> unchanged(a)
      ensures Whole()
    {
      hide Inv, Shown, Lifecycle.Sound;
      InSlots0();
      pool.Undisturbed();
      PoolStep({}, {});
      StillShown(view);
    }

    twostate lemma InSlots0()
      requires old(Inv({})) && unchanged(this) && unchanged(pool) && unchanged(wire)
      ensures old(pool.Sound()) && old(pool.Kvs()) <= slots && wire.inflight == []
    {
    }

    /** A slot that is out becomes a prompt being prefilled. */
    method PushPre(p: Prefilling)
      requires Inv({p.kv}) && PreOk(m, argmax, maxChunk, p)
      modifies this`prefilling
      ensures Inv({}) && prefilling == old(prefilling) + [p]
    {
      hide PreOk, LiveOk, Pool.Sound;
      PreSetPush(prefilling, p);
      prefilling := prefilling + [p];
    }

    /** The prompt at the front, taken out with its slot. */
    method PopPre() returns (p: Prefilling)
      requires Inv({}) && prefilling != []
      modifies this`prefilling
      ensures p == old(prefilling)[0] && prefilling == old(prefilling)[1..]
      ensures Inv({p.kv}) && PreOk(m, argmax, maxChunk, p)
    {
      hide PreOk, LiveOk, Pool.Sound;
      p := prefilling[0];
      PreSetPop(prefilling);
      prefilling := prefilling[1..];
    }

    /** A slot that is out becomes a running request. */
    method PushLive(l: Live, ghost out: set<DeviceKv>)
      requires Inv(out) && l.a.kv in out && LiveOk(m, argmax, eos, l) && l.a !in Requests(active)
      modifies this`active
      ensures Inv(out - {l.a.kv}) && active == old(active) + [l]
    {
      hide PreOk, LiveOk, Pool.Sound;
      LiveSetPush(active, l);
      active := active + [l];
    }

    /** Hand a prefilled slot to the pool's books: its prompt end becomes a point, and if the
        request ends here the slot is retired. */
    method StartSlot(job: Job, kv: DeviceKv, first: Token, after: Option<After>, points: seq<Point>, gone: bool)
      returns (pts: seq<Point>)
      requires Inv({kv}) && JobOk(argmax, job) && Stands(m, kv.Value(), job.ids) && PointsAt(m, argmax, job.ids, points)
      requires after.Some? ==> AfterOk(m, argmax, after.value, job.ids)
      requires first == Next(m, job.pick, |job.ids|, job.ids)
      modifies pool, slots
      ensures Inv(if Ends(eos, job, job.ids + [first]) then {} else {kv}) && old(pool.asked) <= pool.asked
      ensures !Ends(eos, job, job.ids + [first]) ==> Stands(m, kv.Value(), job.ids) && PointsAt(m, argmax, job.ids, pts)
    {
      hide Inv, Stands, PointsAt, AfterOk, Pool.Sound, Next, DecodeRun;
      InSlots({kv});
      FirstToken(m, argmax, job, eos, first);
      var ends := Ends(eos, job, job.ids + [first]);
      var room := pool.Ask();
      var turnRoom := pool.Ask();
      var kept := pool.Start(kv, job.ids, first, after, points, job.sampled, ends, gone, room, turnRoom);
      pts := if kept.Some? then kept.value else [];
      PoolStep({kv}, if ends then {} else {kv});
    }

    /** A prefilled request starts with its first token: it joins the running ones, or has ended. */
    method StartJob(job: Job, kv: DeviceKv, first: Token, after: Option<After>, points: seq<Point>, gone: bool, ghost v: View)
      requires Inv({kv}) && JobOk(argmax, job) && Stands(m, kv.Value(), job.ids) && PointsAt(m, argmax, job.ids, points)
      requires after.Some? ==> AfterOk(m, argmax, after.value, job.ids)
      requires first == Next(m, job.pick, |job.ids|, job.ids) && Shown(v)
      modifies this`active, this`view, pool, slots
      ensures Inv({}) && view == Begin(Setup(), v, job) && Shown(view) && old(pool.asked) <= pool.asked
      ensures fresh(Requests(active) - old(Requests(active)))
    {
      hide Inv, LiveOk, Stands, PointsAt, AfterOk, Greedy, Next, Ends, Shown;
      InSlots({kv});
      var pts := StartSlot(job, kv, first, after, points, gone);
      StillShown(v);
      view := Begin(Setup(), v, job);
      if Ends(eos, job, job.ids + [first]) {
        OverUnseen(v, view);
      } else {
        RunJob(job, kv, first, pts, v);
      }
    }

    /** A request that goes on after its first token joins the running ones. */
    method RunJob(job: Job, kv: DeviceKv, first: Token, points: seq<Point>, ghost v: View)
      requires Inv({kv}) && JobOk(argmax, job) && Stands(m, kv.Value(), job.ids) && PointsAt(m, argmax, job.ids, points)
      requires first == Next(m, job.pick, |job.ids|, job.ids) && !Ends(eos, job, job.ids + [first])
      requires Shown(v) && view.filling == v.filling && view.sending == v.sending + [Sending(job, job.ids + [first])]
      modifies this`active
      ensures Inv({}) && Shown(view) && fresh(Requests(active) - old(Requests(active)))
    {
      hide Inv, LiveOk, Stands, PointsAt, JobOk, Next, SentAs, FilledAs;
      InSlots({kv});
      var a := new Active(kv, job.ids, first, job.max, job.pick, job.alive - 1);
      PoolStep({kv}, {kv});
      StillShown(v);
      var l := Live(job, a, points);
      StartsLive(m, argmax, eos, l, first);
      LiveSetPush(active, l);
      Joins(v, view, l);
      PushLive(l, {kv});
      assert {kv} - {kv} == {};
    }

    lemma OverUnseen(v: View, w: View)
      requires Shown(v) && w.filling == v.filling && w.sending == v.sending
      ensures Shown(w)
    {
    }

    /** What is seen with one more running request. */
    lemma Joins(v: View, w: View, l: Live)
      requires Shown(v) && w.filling == v.filling && w.sending == v.sending + [Sending(l.job, l.a.hist)]
      ensures FilledAs(prefilling, w.filling) && SentAs(active + [l], w.sending)
    {
    }

    lemma InSlots(out: set<DeviceKv>)
      requires Inv(out)
      ensures m.Valid() && pool.m == m && pool.argmax == argmax && maxChunk > 0 && wire.inflight == [] && wire.limit >= 1
      ensures pool.Sound() && out <= slots && pool.Kvs() <= slots && pool.Kvs() !! out
      ensures forall k :: k in slots ==> k.maxChunk == maxChunk
      ensures PreKvs(prefilling) <= slots && ActKvs(active) <= slots
    {
    }

    lemma ShownLengths(v: View)
      requires Shown(v)
      ensures |v.filling| == |prefilling| && |v.sending| == |active|
    {
    }

    /** What is seen after a prompt joins the line. */
    twostate lemma PushedShown(v: View, new w: View, new p: Prefilling)
      requires old(Shown(v)) && active == old(active) && prefilling == old(prefilling) + [p]
      requires forall a :: a in Requests(active) ==> unchanged(a)
      requires w.sending == v.sending && |w.filling| == |v.filling| + 1 && w.filling[..|v.filling|] == v.filling
      requires w.filling[|v.filling|].job == p.job && w.filling[|v.filling|].done == p.done
      ensures Shown(w)
    {
      forall i | 0 <= i < |active|
        ensures w.sending[i] == Sending(active[i].job, active[i].a.hist)
      {
        assert active[i].a in Requests(active);
        assert old(active[i].a.hist) == active[i].a.hist;
      }
    }

    /** What is seen after the prompt in front has left the line. */
    twostate lemma PoppedShown(v: View, new w: View)
      requires old(Shown(v)) && old(prefilling) != [] && active == old(active) && prefilling == old(prefilling)[1..]
      requires forall a :: a in Requests(active) ==> unchanged(a)
      requires v.filling != [] && w.sending == v.sending && w.filling == v.filling[1..]
      ensures Shown(w)
    {
      forall i | 0 <= i < |active|
        ensures w.sending[i] == Sending(active[i].job, active[i].a.hist)
      {
        assert active[i].a in Requests(active);
        assert old(active[i].a.hist) == active[i].a.hist;
      }
    }

    /** Admit a request to a slot. An exact resume gives the first token at once, or, where it has to
        be drawn and `draws` says that this fails, parks the request; otherwise the rest of the
        prompt is prefilled, if there is memory for that (`begun` is false if not). `taken` is false
        when the request was refused: then nothing has changed for the others, and every slot was
        in use or memory was refused on one of the questions asked here. */
    method AdmitJob(job: Job, gone: bool, draws: bool) returns (taken: bool, begun: bool, ghost did: Did)
      requires Whole() && JobOk(argmax, job)
      modifies this`active, this`prefilling, this`view, pool, slots
      ensures Whole() && Possible(Setup(), old(view), did) && view == Then(Setup(), old(view), did)
      ensures Arrival(did, job, draws, old(pool.asked), pool.asked)
      ensures (taken <==> !did.Refused?) && (begun <==> taken && !did.Denied?)
      ensures !taken ==> active == old(active) && prefilling == old(prefilling)
      ensures did.Refused? ==> old(pool.Kvs()) == {} || !pool.world.Generous(old(pool.asked), pool.asked)
      ensures did.Denied? ==> !pool.world.Generous(old(pool.asked), pool.asked)
      ensures fresh(Requests(active) - old(Requests(active)))
      ensures old(pool.asked) <= pool.asked
    {
      hide Inv, LiveOk, Stands, PointsAt, AfterOk, Next, Greedy, Shown, Lifecycle.Sound, Begin, Possible, Then;
      ghost var v, e := view, Setup();
      InSlots({});
      var r := AdmitSlot(job);
      if r.Refused? {
        did := Did.Refused(job, old(pool.asked), pool.asked);
        DoneRefused(e, v, job, old(pool.asked), pool.asked);
        return false, false, did;
      }
      InSlots({r.kv});
      var n := Resumed(r);
      taken, begun := true, true;
      if n == |job.ids| {
        assert job.ids[..n] == job.ids;
        did := Resume(job, r.kv, r.resume.value.1, r.points, gone, draws, v);
      } else {
        begun, did := BeginPrefill(job, r.kv, n, r.points, v, old(pool.asked));
      }
      StepKeeps(e, v, did);
    }

    /** A slot for a request, as the pool gives it. */
    method AdmitSlot(job: Job) returns (r: Admission)
      requires Inv({}) && Shown(view) && JobOk(argmax, job)
      modifies pool, slots
      ensures Inv(if r.Refused? then {} else {r.kv}) && Shown(view) && old(pool.asked) <= pool.asked
      ensures r.Refused? ==> (old(pool.Kvs()) == {} || !pool.world.Generous(old(pool.asked), pool.asked)) &&
                             (|view.filling| + |view.sending| >= |slots| || Tight(Setup(), old(pool.asked), pool.asked))
      ensures r.Admitted? ==>
        Resumed(r) <= |job.ids| && Stands(m, r.kv.Value(), job.ids[..Resumed(r)]) &&
        PointsAt(m, argmax, job.ids[..Resumed(r)], r.points) &&
        (r.resume.Some? && Resumed(r) == |job.ids| ==> AfterOk(m, argmax, r.resume.value.1, job.ids) && r.resume.value.1.Serves(job.sampled))
    {
      hide Inv, Stands, PointsAt, AfterOk, Greedy, Shown;
      InSlots({});
      AllTaken();
      var room := pool.Ask();
      label Asked:
      r := pool.Admit(job.ids, AdmitRows(job), job.sampled, room);
      PoolStep({}, if r.Refused? then {} else {r.kv});
      StillShown(view);
      if r.Refused? {
        if !pool.world.Generous(old@Asked(pool.asked), pool.asked) {
          Less(old(pool.asked), old@Asked(pool.asked), pool.asked);
          IsTight(old(pool.asked), pool.asked);
        }
      } else if Resumed(r) == |job.ids| {
        assert job.ids[..Resumed(r)] == job.ids;
      }
    }

    /** A request whose whole prompt was resumed: it starts with the token after the snapshot, or is
        parked where that token cannot be drawn. */
    method Resume(job: Job, kv: DeviceKv, after: After, points: seq<Point>, gone: bool, draws: bool, ghost v: View)
      returns (ghost did: Did)
      requires Inv({kv}) && JobOk(argmax, job) && Stands(m, kv.Value(), job.ids) && PointsAt(m, argmax, job.ids, points)
      requires AfterOk(m, argmax, after, job.ids) && after.Serves(job.sampled) && Shown(v)
      modifies this`active, this`view, pool, slots
      ensures Inv({}) && Shown(view) && did == (if job.sampled && !draws then Undrawn(job) else Started(job))
      ensures Possible(Setup(), v, did) && view == Then(Setup(), v, did) && old(pool.asked) <= pool.asked
      ensures fresh(Requests(active) - old(Requests(active)))
    {
      hide Inv, LiveOk, Stands, PointsAt, AfterOk, Next, Greedy, Shown, Begin, Possible, Then;
      InSlots({kv});
      if job.sampled && !draws {
        did := Undrawn(job);
        DoneUndrawn(Setup(), v, job);
        OverUnseen(v, Then(Setup(), v, did));
        ParkDrawn(job, kv, after, points, Then(Setup(), v, did));
      } else {
        did := Started(job);
        DoneStarted(Setup(), v, job);
        StartJob(job, kv, FirstOf(job, after), Some(after), points, gone, v);
      }
    }

    /** Park a request whose prompt is through but whose first token was not drawn; `w` is what is
        seen then. */
    method ParkDrawn(job: Job, kv: DeviceKv, after: After, points: seq<Point>, ghost w: View)
      requires Inv({kv}) && Stands(m, kv.Value(), job.ids) && PointsAt(m, argmax, job.ids, points)
      requires AfterOk(m, argmax, after, job.ids) && Shown(w)
      modifies this`view, pool, kv
      ensures Inv({}) && view == w && Shown(view) && old(pool.asked) <= pool.asked
    {
      hide Inv, Stands, PointsAt, AfterOk, Shown, ParkedAs, Pool.Sound;
      InSlots({kv});
      var room := pool.Ask();
      var n := |job.ids|;
      assert job.ids[..n] == job.ids;
      ghost var pts := pool.Park(kv, job.ids, n, Some(after), points, room);
      view := w;
      PoolStep({kv}, {});
      StillShown(w);
    }

    lemma Less(a: nat, b: nat, c: nat)
      requires a <= b <= c && !pool.world.Generous(b, c)
      ensures !pool.world.Generous(a, c)
    {
    }

    /** With no slot in the pool every slot is taken. */
    lemma AllTaken()
      requires Inv({}) && Shown(view)
      ensures pool.Kvs() == {} ==> |view.filling| + |view.sending| >= |slots|
    {
      if pool.Kvs() == {} {
        PreCount(prefilling);
        ActCount(active);
        assert slots == PreKvs(prefilling) + ActKvs(active);
        ShownLengths(view);
      }
    }

    /** The slot with its prefill working set, at the back of the prompts being prefilled; without
        memory for that the slot is given back and the request has failed. */
    method BeginPrefill(job: Job, kv: DeviceKv, n: nat, points: seq<Point>, ghost v: View, ghost from: nat)
      returns (begun: bool, ghost did: Did)
      requires Inv({kv}) && JobOk(argmax, job) && n < |job.ids| && Stands(m, kv.Value(), job.ids[..n])
      requires PointsAt(m, argmax, job.ids[..n], points) && Shown(v) && from <= pool.asked
      modifies this`prefilling, this`view, pool, kv
      ensures Inv({}) && did == (if begun then Joined(job, n) else Denied(job, from, pool.asked)) && old(pool.asked) <= pool.asked
      ensures Possible(Setup(), v, did) && view == Then(Setup(), v, did) && Shown(view)
      ensures did.Denied? ==> !pool.world.Generous(from, pool.asked)
    {
      hide Inv, LiveOk, Stands, PointsAt, JobOk, Shown, Possible, Then, Usable;
      InSlots({kv});
      begun := pool.Ask();
      if begun {
        ReserveSwaStands(m, kv.Value(), job.ids[..n]);
        kv.ReserveSwa();
        PoolStep({kv}, {kv});
        var p := Prefilling(job, kv, n, None, points);
        PushPre(p);
        did := Joined(job, n);
        DoneJoined(Setup(), v, job, n);
        PushedShown(v, Then(Setup(), v, did), p);
        view := Then(Setup(), v, did);
      } else {
        StandsUsable(m, kv.Value(), job.ids[..n]);
        pool.Release(kv);
        PoolStep({kv}, {});
        StillShown(v);
        pool.world.Hard(from, old(pool.asked), pool.asked);
        IsTight(from, pool.asked);
        did := Denied(job, from, pool.asked);
        DoneDenied(Setup(), v, job, from, pool.asked);
        view := Then(Setup(), v, did);
        OverUnseen(v, view);
      }
    }

    /** The first token after a snapshot of the whole prompt, without a forward: a sampled request
        draws it, which may fail before this is reached. */
    function FirstOf(job: Job, after: After): (first: Token)
      requires m.Valid() && JobOk(argmax, job) && AfterOk(m, argmax, after, job.ids) && after.Serves(job.sampled)
      ensures first == Next(m, job.pick, |job.ids|, job.ids)
    {
      hide Out;
      assert !job.sampled ==> job.pick(Out(m, job.ids, |job.ids| - 1), 0) == argmax(Out(m, job.ids, |job.ids| - 1));
      if job.sampled && after.logits.Some? then job.pick(after.logits.value, 0) else after.greedy.value
    }

    /** Forward the next `len` tokens of a prompt. */
    method ForwardSegment(p: Prefilling, len: nat, flash: bool) returns (r: Prefill.Forwarded)
      requires Inv({p.kv}) && PreOk(m, argmax, maxChunk, p) && 0 < len <= |p.job.ids| - p.done
      modifies p.kv, wire
      ensures Inv({p.kv}) && Usable(m, p.kv.Value()) && (r.EmptyLane? <==> EmptyLane(Setup(), len)) && (r.Last? || r.EmptyLane?)
      ensures r.Last? ==> Stands(m, p.kv.Value(), p.job.ids[..p.done + len]) && r.row == Out(m, p.job.ids[..p.done + len], p.done + len - 1)
    {
      hide Inv, LiveOk, Stands, PointsAt, JobOk, AfterOk, Out;
      InSlots({p.kv});
      var ids := p.job.ids;
      assert ids[..p.done] + ids[p.done..p.done + len] == ids[..p.done + len];
      r := Prefill.Forward(m, maxChunk, ids[p.done..p.done + len], p.kv, wire, flash, ids[..p.done]);
      StandsUsable(m, p.kv.Value(), ids[..p.done + len]);
      PoolStep({p.kv}, {p.kv});
    }

    /** What a forward up to `end` leaves for a snapshot there. */
    function AfterRow(end: nat, row: Hidden): After {
      After(Some(argmax(row)), if end >= MIN_RETAIN then Some(row) else None)
    }

    /** A prompt that is through, but whose first token was not drawn, is parked; `w` is what is seen
        then. */
    method ParkThrough(p: Prefilling, row: Hidden, ghost w: View)
      requires Inv({p.kv}) && m.Valid() && p.job.ids != [] && p.done <= |p.job.ids| && PointsAt(m, argmax, p.job.ids[..p.done], p.points)
      requires Stands(m, p.kv.Value(), p.job.ids) && row == Out(m, p.job.ids, |p.job.ids| - 1) && Shown(w)
      modifies this`view, pool, p.kv
      ensures Inv({}) && view == w && Shown(view)
      ensures old(pool.asked) <= pool.asked
    {
      hide Inv, Stands, PointsAt, Out, Shown;
      var ids := p.job.ids;
      assert ids[..|ids|] == ids;
      PointsGrow(ids, p.done, |ids|, p.points);
      ParkDrawn(p.job, p.kv, AfterRow(|ids|, row), p.points, w);
    }

    /** What follows a segment that reached `end`: the prompt goes to the back of the line with it
        done, or is through, and its first token is selected from the row the forward left. */
    method Advance(p: Prefilling, end: nat, row: Hidden, gone: bool, ghost v: View)
      requires Inv({p.kv}) && JobOk(argmax, p.job) && p.done < end <= |p.job.ids| && p.kv.maxChunk == maxChunk
      requires PointsAt(m, argmax, p.job.ids[..p.done], p.points) && m.Valid()
      requires Stands(m, p.kv.Value(), p.job.ids[..end]) && row == Out(m, p.job.ids[..end], end - 1)
      requires v.filling != [] && v.filling[0].job == p.job && Shown(v.(filling := v.filling[1..]))
      modifies this`active, this`prefilling, this`view, pool, slots
      ensures Inv({}) && Shown(view)
      ensures var rest := v.(filling := v.filling[1..]);
        view == if end < |p.job.ids| then rest.(filling := rest.filling + [v.filling[0].(done := end)]) else Begin(Setup(), rest, p.job)
      ensures fresh(Requests(active) - old(Requests(active)))
      ensures old(pool.asked) <= pool.asked
    {
      hide Inv, LiveOk, Stands, PointsAt, Out, PointAt, Shown, Begin, JobOk;
      InSlots({p.kv});
      var after := AfterRow(end, row);
      var ids := p.job.ids;
      ghost var rest := v.(filling := v.filling[1..]);
      PointsGrow(ids, p.done, end, p.points);
      if end < |ids| {
        var q := p.(done := end, after := Some(after));
        PushPre(q);
        ghost var w := rest.(filling := rest.filling + [v.filling[0].(done := end)]);
        PushedShown(rest, w, q);
        view := w;
      } else {
        assert ids[..end] == ids;
        FirstIs(p.job, row);
        var first := if p.job.sampled then p.job.pick(row, 0) else after.greedy.value;
        StartJob(p.job, p.kv, first, Some(after), p.points, gone, rest);
      }
    }

    /** The first token is selected after the last row of the prompt. */
    lemma FirstIs(job: Job, row: Hidden)
      requires m.Valid() && JobOk(argmax, job) && row == Out(m, job.ids, |job.ids| - 1)
      ensures (if job.sampled then job.pick(row, 0) else argmax(row)) == Next(m, job.pick, |job.ids|, job.ids)
    {
      hide Out;
    }

    lemma PointsGrow(ids: seq<Token>, a: nat, b: nat, points: seq<Point>)
      requires a <= b <= |ids| && PointsAt(m, argmax, ids[..a], points)
      ensures PointsAt(m, argmax, ids[..b], points)
    {
      assert ids[..a][..a] == ids[..b][..a];
      forall i | 0 <= i < |points|
        ensures points[i].len <= a
      {
        assert PointAt(m, argmax, ids[..a], points[i]);
      }
      PointsMove(m, argmax, ids[..a], ids[..b], a, points);
    }

    /** Prefill one segment of the prompt at the front: it goes to the back of the line with more
        done, or starts decoding when it is through. A forward that fails gives the slot back,
        whatever rows it left there; where the first token cannot be drawn the slot is parked;
        either way the request has failed. */
    method PrefillOne(len: nat, flash: bool, fails: Option<nat -> seq<Row>>, gone: bool, draws: bool) returns (ghost did: Did)
      requires Whole() && prefilling != [] && len > 0
      modifies this`active, this`prefilling, this`view, pool, wire, slots
      ensures Whole() && Possible(Setup(), old(view), did) && view == Then(Setup(), old(view), did)
      ensures did == if SegmentFails(Setup(), old(view), len, fails.Some?, draws) then Broke else Advanced(len)
      ensures fresh(Requests(active) - old(Requests(active)))
      ensures old(pool.asked) <= pool.asked
    {
      hide Inv, PreOk, LiveOk, Stands, PointsAt, AfterOk, Next, JobOk, Shown, Lifecycle.Sound, Begin, Possible, Then, Usable, Out, EmptyLane, Setup;
      SetupIs();
      InSlots({});
      ghost var v, e := view, Setup();
      var p := TakeFront(v);
      ghost var rest := v.(filling := v.filling[1..]);
      InSlots({p.kv});
      PreParts(p);
      var end := Min(p.done + len, |p.job.ids|);
      var r := ForwardFront(p, end - p.done, flash, fails, rest);
      if r.Last? && (end < |p.job.ids| || !p.job.sampled || draws) {
        did := Advanced(len);
        DoneAdvanced(e, v, len);
        Advance(p, end, r.row, gone, v);
      } else {
        did := Broke;
        DoneGivenUp(e, v, did);
        OverUnseen(rest, Then(e, v, did));
        if r.Last? {
          assert p.job.ids[..end] == p.job.ids;
          ParkThrough(p, r.row, Then(e, v, did));
        } else {
          GiveBack(p.kv, Then(e, v, did));
        }
      }
      StepKeeps(e, v, did);
    }

    /** The forward of a segment, which may fail and leave any rows. */
    method ForwardFront(p: Prefilling, len: nat, flash: bool, fails: Option<nat -> seq<Row>>, ghost v: View)
      returns (r: Prefill.Forwarded)
      requires Inv({p.kv}) && PreOk(m, argmax, maxChunk, p) && 0 < len <= |p.job.ids| - p.done && Shown(v)
      modifies p.kv, wire
      ensures Inv({p.kv}) && Usable(m, p.kv.Value()) && Shown(v) && p.kv.maxChunk == maxChunk
      ensures r.Last? <==> fails.None? && !EmptyLane(Setup(), len)
      ensures r.Last? ==> Stands(m, p.kv.Value(), p.job.ids[..p.done + len]) && r.row == Out(m, p.job.ids[..p.done + len], p.done + len - 1)
    {
      hide Inv, Stands, PointsAt, JobOk, AfterOk, Out, Usable, Shown;
      PreParts(p);
      if fails.Some? {
        InSlots({p.kv});
        PreUsable(p);
        Wreck(m, p.kv, fails.value);
        PoolStep({p.kv}, {p.kv});
        r := Prefill.NoTokens;
      } else {
        r := ForwardSegment(p, len, flash);
      }
      StillShown(v);
    }

    /** Give a slot that a failed forward left back; `v` is what is seen then. */
    method GiveBack(kv: DeviceKv, ghost v: View)
      requires Inv({kv}) && Usable(m, kv.Value()) && Shown(v)
      modifies this`view, pool, kv
      ensures Inv({}) && view == v && Shown(view)
      ensures pool.asked == old(pool.asked)
    {
      hide Inv, Usable, Shown;
      InSlots({kv});
      ClearedUsable(m, kv.Value());
      kv.Reset();
      pool.Undisturbed();
      pool.Release(kv);
      view := v;
      PoolStep({kv}, {});
      StillShown(v);
    }

    lemma InFront(v: View)
      requires Whole() && v == view && prefilling != []
      ensures v.filling != [] && v.filling[0].job == prefilling[0].job && v.filling[0].done == prefilling[0].done
      ensures JobOk(argmax, v.filling[0].job)
    {
      hide Inv, JobOk, SentAs, SendingOk, OverOk;
      assert FillingOk(Setup(), v.filling[0]);
    }

    lemma PreParts(p: Prefilling)
      requires PreOk(m, argmax, maxChunk, p)
      ensures p.done < |p.job.ids| && JobOk(argmax, p.job) && PointsAt(m, argmax, p.job.ids[..p.done], p.points)
      ensures p.kv.maxChunk == maxChunk
    {
    }

    lemma PreUsable(p: Prefilling)
      requires PreOk(m, argmax, maxChunk, p)
      ensures Usable(m, p.kv.Value())
    {
      StandsUsable(m, p.kv.Value(), p.job.ids[..p.done]);
    }

    /** The client of the prompt at the front is gone: what is done of it is parked. */
    method ParkFront() returns (ghost did: Did)
      requires Whole() && prefilling != []
      modifies this`prefilling, this`view, pool, slots
      ensures Whole() && did == Left && Possible(Setup(), old(view), did) && view == Then(Setup(), old(view), did)
      ensures old(pool.asked) <= pool.asked
    {
      hide Inv, PreOk, Shown, Lifecycle.Sound, Possible, Then, JobOk;
      InSlots({});
      ghost var v, e := view, Setup();
      var p := TakeFront(v);
      did := Left;
      DoneGivenUp(e, v, did);
      OverUnseen(v.(filling := v.filling[1..]), Then(e, v, did));
      ParkIt(p, Then(e, v, did));
      StepKeeps(e, v, did);
    }

    /** Take the prompt in front out of the line. */
    method TakeFront(ghost v: View) returns (p: Prefilling)
      requires Whole() && v == view && prefilling != []
      modifies this`prefilling
      ensures p == old(prefilling)[0] && prefilling == old(prefilling)[1..] && p.kv in slots
      ensures Inv({p.kv}) && PreOk(m, argmax, maxChunk, p)
      ensures v.filling != [] && v.filling[0].job == p.job && v.filling[0].done == p.done && JobOk(argmax, p.job)
      ensures Shown(v.(filling := v.filling[1..]))
    {
      hide Inv, PreOk, Shown, JobOk, Lifecycle.Sound;
      InFront(v);
      p := PopPre();
      PoppedShown(v, v.(filling := v.filling[1..]));
      InSlots({p.kv});
    }

    /** Park a prompt; `v` is what is seen then. */
    method ParkIt(p: Prefilling, ghost v: View)
      requires Inv({p.kv}) && PreOk(m, argmax, maxChunk, p) && Shown(v)
      modifies this`view, pool, p.kv
      ensures Inv({}) && view == v && Shown(view)
      ensures old(pool.asked) <= pool.asked
    {
      hide Inv, LiveOk, Stands, PointsAt, AfterOk, JobOk, Shown, ParkedAs, Pool.Sound;
      InSlots({p.kv});
      var room := pool.Ask();
      ghost var pts := pool.Park(p.kv, p.job.ids, p.done, p.after, p.points, room);
      view := v;
      PoolStep({p.kv}, {});
      StillShown(v);
    }

    /** Take every running request out for a round. */
    method Drain() returns (todo: seq<Live>)
      requires Inv({})
      modifies this`active
      ensures todo == old(active) && active == [] && Inv(ActKvs(todo)) && DistinctLive(todo)
      ensures forall i :: 0 <= i < |todo| ==> LiveOk(m, argmax, eos, todo[i])
    {
      hide PreOk, LiveOk, Pool.Sound;
      todo := active;
      active := [];
      assert ActKvs(active) == {} && Requests(active) == {};
    }

    /** Retire one request of the round that ended, or put it back. */
    method Settle(l: Live, done: bool, gone: bool, ghost out: set<DeviceKv>)
      requires Inv(out) && l.a.kv in out && l.a !in Requests(active) && Rolled(m, argmax, eos, l, done)
      modifies this`active, pool, l.a.kv
      ensures Inv(out - {l.a.kv}) && active == if done then old(active) else old(active) + [l]
      ensures old(pool.asked) <= pool.asked
    {
      hide Inv, LiveOk, Stands, CutStands, PointsAt, PointAt, IsHit;
      InSlots(out);
      if done {
        RetireOne(l, gone, out);
      } else {
        PushLive(l, out);
      }
    }

    /** Retire a request that has ended. */
    method RetireOne(l: Live, gone: bool, ghost out: set<DeviceKv>)
      requires Inv(out) && l.a.kv in out && Rolled(m, argmax, eos, l, true)
      modifies pool, l.a.kv
      ensures Inv(out - {l.a.kv})
      ensures old(pool.asked) <= pool.asked
    {
      hide Inv, LiveOk, Stands, CutStands, PointsAt, PointAt, IsHit;
      InSlots(out);
      RolledDone(m, argmax, eos, l);
      var room := pool.Ask();
      ghost var hit, pts := pool.Retire(l.a.kv, l.a.hist, l.points, l.job.sampled, gone, room);
      PoolStep(out, out - {l.a.kv});
    }

    /** The cache of a request that runs alone. */
    ghost function Alone(): Option<Kv>
      reads this`active, ActKvs(active)
    {
      if |active| == 1 then (assert active[0].a.kv in ActKvs(active); Some(active[0].a.kv.Value())) else None
    }

    /** One speculative round of every running request, in one verify lane or in two. The proposals
        are anything at all. A round fails when the pass does, when its blocks exceed the lanes, or
        when a split block cannot be cut back; then every running request has failed. Where the
        split of a lone block cost the window, the request is `bad`: what it was sent is still what
        one-token decoding sends, and every other slot is as it should be, but its own is of no
        further use. */
    method DecodeRound(drafts: nat -> Draft, two: bool, fails: Option<(nat, nat) -> seq<Row>>, gone: nat -> bool)
      returns (bad: Option<Active>, ghost did: Did)
      requires Whole() && active != [] && forall i :: drafts(i).Valid()
      modifies this`active, this`view, pool, wire, slots, Requests(active)
      ensures Possible(Setup(), old(view), did) && view == Then(Setup(), old(view), did)
      ensures WholeBut(bad) && (did.Went? || did.Stopped?)
      ensures bad.Some? ==> old(active) != [] && bad.value == old(active)[0].a && did == Went([bad.value.hist]) &&
                            CostsAlone(m, two && wire.limit >= 2, old(view).sending, old(Alone()), bad.value.hist)
      ensures did.Stopped? ==> fails.Some? || DFLASH_BLOCK * |old(view).sending| > maxChunk ||
                               CutsNothing(m, two && wire.limit >= 2, old(view).sending, old(Alone()))
      ensures did.Went? ==> fails.None?
      ensures Requests(active) <= old(Requests(active))
      ensures old(pool.asked) <= pool.asked
    {
      hide Inv, LiveOk, SentAs, Lifecycle.Sound, Possible, Then, Staying, Ending, RolledTo, JobOk, Alone, Costs, Broken;
      ghost var v, e := view, Setup();
      ShownLengths(v);
      AllJobsOk(v);
      InSlots({});
      var ok, lost;
      ghost var hists;
      var first := active[0].a;
      ok, lost, hists := RoundOut(drafts, two && wire.limit >= 2, fails, gone, v.sending);
      if ok {
        did := Went(hists);
        DoneRolled(e, v, hists);
      } else {
        did := Stopped;
        DoneStopped(e, v);
      }
      view := Then(e, v, did);
      StepKeeps(e, v, did);
      bad := if lost then Some(first) else None;
    }

    /** Everything is as it should be, but for the request that lost its window, which is out. */
    ghost predicate WholeBut(bad: Option<Active>)
      reads this, pool, wire, slots, Requests(active), TheBad(bad)
    {
      if bad.None? then Whole() else Inv({bad.value.kv}) && Lifecycle.Sound(Setup(), view) && Broken(bad.value)
    }

    function TheBad(bad: Option<Active>): set<object> {
      if bad.Some? then {bad.value, bad.value.kv} else {}
    }

    /** The cache cannot be cut back to what was sent. */
    ghost predicate Broken(a: Active)
      reads a, a.kv
    {
      a.hist != [] && !CutStands(m, a.kv.Value(), a.hist, |a.hist| - 1)
    }

    /** A round with the running requests taken out, and what is left of them put back. */
    method RoundOut(drafts: nat -> Draft, two: bool, fails: Option<(nat, nat) -> seq<Row>>, gone: nat -> bool, ghost ss: seq<Sending>)
      returns (ok: bool, lost: bool, ghost hists: seq<seq<Token>>)
      requires Inv({}) && active != [] && SentAs(active, ss) && forall i :: drafts(i).Valid()
      requires two ==> wire.limit >= 2
      modifies this`active, pool, wire, slots, Requests(active)
      ensures |ss| == |old(active)|
      ensures !ok ==> fails.Some? || DFLASH_BLOCK * |ss| > maxChunk || CutsNothing(m, two, ss, old(Alone()))
      ensures ok ==> fails.None? && |hists| == |ss| && m.Valid() &&
                     forall i :: 0 <= i < |ss| ==> JobOk(argmax, ss[i].job) && RolledTo(Setup(), ss[i], hists[i])
      ensures !lost ==> Inv({}) && SentAs(active, if ok then Staying(eos, ss, hists) else [])
      ensures lost ==> ok && Inv({old(active)[0].a.kv}) && Broken(old(active)[0].a) && hists == [old(active)[0].a.hist] &&
                       CostsAlone(m, two, ss, old(Alone()), hists[0])
      ensures Requests(active) <= old(Requests(active))
      ensures old(pool.asked) <= pool.asked
    {
      hide Inv, LiveOk, Goes, Forth, SentAs, Staying, Costs, RolledTo, Usable, Greedy, Broken;
      SentLength(active, ss);
      var todo := Drain();
      StillSent(todo, ss);
      InSlots(ActKvs(todo));
      ok, lost := fails.None?, false;
      hists := [];
      if ok {
        var done;
        ok, lost, done, hists := RoundAll(todo, drafts, two, ss);
        if ok {
          ForthAll(ss, hists);
          if lost {
            OneOut(todo);
          } else {
            SettleEach(todo, done, gone, ss, hists);
          }
          return;
        }
      } else {
        WreckAll(todo, fails.value);
      }
      ReleaseEach(todo);
      NoneSent();
    }

    lemma OneOut(todo: seq<Live>)
      requires |todo| == 1
      ensures ActKvs(todo) == {todo[0].a.kv}
    {
    }

    /** A running request that a round takes to the history `h`. */
    ghost predicate Forth(s: Sending, h: seq<Token>) {
      m.Valid() && JobOk(argmax, s.job) && RolledTo(Setup(), s, h)
    }

    lemma ForthAll(ss: seq<Sending>, hists: seq<seq<Token>>)
      requires m.Valid() && |hists| == |ss| && forall i :: 0 <= i < |ss| ==> Forth(ss[i], hists[i])
      ensures forall i :: 0 <= i < |ss| ==> JobOk(argmax, ss[i].job) && RolledTo(Setup(), ss[i], hists[i])
    {
      hide Greedy, RolledTo;
      forall i | 0 <= i < |ss|
        ensures JobOk(argmax, ss[i].job) && RolledTo(Setup(), ss[i], hists[i])
      {
        assert Forth(ss[i], hists[i]);
      }
    }

    lemma SentLength(ls: seq<Live>, ss: seq<Sending>)
      requires SentAs(ls, ss)
      ensures |ls| == |ss|
    {
    }

    lemma AllJobsOk(v: View)
      requires Whole() && v == view
      ensures forall i :: 0 <= i < |active| ==> JobOk(argmax, v.sending[i].job)
    {
      hide Inv, JobOk, SentAs, OverOk, FillingOk;
      ShownLengths(v);
      forall i | 0 <= i < |active|
        ensures JobOk(argmax, v.sending[i].job)
      {
        assert SendingOk(Setup(), v.sending[i]);
      }
    }

    lemma NoneSent()
      ensures SentAs([], [])
    {
    }

    /** A pass that failed part way: the caches are left with any rows. */
    method WreckAll(todo: seq<Live>, rows: (nat, nat) -> seq<Row>)
      requires Inv(ActKvs(todo)) && active == [] && DistinctLive(todo)
      requires forall i :: 0 <= i < |todo| ==> LiveOk(m, argmax, eos, todo[i])
      modifies ActKvs(todo)
      ensures Inv(ActKvs(todo)) && forall i :: 0 <= i < |todo| ==> Usable(m, todo[i].a.kv.Value())
    {
      hide Inv, Usable, Stands, PointsAt, JobOk, DecodeRun;
      InSlots(ActKvs(todo));
      forall i | 0 <= i < |todo|
        ensures Usable(m, todo[i].a.kv.Value())
      {
        assert LiveOk(m, argmax, eos, todo[i]);
        StandsUsable(m, todo[i].a.kv.Value(), todo[i].a.hist[..|todo[i].a.hist| - 1]);
      }
      hide LiveOk;
      var i := 0;
      while i < |todo|
        invariant i <= |todo| && forall j :: 0 <= j < |todo| ==> Usable(m, todo[j].a.kv.Value())
        modifies ActKvs(todo)
      {
        Wreck(m, todo[i].a.kv, (l: nat) => rows(i, l));
        i := i + 1;
      }
      PoolStep(ActKvs(todo), ActKvs(todo));
    }

    /** Give the slots of a round that failed back. */
    method ReleaseEach(todo: seq<Live>)
      requires Inv(ActKvs(todo)) && active == [] && DistinctLive(todo)
      requires forall i :: 0 <= i < |todo| ==> Usable(m, todo[i].a.kv.Value())
      modifies pool, ActKvs(todo)
      ensures Inv({})
      ensures pool.asked == old(pool.asked)
    {
      hide Inv, Usable;
      var i := 0;
      FromAll(todo);
      while i < |todo|
        invariant i <= |todo| && Inv(KvsFrom(todo, i)) && active == [] && pool.asked == old(pool.asked)
        invariant forall j :: i <= j < |todo| ==> Usable(m, todo[j].a.kv.Value())
      {
        ReleaseNext(todo, i);
        i := i + 1;
      }
    }

    method ReleaseNext(todo: seq<Live>, i: nat)
      requires i < |todo| && DistinctLive(todo) && Inv(KvsFrom(todo, i))
      requires forall j :: i <= j < |todo| ==> Usable(m, todo[j].a.kv.Value())
      modifies pool, todo[i].a.kv
      ensures Inv(KvsFrom(todo, i + 1))
      ensures forall j :: i < j < |todo| ==> Usable(m, todo[j].a.kv.Value())
      ensures pool.asked == old(pool.asked)
    {
      hide Inv, Usable, Pool.Sound, Stands;
      NextOut(todo, i);
      InSlots(KvsFrom(todo, i));
      pool.Release(todo[i].a.kv);
      PoolStep(KvsFrom(todo, i), KvsFrom(todo, i + 1));
    }

    /** What is seen of running requests does not change where they do not. */
    twostate lemma StillSent(ls: seq<Live>, new ss: seq<Sending>)
      requires old(SentAs(ls, ss)) && forall a :: a in Requests(ls) ==> unchanged(a)
      ensures SentAs(ls, ss)
    {
      forall i | 0 <= i < |ls|
        ensures ss[i] == Sending(ls[i].job, ls[i].a.hist)
      {
        assert ls[i].a in Requests(ls);
        assert old(ls[i].a.hist) == ls[i].a.hist;
      }
    }

    /** Retire the requests of a round that ended and put the others back, in order. */
    method SettleEach(todo: seq<Live>, done: seq<bool>, gone: nat -> bool, ghost ss: seq<Sending>, ghost hists: seq<seq<Token>>)
      requires Inv(ActKvs(todo)) && active == [] && |done| == |todo| == |ss| == |hists| && DistinctLive(todo)
      requires forall j :: 0 <= j < |todo| ==> Goes(todo[j], done[j], ss[j], hists[j])
      modifies this`active, pool, ActKvs(todo)
      ensures Inv({}) && SentAs(active, Staying(eos, ss, hists)) && Requests(active) <= Requests(todo)
      ensures old(pool.asked) <= pool.asked
    {
      hide Inv, Goes, SentAs, Staying;
      var i := 0;
      FromAll(todo);
      NoneSent();
      StayingNone(eos, ss, hists);
      while i < |todo|
        invariant i <= |todo| && Inv(KvsFrom(todo, i)) && old(pool.asked) <= pool.asked
        invariant SentAs(active, Staying(eos, ss[..i], hists[..i]))
        invariant forall j :: 0 <= j < |active| ==> active[j] in todo[..i]
        invariant forall j :: i <= j < |todo| ==> Goes(todo[j], done[j], ss[j], hists[j])
      {
        SettleNext(todo, i, done, gone(i), ss, hists);
        i := i + 1;
      }
      assert ss[..|ss|] == ss && hists[..|ss|] == hists;
    }

    method SettleNext(todo: seq<Live>, i: nat, done: seq<bool>, gone: bool, ghost ss: seq<Sending>, ghost hists: seq<seq<Token>>)
      requires i < |done| == |todo| == |ss| == |hists| && DistinctLive(todo) && Inv(KvsFrom(todo, i))
      requires SentAs(active, Staying(eos, ss[..i], hists[..i]))
      requires forall j :: 0 <= j < |active| ==> active[j] in todo[..i]
      requires forall j :: i <= j < |todo| ==> Goes(todo[j], done[j], ss[j], hists[j])
      modifies this`active, pool, todo[i].a.kv
      ensures Inv(KvsFrom(todo, i + 1)) && SentAs(active, Staying(eos, ss[..i + 1], hists[..i + 1]))
      ensures forall j :: 0 <= j < |active| ==> active[j] in todo[..i + 1]
      ensures forall j :: i < j < |todo| ==> Goes(todo[j], done[j], ss[j], hists[j])
      ensures old(pool.asked) <= pool.asked
    {
      hide Inv, Goes, Rolled, SentAs, Ends, Staying, KvsFrom, DistinctLive, Pool.Sound, Forth, Setup;
      NextOut(todo, i);
      InSlots(KvsFrom(todo, i));
      NotYet(todo, i);
      StayingStep(eos, ss, hists, i);
      GoesSo(todo[i], done[i], ss[i], hists[i]);
      SettleShown(todo[i], done[i], gone, KvsFrom(todo, i), Staying(eos, ss[..i], hists[..i]));
      assert todo[..i + 1] == todo[..i] + [todo[i]];
    }

    /** Settle one request, with what is seen of the running ones before. */
    method SettleShown(l: Live, done: bool, gone: bool, ghost out: set<DeviceKv>, ghost ss: seq<Sending>)
      requires Inv(out) && l.a.kv in out && l.a !in Requests(active) && Rolled(m, argmax, eos, l, done) && SentAs(active, ss)
      modifies this`active, pool, l.a.kv
      ensures Inv(out - {l.a.kv}) && active == if done then old(active) else old(active) + [l]
      ensures SentAs(active, if done then ss else ss + [Sending(l.job, l.a.hist)])
      ensures old(pool.asked) <= pool.asked
    {
      hide Inv, Rolled, SentAs, Pool.Sound;
      ghost var was := active;
      Settle(l, done, gone, out);
      StillSent(was, ss);
      SentMore(was, ss, l);
    }

    lemma GoesSo(l: Live, done: bool, s: Sending, h: seq<Token>)
      requires Goes(l, done, s, h)
      ensures Rolled(m, argmax, eos, l, done) && h == l.a.hist && s.job == l.job && (done <==> Ends(eos, s.job, h))
    {
    }

    lemma SentMore(ls: seq<Live>, ss: seq<Sending>, l: Live)
      requires SentAs(ls, ss)
      ensures SentAs(ls + [l], ss + [Sending(l.job, l.a.hist)])
    {
    }

    lemma NotYet(todo: seq<Live>, i: nat)
      requires i < |todo| && DistinctLive(todo) && forall j :: 0 <= j < |active| ==> active[j] in todo[..i]
      ensures todo[i].a !in Requests(active)
    {
    }

    /** The round itself, of requests that are out. */
    method RoundAll(todo: seq<Live>, drafts: nat -> Draft, two: bool, ghost ss: seq<Sending>)
      returns (ok: bool, lost: bool, done: seq<bool>, ghost hists: seq<seq<Token>>)
      requires Inv(ActKvs(todo)) && active == [] && todo != [] && DistinctLive(todo) && SentAs(todo, ss)
      requires forall i :: 0 <= i < |todo| ==> LiveOk(m, argmax, eos, todo[i])
      requires forall i :: drafts(i).Valid()
      requires two ==> wire.limit >= 2
      modifies wire, ActKvs(todo), Requests(todo)
      ensures Inv(ActKvs(todo)) && |ss| == |todo|
      ensures !ok ==> DFLASH_BLOCK * |todo| > maxChunk || CutsNothing(m, two, ss, Some(old(todo[0].a.kv.Value())))
      ensures !ok ==> !lost && forall i :: 0 <= i < |todo| ==> Usable(m, todo[i].a.kv.Value())
      ensures ok ==> |done| == |todo| == |hists| && forall i :: 0 <= i < |todo| ==> Forth(ss[i], hists[i])
      ensures ok && !lost ==> forall i :: 0 <= i < |todo| ==> Goes(todo[i], done[i], ss[i], hists[i])
      ensures lost ==> ok && hists == [todo[0].a.hist] && CostsAlone(m, two, ss, Some(old(todo[0].a.kv.Value())), hists[0]) &&
                       Broken(todo[0].a)
    {
      hide Inv, Stands, CutStands, PointAt, RoundOf, DecodeRun, WindowKept, Admissible, Usable, SplitFits, Goes, Forth, SentAs, LiveOk, Active.Ok, Costs, Broken, Remains, Splits, Separate;
      InSlots(ActKvs(todo));
      var acts := Acts(todo);
      ActsSets(todo);
      LiveReady(todo);
      FirstFacts(todo, ss);
      ghost var before := KvValues(acts);
      ghost var was := seq(|acts|, i requires 0 <= i < |acts| reads acts => acts[i].hist);
      ghost var alive := seq(|acts|, i requires 0 <= i < |acts| reads acts => acts[i].alive);
      var first, n := todo[0].a.kv.Value(), |todo[0].a.hist|;
      ghost var budget := |ss[0].job.ids| + ss[0].job.max;
      var lens;
      ok, done, lens := Round(m, acts, seq(|todo|, i requires 0 <= i < |todo| => drafts(i)), wire, two, maxChunk, eos, before, was, alive);
      PoolStep(ActKvs(todo), ActKvs(todo));
      hists := seq(|acts|, i requires 0 <= i < |acts| reads acts => acts[i].hist);
      lost := false;
      if !ok {
        RoundStops(m, lens, two, maxChunk, before, was[0], budget);
        return;
      }
      forall i | 0 <= i < |todo|
        ensures Remains(todo[i], done[i], ss[i], hists[i], was[i], before[i], lens[i], Splits(lens, two))
      {
        Leaves(todo, ss, i, before[i], lens[i], Splits(lens, two), done[i]);
      }
      lost := Loss(todo, done, lens, two, first, n, ss, hists, was, before, budget);
    }

    /** What a round leaves of one request: it has gone forth, and if its window was kept its slot can
        be cut back to that. */
    ghost predicate Remains(l: Live, done: bool, s: Sending, h: seq<Token>, was: seq<Token>, before: Kv, t: nat, split: bool)
      reads l.a, l.a.kv
    {
      && Forth(s, h) && before.Valid() && was < h && |h| <= |was| + t
      && if WindowKept(m, before, t, split, |h| - |was|) then Goes(l, done, s, h) else Broken(l.a)
    }

    /** Whether the split of a lone block cost the window. */
    method Loss(todo: seq<Live>, done: seq<bool>, lens: seq<nat>, two: bool, first: Kv, n: nat, ghost ss: seq<Sending>,
                ghost hists: seq<seq<Token>>, ghost was: seq<seq<Token>>, ghost before: seq<Kv>, ghost budget: nat)
      returns (lost: bool)
      requires 1 <= |todo| == |done| == |lens| == |ss| == |hists| == |was| == |before|
      requires first == before[0] && n == |was[0]| && hists[0] == todo[0].a.hist && forall i :: 0 <= i < |lens| ==> lens[i] <= DFLASH_BLOCK
      requires was[0] != [] && Stands(m, first, was[0][..n - 1]) && n + lens[0] <= budget
      requires forall i :: 0 <= i < |todo| ==> Remains(todo[i], done[i], ss[i], hists[i], was[i], before[i], lens[i], Splits(lens, two))
      ensures forall i :: 0 <= i < |todo| ==> Forth(ss[i], hists[i])
      ensures !lost ==> forall i :: 0 <= i < |todo| ==> Goes(todo[i], done[i], ss[i], hists[i])
      ensures lost ==> |todo| == 1 && two && Costs(m, first, was[0], hists[0], budget) && Broken(todo[0].a)
    {
      hide Goes, Forth, Broken, Costs, WindowKept, Stands;
      assert Remains(todo[0], done[0], ss[0], hists[0], was[0], before[0], lens[0], Splits(lens, two));
      lost := Splits(lens, two) && !WindowKept(m, first, lens[0], true, |todo[0].a.hist| - n);
      if lost {
        CostsSo(m, first, was[0], hists[0], budget, lens[0]);
      } else {
        forall i | 0 <= i < |todo|
          ensures Goes(todo[i], done[i], ss[i], hists[i])
        {
          assert Remains(todo[i], done[i], ss[i], hists[i], was[i], before[i], lens[i], Splits(lens, two));
          NotSplit(m, before[i], lens[i], |hists[i]| - |was[i]|);
        }
      }
    }

    /** A request a round has taken from `s` to the history `h`. */
    ghost predicate Goes(l: Live, done: bool, s: Sending, h: seq<Token>)
      reads l.a, l.a.kv
    {
      Rolled(m, argmax, eos, l, done) && h == l.a.hist && s.job == l.job && Forth(s, h) && (done <==> Ends(eos, s.job, h))
    }

    lemma LiveReady(todo: seq<Live>)
      requires forall i :: 0 <= i < |todo| ==> LiveOk(m, argmax, eos, todo[i])
      ensures forall i :: 0 <= i < |todo| ==> todo[i].a.Ok(m) && todo[i].a.kv.Value().Valid()
    {
      hide DecodeRun, JobOk, PointsAt;
      forall i | 0 <= i < |todo|
        ensures todo[i].a.Ok(m) && todo[i].a.kv.Value().Valid()
      {
        assert LiveOk(m, argmax, eos, todo[i]);
      }
    }

    lemma FirstFacts(todo: seq<Live>, ss: seq<Sending>)
      requires todo != [] && LiveOk(m, argmax, eos, todo[0]) && SentAs(todo, ss)
      ensures |ss| == |todo| && var a, s := todo[0].a, ss[0];
        s.hist == a.hist && a.hist != [] && Stands(m, a.kv.Value(), a.hist[..|a.hist| - 1]) &&
        |s.job.ids| + s.job.max == a.plen + a.max
    {
      hide DecodeRun, PointsAt, Stands, JobOk;
    }

    /** What a round leaves of one request. */
    twostate lemma Leaves(todo: seq<Live>, new ss: seq<Sending>, new i: nat, new before: Kv, new t: nat, new split: bool, new done: bool)
      requires i < |todo| && old(LiveOk(m, argmax, eos, todo[i])) && old(SentAs(todo, ss)) && 1 <= t <= DFLASH_BLOCK
      requires RoundOf(m, todo[i].a, old(todo[i].a.hist), old(todo[i].a.alive), before, t, split, eos, done)
      ensures |ss| == |todo| && Remains(todo[i], done, ss[i], todo[i].a.hist, old(todo[i].a.hist), before, t, split)
    {
      hide RoundOf, DecodeRun, Stands, CutStands, PointsAt, Greedy, WindowKept, Rolled, RolledTo, Ends;
      RoundFacts(m, todo[i].a, old(todo[i].a.hist), old(todo[i].a.alive), before, t, split, eos, done);
      RoundRolls(m, argmax, eos, todo[i], old(todo[i].a.hist), old(todo[i].a.alive), before, t, split, done, Setup());
    }

    /** Bring the device banks within their limits; running requests may lose points to RAM. */
    method LimitBanks()
      requires Whole()
      modifies this`active, pool, slots
      ensures Whole() && Requests(active) == old(Requests(active))
      ensures forall k: SnapKind :: Banks.All(Owners(active), k) + Banks.All(pool.retained, k) <= pool.bank
      ensures old(pool.asked) <= pool.asked
    {
      hide Inv, Holding, Stands, PointsAt, Banks.All, Pool.Sound, Banks.UsedBefore, Banks.LeftToRam, Covers, SentAs, Lifecycle.Sound;
      InSlots({});
      var owners := Owners(active);
      OwnersRunning(owners);
      var out := Banks.EnforceBanks(pool, owners);
      PoolStep({}, {});
      StillSent(active, view.sending);
      var now := active;
      var live := seq(|now|, i requires 0 <= i < |now| && |out| == |now| => now[i].(points := out[i].points));
      assert Owners(active) == owners;
      assert forall i :: 0 <= i < |out| ==> out[i] == owners[i].(points := out[i].points) && live[i] == active[i].(points := out[i].points);
      assert Owners(live) == out;
      SentSame(active, live, view.sending);
      Relabel(live, owners, out);
    }

    lemma SentSame(a: seq<Live>, b: seq<Live>, ss: seq<Sending>)
      requires SentAs(a, ss) && |a| == |b| && forall i :: 0 <= i < |a| ==> a[i].job == b[i].job && a[i].a == b[i].a
      ensures SentAs(b, ss)
    {
    }

    /** The running requests as owners of points. */
    function Owners(ls: seq<Live>): (r: seq<Retained>)
      reads Requests(ls)
      ensures |r| == |ls| && forall i :: 0 <= i < |r| ==> r[i] == Retained(ls[i].a.kv, ls[i].a.hist, ls[i].points)
    {
      seq(|ls|, i requires 0 <= i < |ls| reads Requests(ls) => assert ls[i].a in Requests(ls);
        Retained(ls[i].a.kv, ls[i].a.hist, ls[i].points))
    }

    lemma OwnersRunning(owners: seq<Retained>)
      requires Inv({}) && owners == Owners(active)
      ensures Banks.Running(pool, owners)
    {
      hide Stands, PointsAt, DecodeRun, JobOk, Holding, Pool.Sound;
      forall i | 0 <= i < |owners|
        ensures owners[i].kv !in pool.Kvs()
        ensures Holding(m, argmax, owners[i].kv.Value(), owners[i].hist, owners[i].points)
      {
        var l := active[i];
        assert LiveOk(m, argmax, eos, l) && l.a.kv in ActKvs(active);
        StandsOwner(l.a.kv.Value(), l.a.hist, l.points);
      }
    }

    /** A slot that stands for all but the last token of a history holds the points of it. */
    lemma StandsOwner(v: Kv, hist: seq<Token>, points: seq<Point>)
      requires pool.m == m && pool.argmax == argmax && hist != []
      requires Stands(m, v, hist[..|hist| - 1]) && PointsAt(m, argmax, hist[..|hist| - 1], points)
      ensures Holding(m, argmax, v, hist, points)
    {
      hide GaHolds;
      var n := |hist| - 1;
      pool.StandsHolding(v, hist[..n], points);
      assert hist[..n][..n] == hist[..n];
      PointsReach(m, argmax, hist[..n], points);
      PointsMove(m, argmax, hist[..n], hist, n, points);
      assert forall i :: 0 <= i < |points| ==> hist[..n][..points[i].len] == hist[..points[i].len];
    }

    /** Running requests with some of their points gone. */
    method Relabel(live: seq<Live>, ghost was: seq<Retained>, ghost out: seq<Retained>)
      requires Inv({}) && |live| == |active| && was == Owners(active) && Banks.Fewer(was, out)
      requires forall i :: 0 <= i < |live| ==> live[i] == active[i].(points := out[i].points)
      modifies this`active
      ensures Inv({}) && active == live && Requests(active) == old(Requests(active))
    {
      hide Pool.Sound, PreOk, LiveOk, PointAt;
      forall i | 0 <= i < |live|
        ensures LiveOk(m, argmax, eos, live[i])
      {
        assert LiveOk(m, argmax, eos, active[i]);
        FewerPoints(active[i], live[i]);
      }
      SameRequests(active, live);
      active := live;
    }

    lemma FewerPoints(l: Live, k: Live)
      requires LiveOk(m, argmax, eos, l) && k == l.(points := k.points) && forall p :: p in k.points ==> p in l.points
      ensures LiveOk(m, argmax, eos, k)
    {
      hide Stands, DecodeRun, JobOk, PointAt;
      var toks := l.a.hist[..|l.a.hist| - 1];
      forall i | 0 <= i < |k.points|
        ensures PointAt(m, argmax, toks, k.points[i])
      {
        assert k.points[i] in l.points;
      }
    }

    lemma SameRequests(a: seq<Live>, b: seq<Live>)
      requires |a| == |b| && forall i :: 0 <= i < |a| ==> a[i].a == b[i].a
      ensures ActKvs(a) == ActKvs(b) && Requests(a) == Requests(b)
    {
      forall k | k in ActKvs(a)
        ensures k in ActKvs(b)
      {
        var i :| 0 <= i < |a| && a[i].a.kv == k;
        assert b[i].a.kv == k;
      }
      forall k | k in ActKvs(b)
        ensures k in ActKvs(a)
      {
        var i :| 0 <= i < |b| && b[i].a.kv == k;
        assert a[i].a.kv == k;
      }
      forall x | x in Requests(a)
        ensures x in Requests(b)
      {
        var i :| 0 <= i < |a| && a[i].a == x;
        assert b[i].a == x;
      }
      forall x | x in Requests(b)
        ensures x in Requests(a)
      {
        var i :| 0 <= i < |b| && b[i].a == x;
        assert a[i].a == x;
      }
    }

    // ---- Clients that leave, and slots that fill up.

    lemma LiveRolls(l: Live)
      requires LiveOk(m, argmax, eos, l) && pool.m == m
      ensures Rolled(m, argmax, eos, l, true)
    {
      hide Stands, DecodeRun, JobOk, PointsAt;
      var n := |l.a.hist| - 1;
      pool.CutAll(l.a.kv.Value(), l.a.hist[..n], l.a.hist[n]);
      assert l.a.hist[..n] + [l.a.hist[n]] == l.a.hist;
    }

    /** Take one running request out. */
    method RemoveLive(at: nat) returns (l: Live)
      requires Inv({}) && at < |active|
      modifies this`active
      ensures l == old(active)[at] && active == SwapRemove(old(active), at)
      ensures Inv({l.a.kv}) && LiveOk(m, argmax, eos, l)
    {
      hide PreOk, LiveOk, Pool.Sound;
      l := active[at];
      LiveSetRemove(active, at);
      active := SwapRemove(active, at);
    }

    /** The client of a running request is gone: the request is retired where it is. */
    method CancelAt(at: nat) returns (ghost did: Did)
      requires Whole() && at < |active|
      modifies this`active, this`view, pool, slots
      ensures Whole() && did == Quit(at) && Possible(Setup(), old(view), did) && view == Then(Setup(), old(view), did)
      ensures Requests(active) <= old(Requests(active))
      ensures old(pool.asked) <= pool.asked
    {
      hide Inv, LiveOk, Rolled, SentAs, Lifecycle.Sound, Possible, Then;
      InSlots({});
      ghost var v, e := view, Setup();
      ghost var was := active;
      ShownLengths(v);
      SentLess(was, v.sending, at);
      var l := RemoveLive(at);
      InSlots({l.a.kv});
      LiveRolls(l);
      RetireOne(l, true, {l.a.kv});
      assert {l.a.kv} - {l.a.kv} == {};
      StillSent(active, SwapRemove(v.sending, at));
      did := Quit(at);
      DoneQuit(e, v, at);
      view := Then(e, v, did);
      StepKeeps(e, v, did);
    }

    lemma SentLess(ls: seq<Live>, ss: seq<Sending>, at: nat)
      requires SentAs(ls, ss) && at < |ls|
      ensures |ss| == |ls| && SentAs(SwapRemove(ls, at), SwapRemove(ss, at)) && Requests(SwapRemove(ls, at)) <= Requests(ls)
    {
      var r := SwapRemove(ls, at);
      forall i | 0 <= i < |r|
        ensures r[i].a in Requests(ls) && SwapRemove(ss, at)[i] == Sending(r[i].job, r[i].a.hist)
      {
        var k := if i == at then |ls| - 1 else i;
        assert r[i] == ls[k] && SwapRemove(ss, at)[i] == ss[k];
      }
    }

    /** Before a round, a running request about to outgrow its slot grows it, with room made for
        it first. It stays as it is where there is no memory. */
    method GrowActive()
      requires Whole()
      modifies pool, slots
      ensures Whole()
      ensures pool.world.Generous(old(pool.asked), pool.asked) ==> forall i :: 0 <= i < |active| ==> Ample(active[i].a.kv.Value())
      ensures old(pool.asked) <= pool.asked
    {
      hide Inv, Lifecycle.Sound, Shown, Ample;
      var i := 0;
      while i < |active|
        invariant i <= |active| && Inv({}) && old(pool.asked) <= pool.asked
        invariant forall a :: a in Requests(active) ==> unchanged(a)
        invariant pool.world.Generous(old(pool.asked), pool.asked) ==> forall j :: 0 <= j < i ==> Ample(active[j].a.kv.Value())
        modifies pool, slots
      {
        InSlots({});
        Grows(i);
        GrowOne(i);
        i := i + 1;
      }
      StillShown(view);
    }

    /** The slots of the other running requests are not the pool's, nor this one's. */
    lemma Grows(i: nat)
      requires Inv({}) && i < |active|
      ensures active[i].a.kv in slots && active[i].a.kv !in pool.Kvs() && pool.Kvs() <= slots
      ensures forall j :: 0 <= j < |active| && j != i ==>
        active[j].a.kv in slots && active[j].a.kv !in pool.Kvs() && active[j].a.kv != active[i].a.kv
    {
      hide PreOk, LiveOk, Pool.Sound;
      forall j | 0 <= j < |active|
        ensures active[j].a.kv in ActKvs(active)
      {
      }
    }

    method GrowOne(i: nat)
      requires Inv({}) && i < |active| && pool.Kvs() <= slots && active[i].a.kv in slots
      modifies pool, pool.Kvs(), active[i].a.kv
      ensures Inv({}) && old(pool.asked) <= pool.asked
      ensures pool.world.Generous(old(pool.asked), pool.asked) ==> Ample(active[i].a.kv.Value())
    {
      hide Inv, Ample, Stands, Thinned, GoneToRam, Covers, LiveOk;
      InSlots({});
      Grows(i);
      var kv := active[i].a.kv;
      var cap := GaCapacity(kv.layers);
      if kv.tokens + 2 * DFLASH_DRAFTS + 2 < cap {
        AmpleIs(kv.Value());
        return;
      }
      var target := cap + Max(cap / 8, 4096);
      var q := pool.asked;
      var ok := pool.MakeRoom();
      PoolStep({}, {});
      if ok && pool.world.grants(q) {
        label Placed:
        InSlots({});
        LiveStands(i);
        Grows(i);
        GrownAmple(m, kv.Value(), active[i].a.hist[..|active[i].a.hist| - 1], target);
        kv.ReserveGa(target);
        Grown@Placed(i, target);
      } else {
        pool.world.Hard(old(pool.asked), q, pool.asked);
      }
    }

    lemma LiveStands(i: nat)
      requires Inv({}) && i < |active|
      ensures LiveOk(m, argmax, eos, active[i]) && active[i].a.hist != []
      ensures Stands(m, active[i].a.kv.Value(), active[i].a.hist[..|active[i].a.hist| - 1])
    {
      hide Stands, DecodeRun, JobOk, PointsAt, PreOk, Pool.Sound;
      assert LiveOk(m, argmax, eos, active[i]);
    }

    twostate lemma Grown(i: nat, new target: nat)
      requires old(Inv({})) && active == old(active) && prefilling == old(prefilling) && i < |active| && unchanged(pool) && unchanged(wire)
      requires active[i].a.kv in slots && active[i].a.kv !in pool.Kvs() && pool.Kvs() <= slots
      requires forall k :: k in slots && k != active[i].a.kv ==> unchanged(k)
      requires forall a :: a in Requests(active) ==> unchanged(a)
      requires active[i].a.kv.Value() == old(active[i].a.kv.Value()).ReservedGa(target)
      ensures Inv({})
    {
      hide Stands, PointsAt, JobOk, Pool.Sound, DecodeRun, Kv.ReservedGa;
      pool.Undisturbed();
      forall j | 0 <= j < |prefilling|
        ensures PreOk(m, argmax, maxChunk, prefilling[j])
      {
        var p := prefilling[j];
        assert p.kv in PreKvs(prefilling) && active[i].a.kv in ActKvs(active);
        assert old(PreOk(m, argmax, maxChunk, p));
        assert p.kv.Value() == old(p.kv.Value());
      }
      forall j | 0 <= j < |active|
        ensures LiveOk(m, argmax, eos, active[j])
      {
        var l := active[j];
        assert l.a.kv in ActKvs(active) && l.a in Requests(active);
        assert old(LiveOk(m, argmax, eos, l));
        if j == i {
          ReserveGaStands(m, old(l.a.kv.Value()), l.a.hist[..|l.a.hist| - 1], target);
        } else {
          assert l.a.kv != active[i].a.kv;
          assert l.a.kv.Value() == old(l.a.kv.Value());
        }
      }
    }

    /** Any run of the scheduler, step by step; a step that does not apply is skipped. It does to
        the requests exactly what the steps returned say, so that over any run every request
        admitted is prefilling, running or over, what it was sent lies on its one-token-per-step
        run, and every slot is in exactly one place. The run stops only at a round whose split of a
        lone block cost the window of its request (`bad`), which takes a request whose prompt and
        budget outgrow what a windowed layer is built for. */
    method Run(events: seq<Event>) returns (bad: Option<Active>, ghost dids: seq<Did>, ghost os: seq<Around>)
      requires Whole() && forall i :: 0 <= i < |events| ==> EventOk(events[i])
      modifies this, pool, wire, slots, Requests(active)
      ensures Told(Setup(), old(view), events, dids, os) && view == ThenAll(Setup(), old(view), dids)
      ensures WholeBut(bad) && (bad.None? ==> Placed({}) && |dids| == |events|)
      ensures bad.Some? ==> dids != [] && var n := |dids| - 1;
        Spoils(Setup(), ThenAll(Setup(), old(view), dids[..n]), events[n], dids[n], os[n], bad.value.hist)
      ensures (forall j :: j in Jobs(old(view)) + CameAll(dids) ==> !Outgrows(m, |j.ids| + j.max)) ==> bad.None?
      ensures Jobs(view) == Jobs(old(view)) + CameAll(dids)
      ensures old(view).over <= view.over && forall i :: 0 <= i < |view.over| ==> OverOk(Setup(), view.over[i])
    {
      hide Whole, Placed, Alone, Lifecycle.Sound, Possible, Then, Told, AllPossible, ThenAll, Fits, Jobs, CameAll, OverOk, Spoils, Outgrows, EventOk;
      dids, os, bad := [], [], None;
      ghost var v, e := view, Setup();
      ToldNone(e, v, events);
      WholeParts();
      var i := 0;
      while i < |events| && bad.None?
        invariant i <= |events| && |dids| == |os| == i && WholeBut(bad) && fresh(Requests(active) - old(Requests(active)))
        invariant Told(e, v, events, dids, os) && view == ThenAll(e, v, dids)
        invariant i > 0 ==> os[i - 1].b == pool.asked
        invariant bad.Some? ==> i > 0 && Spoils(e, ThenAll(e, v, dids[..i - 1]), events[i - 1], dids[i - 1], os[i - 1], bad.value.hist)
      {
        ghost var was, so, a, alone := dids, os, pool.asked, Alone();
        ghost var did;
        bad, did := One(events[i]);
        ghost var o := Around(a, pool.asked, alone);
        ToldPush(e, v, events, was, so, did, o);
        dids, os := was + [did], so + [o];
        assert dids[..i] == was;
        i := i + 1;
      }
      ToldParts(e, v, events, dids, os);
      RunConserves(e, v, dids);
      RunSound(e, v, dids);
      OversOk(e, view);
      if bad.Some? {
        RunOutgrows(e, v, dids, events[i - 1], os[i - 1], bad.value.hist);
      }
      if bad.None? {
        WholeParts();
      }
    }

    lemma OversOk(e: Engine, v: View)
      requires Lifecycle.Sound(e, v)
      ensures forall i :: 0 <= i < |v.over| ==> OverOk(e, v.over[i])
    {
      hide SendingOk, FillingOk, OverOk;
    }

    lemma WholeParts()
      requires Whole()
      ensures Placed({}) && m.Valid() && Lifecycle.Sound(Setup(), view) && forall i :: 0 <= i < |view.over| ==> OverOk(Setup(), view.over[i])
      ensures |view.filling| == |prefilling| && |view.sending| == |active|
    {
      hide PreOk, LiveOk, Pool.Sound, SendingOk, FillingOk, OverOk, SentAs;
      ShownLengths(view);
    }

    /** One event. */
    method One(event: Event) returns (bad: Option<Active>, ghost did: Did)
      requires Whole() && EventOk(event)
      modifies this, pool, wire, slots, Requests(active)
      ensures Possible(Setup(), old(view), did) && view == Then(Setup(), old(view), did) && WholeBut(bad)
      ensures var o := Around(old(pool.asked), pool.asked, old(Alone()));
        Fits(Setup(), old(view), event, did, o) && (bad.Some? ==> Spoils(Setup(), old(view), event, did, o, bad.value.hist))
      ensures fresh(Requests(active) - old(Requests(active)))
      ensures old(pool.asked) <= pool.asked
    {
      hide Whole, Possible, Then, Fits, EventOk, Spoils;
      bad := None;
      if event.Arrive? {
        did := OnArrive(event);
      } else if event.Segment? {
        did := OnSegment(event);
      } else if event.Gone? {
        did := OnGone(event);
      } else {
        bad, did := OnRunning(event);
      }
    }

    method OnArrive(event: Event) returns (ghost did: Did)
      requires Whole() && EventOk(event) && event.Arrive?
      modifies this, pool, slots
      ensures Whole() && Possible(Setup(), old(view), did) && view == Then(Setup(), old(view), did)
      ensures Fits(Setup(), old(view), event, did, Around(old(pool.asked), pool.asked, old(Alone())))
      ensures fresh(Requests(active) - old(Requests(active)))
      ensures old(pool.asked) <= pool.asked
    {
      hide Whole, Possible, Then, JobOk, Arrival, Alone;
      var taken, begun;
      taken, begun, did := AdmitJob(event.job, event.gone, event.draws);
    }

    method OnSegment(event: Event) returns (ghost did: Did)
      requires Whole() && event.Segment?
      modifies this, pool, wire, slots
      ensures Whole() && Possible(Setup(), old(view), did) && view == Then(Setup(), old(view), did)
      ensures Fits(Setup(), old(view), event, did, Around(old(pool.asked), pool.asked, old(Alone())))
      ensures fresh(Requests(active) - old(Requests(active)))
      ensures old(pool.asked) <= pool.asked
    {
      hide Whole, Possible, Then, SegmentFails, Setup, Alone, Placed, Lifecycle.Sound, OverOk;
      WholeParts();
      SetupIs();
      DoneUnseen(Setup(), view);
      did := Unseen;
      if prefilling != [] && event.len > 0 {
        did := PrefillOne(event.len, event.flash, event.fails, event.gone, event.draws);
      }
    }

    method OnGone(event: Event) returns (ghost did: Did)
      requires Whole() && event.Gone?
      modifies this, pool, slots
      ensures Whole() && Possible(Setup(), old(view), did) && view == Then(Setup(), old(view), did)
      ensures Fits(Setup(), old(view), event, did, Around(old(pool.asked), pool.asked, old(Alone()))) && active == old(active)
      ensures old(pool.asked) <= pool.asked
    {
      hide Whole, Possible, Then, Alone, Setup, Placed, Lifecycle.Sound, OverOk;
      WholeParts();
      SetupIs();
      DoneUnseen(Setup(), view);
      did := Unseen;
      if prefilling != [] {
        did := ParkFront();
      }
    }

    method OnRunning(event: Event) returns (bad: Option<Active>, ghost did: Did)
      requires Whole() && EventOk(event) && (event.Step? || event.Cancel? || event.Grow? || event.Limit?)
      modifies this, pool, wire, slots, Requests(active)
      ensures Possible(Setup(), old(view), did) && view == Then(Setup(), old(view), did) && WholeBut(bad)
      ensures var o := Around(old(pool.asked), pool.asked, old(Alone()));
        Fits(Setup(), old(view), event, did, o) && (bad.Some? ==> Spoils(Setup(), old(view), event, did, o, bad.value.hist))
      ensures fresh(Requests(active) - old(Requests(active)))
      ensures old(pool.asked) <= pool.asked
    {
      hide Whole, Possible, Then, Ample, Banks.All, Draft.Valid, Alone, Lifecycle.Sound, Inv, Costs, Broken;
      WholeParts();
      DoneUnseen(Setup(), view);
      bad, did := None, Unseen;
      if event.Step? {
        if active != [] {
          bad, did := DecodeRound(event.drafts, event.two, event.stops, event.leaving);
        }
      } else if event.Cancel? {
        if event.at < |active| {
          did := CancelAt(event.at);
        }
      } else if event.Grow? {
        GrowActive();
      } else {
        LimitBanks();
      }
    }

    ghost predicate EventOk(e: Event) {
      match e
      case Arrive(job, _, _) => JobOk(argmax, job)
      case Step(drafts, _, _, _) => forall i :: drafts(i).Valid()
      case _ => true
    }
  }

  /** What happens to the scheduler: a request arrives; a segment of the prompt in front is
      forwarded, which may fail and leave any rows; its client is gone; a round, which may fail
      too; the client of a running request is gone; slots grow; the banks are limited. `gone` says
      of a request that ends whether its client has cancelled it by then, `draws` of a sampled one
      whether its first token can be drawn. */
  datatype Event =
    | Arrive(job: Job, gone: bool, draws: bool)
    | Segment(len: nat, flash: bool, fails: Option<nat -> seq<Row>>, gone: bool, draws: bool)
    | Gone
    | Step(drafts: nat -> Draft, two: bool, stops: Option<(nat, nat) -> seq<Row>>, leaving: nat -> bool)
    | Cancel(at: nat)
    | Grow
    | Limit

  /** A step that admits this request or refuses it, on the questions from `a` to `b`. */
  ghost predicate Arrival(d: Did, job: Job, draws: bool, a: nat, b: nat) {
    match d
    case Joined(j, _) => j == job
    case Started(j) => j == job && (draws || !job.sampled)
    case Undrawn(j) => j == job && !draws
    case Refused(j, from, to) => j == job && from == a <= to == b
    case Denied(j, from, to) => j == job && from == a <= to == b
    case _ => false
  }

  /** A segment of `n` tokens that leaves a lane without a row. */
  predicate EmptyLane(e: Engine, n: nat) {
    e.lanes >= 2 && e.maxChunk == 1 && n % 2 == 1 && n >= 2 * Chunks.PAIR_MIN
  }

  /** Whether a segment of the prompt in front fails, or the draw after the last one. */
  predicate SegmentFails(e: Engine, v: View, len: nat, fails: bool, draws: bool)
    requires v.filling != []
  {
    var p := v.filling[0];
    || fails || (p.done < |p.job.ids| && EmptyLane(e, Min(len, |p.job.ids| - p.done)))
    || (p.done + len >= |p.job.ids| && p.job.sampled && !draws)
  }

  /** What is asked and held while a step happens: the questions from `a` to `b`, and before it, where
      one request runs alone, its cache. */
  datatype Around = Around(a: nat, b: nat, alone: Option<Kv>)

  /** The request that runs alone, whose cache was `alone`, lost its window by the split of a block
      that took it to `h`. */
  ghost predicate CostsAlone(m: Model, two: bool, ss: seq<Sending>, alone: Option<Kv>, h: seq<Token>) {
    two && |ss| == 1 && alone.Some? && Costs(m, alone.value, ss[0].hist, h, |ss[0].job.ids| + ss[0].job.max)
  }

  /** So, but that the block could not be cut back and took it nowhere. */
  ghost predicate CutsNothing(m: Model, two: bool, ss: seq<Sending>, alone: Option<Kv>) {
    |ss| == 1 && CostsAlone(m, two, ss, alone, ss[0].hist)
  }

  /** The step was a round that took the request running alone to `h` and cost it its window. */
  ghost predicate Spoils(e: Engine, v: View, event: Event, d: Did, o: Around, h: seq<Token>) {
    event.Step? && d == Went([h]) && CostsAlone(e.m, event.two && e.lanes >= 2, v.sending, o.alone, h)
  }

  /** Only a request that outgrows what a windowed layer is built for can be spoilt, or fail of its
      own accord in a round of few enough requests. */
  lemma SpoiltOutgrows(m: Model, two: bool, ss: seq<Sending>, alone: Option<Kv>, h: seq<Token>)
    requires CostsAlone(m, two, ss, alone, h)
    ensures Outgrows(m, |ss[0].job.ids| + ss[0].job.max)
  {
    hide Costs, Outgrows;
    CostsLong(m, alone.value, ss[0].hist, h, |ss[0].job.ids| + ss[0].job.max);
  }

  /** Of a run that ends so, some request outgrows what a windowed layer is built for. */
  lemma RunOutgrows(e: Engine, v: View, dids: seq<Did>, event: Event, o: Around, h: seq<Token>)
    requires dids != [] && AllPossible(e, v, dids) && Spoils(e, ThenAll(e, v, dids[..|dids| - 1]), event, dids[|dids| - 1], o, h)
    ensures exists j :: j in Jobs(v) + CameAll(dids) && Outgrows(e.m, |j.ids| + j.max)
  {
    hide Possible, Then, ThenAll, AllPossible, Costs, Outgrows, Jobs, CameAll;
    var n := |dids| - 1;
    var w := ThenAll(e, v, dids[..n]);
    RunInit(e, v, dids);
    RunConserves(e, v, dids[..n]);
    SpoiltOutgrows(e.m, event.two && e.lanes >= 2, w.sending, o.alone, h);
    var job := w.sending[0].job;
    InJobs(w);
    CameBefore(dids, job);
    assert job in Jobs(v) + CameAll(dids);
  }

  lemma InJobs(v: View)
    requires v.sending != []
    ensures v.sending[0].job in Jobs(v)
  {
    assert SendingJobs(v.sending)[0] == v.sending[0].job;
  }

  lemma CameBefore(dids: seq<Did>, job: Job)
    requires dids != []
    ensures job in CameAll(dids[..|dids| - 1]) ==> job in CameAll(dids)
  {
  }

  /** The step an event amounts to. */
  ghost predicate Fits(e: Engine, v: View, event: Event, d: Did, o: Around) {
    match event
    case Arrive(job, _, draws) => Arrival(d, job, draws, o.a, o.b)
    case Segment(len, _, fails, _, draws) =>
      d == if v.filling == [] || len == 0 then Unseen else if SegmentFails(e, v, len, fails.Some?, draws) then Broke else Advanced(len)
    case Gone => d == if v.filling == [] then Unseen else Left
    case Step(_, _, fails, _) =>
      if v.sending == [] then d == Unseen
      else (d.Went? || d.Stopped?) && (fails.Some? ==> d.Stopped?) &&
           (d.Stopped? ==> fails.Some? || DFLASH_BLOCK * |v.sending| > e.maxChunk ||
                           CutsNothing(e.m, event.two && e.lanes >= 2, v.sending, o.alone))
    case Cancel(at) => d == if at < |v.sending| then Quit(at) else Unseen
    case Grow => d == Unseen
    case Limit => d == Unseen
  }

  /** The first events amount to these steps, each done around these questions. */
  ghost predicate Told(e: Engine, v: View, events: seq<Event>, dids: seq<Did>, os: seq<Around>) {
    && |dids| == |os| <= |events| && AllPossible(e, v, dids)
    && (forall i :: 0 <= i < |os| ==> os[i].a <= os[i].b && (i > 0 ==> os[i - 1].b == os[i].a))
    && forall i :: 0 <= i < |dids| ==> Fits(e, ThenAll(e, v, dids[..i]), events[i], dids[i], os[i])
  }

  lemma ToldNone(e: Engine, v: View, events: seq<Event>)
    ensures Told(e, v, events, [], []) && ThenAll(e, v, []) == v
  {
  }

  lemma ToldParts(e: Engine, v: View, events: seq<Event>, dids: seq<Did>, os: seq<Around>)
    requires Told(e, v, events, dids, os)
    ensures AllPossible(e, v, dids)
  {
    hide AllPossible, Fits;
  }

  lemma ToldPush(e: Engine, v: View, events: seq<Event>, dids: seq<Did>, os: seq<Around>, d: Did, o: Around)
    requires |dids| == |os| < |events| && Told(e, v, events, dids, os) && (os != [] ==> os[|os| - 1].b == o.a) && o.a <= o.b
    requires Possible(e, ThenAll(e, v, dids), d) && Fits(e, ThenAll(e, v, dids), events[|dids|], d, o)
    ensures Told(e, v, events, dids + [d], os + [o])
    ensures ThenAll(e, v, dids + [d]) == Then(e, ThenAll(e, v, dids), d)
  {
    hide Possible, Then, ThenAll, AllPossible, Fits;
    RunPush(e, v, dids, d);
    assert (dids + [d])[..|dids|] == dids;
    assert forall i :: 0 <= i < |dids| ==> (dids + [d])[..i] == dids[..i];
  }

  /** Rows that fit a layer. */
  function Fit(rows: seq<Row>, cap: nat): seq<Row> {
    rows[..Min(|rows|, cap)]
  }

  /** What a forward that fails part way leaves of a cache: any rows, in layers as they were. */
  method Wreck(m: Model, kv: DeviceKv, rows: nat -> seq<Row>)
    requires Usable(m, kv.Value())
    modifies kv
    ensures Usable(m, kv.Value())
  {
    kv.layers := seq(|kv.layers|, l requires 0 <= l < |kv.layers| reads kv => kv.layers[l].(rows := Fit(rows(l), kv.layers[l].cap)));
  }

  lemma ClearedUsable(m: Model, v: Kv)
    requires Usable(m, v)
    ensures Usable(m, v.Cleared())
  {
  }

  /** The rows the first full-attention layer has room for. */
  function GaCapacity(layers: seq<LayerKv>): nat {
    if layers == [] then 0 else if layers[0].kind.Ga? then layers[0].cap else GaCapacity(layers[1..])
  }

  predicate HasGa(layers: seq<LayerKv>) {
    exists l :: 0 <= l < |layers| && layers[l].kind.Ga?
  }

  /** Room for the next rounds without growing. */
  predicate Ample(v: Kv) {
    HasGa(v.layers) ==> v.tokens + 2 * DFLASH_DRAFTS + 2 < GaCapacity(v.layers)
  }

  lemma AmpleIs(v: Kv)
    requires v.tokens + 2 * DFLASH_DRAFTS + 2 < GaCapacity(v.layers)
    ensures Ample(v)
  {
  }

  lemma {:induction false} CapacityGrown(layers: seq<LayerKv>, grown: seq<LayerKv>, target: nat)
    requires |grown| == |layers| && HasGa(layers)
    requires forall l :: 0 <= l < |layers| ==> grown[l] == layers[l].ReservedGa(target)
    ensures GaCapacity(grown) >= target
  {
    if !layers[0].kind.Ga? {
      var l :| 0 <= l < |layers| && layers[l].kind.Ga?;
      assert layers[1..][l - 1] == layers[l];
      CapacityGrown(layers[1..], grown[1..], target);
    }
  }

  lemma {:induction false} CapacityHolds(layers: seq<LayerKv>, n: nat)
    requires HasGa(layers) && forall l :: 0 <= l < |layers| && layers[l].kind.Ga? ==> n <= layers[l].cap
    ensures n <= GaCapacity(layers)
  {
    if !layers[0].kind.Ga? {
      var l :| 0 <= l < |layers| && layers[l].kind.Ga?;
      assert layers[1..][l - 1] == layers[l];
      CapacityHolds(layers[1..], n);
    }
  }

  /** A slot grown past its capacity by at least 4096 rows has room for the next rounds. */
  lemma GrownAmple(m: Model, v: Kv, toks: seq<Token>, target: nat)
    requires Stands(m, v, toks) && target >= GaCapacity(v.layers) + 4096
    ensures Ample(v.ReservedGa(target))
  {
    hide Span, Hist, LayerKv.ReservedGa, GaCapacity;
    var r := v.ReservedGa(target);
    if HasGa(r.layers) {
      KindsStay(v, target);
      GaCaps(m, v, toks);
      CapacityHolds(v.layers, v.tokens);
      CapacityGrown(v.layers, r.layers, target);
    }
  }

  lemma KindsStay(v: Kv, target: nat)
    ensures HasGa(v.ReservedGa(target).layers) ==> HasGa(v.layers)
  {
    var r := v.ReservedGa(target);
    if HasGa(r.layers) {
      var l :| 0 <= l < |r.layers| && r.layers[l].kind.Ga?;
      assert v.layers[l].kind.Ga?;
    }
  }

  lemma GaCaps(m: Model, v: Kv, toks: seq<Token>)
    requires Stands(m, v, toks)
    ensures forall l :: 0 <= l < |v.layers| && v.layers[l].kind.Ga? ==> v.tokens <= v.layers[l].cap
  {
    hide Span;
    forall l | 0 <= l < |v.layers| && v.layers[l].kind.Ga?
      ensures v.tokens <= v.layers[l].cap
    {
      assert LayerAt(m, v.layers[l], l, toks, |toks|);
    }
  }

  lemma {:induction false} PreCount(ps: seq<Prefilling>)
    ensures |PreKvs(ps)| <= |ps|
  {
    if ps != [] {
      var k := |ps| - 1;
      PreCount(ps[..k]);
      assert ps == ps[..k] + [ps[k]];
      PreSetPush(ps[..k], ps[k]);
    }
  }

  lemma {:induction false} ActCount(ls: seq<Live>)
    ensures |ActKvs(ls)| <= |ls|
  {
    if ls != [] {
      var k := |ls| - 1;
      ActCount(ls[..k]);
      assert ls == ls[..k] + [ls[k]];
      LiveSetPush(ls[..k], ls[k]);
    }
  }

  lemma LiveSetRemove(ls: seq<Live>, at: nat)
    requires at < |ls| && DistinctLive(ls)
    ensures ActKvs(SwapRemove(ls, at)) == ActKvs(ls) - {ls[at].a.kv} && Requests(SwapRemove(ls, at)) <= Requests(ls)
    ensures DistinctLive(SwapRemove(ls, at))
  {
    var r := SwapRemove(ls, at);
    forall k | k in ActKvs(ls) - {ls[at].a.kv}
      ensures k in ActKvs(r)
    {
      var j :| 0 <= j < |ls| && ls[j].a.kv == k;
      assert r[if j == |ls| - 1 then at else j] == ls[j];
    }
    forall i | 0 <= i < |r|
      ensures r[i] == ls[if i == at then |ls| - 1 else i]
    {
    }
  }

  lemma StayingNone(eos: set<Token>, ss: seq<Sending>, hists: seq<seq<Token>>)
    requires |ss| == |hists|
    ensures Staying(eos, ss[..0], hists[..0]) == []
  {
  }

  lemma StayingStep(eos: set<Token>, ss: seq<Sending>, hists: seq<seq<Token>>, i: nat)
    requires i < |ss| == |hists|
    ensures Staying(eos, ss[..i + 1], hists[..i + 1]) ==
            if Ends(eos, ss[i].job, hists[i]) then Staying(eos, ss[..i], hists[..i])
            else Staying(eos, ss[..i], hists[..i]) + [Sending(ss[i].job, hists[i])]
  {
    hide Ends;
    assert ss[..i + 1][..i] == ss[..i] && hists[..i + 1][..i] == hists[..i];
  }

  function Acts(todo: seq<Live>): (r: seq<Active>)
    ensures |r| == |todo| && forall i :: 0 <= i < |r| ==> r[i] == todo[i].a
  {
    seq(|todo|, i requires 0 <= i < |todo| => todo[i].a)
  }

  lemma ActsSets(todo: seq<Live>)
    ensures Those(Acts(todo)) == Requests(todo) && Slotted(Acts(todo)) == ActKvs(todo)
    ensures DistinctLive(todo) ==> Separate(Acts(todo))
  {
    var acts := Acts(todo);
    forall a | a in Those(acts)
      ensures a in Requests(todo) && a.kv in ActKvs(todo)
    {
      var i :| 0 <= i < |acts| && acts[i] == a;
      assert todo[i].a == a;
    }
    forall a | a in Requests(todo)
      ensures a in Those(acts)
    {
      var i :| 0 <= i < |todo| && todo[i].a == a;
      assert acts[i] == a;
    }
    forall k | k in ActKvs(todo)
      ensures k in Slotted(acts)
    {
      var i :| 0 <= i < |todo| && todo[i].a.kv == k;
      assert acts[i] in acts && acts[i].kv == k;
    }
  }

  /** The slots of the requests from `i` on. */
  function KvsFrom(todo: seq<Live>, i: nat): set<DeviceKv> {
    set j | i <= j < |todo| :: todo[j].a.kv
  }

  lemma FromAll(todo: seq<Live>)
    ensures KvsFrom(todo, 0) == ActKvs(todo) && KvsFrom(todo, |todo|) == {}
  {
  }

  lemma NextOut(todo: seq<Live>, i: nat)
    requires i < |todo| && DistinctLive(todo)
    ensures todo[i].a.kv in KvsFrom(todo, i) && KvsFrom(todo, i + 1) == KvsFrom(todo, i) - {todo[i].a.kv}
    ensures forall j :: i < j < |todo| ==> todo[j].a.kv in KvsFrom(todo, i) && todo[j].a.kv != todo[i].a.kv && todo[j].a != todo[i].a
  {
  }

  /** A round takes a request along its run, and ends it exactly where the run or its client does. */
  lemma RoundRolls(m: Model, argmax: Argmax, eos: set<Token>, l: Live, was: seq<Token>, alive: nat, before: Kv, t: nat, split: bool,
                   done: bool, e: Engine)
    requires RoundOf(m, l.a, was, alive, before, t, split, eos, done) && e.m == m && e.eos == eos
    requires 1 <= t <= DFLASH_BLOCK
    requires JobOk(argmax, l.job) && l.a.plen == |l.job.ids| && l.a.max == l.job.max && l.a.pick == l.job.pick
    requires was <= Target(m, l.job, eos) && DecodeRun(m, l.a.pick, l.a.plen, was, l.a.max, eos) == Target(m, l.job, eos)
    requires alive + |was| == |l.job.ids| + l.job.alive
    requires PointsAt(m, argmax, was[..|was| - 1], l.points)
    ensures if WindowKept(m, before, t, split, |l.a.hist| - |was|) then Rolled(m, argmax, eos, l, done)
            else !CutStands(m, l.a.kv.Value(), l.a.hist, |l.a.hist| - 1)
    ensures RolledTo(e, Sending(l.job, was), l.a.hist) && (done <==> Ends(eos, l.job, l.a.hist))
  {
    hide Stands, DecodeRun, CutStands, PointsAt, JobOk, WindowKept;
    var h, a, b := l.a.hist, |was| - 1, |l.a.hist| - 1;
    var run := Target(m, l.job, eos);
    assert h[..|was|] == run[..|was|] == was;
    assert h[..b][..a] == was[..a];
    assert was[..a] == was[..a][..a];
    PointsReach(m, argmax, was[..a], l.points);
    PointsMove(m, argmax, was[..a], h[..b], a, l.points);
  }

  lemma PointsReach(m: Model, argmax: Argmax, toks: seq<Token>, points: seq<Point>)
    requires PointsAt(m, argmax, toks, points)
    ensures forall i :: 0 <= i < |points| ==> points[i].len <= |toks|
  {
    forall i | 0 <= i < |points|
      ensures points[i].len <= |toks|
    {
      assert PointAt(m, argmax, toks, points[i]);
    }
  }

  /** What a round leaves of a request that was running. */
  ghost predicate Rolled(m: Model, argmax: Argmax, eos: set<Token>, l: Live, done: bool)
    reads l.a, l.a.kv
  {
    if !done then LiveOk(m, argmax, eos, l)
    else
      && m.Valid() && JobOk(argmax, l.job) && |l.a.hist| > |l.job.ids| && l.a.hist <= Target(m, l.job, eos)
      && CutStands(m, l.a.kv.Value(), l.a.hist, |l.a.hist| - 1) && PointsAt(m, argmax, l.a.hist[..|l.a.hist| - 1], l.points)
  }

  lemma RolledDone(m: Model, argmax: Argmax, eos: set<Token>, l: Live)
    requires Rolled(m, argmax, eos, l, true)
    ensures m.Valid() && |l.a.hist| >= 2
    ensures CutStands(m, l.a.kv.Value(), l.a.hist, |l.a.hist| - 1) && PointsAt(m, argmax, l.a.hist[..|l.a.hist| - 1], l.points)
    ensures !l.job.sampled ==> l.a.hist[|l.a.hist| - 1] == argmax(Out(m, l.a.hist[..|l.a.hist| - 1], |l.a.hist| - 2))
  {
    hide Out, DecodeRun, CutStands;
    if !l.job.sampled {
      GreedyOnRun(m, argmax, l.job, eos, l.a.hist);
    }
  }

  lemma StartsLive(m: Model, argmax: Argmax, eos: set<Token>, l: Live, first: Token)
    requires m.Valid() && JobOk(argmax, l.job) && first == Next(m, l.job.pick, |l.job.ids|, l.job.ids)
    requires !Ends(eos, l.job, l.job.ids + [first])
    requires l.a.plen == |l.job.ids| && l.a.max == l.job.max && l.a.pick == l.job.pick && l.a.alive == l.job.alive - 1
    requires l.a.last == first && l.a.generated == 1 && l.a.hist == l.job.ids + [first]
    requires Stands(m, l.a.kv.Value(), l.job.ids) && PointsAt(m, argmax, l.job.ids, l.points)
    ensures LiveOk(m, argmax, eos, l)
  {
    hide DecodeRun, Next, Stands, PointsAt;
    FirstToken(m, argmax, l.job, eos, first);
    RunFrom(m, l.job.pick, |l.job.ids|, l.job.ids, l.job.max, eos, l.a.hist);
    assert l.a.hist[..|l.a.hist| - 1] == l.job.ids;
  }

  lemma PreSetPush(ps: seq<Prefilling>, p: Prefilling)
    ensures PreKvs(ps + [p]) == PreKvs(ps) + {p.kv}
  {
    var s := ps + [p];
    assert s[|ps|] == p;
    forall k | k in PreKvs(ps)
      ensures k in PreKvs(s)
    {
      var i :| 0 <= i < |ps| && ps[i].kv == k;
      assert s[i] == ps[i];
    }
  }

  lemma PreSetPop(ps: seq<Prefilling>)
    requires ps != [] && DistinctPre(ps)
    ensures PreKvs(ps[1..]) == PreKvs(ps) - {ps[0].kv}
  {
    var s := ps[1..];
    forall k | k in PreKvs(ps) - {ps[0].kv}
      ensures k in PreKvs(s)
    {
      var i :| 0 <= i < |ps| && ps[i].kv == k;
      assert s[i - 1] == ps[i];
    }
    forall k | k in PreKvs(s)
      ensures k in PreKvs(ps) - {ps[0].kv}
    {
      var i :| 0 <= i < |s| && s[i].kv == k;
      assert s[i] == ps[i + 1];
    }
  }

  lemma LiveSetPush(ls: seq<Live>, l: Live)
    ensures ActKvs(ls + [l]) == ActKvs(ls) + {l.a.kv} && Requests(ls + [l]) == Requests(ls) + {l.a}
  {
    var s := ls + [l];
    assert s[|ls|] == l;
    forall k | k in ActKvs(ls)
      ensures k in ActKvs(s)
    {
      var i :| 0 <= i < |ls| && ls[i].a.kv == k;
      assert s[i] == ls[i];
    }
    forall a | a in Requests(ls)
      ensures a in Requests(s)
    {
      var i :| 0 <= i < |ls| && ls[i].a == a;
      assert s[i] == ls[i];
    }
  }
}
