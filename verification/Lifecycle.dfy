/** What becomes of requests, as their clients see it: how much of each prompt is prefilled, what
    each running request has been sent, how each ended. A run of the scheduler is a sequence of
    the steps below; what each may do is fixed here, and what all of them keep is proved here. */
module Lifecycle {
  import opened Basics
  import opened Transformer
  import opened Snapshots
  import opened DeviceHits
  import opened Speculate
  import opened Decode

  /** A request. `alive` is how many tokens its client takes before it leaves. */
  datatype Job = Job(ids: seq<Token>, max: nat, pick: Pick, sampled: bool, alive: nat)

  /** The prompt and the budget are not empty, and a greedy request selects the argmax. */
  ghost predicate JobOk(argmax: Argmax, j: Job) {
    j.ids != [] && j.max >= 1 && (!j.sampled ==> Greedy(j.pick, argmax))
  }

  ghost predicate Greedy(pick: Pick, argmax: Argmax) {
    forall h: Hidden, k: nat :: pick(h, k) == argmax(h)
  }

  /** The reference output of a request, its prompt included. */
  function Target(m: Model, j: Job, eos: set<Token>): seq<Token>
    requires m.Valid() && j.ids != [] && j.max >= 1
  {
    DecodeRun(m, j.pick, |j.ids|, j.ids, j.max, eos)
  }

  /** A request ends with an end-of-sequence token, at its budget, or with the token its client no
      longer takes. */
  predicate Ends(eos: set<Token>, j: Job, hist: seq<Token>) {
    (hist != [] && hist[|hist| - 1] in eos) || |hist| >= |j.ids| + j.max || |hist| > |j.ids| + j.alive
  }

  // ---- The reference run.

  /** Every token of a run is the selection after the ones before it. */
  lemma {:induction false} RunSelects(m: Model, pick: Pick, plen: nat, hist: seq<Token>, max: nat, eos: set<Token>, j: nat)
    requires m.Valid() && 1 <= plen <= |hist| < plen + max
    requires |hist| <= j < |DecodeRun(m, pick, plen, hist, max, eos)|
    ensures var r := DecodeRun(m, pick, plen, hist, max, eos); r[j] == Next(m, pick, plen, r[..j])
    decreases plen + max - |hist|
  {
    hide Next;
    var next := Next(m, pick, plen, hist);
    var r := DecodeRun(m, pick, plen, hist, max, eos);
    RunExtends(m, pick, plen, hist, max, eos);
    if j == |hist| {
      if !(next in eos || |hist| + 1 - plen >= max) {
        RunExtends(m, pick, plen, hist + [next], max, eos);
      }
      assert r[..j] == hist;
    } else {
      RunSelects(m, pick, plen, hist + [next], max, eos, j);
    }
  }

  /** A run is its own continuation from any point on it, and stops at the first end-of-sequence
      token or at the budget and nowhere else. */
  lemma {:induction false} RunFrom(m: Model, pick: Pick, plen: nat, hist: seq<Token>, max: nat, eos: set<Token>, h: seq<Token>)
    requires m.Valid() && 1 <= plen <= |hist| < |h| && |hist| < plen + max
    requires h <= DecodeRun(m, pick, plen, hist, max, eos)
    ensures h == DecodeRun(m, pick, plen, hist, max, eos) <==> h[|h| - 1] in eos || |h| >= plen + max
    ensures |h| <= plen + max
    ensures |h| < plen + max && h != DecodeRun(m, pick, plen, hist, max, eos) ==>
              DecodeRun(m, pick, plen, h, max, eos) == DecodeRun(m, pick, plen, hist, max, eos)
    decreases plen + max - |hist|
  {
    hide Next;
    var next := Next(m, pick, plen, hist);
    var r := DecodeRun(m, pick, plen, hist, max, eos);
    var longer := hist + [next];
    if next in eos || |hist| + 1 - plen >= max {
      assert h == r;
    } else {
      RunExtends(m, pick, plen, longer, max, eos);
      assert h[..|longer|] == r[..|longer|] == longer;
      if |h| == |longer| {
        assert h == longer;
        RunIsLonger(m, pick, plen, longer, max, eos);
      } else {
        RunFrom(m, pick, plen, longer, max, eos, h);
      }
    }
  }

  lemma RunIsLonger(m: Model, pick: Pick, plen: nat, hist: seq<Token>, max: nat, eos: set<Token>)
    requires m.Valid() && 1 <= plen <= |hist| < plen + max
    ensures |DecodeRun(m, pick, plen, hist, max, eos)| > |hist|
  {
    hide Next;
    var next := Next(m, pick, plen, hist);
    if !(next in eos || |hist| + 1 - plen >= max) {
      RunExtends(m, pick, plen, hist + [next], max, eos);
    }
  }

  /** The greedy choice after a history that is on the run is the run's next token. */
  lemma GreedyOnRun(m: Model, argmax: Argmax, j: Job, eos: set<Token>, hist: seq<Token>)
    requires m.Valid() && JobOk(argmax, j) && hist <= Target(m, j, eos) && |hist| > |j.ids| && !j.sampled
    ensures hist[|hist| - 1] == argmax(Out(m, hist[..|hist| - 1], |hist| - 2))
  {
    var n := |hist| - 1;
    RunSelects(m, j.pick, |j.ids|, j.ids, j.max, eos, n);
    var r := Target(m, j, eos);
    assert r[..n] == hist[..n];
  }

  /** The first token is the run's, for a greedy request the greedy choice after its prompt. */
  lemma FirstToken(m: Model, argmax: Argmax, j: Job, eos: set<Token>, first: Token)
    requires m.Valid() && JobOk(argmax, j) && first == Next(m, j.pick, |j.ids|, j.ids)
    ensures j.ids + [first] <= Target(m, j, eos) && (!j.sampled ==> first == argmax(Out(m, j.ids, |j.ids| - 1)))
  {
    hide Out;
    if !(first in eos || j.max <= 1) {
      RunExtends(m, j.pick, |j.ids|, j.ids + [first], j.max, eos);
    }
  }

  // ---- What can be seen of the requests.

  /** A prompt being prefilled; `since` numbers the prompts in the order they were admitted. */
  datatype Filling = Filling(job: Job, done: nat, since: nat)

  datatype Sending = Sending(job: Job, hist: seq<Token>)

  datatype How = Ended | Parked | Failed | Cancelled

  datatype Over = Over(job: Job, hist: seq<Token>, how: How)

  datatype View = View(next: nat, filling: seq<Filling>, sending: seq<Sending>, over: seq<Over>)

  /** What does not change. `easy` says of each question to the surroundings whether memory would be
      granted once nothing is retained. */
  datatype Engine = Engine(m: Model, argmax: Argmax, eos: set<Token>, maxChunk: nat, lanes: nat, slots: nat, easy: nat -> bool)

  /** Memory was refused with nothing retained, on a question from `a` to `b`. */
  ghost predicate Tight(e: Engine, a: nat, b: nat) {
    exists q: nat :: a <= q < b && !e.easy(q)
  }

  /** A step. */
  datatype Did =
    | Joined(job: Job, done: nat)            // admitted, the first `done` tokens resumed
    | Started(job: Job)                      // admitted with its whole prompt resumed
    | Refused(job: Job, from: nat, to: nat)  // on the questions from `from` to `to`
    | Denied(job: Job, from: nat, to: nat)   // admitted, but without memory to prefill it
    | Undrawn(job: Job)                      // its whole prompt resumed, but no first token drawn
    | Advanced(len: nat)                     // a segment of the prompt in front
    | Broke                                  // the forward of the prompt in front failed, or the draw after it
    | Left                                   // the client of the prompt in front is gone
    | Went(hists: seq<seq<Token>>)           // a round
    | Stopped                                // a round failed
    | Quit(at: nat)                          // the client of a running request is gone
    | Unseen                                 // nothing a client could see

  /** A round takes a request along its run, by at most a block and not past what its client
      takes. */
  ghost predicate RolledTo(e: Engine, s: Sending, h: seq<Token>)
    requires e.m.Valid() && s.job.ids != [] && s.job.max >= 1
  {
    && s.hist < h <= Target(e.m, s.job, e.eos)
    && |h| <= |s.hist| + DFLASH_BLOCK && |h| <= |s.job.ids| + s.job.alive + 1
  }

  /** When a step can happen. */
  ghost predicate Possible(e: Engine, v: View, d: Did) {
    && e.m.Valid()
    && match d
       case Joined(job, done) => JobOk(e.argmax, job) && done < |job.ids|
       case Started(job) => JobOk(e.argmax, job)
       case Refused(job, from, to) => |v.filling| + |v.sending| >= e.slots || Tight(e, from, to)
       case Denied(job, from, to) => JobOk(e.argmax, job) && Tight(e, from, to)
       case Undrawn(job) => JobOk(e.argmax, job) && job.sampled
       case Advanced(len) => v.filling != [] && len > 0 && JobOk(e.argmax, v.filling[0].job)
       case Broke => v.filling != []
       case Left => v.filling != []
       case Went(hists) =>
         && v.sending != [] && |hists| == |v.sending|
         && forall i :: 0 <= i < |hists| ==> JobOk(e.argmax, v.sending[i].job) && RolledTo(e, v.sending[i], hists[i])
       case Stopped => v.sending != []
       case Quit(at) => at < |v.sending|
       case Unseen => true
  }

  /** A prompt that is through: its request is sent its first token, and ends with it or runs. */
  function Begin(e: Engine, v: View, job: Job): View
    requires e.m.Valid() && job.ids != []
  {
    var h := job.ids + [Next(e.m, job.pick, |job.ids|, job.ids)];
    if Ends(e.eos, job, h) then v.(over := v.over + [Over(job, h, Ended)])
    else v.(sending := v.sending + [Sending(job, h)])
  }

  /** The requests that run on after a round, and those that have ended, in order. */
  function Staying(eos: set<Token>, ss: seq<Sending>, hists: seq<seq<Token>>): seq<Sending>
    requires |ss| == |hists|
  {
    if ss == [] then []
    else
      var k := |ss| - 1;
      Staying(eos, ss[..k], hists[..k]) + if Ends(eos, ss[k].job, hists[k]) then [] else [Sending(ss[k].job, hists[k])]
  }

  function Ending(eos: set<Token>, ss: seq<Sending>, hists: seq<seq<Token>>): seq<Over>
    requires |ss| == |hists|
  {
    if ss == [] then []
    else
      var k := |ss| - 1;
      Ending(eos, ss[..k], hists[..k]) + if Ends(eos, ss[k].job, hists[k]) then [Over(ss[k].job, hists[k], Ended)] else []
  }

  function Failing(ss: seq<Sending>): (r: seq<Over>)
    ensures |r| == |ss| && forall i :: 0 <= i < |r| ==> r[i] == Over(ss[i].job, ss[i].hist, Failed)
  {
    seq(|ss|, i requires 0 <= i < |ss| => Over(ss[i].job, ss[i].hist, Failed))
  }

  /** What a step does. */
  function Then(e: Engine, v: View, d: Did): View
    requires Possible(e, v, d)
  {
    match d
    case Joined(job, done) => v.(filling := v.filling + [Filling(job, done, v.next)], next := v.next + 1)
    case Started(job) => Begin(e, v, job)
    case Refused(_, _, _) => v
    case Denied(job, _, _) => v.(over := v.over + [Over(job, job.ids, Failed)])
    case Undrawn(job) => v.(over := v.over + [Over(job, job.ids, Failed)])
    case Advanced(len) =>
      var p := v.filling[0];
      var end := Min(p.done + len, |p.job.ids|);
      var rest := v.(filling := v.filling[1..]);
      if end < |p.job.ids| then rest.(filling := rest.filling + [p.(done := end)]) else Begin(e, rest, p.job)
    case Broke => v.(filling := v.filling[1..], over := v.over + [Over(v.filling[0].job, v.filling[0].job.ids, Failed)])
    case Left => v.(filling := v.filling[1..], over := v.over + [Over(v.filling[0].job, v.filling[0].job.ids, Parked)])
    case Went(hists) =>
      v.(sending := Staying(e.eos, v.sending, hists), over := v.over + Ending(e.eos, v.sending, hists))
    case Stopped => v.(sending := [], over := v.over + Failing(v.sending))
    case Quit(at) =>
      v.(sending := SwapRemove(v.sending, at), over := v.over + [Over(v.sending[at].job, v.sending[at].hist, Cancelled)])
    case Unseen => v
  }

  // ---- The steps, one by one.

  lemma DoneJoined(e: Engine, v: View, job: Job, done: nat)
    requires e.m.Valid() && JobOk(e.argmax, job) && done < |job.ids|
    ensures Possible(e, v, Joined(job, done))
    ensures Then(e, v, Joined(job, done)) == v.(filling := v.filling + [Filling(job, done, v.next)], next := v.next + 1)
  {
  }

  lemma DoneStarted(e: Engine, v: View, job: Job)
    requires e.m.Valid() && JobOk(e.argmax, job)
    ensures Possible(e, v, Started(job)) && Then(e, v, Started(job)) == Begin(e, v, job)
  {
  }

  lemma DoneRefused(e: Engine, v: View, job: Job, a: nat, b: nat)
    requires e.m.Valid() && (|v.filling| + |v.sending| >= e.slots || Tight(e, a, b))
    ensures Possible(e, v, Refused(job, a, b)) && Then(e, v, Refused(job, a, b)) == v
  {
  }

  lemma DoneDenied(e: Engine, v: View, job: Job, a: nat, b: nat)
    requires e.m.Valid() && JobOk(e.argmax, job) && Tight(e, a, b)
    ensures Possible(e, v, Denied(job, a, b))
    ensures Then(e, v, Denied(job, a, b)) == v.(over := v.over + [Over(job, job.ids, Failed)])
  {
  }

  lemma DoneUndrawn(e: Engine, v: View, job: Job)
    requires e.m.Valid() && JobOk(e.argmax, job) && job.sampled
    ensures Possible(e, v, Undrawn(job)) && Then(e, v, Undrawn(job)) == v.(over := v.over + [Over(job, job.ids, Failed)])
  {
  }

  lemma DoneAdvanced(e: Engine, v: View, len: nat)
    requires e.m.Valid() && v.filling != [] && len > 0 && JobOk(e.argmax, v.filling[0].job)
    ensures Possible(e, v, Advanced(len))
    ensures var p := v.filling[0]; var rest := v.(filling := v.filling[1..]);
      Then(e, v, Advanced(len)) == if p.done + len < |p.job.ids| then rest.(filling := rest.filling + [p.(done := p.done + len)])
                                    else Begin(e, rest, p.job)
  {
  }

  lemma DoneGivenUp(e: Engine, v: View, d: Did)
    requires e.m.Valid() && v.filling != [] && (d.Broke? || d.Left?)
    ensures Possible(e, v, d)
    ensures Then(e, v, d).filling == v.filling[1..] && Then(e, v, d).sending == v.sending
  {
  }

  lemma DoneRolled(e: Engine, v: View, hists: seq<seq<Token>>)
    requires e.m.Valid() && v.sending != [] && |hists| == |v.sending|
    requires forall i :: 0 <= i < |hists| ==> JobOk(e.argmax, v.sending[i].job) && RolledTo(e, v.sending[i], hists[i])
    ensures Possible(e, v, Went(hists))
    ensures Then(e, v, Went(hists)) ==
            v.(sending := Staying(e.eos, v.sending, hists), over := v.over + Ending(e.eos, v.sending, hists))
  {
    hide RolledTo, JobOk, Staying, Ending;
  }

  lemma DoneStopped(e: Engine, v: View)
    requires e.m.Valid() && v.sending != []
    ensures Possible(e, v, Stopped) && Then(e, v, Stopped) == v.(sending := [], over := v.over + Failing(v.sending))
  {
  }

  lemma DoneQuit(e: Engine, v: View, at: nat)
    requires e.m.Valid() && at < |v.sending|
    ensures Possible(e, v, Quit(at))
    ensures Then(e, v, Quit(at)).filling == v.filling && Then(e, v, Quit(at)).sending == SwapRemove(v.sending, at)
  {
  }

  lemma DoneUnseen(e: Engine, v: View)
    requires e.m.Valid()
    ensures Possible(e, v, Unseen) && Then(e, v, Unseen) == v
  {
  }

  // ---- What every step keeps.

  ghost predicate FillingOk(e: Engine, p: Filling) {
    JobOk(e.argmax, p.job) && p.done < |p.job.ids|
  }

  /** A running request has been sent a proper part of its reference output. */
  ghost predicate SendingOk(e: Engine, s: Sending) {
    && e.m.Valid() && JobOk(e.argmax, s.job) && |s.hist| > |s.job.ids| && !Ends(e.eos, s.job, s.hist)
    && s.hist < Target(e.m, s.job, e.eos)
  }

  /** Whatever a request was sent is a part of its reference output, and all of it if it ended with
      its client still there. */
  ghost predicate OverOk(e: Engine, o: Over) {
    && e.m.Valid() && JobOk(e.argmax, o.job) && o.job.ids <= o.hist <= Target(e.m, o.job, e.eos)
    && (o.how == Ended && |o.hist| <= |o.job.ids| + o.job.alive ==> o.hist == Target(e.m, o.job, e.eos))
  }

  ghost predicate Sound(e: Engine, v: View) {
    && (forall i :: 0 <= i < |v.filling| ==> FillingOk(e, v.filling[i]) && v.filling[i].since < v.next)
    && (forall i, j :: 0 <= i < j < |v.filling| ==> v.filling[i].since != v.filling[j].since)
    && (forall i :: 0 <= i < |v.sending| ==> SendingOk(e, v.sending[i]))
    && (forall i :: 0 <= i < |v.over| ==> OverOk(e, v.over[i]))
  }

  /** A history on the run either ends the request, with the whole run unless its client has left,
      or is a proper part of it. */
  lemma OnRun(e: Engine, j: Job, h: seq<Token>)
    requires e.m.Valid() && JobOk(e.argmax, j) && |h| > |j.ids| && h <= Target(e.m, j, e.eos)
    ensures j.ids <= h
    ensures if Ends(e.eos, j, h) then OverOk(e, Over(j, h, Ended)) else SendingOk(e, Sending(j, h))
  {
    hide DecodeRun, Greedy;
    RunExtends(e.m, j.pick, |j.ids|, j.ids, j.max, e.eos);
    RunFrom(e.m, j.pick, |j.ids|, j.ids, j.max, e.eos, h);
    var r := Target(e.m, j, e.eos);
    assert h[..|j.ids|] == r[..|j.ids|] == j.ids;
  }

  lemma OverKeeps(e: Engine, v: View, o: Over)
    requires Sound(e, v) && OverOk(e, o)
    ensures Sound(e, v.(over := v.over + [o]))
  {
    hide FillingOk, SendingOk, OverOk;
  }

  lemma PopKeeps(e: Engine, v: View)
    requires Sound(e, v) && v.filling != []
    ensures Sound(e, v.(filling := v.filling[1..])) && FillingOk(e, v.filling[0])
  {
    hide FillingOk, SendingOk, OverOk;
  }

  lemma JoinKeeps(e: Engine, v: View, p: Filling)
    requires Sound(e, v) && FillingOk(e, p) && p.since == v.next
    ensures Sound(e, v.(filling := v.filling + [p], next := v.next + 1))
  {
    hide FillingOk, SendingOk, OverOk;
  }

  lemma BackKeeps(e: Engine, v: View, p: Filling)
    requires Sound(e, v) && v.filling != [] && FillingOk(e, p) && p.since == v.filling[0].since
    ensures Sound(e, v.(filling := v.filling[1..] + [p]))
  {
    hide FillingOk, SendingOk, OverOk;
  }

  lemma BeginKeeps(e: Engine, v: View, job: Job)
    requires e.m.Valid() && Sound(e, v) && JobOk(e.argmax, job)
    ensures Sound(e, Begin(e, v, job))
  {
    hide Next, FillingOk, SendingOk, OverOk, Ends, Greedy;
    BeginOnRun(e, job);
  }

  lemma BeginOnRun(e: Engine, job: Job)
    requires e.m.Valid() && JobOk(e.argmax, job)
    ensures var h := job.ids + [Next(e.m, job.pick, |job.ids|, job.ids)];
      if Ends(e.eos, job, h) then OverOk(e, Over(job, h, Ended)) else SendingOk(e, Sending(job, h))
  {
    hide Next, SendingOk, OverOk, Ends, Greedy;
    var first := Next(e.m, job.pick, |job.ids|, job.ids);
    FirstToken(e.m, e.argmax, job, e.eos, first);
    OnRun(e, job, job.ids + [first]);
  }

  lemma {:induction false} RoundKept(e: Engine, ss: seq<Sending>, hists: seq<seq<Token>>)
    requires e.m.Valid() && |ss| == |hists| && forall i :: 0 <= i < |ss| ==> SendingOk(e, ss[i]) && RolledTo(e, ss[i], hists[i])
    ensures forall s :: s in Staying(e.eos, ss, hists) ==> SendingOk(e, s)
    ensures forall o :: o in Ending(e.eos, ss, hists) ==> OverOk(e, o)
  {
    if ss != [] {
      var k := |ss| - 1;
      assert SendingOk(e, ss[k]) && RolledTo(e, ss[k], hists[k]);
      OnRun(e, ss[k].job, hists[k]);
      hide SendingOk, OverOk, Ends, RolledTo;
      RoundKept(e, ss[..k], hists[..k]);
    }
  }

  lemma PromptOk(e: Engine, job: Job, how: How)
    requires e.m.Valid() && JobOk(e.argmax, job) && how != Ended
    ensures OverOk(e, Over(job, job.ids, how))
  {
    RunExtends(e.m, job.pick, |job.ids|, job.ids, job.max, e.eos);
  }

  lemma SentOk(e: Engine, s: Sending, how: How)
    requires SendingOk(e, s) && how != Ended
    ensures OverOk(e, Over(s.job, s.hist, how))
  {
    RunExtends(e.m, s.job.pick, |s.job.ids|, s.job.ids, s.job.max, e.eos);
    var r := Target(e.m, s.job, e.eos);
    assert s.hist[..|s.job.ids|] == r[..|s.job.ids|] == s.job.ids;
  }

  lemma RolledKeeps(e: Engine, v: View, hists: seq<seq<Token>>)
    requires Sound(e, v) && Possible(e, v, Went(hists))
    ensures Sound(e, Then(e, v, Went(hists)))
  {
    hide FillingOk, SendingOk, OverOk, JobOk, RolledTo, Ends, Staying, Ending;
    RoundKept(e, v.sending, hists);
  }

  lemma StoppedKeeps(e: Engine, v: View)
    requires e.m.Valid() && Sound(e, v)
    ensures Sound(e, v.(sending := [], over := v.over + Failing(v.sending)))
  {
    hide FillingOk, SendingOk, OverOk;
    forall i | 0 <= i < |v.sending|
      ensures OverOk(e, Failing(v.sending)[i])
    {
      SentOk(e, v.sending[i], Failed);
    }
  }

  lemma QuitKeeps(e: Engine, v: View, at: nat)
    requires e.m.Valid() && Sound(e, v) && at < |v.sending|
    ensures Sound(e, v.(sending := SwapRemove(v.sending, at))) && SendingOk(e, v.sending[at])
  {
    hide FillingOk, SendingOk, OverOk;
  }

  /** Every step keeps what has been sent on the reference runs. */
  lemma StepKeeps(e: Engine, v: View, d: Did)
    requires Sound(e, v) && Possible(e, v, d)
    ensures Sound(e, Then(e, v, d)) && v.over <= Then(e, v, d).over
  {
    hide Sound, OverOk, SendingOk, Greedy, Next, RolledTo, Ends, Staying, Ending;
    match d
    case Joined(job, done) => JoinKeeps(e, v, Filling(job, done, v.next));
    case Started(job) => BeginKeeps(e, v, job);
    case Refused(_, _, _) =>
    case Denied(job, _, _) => FailKeeps(e, v, job);
    case Undrawn(job) => FailKeeps(e, v, job);
    case Advanced(len) => AdvanceKeeps(e, v, len);
    case Broke => GiveUpKeeps(e, v, Failed);
    case Left => GiveUpKeeps(e, v, Parked);
    case Went(hists) => RolledKeeps(e, v, hists);
    case Stopped => StoppedKeeps(e, v);
    case Quit(at) =>
      QuitKeeps(e, v, at);
      SentOk(e, v.sending[at], Cancelled);
      OverKeeps(e, v.(sending := SwapRemove(v.sending, at)), Over(v.sending[at].job, v.sending[at].hist, Cancelled));
    case Unseen =>
  }

  lemma FailKeeps(e: Engine, v: View, job: Job)
    requires e.m.Valid() && Sound(e, v) && JobOk(e.argmax, job)
    ensures Sound(e, v.(over := v.over + [Over(job, job.ids, Failed)]))
  {
    hide Sound, OverOk, Greedy;
    PromptOk(e, job, Failed);
    OverKeeps(e, v, Over(job, job.ids, Failed));
  }

  lemma AdvanceKeeps(e: Engine, v: View, len: nat)
    requires Sound(e, v) && Possible(e, v, Advanced(len))
    ensures Sound(e, Then(e, v, Advanced(len)))
  {
    hide Sound, OverOk, SendingOk, Greedy, Next, Ends;
    PopKeeps(e, v);
    var p := v.filling[0];
    if p.done + len < |p.job.ids| {
      BackKeeps(e, v, p.(done := p.done + len));
    } else {
      BeginKeeps(e, v.(filling := v.filling[1..]), p.job);
    }
  }

  lemma GiveUpKeeps(e: Engine, v: View, how: How)
    requires e.m.Valid() && Sound(e, v) && v.filling != [] && how != Ended
    ensures Sound(e, v.(filling := v.filling[1..], over := v.over + [Over(v.filling[0].job, v.filling[0].job.ids, how)]))
  {
    hide Sound, OverOk, SendingOk, Greedy;
    PopKeeps(e, v);
    PromptOk(e, v.filling[0].job, how);
    OverKeeps(e, v.(filling := v.filling[1..]), Over(v.filling[0].job, v.filling[0].job.ids, how));
  }

  // ---- No request is lost.

  function FillingJobs(ps: seq<Filling>): (r: seq<Job>)
    ensures |r| == |ps|
  {
    seq(|ps|, i requires 0 <= i < |ps| => ps[i].job)
  }

  function SendingJobs(ss: seq<Sending>): (r: seq<Job>)
    ensures |r| == |ss|
  {
    seq(|ss|, i requires 0 <= i < |ss| => ss[i].job)
  }

  function OverJobs(os: seq<Over>): (r: seq<Job>)
    ensures |r| == |os|
  {
    seq(|os|, i requires 0 <= i < |os| => os[i].job)
  }

  /** Every request admitted so far, wherever it is now. */
  ghost function Jobs(v: View): multiset<Job> {
    multiset(FillingJobs(v.filling)) + multiset(SendingJobs(v.sending)) + multiset(OverJobs(v.over))
  }

  /** What a step admits. */
  ghost function Came(d: Did): multiset<Job> {
    match d
    case Joined(job, _) => multiset{job}
    case Started(job) => multiset{job}
    case Denied(job, _, _) => multiset{job}
    case Undrawn(job) => multiset{job}
    case _ => multiset{}
  }

  lemma FillingPush(ps: seq<Filling>, p: Filling)
    ensures multiset(FillingJobs(ps + [p])) == multiset(FillingJobs(ps)) + multiset{p.job}
  {
    assert FillingJobs(ps + [p]) == FillingJobs(ps) + [p.job];
  }

  lemma FillingPop(ps: seq<Filling>)
    requires ps != []
    ensures multiset(FillingJobs(ps)) == multiset{ps[0].job} + multiset(FillingJobs(ps[1..]))
  {
    assert FillingJobs(ps) == [ps[0].job] + FillingJobs(ps[1..]);
  }

  lemma SendingPush(ss: seq<Sending>, s: Sending)
    ensures multiset(SendingJobs(ss + [s])) == multiset(SendingJobs(ss)) + multiset{s.job}
  {
    assert SendingJobs(ss + [s]) == SendingJobs(ss) + [s.job];
  }

  lemma OverPush(os: seq<Over>, o: Over)
    ensures multiset(OverJobs(os + [o])) == multiset(OverJobs(os)) + multiset{o.job}
  {
    assert OverJobs(os + [o]) == OverJobs(os) + [o.job];
  }

  lemma OverJoin(a: seq<Over>, b: seq<Over>)
    ensures multiset(OverJobs(a + b)) == multiset(OverJobs(a)) + multiset(OverJobs(b))
  {
    assert OverJobs(a + b) == OverJobs(a) + OverJobs(b);
  }

  lemma {:induction false} RoundJobs(eos: set<Token>, ss: seq<Sending>, hists: seq<seq<Token>>)
    requires |ss| == |hists|
    ensures multiset(SendingJobs(Staying(eos, ss, hists))) + multiset(OverJobs(Ending(eos, ss, hists))) == multiset(SendingJobs(ss))
  {
    hide SendingJobs, OverJobs, Ends;
    if ss == [] {
      assert SendingJobs([]) == [] && OverJobs([]) == [];
    } else {
      var k := |ss| - 1;
      RoundJobs(eos, ss[..k], hists[..k]);
      assert ss == ss[..k] + [ss[k]];
      SendingPush(ss[..k], ss[k]);
      if Ends(eos, ss[k].job, hists[k]) {
        assert Staying(eos, ss, hists) == Staying(eos, ss[..k], hists[..k]);
        OverPush(Ending(eos, ss[..k], hists[..k]), Over(ss[k].job, hists[k], Ended));
      } else {
        assert Ending(eos, ss, hists) == Ending(eos, ss[..k], hists[..k]);
        SendingPush(Staying(eos, ss[..k], hists[..k]), Sending(ss[k].job, hists[k]));
      }
    }
  }

  lemma BeginJobs(e: Engine, v: View, job: Job)
    requires e.m.Valid() && job.ids != []
    ensures Jobs(Begin(e, v, job)) == Jobs(v) + multiset{job}
  {
    hide FillingJobs, SendingJobs, OverJobs, Next, Ends;
    var h := job.ids + [Next(e.m, job.pick, |job.ids|, job.ids)];
    OverPush(v.over, Over(job, h, Ended));
    SendingPush(v.sending, Sending(job, h));
  }

  lemma PopJobs(v: View)
    requires v.filling != []
    ensures Jobs(v) == Jobs(v.(filling := v.filling[1..])) + multiset{v.filling[0].job}
  {
    hide FillingJobs, SendingJobs, OverJobs;
    FillingPop(v.filling);
  }

  lemma OverTakes(v: View, o: Over)
    ensures Jobs(v.(over := v.over + [o])) == Jobs(v) + multiset{o.job}
  {
    hide FillingJobs, SendingJobs, OverJobs;
    OverPush(v.over, o);
  }

  lemma SwapJobs(ss: seq<Sending>, at: nat)
    requires at < |ss|
    ensures multiset(SendingJobs(ss)) == multiset(SendingJobs(SwapRemove(ss, at))) + multiset{ss[at].job}
  {
    var js, rest := SendingJobs(ss), SendingJobs(SwapRemove(ss, at));
    var last := |ss| - 1;
    assert rest == js[at := js[last]][..last];
    assert js[at := js[last]] == rest + [js[last]];
    assert multiset(js[at := js[last]]) == multiset(rest) + multiset{js[last]};
  }

  lemma QuitJobs(v: View, at: nat)
    requires at < |v.sending|
    ensures var s := v.sending[at];
      Jobs(v.(sending := SwapRemove(v.sending, at), over := v.over + [Over(s.job, s.hist, Cancelled)])) == Jobs(v)
  {
    hide FillingJobs, SendingJobs, OverJobs, SwapRemove;
    SwapJobs(v.sending, at);
    OverPush(v.over, Over(v.sending[at].job, v.sending[at].hist, Cancelled));
  }

  /** A step moves requests and admits at most one; it never loses or doubles any. */
  lemma StepConserves(e: Engine, v: View, d: Did)
    requires Possible(e, v, d)
    ensures Jobs(Then(e, v, d)) == Jobs(v) + Came(d)
  {
    hide Jobs, Greedy, RolledTo;
    match d
    case Joined(job, done) => JoinedJobs(v, Filling(job, done, v.next));
    case Started(job) => BeginJobs(e, v, job);
    case Denied(job, _, _) => OverTakes(v, Over(job, job.ids, Failed));
    case Undrawn(job) => OverTakes(v, Over(job, job.ids, Failed));
    case Advanced(len) => AdvancedJobs(e, v, len);
    case Broke => GivenUpJobs(v, Failed);
    case Left => GivenUpJobs(v, Parked);
    case Went(hists) => RolledJobs(e.eos, v, hists);
    case Stopped => StoppedJobs(v);
    case Quit(at) => QuitJobs(v, at);
    case _ =>
  }

  lemma JoinedJobs(v: View, p: Filling)
    ensures Jobs(v.(filling := v.filling + [p], next := v.next + 1)) == Jobs(v) + multiset{p.job}
  {
    hide FillingJobs, SendingJobs, OverJobs;
    FillingPush(v.filling, p);
  }

  lemma GivenUpJobs(v: View, how: How)
    requires v.filling != []
    ensures Jobs(v.(filling := v.filling[1..], over := v.over + [Over(v.filling[0].job, v.filling[0].job.ids, how)])) == Jobs(v)
  {
    hide FillingJobs, SendingJobs, OverJobs;
    FillingPop(v.filling);
    OverPush(v.over, Over(v.filling[0].job, v.filling[0].job.ids, how));
  }

  lemma RolledJobs(eos: set<Token>, v: View, hists: seq<seq<Token>>)
    requires |v.sending| == |hists|
    ensures Jobs(v.(sending := Staying(eos, v.sending, hists), over := v.over + Ending(eos, v.sending, hists))) == Jobs(v)
  {
    hide FillingJobs, SendingJobs, OverJobs, Staying, Ending;
    RoundJobs(eos, v.sending, hists);
    OverJoin(v.over, Ending(eos, v.sending, hists));
  }

  lemma AdvancedJobs(e: Engine, v: View, len: nat)
    requires Possible(e, v, Advanced(len))
    ensures Jobs(Then(e, v, Advanced(len))) == Jobs(v)
  {
    hide FillingJobs, SendingJobs, OverJobs, Next, Ends;
    PopJobs(v);
    var p, rest := v.filling[0], v.(filling := v.filling[1..]);
    if p.done + len >= |p.job.ids| {
      BeginJobs(e, rest, p.job);
    } else {
      FillingPush(rest.filling, p.(done := p.done + len));
    }
  }

  lemma StoppedJobs(v: View)
    ensures Jobs(v.(sending := [], over := v.over + Failing(v.sending))) == Jobs(v)
  {
    OverJoin(v.over, Failing(v.sending));
    assert OverJobs(Failing(v.sending)) == SendingJobs(v.sending);
    assert SendingJobs([]) == [];
  }

  // ---- Prompts that extend one another.

  /** The prompt starts with one in flight that is long enough to be worth waiting for. */
  predicate Extends(ids: seq<Token>, inflight: seq<Token>) {
    |inflight| >= MIN_RETAIN && inflight <= ids
  }

  predicate ExtendsAny(ids: seq<Token>, ps: seq<Filling>) {
    exists i :: 0 <= i < |ps| && Extends(ids, ps[i].job.ids)
  }

  /** No prompt in flight extends one that was admitted before it. */
  ghost predicate Ordered(v: View) {
    forall i, j :: 0 <= i < |v.filling| && 0 <= j < |v.filling| && v.filling[i].since < v.filling[j].since ==>
                     !Extends(v.filling[j].job.ids, v.filling[i].job.ids)
  }

  /** A step keeps them so, if what it admits extends none of them. */
  lemma OrderKept(e: Engine, v: View, d: Did)
    requires Sound(e, v) && Ordered(v) && Possible(e, v, d) && (d.Joined? ==> !ExtendsAny(d.job.ids, v.filling))
    ensures Ordered(Then(e, v, d))
  {
    hide Extends, FillingOk, SendingOk, OverOk, Next, Ends, Staying, Ending, RolledTo, JobOk;
    var w := Then(e, v, d);
    if d.Advanced? {
      var p := v.filling[0];
      forall i | 0 <= i < |w.filling|
        ensures exists k :: 0 <= k < |v.filling| && v.filling[k].since == w.filling[i].since && v.filling[k].job == w.filling[i].job
      {
        var k := if i == |v.filling| - 1 then 0 else i + 1;
        assert v.filling[k].since == w.filling[i].since;
      }
    }
  }

  // ---- Every request ends.

  function Sum(s: seq<nat>): nat {
    if s == [] then 0 else Sum(s[..|s| - 1]) + s[|s| - 1]
  }

  lemma {:induction false} SumJoin(a: seq<nat>, b: seq<nat>)
    ensures Sum(a + b) == Sum(a) + Sum(b)
  {
    if b == [] {
      assert a + b == a;
    } else {
      var k := |b| - 1;
      assert (a + b)[..|a| + k] == a + b[..k];
      SumJoin(a, b[..k]);
    }
  }

  lemma SumPush(s: seq<nat>, x: nat)
    ensures Sum(s + [x]) == Sum(s) + x
  {
    assert (s + [x])[..|s|] == s;
  }

  lemma {:induction false} SumUpdate(s: seq<nat>, i: nat, x: nat)
    requires i < |s|
    ensures Sum(s[i := x]) + s[i] == Sum(s) + x
  {
    var k := |s| - 1;
    if i < k {
      assert s[i := x][..k] == s[..k][i := x];
      SumUpdate(s[..k], i, x);
    } else {
      assert s[i := x][..k] == s[..k];
    }
  }

  /** How many steps at most a prompt or a running request still takes. */
  function PromptWork(p: Filling): nat {
    (if p.done < |p.job.ids| then |p.job.ids| - p.done else 0) + p.job.max
  }

  function SendWork(s: Sending): nat {
    if |s.hist| < |s.job.ids| + s.job.max then |s.job.ids| + s.job.max - |s.hist| else 0
  }

  function PromptWorks(ps: seq<Filling>): (r: seq<nat>)
    ensures |r| == |ps| && forall i :: 0 <= i < |r| ==> r[i] == PromptWork(ps[i])
  {
    seq(|ps|, i requires 0 <= i < |ps| => PromptWork(ps[i]))
  }

  function SendWorks(ss: seq<Sending>): (r: seq<nat>)
    ensures |r| == |ss| && forall i :: 0 <= i < |r| ==> r[i] == SendWork(ss[i])
  {
    seq(|ss|, i requires 0 <= i < |ss| => SendWork(ss[i]))
  }

  function Work(v: View): nat {
    Sum(PromptWorks(v.filling)) + Sum(SendWorks(v.sending))
  }

  /** The steps that take a request that is held further. */
  predicate Moves(d: Did) {
    d.Advanced? || d.Broke? || d.Left? || d.Went? || d.Stopped? || d.Quit?
  }

  lemma PromptPop(ps: seq<Filling>)
    requires ps != []
    ensures Sum(PromptWorks(ps)) == PromptWork(ps[0]) + Sum(PromptWorks(ps[1..]))
  {
    hide Sum;
    var s, rest := PromptWorks(ps), PromptWorks(ps[1..]);
    assert s == [s[0]] + rest;
    SumJoin([s[0]], rest);
    SumOne(s[0]);
  }

  lemma SumOne(x: nat)
    ensures Sum([x]) == x
  {
  }

  lemma PromptPush(ps: seq<Filling>, p: Filling)
    ensures Sum(PromptWorks(ps + [p])) == Sum(PromptWorks(ps)) + PromptWork(p)
  {
    assert PromptWorks(ps + [p]) == PromptWorks(ps) + [PromptWork(p)];
    SumPush(PromptWorks(ps), PromptWork(p));
  }

  lemma SendPush(ss: seq<Sending>, s: Sending)
    ensures Sum(SendWorks(ss + [s])) == Sum(SendWorks(ss)) + SendWork(s)
  {
    assert SendWorks(ss + [s]) == SendWorks(ss) + [SendWork(s)];
    SumPush(SendWorks(ss), SendWork(s));
  }

  lemma SendSwap(ss: seq<Sending>, at: nat)
    requires at < |ss|
    ensures Sum(SendWorks(SwapRemove(ss, at))) + SendWork(ss[at]) == Sum(SendWorks(ss))
  {
    var w, last := SendWorks(ss), |ss| - 1;
    var moved := w[at := w[last]];
    SumUpdate(w, at, w[last]);
    assert moved == SendWorks(SwapRemove(ss, at)) + [w[last]];
    SumPush(SendWorks(SwapRemove(ss, at)), w[last]);
  }

  /** A round takes at least one off each. */
  lemma {:induction false} RoundWork(e: Engine, ss: seq<Sending>, hists: seq<seq<Token>>)
    requires |ss| == |hists| && forall i :: 0 <= i < |ss| ==> SendingOk(e, ss[i]) && RolledTo(e, ss[i], hists[i])
    ensures Sum(SendWorks(Staying(e.eos, ss, hists))) + |ss| <= Sum(SendWorks(ss))
  {
    hide Target, SendWorks, SendingOk, RolledTo;
    if ss == [] {
    } else {
      var k := |ss| - 1;
      RoundWork(e, ss[..k], hists[..k]);
      assert ss == ss[..k] + [ss[k]];
      SendPush(ss[..k], ss[k]);
      LessWork(e, ss[k], hists[k]);
      if Ends(e.eos, ss[k].job, hists[k]) {
        assert Staying(e.eos, ss, hists) == Staying(e.eos, ss[..k], hists[..k]);
      } else {
        SendPush(Staying(e.eos, ss[..k], hists[..k]), Sending(ss[k].job, hists[k]));
      }
    }
  }

  lemma LessWork(e: Engine, s: Sending, h: seq<Token>)
    requires SendingOk(e, s) && RolledTo(e, s, h)
    ensures SendWork(s) >= 1 && SendWork(Sending(s.job, h)) + 1 <= SendWork(s)
  {
    hide DecodeRun;
  }

  lemma {:induction false} HeldWork(e: Engine, ss: seq<Sending>)
    requires forall i :: 0 <= i < |ss| ==> SendingOk(e, ss[i])
    ensures Sum(SendWorks(ss)) >= |ss|
  {
    hide SendWorks, Target;
    if ss != [] {
      var k := |ss| - 1;
      HeldWork(e, ss[..k]);
      assert ss == ss[..k] + [ss[k]];
      SendPush(ss[..k], ss[k]);
      assert SendingOk(e, ss[k]);
    }
  }

  lemma BeginWork(e: Engine, v: View, job: Job)
    requires e.m.Valid() && JobOk(e.argmax, job)
    ensures Work(Begin(e, v, job)) <= Work(v) + job.max - 1
  {
    hide PromptWorks, SendWorks, Next, Sum, Ends;
    var h := job.ids + [Next(e.m, job.pick, |job.ids|, job.ids)];
    SendPush(v.sending, Sending(job, h));
  }

  lemma AdvanceWork(e: Engine, v: View, len: nat)
    requires Sound(e, v) && Possible(e, v, Advanced(len))
    ensures Work(Then(e, v, Advanced(len))) + 1 <= Work(v)
  {
    hide PromptWorks, SendWorks, Next, Sum, Ends, Begin, SendingOk, OverOk, Greedy;
    var p, rest := v.filling[0], v.(filling := v.filling[1..]);
    assert FillingOk(e, p);
    PromptPop(v.filling);
    if p.done + len < |p.job.ids| {
      PromptPush(rest.filling, p.(done := p.done + len));
    } else {
      BeginWork(e, rest, p.job);
    }
  }

  /** Every step on a request that is held leaves less to do, and no other adds to it except by
      admitting one. */
  lemma StepWorks(e: Engine, v: View, d: Did)
    requires Sound(e, v) && Possible(e, v, d) && !d.Joined? && !d.Started?
    ensures Work(Then(e, v, d)) + (if Moves(d) then 1 else 0) <= Work(v)
  {
    hide PromptWorks, SendWorks, Next, Sum, Ends, Begin, SendingOk, OverOk, Greedy, Staying, Ending, RolledTo, SwapRemove;
    match d
    case Advanced(len) => AdvanceWork(e, v, len);
    case Broke => GiveUpWork(e, v);
    case Left => GiveUpWork(e, v);
    case Went(hists) => RoundWork(e, v.sending, hists);
    case Stopped =>
      HeldWork(e, v.sending);
      NoWork();
    case Quit(at) =>
      SendSwap(v.sending, at);
      OneWork(e, v.sending[at]);
    case _ =>
  }

  lemma NoWork()
    ensures Sum(SendWorks([])) == 0 && Sum(PromptWorks([])) == 0
  {
  }

  lemma OneWork(e: Engine, s: Sending)
    requires SendingOk(e, s)
    ensures SendWork(s) >= 1
  {
    hide DecodeRun;
  }

  lemma GiveUpWork(e: Engine, v: View)
    requires Sound(e, v) && v.filling != []
    ensures Sum(PromptWorks(v.filling[1..])) + 1 <= Sum(PromptWorks(v.filling))
  {
    hide PromptWorks, Sum, SendingOk, OverOk, Greedy;
    assert FillingOk(e, v.filling[0]);
    PromptPop(v.filling);
  }

  // ---- Runs.

  /** After all of `ds`, as far as they can happen. */
  ghost function ThenAll(e: Engine, v: View, ds: seq<Did>): View {
    if ds == [] then v
    else
      var w := ThenAll(e, v, ds[..|ds| - 1]);
      if Possible(e, w, ds[|ds| - 1]) then Then(e, w, ds[|ds| - 1]) else w
  }

  ghost predicate AllPossible(e: Engine, v: View, ds: seq<Did>) {
    forall i :: 0 <= i < |ds| ==> Possible(e, ThenAll(e, v, ds[..i]), ds[i])
  }

  ghost function CameAll(ds: seq<Did>): multiset<Job> {
    if ds == [] then multiset{} else CameAll(ds[..|ds| - 1]) + Came(ds[|ds| - 1])
  }

  function StepsTaken(ds: seq<Did>): nat {
    if ds == [] then 0 else StepsTaken(ds[..|ds| - 1]) + if Moves(ds[|ds| - 1]) then 1 else 0
  }

  lemma RunPush(e: Engine, v: View, ds: seq<Did>, d: Did)
    requires AllPossible(e, v, ds) && Possible(e, ThenAll(e, v, ds), d)
    ensures AllPossible(e, v, ds + [d]) && ThenAll(e, v, ds + [d]) == Then(e, ThenAll(e, v, ds), d)
  {
    hide Possible, Then, ThenAll;
    var more := ds + [d];
    assert more[..|ds|] == ds;
    forall i | 0 <= i < |more|
      ensures Possible(e, ThenAll(e, v, more[..i]), more[i])
    {
      assert i < |ds| ==> more[..i] == ds[..i] && more[i] == ds[i];
    }
    RunLast(e, v, more);
  }

  lemma RunInit(e: Engine, v: View, ds: seq<Did>)
    requires ds != [] && AllPossible(e, v, ds)
    ensures var k := |ds| - 1;
      AllPossible(e, v, ds[..k]) && Possible(e, ThenAll(e, v, ds[..k]), ds[k]) &&
      ThenAll(e, v, ds) == Then(e, ThenAll(e, v, ds[..k]), ds[k])
  {
    hide Possible, Then, ThenAll;
    var k := |ds| - 1;
    assert forall i :: 0 <= i < k ==> ds[..k][..i] == ds[..i];
    assert Possible(e, ThenAll(e, v, ds[..k]), ds[k]);
    RunLast(e, v, ds);
  }

  lemma RunLast(e: Engine, v: View, ds: seq<Did>)
    requires ds != [] && Possible(e, ThenAll(e, v, ds[..|ds| - 1]), ds[|ds| - 1])
    ensures ThenAll(e, v, ds) == Then(e, ThenAll(e, v, ds[..|ds| - 1]), ds[|ds| - 1])
  {
    hide Possible, Then;
  }

  /** Over every run: what has been sent lies on the reference runs, and what has ended stays. */
  lemma {:induction false} RunSound(e: Engine, v: View, ds: seq<Did>)
    requires Sound(e, v) && AllPossible(e, v, ds)
    ensures Sound(e, ThenAll(e, v, ds)) && v.over <= ThenAll(e, v, ds).over
  {
    hide Sound, Possible, Then;
    if ds != [] {
      hide AllPossible;
      RunInit(e, v, ds);
      RunSound(e, v, ds[..|ds| - 1]);
      StepKeeps(e, ThenAll(e, v, ds[..|ds| - 1]), ds[|ds| - 1]);
    }
  }

  /** Over every run each request admitted is in exactly one place: prefilling, running or over. */
  lemma {:induction false} RunConserves(e: Engine, v: View, ds: seq<Did>)
    requires AllPossible(e, v, ds)
    ensures Jobs(ThenAll(e, v, ds)) == Jobs(v) + CameAll(ds)
  {
    hide Possible, Then, Jobs;
    if ds != [] {
      hide AllPossible;
      RunInit(e, v, ds);
      RunConserves(e, v, ds[..|ds| - 1]);
      StepConserves(e, ThenAll(e, v, ds[..|ds| - 1]), ds[|ds| - 1]);
    }
  }

  /** No run without arrivals takes more steps than there is work, and one that takes as many leaves
      nothing behind: every request ends. */
  lemma RunEnds(e: Engine, v: View, ds: seq<Did>)
    requires Sound(e, v) && AllPossible(e, v, ds) && forall i :: 0 <= i < |ds| ==> !ds[i].Joined? && !ds[i].Started?
    ensures Work(ThenAll(e, v, ds)) + StepsTaken(ds) <= Work(v)
    ensures StepsTaken(ds) == Work(v) ==> ThenAll(e, v, ds).filling == [] && ThenAll(e, v, ds).sending == []
  {
    hide Sound, Possible, Then, AllPossible, ThenAll, StepsTaken, Work;
    RunWorks(e, v, ds);
    RunSound(e, v, ds);
    if StepsTaken(ds) == Work(v) {
      WorkHeld(e, ThenAll(e, v, ds));
    }
  }

  lemma {:induction false} RunWorks(e: Engine, v: View, ds: seq<Did>)
    requires Sound(e, v) && AllPossible(e, v, ds) && forall i :: 0 <= i < |ds| ==> !ds[i].Joined? && !ds[i].Started?
    ensures Work(ThenAll(e, v, ds)) + StepsTaken(ds) <= Work(v)
  {
    hide Sound, Possible, Then, Work;
    if ds != [] {
      hide AllPossible;
      var k := |ds| - 1;
      RunInit(e, v, ds);
      RunSound(e, v, ds[..k]);
      RunWorks(e, v, ds[..k]);
      StepWorks(e, ThenAll(e, v, ds[..k]), ds[k]);
    }
  }

  lemma WorkHeld(e: Engine, v: View)
    requires Sound(e, v) && Work(v) == 0
    ensures v.filling == [] && v.sending == []
  {
    hide PromptWorks, SendWorks, Sum, SendingOk, OverOk, Greedy;
    HeldWork(e, v.sending);
    if v.filling != [] {
      GiveUpWork(e, v);
    }
  }

  /** Over every run that admits only what extends no prompt in flight, none extends an earlier. */
  lemma {:induction false} RunOrdered(e: Engine, v: View, ds: seq<Did>)
    requires Sound(e, v) && Ordered(v) && AllPossible(e, v, ds)
    requires forall i :: 0 <= i < |ds| && ds[i].Joined? ==> !ExtendsAny(ds[i].job.ids, ThenAll(e, v, ds[..i]).filling)
    ensures Ordered(ThenAll(e, v, ds))
  {
    hide Sound, Possible, Then, Ordered, ExtendsAny;
    if ds != [] {
      var k := |ds| - 1;
      assert forall i :: 0 <= i < k ==> ds[..k][..i] == ds[..i];
      assert ds[k].Joined? ==> !ExtendsAny(ds[k].job.ids, ThenAll(e, v, ds[..k]).filling);
      hide AllPossible;
      RunInit(e, v, ds);
      RunSound(e, v, ds[..k]);
      RunOrdered(e, v, ds[..k]);
      OrderKept(e, ThenAll(e, v, ds[..k]), ds[k]);
    }
  }
}
