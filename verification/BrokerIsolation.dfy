/** A subscriber is untouched by how fast the other subscribers read. */
module BrokerIsolation {
  import opened BrokerSteps

  /** A subscriber other than id takes an event, or finds its channel closed. */
  predicate OthersRead(step: Step, id: nat) {
    (step.Receive? || step.ReceiveClosed?) && step.id != id
  }

  /** The run without the reads of other subscribers. */
  function OwnPart(steps: seq<Step>, id: nat): seq<Step> {
    if steps == [] then []
    else if OthersRead(steps[0], id) then OwnPart(steps[1..], id)
    else [steps[0]] + OwnPart(steps[1..], id)
  }

  ghost predicate SameLocks(s: State, t: State) {
    && s.bufSize == t.bufSize && s.nextID == t.nextID && s.subscribers == t.subscribers
    && s.readers == t.readers && s.writer == t.writer && s.panicked == t.panicked
  }

  /** The same channels, open or closed alike, and for id with the same contents. */
  ghost predicate SameChannels(s: State, t: State, id: nat) {
    && s.chans.Keys == t.chans.Keys
    && (forall j :: j in s.chans ==> s.chans[j].closed == t.chans[j].closed)
    && (id in s.chans ==> s.chans[id] == t.chans[id])
  }

  /** The states differ at most in what the channels of other subscribers hold. */
  ghost predicate AlikeFor(s: State, t: State, id: nat) {
    SameLocks(s, t) && SameChannels(s, t, id)
  }

  lemma OthersReadKeepsAlike(s: State, t: State, step: Step, id: nat)
    requires AlikeFor(s, t, id) && Enabled(s, step) && OthersRead(step, id)
    ensures AlikeFor(Next(s, step), t, id)
  {
  }

  lemma EnabledAlike(s: State, t: State, step: Step, id: nat)
    requires AlikeFor(s, t, id) && Enabled(s, step) && !OthersRead(step, id)
    ensures Enabled(t, step)
  {
  }

  lemma StepKeepsSameLocks(s: State, t: State, step: Step, id: nat)
    requires AlikeFor(s, t, id) && Enabled(s, step) && Enabled(t, step)
    ensures SameLocks(Next(s, step), Next(t, step))
  {
    match step
    case SendOne(p, to) => assert ChanAt(s, to).closed == ChanAt(t, to).closed;
    case CloseChannel => assert ChanAt(s, s.writer.id).closed == ChanAt(t, s.writer.id).closed;
    case _ =>
  }

  lemma StepKeepsSameChannels(s: State, t: State, step: Step, id: nat)
    requires AlikeFor(s, t, id) && Enabled(s, step) && Enabled(t, step) && !OthersRead(step, id)
    ensures SameChannels(Next(s, step), Next(t, step), id)
  {
    match step
    case SendOne(p, to) => assert ChanAt(s, to).closed == ChanAt(t, to).closed;
    case CloseChannel => assert ChanAt(s, s.writer.id).closed == ChanAt(t, s.writer.id).closed;
    case _ =>
  }

  lemma {:induction false} OwnPartRuns(s: State, t: State, steps: seq<Step>, id: nat)
    requires AlikeFor(s, t, id) && Admissible(s, steps)
    ensures Admissible(t, OwnPart(steps, id))
    ensures AlikeFor(Exec(s, steps), Exec(t, OwnPart(steps, id)), id)
    decreases |steps|
  {
    if steps != [] {
      var next := Next(s, steps[0]);
      if OthersRead(steps[0], id) {
        OthersReadKeepsAlike(s, t, steps[0], id);
        OwnPartRuns(next, t, steps[1..], id);
      } else {
        EnabledAlike(s, t, steps[0], id);
        StepKeepsSameLocks(s, t, steps[0], id);
        StepKeepsSameChannels(s, t, steps[0], id);
        OwnPartRuns(next, Next(t, steps[0]), steps[1..], id);
        ExecCons(t, steps[0], OwnPart(steps[1..], id));
      }
    }
  }

  /** Whatever the other subscribers read and when, the run would have gone the same way for id
      had they read nothing: the same events offered, received, waiting and dropped. */
  lemma ReadsOfOthersDoNotMatter(s: State, steps: seq<Step>, id: nat)
    requires Admissible(s, steps)
    ensures Admissible(s, OwnPart(steps, id))
    ensures ChanAt(Exec(s, OwnPart(steps, id)), id) == ChanAt(Exec(s, steps), id)
  {
    OwnPartRuns(s, s, steps, id);
  }

  /** One subscriber's slowness never changes what another receives: two runs that differ in
      nothing but when, how often and whether the others read leave id with the same channel. */
  lemma SlownessDoesNotSpread(s: State, one: seq<Step>, two: seq<Step>, id: nat)
    requires Admissible(s, one) && Admissible(s, two)
    requires OwnPart(one, id) == OwnPart(two, id)
    ensures ChanAt(Exec(s, one), id) == ChanAt(Exec(s, two), id)
  {
    ReadsOfOthersDoNotMatter(s, one, id);
    ReadsOfOthersDoNotMatter(s, two, id);
  }
}
