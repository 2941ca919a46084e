/**
 * From a producer that pushes to a consumer that pulls: values come out in the order
 * they went in, and a push is over once the consumer asks for what is next. A step is
 * what runs without being suspended.
 */
module ListenerSource {
  import Machine

  /** Where the generator is suspended. `Woken`: its wait is over and it has not gone on yet. */
  datatype Place = Unstarted | Yielding | Blocked | Woken | Ended

  /**
   * `emitted` are the values the listener was called with before the consumer left,
   * `yielded` those the consumer was given, `returned` how many of the calls have
   * returned; `left` that the consumer stopped pulling; `wakeDue` that the producer is
   * done and is still to wake the generator.
   */
  datatype Source = Source(
    place: Place, queue: seq<int>, emitted: seq<int>, yielded: seq<int>, returned: nat,
    settled: bool, wakeDue: bool, released: bool, left: bool)

  datatype Step =
    | Ask               // the consumer asks for the next value
    | GoOn              // the generator goes on after its wait
    | Emit(value: int)  // the producer calls the listener
    | Settle            // the producer is done
    | WakeLate          // and wakes the generator
    | Leave             // the consumer stops pulling

  const UNSTARTED := Source(Unstarted, [], [], [], 0, false, false, false, false)

  /** The loop of the generator, up to where it is suspended next. */
  function Advanced(s: Source): Source {
    if s.queue != [] then
      s.(place := Yielding, queue := s.queue[1..], yielded := s.yielded + [s.queue[0]])
    else if s.settled then Released(s)
    else s.(place := Blocked)
  }

  /** Every call that waits returns, and later ones return at once. */
  function Released(s: Source): Source {
    s.(place := Ended, released := true, queue := [], returned := |s.emitted|)
  }

  function Woke(s: Source): Source { if s.place.Blocked? then s.(place := Woken) else s }

  function Do(s: Source, step: Step): Source {
    match step
    case Ask =>
      if s.place.Unstarted? then Advanced(s)
      else if s.place.Yielding? then Advanced(s.(returned := s.returned + 1))
      else s
    case GoOn => if s.place.Woken? then Advanced(s) else s
    case Emit(value) =>
      if s.place.Unstarted? || s.released then s
      else Woke(s.(queue := s.queue + [value], emitted := s.emitted + [value]))
    case Settle => if s.place.Unstarted? || s.settled then s else s.(settled := true, wakeDue := true)
    case WakeLate => if s.wakeDue then Woke(s.(wakeDue := false)) else s
    case Leave =>
      if s.place.Unstarted? then s.(place := Ended, released := true, left := true)
      else if s.place.Yielding? then Released(s).(left := true)
      else s
  }

  function Run(steps: seq<Step>): Source { Machine.Run(Do, UNSTARTED, steps) }

  // ---- what every step keeps ----

  ghost predicate Inv(s: Source) {
    && (!s.released ==> s.emitted == s.yielded + s.queue && !s.place.Ended?)
    && (!s.released ==> s.returned + (if s.place.Yielding? then 1 else 0) == |s.yielded|)
    && (s.released ==> s.place.Ended? && s.queue == [] && s.returned == |s.emitted| && s.yielded <= s.emitted)
    && (s.place.Ended? && !s.left ==> s.settled && s.yielded == s.emitted)
    && (!s.released ==> !s.left)
    && (s.place.Blocked? ==> s.queue == [] && (s.settled ==> s.wakeDue))
    && (s.place.Unstarted? ==> s == UNSTARTED)
  }

  lemma AdvanceKeeps(s: Source)
    requires !s.released && !s.left && s.emitted == s.yielded + s.queue && s.returned == |s.yielded|
    requires s.settled ==> !s.place.Unstarted?
    ensures Inv(Advanced(s))
  {
    if s.queue != [] { assert s.queue == [s.queue[0]] + s.queue[1..]; }
  }

  lemma StepKeeps(s: Source, step: Step)
    requires Inv(s)
    ensures Inv(Do(s, step))
  {
    match step
    case Ask =>
      if s.place.Unstarted? { AdvanceKeeps(s); }
      if s.place.Yielding? { AdvanceKeeps(s.(returned := s.returned + 1)); }
    case GoOn => if s.place.Woken? { AdvanceKeeps(s); }
    case Emit(value) => assert s.yielded + s.queue + [value] == s.yielded + (s.queue + [value]);
    case _ =>
  }

  lemma RunKeeps(steps: seq<Step>)
    ensures Inv(Run(steps))
  {
    forall s, step | Inv(s) ensures Inv(Do(s, step)) {
      StepKeeps(s, step);
    }
    Machine.EveryRunKeeps(Do, Inv, UNSTARTED, steps);
  }

  /**
   * The consumer is given the emitted values in order and without loss; until it
   * leaves, a call of the listener has returned exactly when its value was passed;
   * when it has left, or the source has ended, every call has returned; and a source
   * that ended without being left has given out everything.
   */
  lemma ListenerIsFaithful(steps: seq<Step>)
    ensures var s := Run(steps);
            && s.yielded <= s.emitted
            && (!s.released ==> s.returned == |s.yielded| - if s.place.Yielding? then 1 else 0)
            && (s.released ==> s.returned == |s.emitted|)
            && (s.place.Ended? && !s.left ==> s.settled && s.yielded == s.emitted)
  {
    RunKeeps(steps);
  }

  /** The generator does not wait while there is a value, or when the producer is done and has woken it. */
  lemma NeverBlockedOnWork(steps: seq<Step>)
    requires Run(steps).place.Blocked?
    ensures Run(steps).queue == [] && (Run(steps).settled ==> Run(steps).wakeDue)
  {
    RunKeeps(steps);
  }

  // ---- a producer that waits for its listener ----

  /** The producer calls the listener again only when its last call has returned. */
  predicate Waits(s: Source, step: Step) { step.Emit? ==> s.returned == |s.emitted| }

  ghost predicate OneAhead(s: Source) { Inv(s) && |s.emitted| <= s.returned + 1 }

  /** Such a producer is never more than one value ahead of what the consumer has passed. */
  lemma WaitingProducerIsOneAhead(steps: seq<Step>)
    requires Machine.Allowed(Do, Waits, UNSTARTED, steps)
    ensures var s := Run(steps); |s.emitted| <= s.returned + 1 && |s.queue| <= 1
  {
    forall s, step | OneAhead(s) && Waits(s, step) ensures OneAhead(Do(s, step)) {
      StepKeeps(s, step);
    }
    Machine.RunKeeps(Do, Waits, OneAhead, UNSTARTED, steps);
  }
}
