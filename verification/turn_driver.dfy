/**
 * The runs that read a turn, one after another, against everything else that happens
 * to it meanwhile. A step is what runs without being suspended.
 */
module TurnDriver {
  import opened Common
  import opened LiveTurns
  import Machine

  /** Where the driver is suspended. */
  datatype Place =
    | Idle                          // no run reads the turn
    | Starting                      // a run attached and delivers its first events
    | Top                           // at the head of its loop, delivering what a tool drew
    | Delivering                    // delivering what it mapped
    | Announcing(ids: set<string>)  // writing the records of an announcement
    | Waiting
    | Over

  /** `handed` is every result that a run took; `ended` says that the run's last event is mapped. */
  datatype Driver = Driver(turn: Turn, place: Place, ended: bool, handed: seq<Outcome>)

  datatype Step =
    | Start
    | Attach                        // a run begins
    | Loop                          // its first events are out
    | Look(announce: set<string>, ends: bool)
    | Delivered
    | Recorded
    | WakeUp
    | Read                          // a read ends
    | Ask(id: string, ours: bool)   // a tool registers a park
    | Draw                          // a tool has something to show
    | Answer(id: string)
    | Abort

  /** Something is left to tell the client, or to take. */
  predicate ToAnnounce(d: Driver) { Unannounced(d.turn) != {} && !d.ended }

  /** Which parks are announced together: the questions, or when there are none the frontend calls. */
  predicate Announceable(d: Driver, ids: set<string>) { ids != {} && ids <= Unannounced(d.turn) }

  function Looked(d: Driver, announce: set<string>, ends: bool): Driver {
    if d.turn.aborted then d.(place := Over)
    else if ToAnnounce(d) then
      (if Announceable(d, announce) then d.(place := Announcing(announce)) else d)
    else
      match d.turn.outcome
      case None => d.(turn := Slept(d.turn), place := Waiting)
      case Some(o) =>
        var taken := d.(turn := d.turn.(outcome := None), handed := d.handed + [o]);
        if o.Last() then taken.(place := Over)
        else taken.(place := Delivering, ended := d.ended || ends)
  }

  /** What a step does; one that is not possible does nothing. */
  function Do(d: Driver, step: Step): Driver {
    match step
    case Start =>
      if d.place.Idle? && !d.turn.started then d.(turn := Pulled(d.turn.(started := true)), place := Starting) else d
    case Attach =>
      if d.place.Idle? && d.turn.started then d.(place := Starting, ended := false) else d
    case Loop =>
      if !d.place.Starting? then d
      else if d.turn.aborted then d.(place := Over)
      else d.(turn := Pulled(d.turn), place := Top)
    case Look(announce, ends) => if d.place.Top? then Looked(d, announce, ends) else d
    case Delivered => if d.place.Delivering? then d.(turn := Pulled(d.turn), place := Top) else d
    case Recorded => if d.place.Announcing? then d.(turn := Told(d.turn, d.place.ids), place := Idle) else d
    case WakeUp =>
      if d.place.Waiting? && !d.turn.wait.Asleep? then
        d.(turn := if d.turn.wait.Roused? then WaitEnded(d.turn) else d.turn, place := Top)
      else d
    case Read => if Arrives(d.turn) then d.(turn := Arrived(d.turn)) else d
    case Ask(id, ours) => d.(turn := ParkedAt(d.turn, id, ours).0)
    case Draw => d.(turn := Rouse(d.turn))
    case Answer(id) => d.(turn := AnsweredAt(d.turn, id).0)
    case Abort => d.(turn := AbortedTurn(d.turn))
  }

  function Run(d: Driver, steps: seq<Step>): Driver { Machine.Run(Do, d, steps) }

  /** Only the last result of a source ends it. */
  predicate Sourced(source: seq<Outcome>) { forall i :: 0 <= i < |source| - 1 ==> !source[i].Last() }

  function Fresh(source: seq<Outcome>): Driver {
    Driver(Turn(source, false, 0, false, None, false, false, Awake, map[], false), Idle, false, [])
  }

  // ---- the driver over the turn it reads ----

  /** The runs that read `turn`, one after another; each method is what runs without being suspended. */
  class Drive {
    const turn: LiveTurn
    var place: Place
    var ended: bool
    var handed: seq<Outcome>

    function View(): Driver
      reads this, turn
    {
      Driver(turn.View(), place, ended, handed)
    }

    constructor (source: seq<Outcome>)
      ensures fresh(turn) && View() == Fresh(source)
    {
      turn := new LiveTurn(source);
      place, ended, handed := Idle, false, [];
    }

    /** The first run starts the turn; `ok` when the turn was not started yet. */
    method Start() returns (ok: bool)
      requires place.Idle?
      modifies this, turn
      ensures View() == Do(old(View()), Step.Start) && ok == !old(turn.started)
    {
      ok := turn.Start();
      if ok {
        place := Starting;
      }
    }

    /** Another run goes on with it. */
    method Attach()
      requires place.Idle? && turn.started
      modifies this
      ensures View() == Do(old(View()), Step.Attach)
    {
      place, ended := Starting, false;
    }

    /** The run's first events are out, and it comes to its loop. */
    method Loop()
      requires place.Starting?
      modifies this, turn
      ensures View() == Do(old(View()), Step.Loop)
    {
      if turn.aborted {
        place := Over;
      } else {
        turn.Pull();
        place := Top;
      }
    }

    /** Announce what waits for the client, or take what was read, or wait. */
    method Look(announce: set<string>, ends: bool)
      requires place.Top?
      requires ToAnnounce(View()) ==> Announceable(View(), announce)
      modifies this, turn
      ensures View() == Do(old(View()), Step.Look(announce, ends))
    {
      if turn.aborted {
        place := Over;
        return;
      }
      if Unannounced(turn.View()) != {} && !ended {
        place := Announcing(announce);
        return;
      }
      var taken := turn.Take();
      if taken.Some? {
        handed := handed + [taken.value];
        if taken.value.Last() {
          place := Over;
        } else {
          place, ended := Delivering, ended || ends;
        }
      } else {
        var _ := turn.BeginWait();
        place := Waiting;
      }
    }

    /** What it mapped is delivered, and it asks for more. */
    method Delivered()
      requires place.Delivering?
      modifies this, turn
      ensures View() == Do(old(View()), Step.Delivered)
    {
      turn.Pull();
      place := Top;
    }

    /** What the client is to answer is recorded, and the run is over. */
    method Recorded()
      requires place.Announcing?
      modifies this, turn
      ensures View() == Do(old(View()), Step.Recorded)
    {
      turn.Announce(place.ids);
      place := Idle;
    }

    /** A wait that is over ends. */
    method WakeUp()
      requires place.Waiting? && !turn.wait.Asleep?
      modifies this, turn
      ensures View() == Do(old(View()), Step.WakeUp)
    {
      if turn.wait.Roused? {
        turn.EndWait();
      }
      place := Top;
    }
  }

  /** What happens to the turn from elsewhere is a step of the driver too, and leaves its place. */
  method Elsewhere(drive: Drive, step: Step)
    requires step.Read? || step.Ask? || step.Draw? || step.Answer? || step.Abort?
    requires step.Read? ==> Arrives(drive.turn.View())
    modifies drive.turn
    ensures drive.View() == Do(old(drive.View()), step)
  {
    match step
    case Read => drive.turn.Arrive();
    case Ask(id, ours) => var _ := drive.turn.Park(id, ours);
    case Draw => drive.turn.Wake();
    case Answer(id) => var _ := drive.turn.Answer(id);
    case Abort => drive.turn.Abort();
  }

  // ---- what every step keeps ----

  /** Results that came: those handed out, and the one that waits to be taken. */
  function Came(d: Driver): nat { |d.handed| + if d.turn.outcome.Some? then 1 else 0 }

  /** What is handed out is the source so far, and one result at most is ahead of it. */
  ghost predicate InOrder(d: Driver) {
    var t := d.turn;
    && Sourced(t.source)
    && !(t.reading && t.outcome.Some?)
    && t.asked == Came(d) + (if t.reading then 1 else 0)
    && Came(d) <= |t.source|
    && d.handed == t.source[..|d.handed|]
    && (t.outcome.Some? ==> t.outcome.value == t.source[|d.handed|])
    && (t.done <==> Came(d) > 0 && t.source[Came(d) - 1].Last())
    && (t.reading ==> t.started && !t.done)
    && (!t.started ==> d.place.Idle? && Came(d) == 0)
  }

  /** A read is under way or its result is there. */
  predicate Supplied(t: Turn) { t.reading || t.outcome.Some? }

  ghost predicate Watchful(d: Driver) {
    && (d.turn.wait.Asleep? ==>
          d.place.Waiting? && !d.turn.notified && d.turn.outcome.None? && !ToAnnounce(d) && d.turn.reading
          && !d.turn.aborted)
    && (d.place.Top? || d.place.Waiting? || d.place.Announcing? ==> Supplied(d.turn))
    && ((d.place.Idle? && d.turn.started) || d.place.Starting? ==> Supplied(d.turn))
    && (d.place.Delivering? ==> !Supplied(d.turn) && !d.turn.done)
    && (d.turn.wait.Roused? ==> d.place.Waiting?)
  }

  ghost predicate Inv(d: Driver) { InOrder(d) && Watchful(d) }

  lemma ReadKeeps(d: Driver)
    requires Inv(d)
    ensures Inv(Do(d, Read))
  {
    if Arrives(d.turn) {
      assert d.turn.source[d.turn.asked - 1] == d.turn.source[|d.handed|];
    }
  }

  lemma ParksKeep(d: Driver, step: Step)
    requires Inv(d) && (step.Ask? || step.Draw?)
    ensures Inv(Do(d, step)) && Do(d, step).turn.source == d.turn.source
  {
  }

  lemma AnswerKeeps(d: Driver, id: string)
    requires Inv(d)
    ensures Inv(Do(d, Answer(id)))
  {
    assert Unannounced(AnsweredAt(d.turn, id).0) <= Unannounced(d.turn);
  }

  lemma AbortKeeps(d: Driver)
    requires Inv(d)
    ensures Inv(Do(d, Abort))
  {
  }

  lemma LookKeeps(d: Driver, announce: set<string>, ends: bool)
    requires Inv(d) && d.place.Top?
    ensures Inv(Looked(d, announce, ends))
  {
    var t := Looked(d, announce, ends);
    if d.turn.outcome.Some? && t.handed != d.handed {
      assert t.handed == d.turn.source[..|d.handed| + 1];
    }
  }

  lemma BeginKeeps(d: Driver, step: Step)
    requires Inv(d) && (step.Start? || step.Attach? || step.Loop?)
    ensures Inv(Do(d, step)) && Do(d, step).turn.source == d.turn.source
  {
  }

  lemma GoOnKeeps(d: Driver, step: Step)
    requires Inv(d) && (step.Delivered? || step.Recorded? || step.WakeUp?)
    ensures Inv(Do(d, step)) && Do(d, step).turn.source == d.turn.source
  {
  }

  lemma StepKeeps(d: Driver, step: Step)
    requires Inv(d)
    ensures Inv(Do(d, step)) && Do(d, step).turn.source == d.turn.source
  {
    match step
    case Look(announce, ends) => if d.place.Top? { LookKeeps(d, announce, ends); }
    case Read => ReadKeeps(d);
    case Ask(_, _) => ParksKeep(d, step);
    case Draw => ParksKeep(d, step);
    case Answer(id) => AnswerKeeps(d, id);
    case Abort => AbortKeeps(d);
    case Start => BeginKeeps(d, step);
    case Attach => BeginKeeps(d, step);
    case Loop => BeginKeeps(d, step);
    case Delivered => GoOnKeeps(d, step);
    case Recorded => GoOnKeeps(d, step);
    case WakeUp => GoOnKeeps(d, step);
  }

  ghost predicate InvFor(source: seq<Outcome>, d: Driver) { Inv(d) && d.turn.source == source }

  lemma RunKeeps(source: seq<Outcome>, steps: seq<Step>)
    requires Sourced(source)
    ensures Inv(Run(Fresh(source), steps)) && Run(Fresh(source), steps).turn.source == source
  {
    var inv := (d: Driver) => InvFor(source, d);
    forall d, step | inv(d) ensures inv(Do(d, step)) {
      StepKeeps(d, step);
    }
    Machine.EveryRunKeeps(Do, inv, Fresh(source), steps);
  }

  // ---- the turn loses nothing and never sleeps on work ----

  /** Across all runs of a turn: what they take is the source from its beginning, each result once and in order. */
  lemma TurnLosesNothing(source: seq<Outcome>, steps: seq<Step>)
    requires Sourced(source)
    ensures var d := Run(Fresh(source), steps);
            && d.handed <= source
            && !(d.turn.reading && d.turn.outcome.Some?)
            && d.turn.asked <= |d.handed| + 1
            && (d.turn.outcome.Some? ==> d.handed + [d.turn.outcome.value] <= source)
  {
    RunKeeps(source, steps);
  }

  /**
   * A driver that sleeps has nothing to take and, unless its run's last event is mapped
   * already, nothing to announce; and the read that will wake it is under way.
   */
  lemma NeverAsleepOnWork(source: seq<Outcome>, steps: seq<Step>)
    requires Sourced(source)
    requires Run(Fresh(source), steps).turn.wait.Asleep?
    ensures var d := Run(Fresh(source), steps);
            d.turn.outcome.None? && d.turn.reading && (Unannounced(d.turn) == {} || d.ended)
  {
    RunKeeps(source, steps);
  }

  /** A sleeping driver that a new park wakes, up to where it looks for what to do. */
  function WokenByPark(d: Driver, id: string, ends: bool): Driver {
    Do(Do(Do(d, Ask(id, true)), WakeUp), Look({id}, ends))
  }

  /**
   * A park that comes while the driver sleeps is announced at once exactly when its run's
   * last event is not mapped yet; when it is, the driver is asleep again and the client
   * is not told.
   */
  lemma ParkWhileAsleep(source: seq<Outcome>, steps: seq<Step>, id: string, ends: bool)
    requires Sourced(source) && Run(Fresh(source), steps).turn.wait.Asleep?
    requires id !in Run(Fresh(source), steps).turn.parks
    ensures var d := Run(Fresh(source), steps);
            var e := WokenByPark(d, id, ends);
            && (e.place == Announcing({id}) <==> !d.ended)
            && (d.ended ==> e.place.Waiting? && e.turn.wait.Asleep? && id in Unannounced(e.turn))
  {
    RunKeeps(source, steps);
    var d := Run(Fresh(source), steps);
    assert id in Unannounced(Do(d, Ask(id, true)).turn);
  }

  ghost predicate Leads(d: Driver, e: Driver) { Machine.Leads(Do, d, e) }

  /** A turn whose one event so far was taken, read by a driver that is at the head of its loop. */
  predicate OneTaken(d: Driver, event: int) {
    d == Driver(Turn([Event(event)], true, 2, true, None, false, true, Awake, map[], false), Top, true, [Event(event)])
  }

  lemma TakeOne(event: int) returns (d: Driver)
    ensures Leads(Fresh([Event(event)]), d) && OneTaken(d, event)
  {
    var start := Fresh([Event(event)]);
    Machine.Here(Do, start);
    d := Machine.On(Do, start, start, Start);
    d := Machine.On(Do, start, d, Loop);
    d := Machine.On(Do, start, d, Read);
    d := Machine.On(Do, start, d, Look({}, true));
    d := Machine.On(Do, start, d, Delivered);
  }

  /** At the head of its loop with nothing to do, the driver goes to sleep. */
  lemma FallAsleep(s: Driver, d: Driver) returns (e: Driver)
    requires Leads(s, d) && d.place.Top? && !d.turn.aborted && !ToAnnounce(d) && d.turn.outcome.None?
    requires d.turn.wait.Awake?
    ensures Leads(s, e) && e.turn == d.turn.(notified := false, wait := Asleep) && e.place.Waiting? && e.ended == d.ended
  {
    e := Machine.On(Do, s, d, Look({}, false));
    if d.turn.notified {
      e := Machine.On(Do, s, e, WakeUp);
      e := Machine.On(Do, s, e, Look({}, false));
    }
  }

  /**
   * Such a driver can be reached: a park that comes after the last event waits
   * unannounced while the driver sleeps until the source ends.
   */
  lemma LatePark(event: int, id: string)
    ensures exists d :: Leads(Fresh([Event(event)]), d) && d.turn.wait.Asleep? && id in Unannounced(d.turn)
  {
    var start := Fresh([Event(event)]);
    var d := TakeOne(event);
    d := FallAsleep(start, d);
    d := Machine.On(Do, start, d, Ask(id, true));
    d := Machine.On(Do, start, d, WakeUp);
    d := FallAsleep(start, d);
  }
}
