/**
 * A turn of the native agent, which one run after another reads: at most one result
 * lies ready, tools may be parked, and a flag keeps a reader from sleeping too long.
 */
module LiveTurns {
  import opened Common

  /** The result of one read: an event, the end of the turn, or an error. */
  datatype Outcome = Event(event: int) | Finished(turn: int) | Failed(error: int) {
    predicate Last() { !Event? }
  }

  /** A wait: none, one that sleeps, or one that was woken and has not gone on yet. */
  datatype Wait = Awake | Asleep | Roused

  /**
   * `source` lists the results of all reads to come; `asked` counts the reads begun.
   * `parks` maps the id of each parked question to whether it was announced.
   */
  datatype Turn = Turn(
    source: seq<Outcome>,
    started: bool,
    asked: nat,
    reading: bool,
    outcome: Option<Outcome>,
    done: bool,
    notified: bool,
    wait: Wait,
    parks: map<string, bool>,
    aborted: bool)

  // ---- the operations, as functions of the turn ----

  function Rouse(t: Turn): Turn {
    t.(notified := true, wait := if t.wait.Asleep? then Roused else t.wait)
  }

  function Pulled(t: Turn): Turn {
    if !t.started || t.done || t.reading || t.outcome.Some? then t
    else t.(asked := t.asked + 1, reading := true)
  }

  /** The read that is under way can end. */
  predicate Arrives(t: Turn) { t.reading && 0 < t.asked <= |t.source| }

  function Arrived(t: Turn): Turn
    requires Arrives(t)
  {
    var o := t.source[t.asked - 1];
    Rouse(t.(reading := false, done := t.done || o.Last(), outcome := Some(o)))
  }

  function Unannounced(t: Turn): (ids: set<string>)
    ensures forall id :: id in ids <==> id in t.parks && !t.parks[id]
  {
    set id | id in t.parks && !t.parks[id]
  }

  /** A question is parked unless it is parked already, belongs to another turn or comes too late. */
  function ParkedAt(t: Turn, id: string, ours: bool): (Turn, bool) {
    if t.aborted || !ours || id in t.parks then (t, false)
    else (Rouse(t.(parks := t.parks[id := false])), true)
  }

  function AnsweredAt(t: Turn, id: string): (Turn, bool) {
    if id in t.parks then (t.(parks := t.parks - {id}), true) else (t, false)
  }

  function Told(t: Turn, ids: set<string>): Turn {
    t.(parks := map id | id in t.parks :: id in ids || t.parks[id])
  }

  /** Go to sleep, unless something happened since the last time. */
  function Slept(t: Turn): Turn {
    if t.notified then t.(notified := false, wait := Awake) else t.(wait := Asleep)
  }

  function WaitEnded(t: Turn): Turn { t.(notified := false, wait := Awake) }

  function AbortedTurn(t: Turn): Turn {
    t.(aborted := true, parks := map[], wait := if t.wait.Asleep? then Roused else t.wait)
  }

  // ---- the turn ----

  class LiveTurn {
    const source: seq<Outcome>
    var started: bool
    var asked: nat
    var reading: bool
    var outcome: Option<Outcome>
    var done: bool
    var notified: bool
    var wait: Wait
    var parks: map<string, bool>
    var aborted: bool

    function View(): Turn
      reads this
    {
      Turn(source, started, asked, reading, outcome, done, notified, wait, parks, aborted)
    }

    constructor (source: seq<Outcome>)
      ensures View() == Turn(source, false, 0, false, None, false, false, Awake, map[], false)
    {
      this.source := source;
      started, asked, reading, outcome, done := false, 0, false, None, false;
      notified, wait, parks, aborted := false, Awake, map[], false;
    }

    /** Begin to read the source; a second time is an error. */
    method Start() returns (ok: bool)
      modifies this
      ensures ok == !old(started)
      ensures View() == if ok then Pulled(old(View()).(started := true)) else old(View())
    {
      if started {
        return false;
      }
      started := true;
      Pull();
      return true;
    }

    /** Ask for the next result, unless one is under way or not taken yet. */
    method Pull()
      modifies this
      ensures View() == Pulled(old(View()))
    {
      if !started || done || reading || outcome.Some? {
        return;
      }
      asked := asked + 1;
      reading := true;
    }

    /** The read that is under way ends. */
    method Arrive()
      requires Arrives(View())
      modifies this
      ensures View() == Arrived(old(View()))
    {
      var next := source[asked - 1];
      reading := false;
      if next.Last() {
        done := true;
      }
      outcome := Some(next);
      Wake();
    }

    method Take() returns (taken: Option<Outcome>)
      modifies `outcome
      ensures taken == old(outcome) && outcome == None
    {
      taken := outcome;
      outcome := None;
    }

    /** Register a park for a question. When it is refused, the tool is not held up. */
    method Park(id: string, ours: bool) returns (waits: bool)
      modifies this
      ensures (View(), waits) == ParkedAt(old(View()), id, ours)
    {
      if aborted || !ours || id in parks {
        return false;
      }
      parks := parks[id := false];
      Wake();
      return true;
    }

    method Answer(id: string) returns (waited: bool)
      modifies `parks
      ensures (View(), waited) == AnsweredAt(old(View()), id)
    {
      waited := id in parks;
      if waited {
        parks := parks - {id};
      }
    }

    method Wake()
      modifies `notified, `wait
      ensures View() == Rouse(old(View()))
    {
      notified := true;
      if wait.Asleep? {
        wait := Roused;
      }
    }

    /** Begin to wait. When something was reported since the last wait there is no sleep. */
    method BeginWait() returns (sleeps: bool)
      modifies `notified, `wait
      ensures View() == Slept(old(View())) && sleeps == !old(notified)
    {
      sleeps := !notified;
      if notified {
        EndWait();
      } else {
        wait := Asleep;
      }
    }

    method EndWait()
      modifies `notified, `wait
      ensures View() == WaitEnded(old(View()))
    {
      notified := false;
      wait := Awake;
    }

    method Announce(ids: set<string>)
      modifies `parks
      ensures View() == Told(old(View()), ids)
    {
      parks := map id | id in parks :: id in ids || parks[id];
    }

    /** End the turn: whoever waits is let go, and no park stays. */
    method Abort()
      modifies this
      ensures View() == AbortedTurn(old(View()))
    {
      aborted := true;
      parks := map[];
      if wait.Asleep? {
        wait := Roused;
      }
    }
  }
}
