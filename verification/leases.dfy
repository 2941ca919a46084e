/**
 * Leases on a browser profile: a file for each holder. A process writes its file first
 * and looks who else is there second. A step is one access to the file system.
 */
module Leases {
  import Machine

  /** A lease file is named by its process and the session it was taken for. */
  datatype Id = Id(pid: int, session: string)

  /** What a listing of the directory still has to look at, and whom it found alive. */
  datatype Scan = Scan(rest: set<Id>, alive: set<Id>) {
    function Seen(): set<Id> { rest + alive }
  }

  /** Where an attempt to take a lease is, up to the end of its release. */
  datatype At =
    | Begun                    // its file is not written
    | Written
    | Looking(scan: Scan)
    | Holding(scan: Scan)      // what it had seen when it decided
    | Refused
    | Removed                  // released: its file is gone
    | Counting(scan: Scan)     // and it looks who is left
    | Released(last: bool)

  datatype Attempt = Attempt(id: Id, exclusive: bool, at: At)

  datatype Leases = Leases(files: set<Id>, alive: set<int>, attempts: map<nat, Attempt>)

  datatype Step =
    | Begin(a: nat, id: Id, exclusive: bool)
    | Write(a: nat)
    | List(a: nat)
    | Examine(a: nat, id: Id)  // look one process up, and delete its file if it is dead
    | Decide(a: nat)
    | Release(a: nat)
    | Crash(pid: int)

  // ---- the steps ----

  function Goes(s: Leases, a: nat, at: At): Leases
    requires a in s.attempts
  {
    s.(attempts := s.attempts[a := s.attempts[a].(at := at)])
  }

  predicate Alive(s: Leases, id: Id) { id.pid in s.alive }

  /** The process of the attempt is running. */
  predicate Runs(s: Leases, a: nat) { a in s.attempts && Alive(s, s.attempts[a].id) }

  /** Look at one entry of a listing. */
  function Looked(s: Leases, scan: Scan, id: Id): Scan {
    Scan(scan.rest - {id}, if Alive(s, id) then scan.alive + {id} else scan.alive)
  }

  function Examined(s: Leases, a: nat, id: Id): Leases
    requires a in s.attempts && (s.attempts[a].at.Looking? || s.attempts[a].at.Counting?)
  {
    var scan := Looked(s, s.attempts[a].at.scan, id);
    var files := if Alive(s, id) then s.files else s.files - {id};
    Goes(s, a, if s.attempts[a].at.Looking? then Looking(scan) else Counting(scan)).(files := files)
  }

  function Decided(s: Leases, a: nat): Leases
    requires a in s.attempts && (s.attempts[a].at.Looking? || s.attempts[a].at.Counting?)
  {
    var me := s.attempts[a];
    if me.at.Counting? then Goes(s, a, Released(me.at.scan.alive == {}))
    else if me.at.scan.alive - {me.id} != {} then Goes(s, a, Refused).(files := s.files - {me.id})
    else Goes(s, a, Holding(me.at.scan))
  }

  /** What a step does; one that is not possible does nothing. */
  function Do(s: Leases, step: Step): Leases {
    match step
    case Begin(a, id, exclusive) =>
      if a in s.attempts || !Alive(s, id) then s
      else s.(attempts := s.attempts[a := Attempt(id, exclusive, Begun)])
    case Write(a) =>
      if !Runs(s, a) || !s.attempts[a].at.Begun? then s
      else
        var me := s.attempts[a];
        Goes(s, a, if me.exclusive then Written else Holding(Scan({}, {}))).(files := s.files + {me.id})
    case List(a) =>
      if !Runs(s, a) then s
      else if s.attempts[a].at.Written? then Goes(s, a, Looking(Scan(s.files, {})))
      else if s.attempts[a].at.Removed? then Goes(s, a, Counting(Scan(s.files, {})))
      else s
    case Examine(a, id) =>
      if Runs(s, a) && (s.attempts[a].at.Looking? || s.attempts[a].at.Counting?) && id in s.attempts[a].at.scan.rest
      then Examined(s, a, id) else s
    case Decide(a) =>
      if Runs(s, a) && (s.attempts[a].at.Looking? || s.attempts[a].at.Counting?) && s.attempts[a].at.scan.rest == {}
      then Decided(s, a) else s
    case Release(a) =>
      if Runs(s, a) && s.attempts[a].at.Holding?
      then Goes(s, a, Removed).(files := s.files - {s.attempts[a].id}) else s
    case Crash(pid) => s.(alive := s.alive - {pid})
  }

  function Run(s: Leases, steps: seq<Step>): Leases { Machine.Run(Do, s, steps) }

  // ---- at most one exclusive holder ----

  /** The attempt has its file, or is about to write it. */
  predicate Active(s: Leases, a: nat) {
    Runs(s, a) && (s.attempts[a].at.Begun? || HasFile(s, a))
  }

  predicate HasFile(s: Leases, a: nat) {
    Runs(s, a) && (s.attempts[a].at.Written? || s.attempts[a].at.Looking? || s.attempts[a].at.Holding?)
  }

  predicate Holds(s: Leases, a: nat) { Runs(s, a) && s.attempts[a].exclusive && s.attempts[a].at.Holding? }

  /** Nobody begins under an id that is in use: a session takes one lease on a profile at a time. */
  predicate OwnName(s: Leases, step: Step) {
    step.Begin? ==> forall a :: a in s.attempts && Active(s, a) ==> s.attempts[a].id != step.id
  }

  ghost predicate OwnNames(s: Leases, steps: seq<Step>) { Machine.Allowed(Do, OwnName, s, steps) }

  ghost predicate FileFits(s: Leases, a: nat) { HasFile(s, a) ==> s.attempts[a].id in s.files }

  ghost predicate NamesFit(s: Leases, a: nat, b: nat) {
    a != b && Active(s, a) && Active(s, b) ==> s.attempts[a].id != s.attempts[b].id
  }

  /** Attempt `a` looked, or decided, without `b` in its listing. */
  predicate Missed(s: Leases, a: nat, b: nat)
    requires a in s.attempts && b in s.attempts
  {
    var at := s.attempts[a].at;
    (at.Looking? && s.attempts[b].id !in at.scan.Seen()) ||
    (at.Holding? && s.attempts[a].exclusive && s.attempts[b].id !in at.scan.Seen())
  }

  /** Of two attempts whose files are there, one has seen the other. */
  ghost predicate OneSaw(s: Leases, a: nat, b: nat) {
    a != b && HasFile(s, a) && HasFile(s, b) ==> !Missed(s, a, b) || !Missed(s, b, a)
  }

  /** An exclusive holder has seen nobody but itself. */
  ghost predicate Alone(s: Leases, a: nat) {
    Holds(s, a) ==> s.attempts[a].at.scan.Seen() <= {s.attempts[a].id}
  }

  ghost predicate Inv(s: Leases) {
    && (forall a :: a in s.attempts ==> FileFits(s, a) && Alone(s, a))
    && (forall a, b :: a in s.attempts && b in s.attempts ==> NamesFit(s, a, b))
    && (forall a, b :: a in s.attempts && b in s.attempts ==> OneSaw(s, a, b))
  }

  /** Two attempts of which only one moved. */
  lemma FilesStepKeep(s: Leases, step: Step, a: nat)
    requires Inv(s) && OwnName(s, step) && a in Do(s, step).attempts
    ensures FileFits(Do(s, step), a) && Alone(Do(s, step), a)
  {
    var t := Do(s, step);
    if a in s.attempts { assert FileFits(s, a) && Alone(s, a); }
    if !step.Begin? && !step.Crash? && step.a in s.attempts && a in s.attempts { assert NamesFit(s, step.a, a); }
  }

  lemma NamesStepKeep(s: Leases, step: Step, a: nat, b: nat)
    requires Inv(s) && OwnName(s, step) && a in Do(s, step).attempts && b in Do(s, step).attempts
    ensures NamesFit(Do(s, step), a, b)
  {
    if a in s.attempts && b in s.attempts { assert NamesFit(s, a, b); }
  }

  /** A listing shows everybody who has a file. */
  lemma ListSees(s: Leases, a: nat, b: nat)
    requires Inv(s) && a in s.attempts && b in s.attempts && Runs(s, a) && s.attempts[a].at.Written? && HasFile(s, b)
    ensures !Missed(Do(s, List(a)), a, b)
  {
    assert FileFits(s, b);
  }

  /** Whom a scan has seen it goes on to see while they run, and so it does once it has decided. */
  lemma SightStays(s: Leases, step: Step, a: nat, b: nat)
    requires a in s.attempts && b in s.attempts && HasFile(Do(s, step), a) && HasFile(Do(s, step), b)
    requires s.attempts[a].at.Looking? || s.attempts[a].at.Holding?
    requires !Missed(s, a, b)
    ensures !Missed(Do(s, step), a, b)
  {
  }

  lemma SawStepKeeps(s: Leases, step: Step, a: nat, b: nat)
    requires Inv(s) && OwnName(s, step) && a in Do(s, step).attempts && b in Do(s, step).attempts
    ensures OneSaw(Do(s, step), a, b)
  {
    var t := Do(s, step);
    if a in s.attempts && b in s.attempts && a != b && HasFile(t, a) && HasFile(t, b) {
      assert NamesFit(s, a, b) && OneSaw(s, a, b);
      if step == List(a) && s.attempts[a].at.Written? {
        if HasFile(s, b) { ListSees(s, a, b); }
      } else if step == List(b) && s.attempts[b].at.Written? {
        if HasFile(s, a) { ListSees(s, b, a); }
      } else {
        if s.attempts[a].at.Looking? || s.attempts[a].at.Holding? {
          if !Missed(s, a, b) { SightStays(s, step, a, b); }
        }
        if s.attempts[b].at.Looking? || s.attempts[b].at.Holding? {
          if !Missed(s, b, a) { SightStays(s, step, b, a); }
        }
      }
    }
  }

  lemma StepKeeps(s: Leases, step: Step)
    requires Inv(s) && OwnName(s, step)
    ensures Inv(Do(s, step))
  {
    var t := Do(s, step);
    forall a | a in t.attempts ensures FileFits(t, a) && Alone(t, a) {
      FilesStepKeep(s, step, a);
    }
    forall a, b | a in t.attempts && b in t.attempts ensures NamesFit(t, a, b) {
      NamesStepKeep(s, step, a, b);
    }
    forall a, b | a in t.attempts && b in t.attempts ensures OneSaw(t, a, b) {
      SawStepKeeps(s, step, a, b);
    }
  }

  lemma RunKeeps(s: Leases, steps: seq<Step>)
    requires Inv(s) && OwnNames(s, steps)
    ensures Inv(Run(s, steps))
  {
    forall r, step | Inv(r) && OwnName(r, step) ensures Inv(Do(r, step)) {
      StepKeeps(r, step);
    }
    Machine.RunKeeps(Do, OwnName, Inv, s, steps);
  }

  /** Before anybody acts; files of processes that ended long ago may lie about. */
  function Quiet(files: set<Id>, alive: set<int>): Leases { Leases(files, alive, map[]) }

  /**
   * However writes, listings, decisions, releases, crashes and the removal of stale
   * files interleave, two attempts never hold a profile exclusively at once.
   */
  lemma AtMostOneHolder(files: set<Id>, alive: set<int>, steps: seq<Step>, a: nat, b: nat)
    requires OwnNames(Quiet(files, alive), steps)
    requires Holds(Run(Quiet(files, alive), steps), a) && Holds(Run(Quiet(files, alive), steps), b)
    ensures a == b
  {
    var t := Run(Quiet(files, alive), steps);
    RunKeeps(Quiet(files, alive), steps);
    assert Alone(t, a) && Alone(t, b) && NamesFit(t, a, b) && OneSaw(t, a, b);
  }

  // ---- the last release ----

  /** Everybody who has a file of a running process holds a lease, and is about to give it up. */
  ghost predicate OnlyHolders(s: Leases) {
    && (forall id :: id in s.files && Alive(s, id) ==> exists a :: HasLease(s, a, id))
    && (forall a :: a in s.attempts && Runs(s, a) ==>
          var at := s.attempts[a].at;
          at.Holding? || at.Refused? || at.Removed? || at.Counting? || at.Released?)
    && (forall a, b :: a in s.attempts && b in s.attempts ==> NamesFit(s, a, b))
  }

  predicate HasLease(s: Leases, a: nat, id: Id) {
    a in s.attempts && s.attempts[a].id == id && s.attempts[a].at.Holding?
  }

  /** This release will find nobody, or has found nobody. */
  ghost predicate FindsNobody(s: Leases, r: nat) {
    Runs(s, r) &&
    match s.attempts[r].at
    case Removed => true
    case Counting(scan) => scan.alive == {} && forall id :: id in scan.rest ==> !Alive(s, id)
    case Released(last) => last
    case _ => false
  }

  /** Somebody holds a lease still. */
  ghost predicate SomebodyHolds(s: Leases) { exists a :: Runs(s, a) && s.attempts[a].at.Holding? }

  ghost predicate SomebodyFindsNobody(s: Leases) { exists r :: FindsNobody(s, r) }

  /** Nobody begins and nobody crashes. */
  predicate Releasing(s: Leases, step: Step) { !step.Begin? && !step.Crash? }

  ghost predicate AllReleasing(s: Leases, steps: seq<Step>) { Machine.Allowed(Do, Releasing, s, steps) }

  lemma OnlyHoldersStay(s: Leases, step: Step)
    requires OnlyHolders(s) && Releasing(s, step)
    ensures OnlyHolders(Do(s, step))
  {
    var t := Do(s, step);
    forall id | id in t.files && Alive(t, id) ensures exists a :: HasLease(t, a, id) {
      var a :| HasLease(s, a, id);
      assert HasLease(t, a, id);
    }
    forall a, b | a in t.attempts && b in t.attempts ensures NamesFit(t, a, b) {
      assert NamesFit(s, a, b);
    }
  }

  /** The release that removes the last file lists nobody; a release that found nobody stays so. */
  lemma SomebodyStays(s: Leases, step: Step)
    requires OnlyHolders(s) && Releasing(s, step)
    requires SomebodyHolds(s) || SomebodyFindsNobody(s)
    ensures SomebodyHolds(Do(s, step)) || SomebodyFindsNobody(Do(s, step))
  {
    var t := Do(s, step);
    if a :| Runs(t, a) && t.attempts[a].at.Holding? {
    } else if a :| Runs(s, a) && s.attempts[a].at.Holding? {
      assert FindsNobody(t, a);
    } else {
      var r :| FindsNobody(s, r);
      if step.List? && step.a == r && s.attempts[r].at.Removed? {
        forall id | id in s.files ensures !Alive(s, id) {
          assert forall a :: HasLease(s, a, id) && Alive(s, id) ==> Runs(s, a);
        }
      }
      assert FindsNobody(t, r);
    }
  }

  /** Only holders have files, and somebody holds a lease still or finds nobody. */
  ghost predicate GoingOut(s: Leases) { OnlyHolders(s) && (SomebodyHolds(s) || SomebodyFindsNobody(s)) }

  lemma RunLeavesSomebody(s: Leases, steps: seq<Step>)
    requires GoingOut(s) && AllReleasing(s, steps)
    ensures GoingOut(Run(s, steps))
  {
    forall r, step | GoingOut(r) && Releasing(r, step) ensures GoingOut(Do(r, step)) {
      OnlyHoldersStay(r, step);
      SomebodyStays(r, step);
    }
    Machine.RunKeeps(Do, Releasing, GoingOut, s, steps);
  }

  /** Every file is of an attempt that has it, or of a process that is gone. */
  ghost predicate Owned(s: Leases) {
    forall id :: id in s.files && Alive(s, id) ==> exists a :: HasFileNamed(s, a, id)
  }

  predicate HasFileNamed(s: Leases, a: nat, id: Id) { HasFile(s, a) && s.attempts[a].id == id }

  lemma OwnedStays(s: Leases, step: Step)
    requires Inv(s) && Owned(s) && OwnName(s, step)
    ensures Owned(Do(s, step))
  {
    var t := Do(s, step);
    forall id | id in t.files && Alive(t, id) ensures exists a :: HasFileNamed(t, a, id) {
      if id in s.files {
        var a :| HasFileNamed(s, a, id);
        if !step.Begin? && !step.Crash? && step.a in s.attempts { assert NamesFit(s, step.a, a); }
        assert HasFileNamed(t, a, id);
      } else {
        assert HasFileNamed(t, step.a, id);
      }
    }
  }

  ghost predicate InvOwned(s: Leases) { Inv(s) && Owned(s) }

  lemma RunOwns(s: Leases, steps: seq<Step>)
    requires Inv(s) && Owned(s) && OwnNames(s, steps)
    ensures Inv(Run(s, steps)) && Owned(Run(s, steps))
  {
    forall r, step | InvOwned(r) && OwnName(r, step) ensures InvOwned(Do(r, step)) {
      StepKeeps(r, step);
      OwnedStays(r, step);
    }
    Machine.RunKeeps(Do, OwnName, InvOwned, s, steps);
  }

  /** Nobody is acquiring: whoever began holds a lease by now, was refused, or has released it. */
  ghost predicate NobodyAcquires(s: Leases) {
    forall a :: a in s.attempts && Runs(s, a) ==>
      !(s.attempts[a].at.Begun? || s.attempts[a].at.Written? || s.attempts[a].at.Looking?)
  }

  /**
   * From any point that can be reached where somebody holds the profile and nobody is
   * acquiring it: when all holders release it, in whatever order their steps fall, and
   * nobody acquires it meanwhile, some release reports that it was the last.
   */
  lemma OneReleaseIsLast(files: set<Id>, alive: set<int>, before: seq<Step>, steps: seq<Step>)
    requires forall id :: id in files ==> id.pid !in alive
    requires OwnNames(Quiet(files, alive), before)
    requires var s := Run(Quiet(files, alive), before);
             && AllReleasing(s, steps) && NobodyAcquires(s) && SomebodyHolds(s)
             && forall a :: a in Run(s, steps).attempts && Runs(Run(s, steps), a) ==>
                  Run(s, steps).attempts[a].at.Released? || Run(s, steps).attempts[a].at.Refused?
    ensures var t := Run(Run(Quiet(files, alive), before), steps);
            exists a :: a in t.attempts && t.attempts[a].at == Released(true)
  {
    RunOwns(Quiet(files, alive), before);
    var s := Run(Quiet(files, alive), before);
    forall id | id in s.files && Alive(s, id) ensures exists a :: HasLease(s, a, id) {
      var a :| HasFileNamed(s, a, id);
      assert HasLease(s, a, id);
    }
    RunLeavesSomebody(s, steps);
    var t := Run(s, steps);
    assert !SomebodyHolds(t);
    var r :| FindsNobody(t, r);
    assert t.attempts[r].at == Released(true);
  }

  // ---- two leases under one name ----

  ghost predicate Leads(s: Leases, t: Leases) { Machine.Leads(Do, s, t) }

  /** Where no other file is, an attempt finds its own only. */
  lemma FindsItself(s: Leases, t: Leases, a: nat, id: Id) returns (u: Leases)
    requires Leads(s, t) && a !in t.attempts && Alive(t, id) && t.files <= {id}
    ensures Leads(s, u) && u.files == {id} && u.alive == t.alive
    ensures u.attempts == t.attempts[a := Attempt(id, true, Looking(Scan({id}, {})))]
  {
    u := Machine.On(Do, s, t, Begin(a, id, true));
    u := Machine.On(Do, s, u, Write(a));
    assert u.files == {id};
    u := Machine.On(Do, s, u, List(a));
  }

  /** And takes its exclusive lease. */
  lemma TakesLease(s: Leases, t: Leases, a: nat, id: Id) returns (u: Leases)
    requires Leads(s, t) && a !in t.attempts && Alive(t, id) && t.files <= {id}
    ensures Leads(s, u) && u.files == {id} && u.alive == t.alive
    ensures u.attempts == t.attempts[a := Attempt(id, true, Holding(Scan({}, {id})))]
  {
    u := FindsItself(s, t, a, id);
    u := Machine.On(Do, s, u, Examine(a, id));
    assert u.attempts[a].at == Looking(Scan({}, {id}));
    u := Machine.On(Do, s, u, Decide(a));
  }

  /**
   * The names must differ: when a session takes a second lease while it holds one,
   * releasing the first removes the file of both, and another session gets in.
   */
  lemma SharedNameLetsTwoHold(id: Id, other: Id)
    requires id != other
    ensures exists t, a, b :: Leads(Quiet({}, {id.pid, other.pid}), t) && Holds(t, a) && Holds(t, b) &&
              t.attempts[a].id == id && t.attempts[b].id == other
  {
    var s := Quiet({}, {id.pid, other.pid});
    Machine.Here(Do, s);
    var t := TakesLease(s, s, 0, id);
    t := TakesLease(s, t, 1, id);
    t := Machine.On(Do, s, t, Release(0));
    t := TakesLease(s, t, 2, other);
    assert Holds(t, 1) && Holds(t, 2);
  }
}
