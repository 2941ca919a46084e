/**
 * One announcement of a turn that waits for its client, up to the next one: resumes
 * and expiries race over its records. Every step is what runs between two awaits.
 */
module ResumeRace {
  import opened Common
  import opened InterruptStore
  import Machine

  /** How a park ended: handed an answer by a resume, or released because the turn ended. */
  datatype Ending = Answered(resume: nat) | Released

  datatype Resolution = Resolution(record: string, ending: Ending)

  datatype Cause = Expiry | Outside

  /** Where a resume is. `Won`: its settle succeeded, and it has not gone on yet. */
  datatype ResumeAt = Planned(ids: seq<string>) | Checked(ids: seq<string>) | Won(ids: seq<string>)
    | Driving(ids: seq<string>) | Over

  /** Where an expiry is. `Reading`: its settle failed, and it asks who was first, record by record. */
  datatype ExpiryAt = Started | Reading(next: nat, resolved: bool) | Deciding | Closed

  /** `open` are the records announced; a park waits for each, under the record's id. */
  datatype Race = Race(
    records: Records,
    max: nat,
    open: seq<string>,
    claimed: bool,
    live: bool,
    aborted: Option<Cause>,
    parks: set<string>,
    resolutions: seq<Resolution>,
    accepted: seq<nat>,
    answered: bool,
    resumes: map<nat, ResumeAt>,
    expiries: map<nat, ExpiryAt>)

  datatype Step =
    | Plan(resume: nat, ids: seq<string>)      // a request reads which records it answers
    | Check(resume: nat, progressed: bool)     // it looks whether the turn still waits
    | SettleResume(resume: nat)
    | Claim(resume: nat)
    | Answer(resume: nat)
    | Expire(expiry: nat)                      // the timer, or new input, or a stale answer
    | SettleExpiry(expiry: nat)
    | ReadRecord(expiry: nat)
    | Close(expiry: nat)
    | ExpireElsewhere(ids: seq<string>)        // records settled where the turn is not live
    | AbortOutside                             // the host, or the request that drives the turn

  // ---- the steps ----

  /** Resolve parks, oldest record first; a park that was resolved already is not there. */
  function Resolve(parks: set<string>, ids: seq<string>, ending: Ending): seq<Resolution> {
    if ids == [] then []
    else
      Resolve(parks, ids[..|ids| - 1], ending) +
      if ids[|ids| - 1] in parks && ids[|ids| - 1] !in ids[..|ids| - 1] then [Resolution(ids[|ids| - 1], ending)]
      else []
  }

  /** Hand the parks of some records their ending. */
  function HandOut(s: Race, ids: seq<string>, ending: Ending): Race {
    s.(resolutions := s.resolutions + Resolve(s.parks, ids, ending), parks := set p | p in s.parks && p !in ids)
  }

  function Abort(s: Race, cause: Cause): Race {
    HandOut(s.(aborted := if s.aborted.None? then Some(cause) else s.aborted), s.open, Released)
  }

  /** Whether a request that answers these records may go on: it names every record still open. */
  predicate Covers(s: Race, ids: seq<string>) {
    ids != [] && (forall id :: id in ids ==> id in s.open) &&
    (forall id :: id in s.open && IsOpen(s.records, id) ==> id in ids)
  }

  function StepResume(s: Race, r: nat, at: ResumeAt): Race { s.(resumes := s.resumes[r := at]) }

  function StepExpiry(s: Race, e: nat, at: ExpiryAt): Race { s.(expiries := s.expiries[e := at]) }

  function StartExpiry(s: Race, e: nat): Race {
    StepExpiry(s, e, if s.claimed then Closed else Started)
  }

  /** What a step does; one that is not possible does nothing. */
  function Do(s: Race, step: Step): Race {
    match step
    case Plan(r, ids) =>
      if r in s.resumes || !Covers(s, ids) then s else StepResume(s, r, Planned(ids))
    case Check(r, progressed) =>
      if r !in s.resumes || !s.resumes[r].Planned? then s
      else
        var ids := s.resumes[r].ids;
        if s.aborted.Some? || progressed || exists id :: id in ids && id !in s.parks
        then StepResume(s, r, Over)
        else StepResume(s, r, Checked(ids))
    case SettleResume(r) =>
      if r !in s.resumes || !s.resumes[r].Checked? then s
      else
        var ids := s.resumes[r].ids;
        var settled := Settling(s.records, s.max, ids, Resolved);
        if settled.1 then StepResume(s.(records := settled.0, accepted := s.accepted + [r]), r, Won(ids))
        else StepResume(s, r, Over)
    case Claim(r) =>
      if r !in s.resumes || !s.resumes[r].Won? then s
      else StepResume(s.(claimed := true, live := false), r, Driving(s.resumes[r].ids))
    case Answer(r) =>
      if r !in s.resumes || !s.resumes[r].Driving? || s.aborted.Some? then s
      else StepResume(HandOut(s, s.resumes[r].ids, Answered(r)).(answered := true), r, Over)
    case Expire(e) =>
      if e in s.expiries then s else StartExpiry(s, e)
    case SettleExpiry(e) =>
      if e !in s.expiries || !s.expiries[e].Started? then s
      else
        var settled := Settling(s.records, s.max, s.open, Expired);
        StepExpiry(s.(records := settled.0), e, if settled.1 then Deciding else Reading(0, false))
    case ReadRecord(e) =>
      if e !in s.expiries || !s.expiries[e].Reading? then s
      else
        var at := s.expiries[e];
        if at.next >= |s.open| then StepExpiry(s, e, if at.resolved then Closed else Deciding)
        else
          var id := s.open[at.next];
          StepExpiry(s, e, Reading(at.next + 1, at.resolved || IsResolved(s.records, id)))
    case Close(e) =>
      if e !in s.expiries || !s.expiries[e].Deciding? then s
      else if s.claimed then StepExpiry(s, e, Closed)
      else StepExpiry(Abort(s.(live := false), Expiry), e, Closed)
    case ExpireElsewhere(ids) =>
      s.(records := Settling(s.records, s.max, ids, Expired).0)
    case AbortOutside => Abort(s, Outside)
  }

  predicate IsResolved(t: Records, id: string) { id in t.items && t.items[id].status == Resolved }

  function Run(s: Race, steps: seq<Step>): Race { Machine.Run(Do, s, steps) }

  /** The turn was announced just now: its records are open, each park waits, and nobody acted. */
  ghost predicate Announced(s: Race) {
    && s.open != [] && s.records.Valid() && |s.records.keys| <= s.max
    && (forall id :: id in s.open ==> IsOpen(s.records, id) && id in s.parks)
    && !s.claimed && s.live && s.aborted.None? && s.resolutions == [] && s.accepted == [] && !s.answered
    && s.resumes == map[] && s.expiries == map[]
  }

  /** Settled where the turn is not live, records go together: all that are open, or none. */
  ghost predicate Whole(s: Race, step: Step) {
    step.ExpireElsewhere? && AllOpen(s.records, step.ids) ==>
      (forall id :: id in s.open && IsOpen(s.records, id) ==> id in step.ids) ||
      (forall id :: id in s.open ==> id !in step.ids)
  }

  ghost predicate AllWhole(s: Race, steps: seq<Step>) { Machine.Allowed(Do, Whole, s, steps) }

  // ---- what every step keeps ----

  predicate AllAt(s: Race, status: Status) {
    forall id :: id in s.open ==> id in s.records.items && s.records.items[id].status == status
  }

  ghost predicate Roomy(s: Race) {
    s.open != [] && s.records.Valid() && |s.records.keys| <= s.max
  }

  /** The records stand together: open until somebody settles them, then resolved by one resume or expired. */
  ghost predicate Together(s: Race) {
    if s.accepted != [] then |s.accepted| == 1 && AllAt(s, Resolved) else AllAt(s, Open) || AllAt(s, Expired)
  }

  ghost predicate ResumeFits(s: Race, r: nat)
    requires r in s.resumes
  {
    match s.resumes[r]
    case Planned(ids) => Covers(s, ids)
    case Checked(ids) => Covers(s, ids)
    case Won(ids) => s.accepted == [r] && !s.answered && Full(s, ids)
    case Driving(ids) => s.accepted == [r] && !s.answered && Full(s, ids)
    case Over => true
  }

  ghost predicate Full(s: Race, ids: seq<string>) { forall id :: id in s.open <==> id in ids }

  ghost predicate ExpiryFits(s: Race, e: nat)
    requires e in s.expiries
  {
    match s.expiries[e]
    case Started => true
    case Reading(next, resolved) =>
      !AllAt(s, Open) && (resolved ==> s.accepted != []) && (s.accepted != [] && next > 0 ==> resolved)
    case Deciding => s.accepted == [] && AllAt(s, Expired)
    case Closed => s.accepted != [] || s.aborted.Some?
  }

  ghost predicate ResumesFit(s: Race) { forall r :: r in s.resumes ==> ResumeFits(s, r) }

  ghost predicate ExpiriesFit(s: Race) { forall e :: e in s.expiries ==> ExpiryFits(s, e) }

  ghost predicate FlagsFit(s: Race) {
    && (s.claimed ==> s.accepted != [])
    && (s.answered ==> s.accepted != [])
    && (s.aborted == Some(Expiry) ==> s.accepted == [] && AllAt(s, Expired))
  }

  predicate OncePerPark(rs: seq<Resolution>) { forall i, j :: 0 <= i < j < |rs| ==> rs[i].record != rs[j].record }

  ghost predicate ParksFit(s: Race) {
    && OncePerPark(s.resolutions)
    && (forall i :: 0 <= i < |s.resolutions| ==> s.resolutions[i].record !in s.parks)
    && (s.aborted.None? && !s.answered ==> s.resolutions == [] && forall id :: id in s.open ==> id in s.parks)
  }

  ghost predicate Inv(s: Race) {
    Roomy(s) && Together(s) && ResumesFit(s) && ExpiriesFit(s) && FlagsFit(s) && ParksFit(s)
  }

  lemma {:induction false} CountAtMost(t: Records, keys: seq<string>)
    ensures CountSettled(t, keys) <= |keys|
  {
    if keys != [] { CountAtMost(t, keys[..|keys| - 1]); }
  }

  /** With room for every record, settling drops none. */
  lemma SettleInRoom(t: Records, max: nat, ids: seq<string>, status: Status)
    requires t.Valid() && |t.keys| <= max
    ensures Settling(t, max, ids, status) == if AllOpen(t, ids) then (Moved(t, ids, status), true) else (t, false)
    ensures var u := Settling(t, max, ids, status).0; u.Valid() && u.keys == t.keys && u.items.Keys == t.items.Keys
  {
    var moved := Moved(t, ids, status);
    CountAtMost(moved, moved.keys);
    assert Evicted(moved, max).items == moved.items;
  }

  lemma {:induction false} ResolveOnce(parks: set<string>, ids: seq<string>, ending: Ending)
    ensures OncePerPark(Resolve(parks, ids, ending))
    ensures forall r :: r in Resolve(parks, ids, ending) <==> r.record in ids && r.record in parks && r.ending == ending
  {
    if ids != [] {
      var n := |ids| - 1;
      ResolveOnce(parks, ids[..n], ending);
      var before := Resolve(parks, ids[..n], ending);
      assert forall i :: 0 <= i < |before| ==> before[i] in before;
      assert ids == ids[..n] + [ids[n]];
    }
  }

  /** Every park is resolved at most once: resolving it takes it away. */
  lemma ReleaseKeepsParks(s: Race, ids: seq<string>, ending: Ending)
    requires ParksFit(s)
    ensures var after := HandOut(s, ids, ending);
            && OncePerPark(after.resolutions)
            && (forall i :: 0 <= i < |after.resolutions| ==> after.resolutions[i].record !in after.parks)
  {
    ResolveOnce(s.parks, ids, ending);
    var added := Resolve(s.parks, ids, ending);
    assert forall i :: 0 <= i < |added| ==> added[i] in added;
  }

  /** Nothing about processes changes where records, flags and acceptance stay. */
  lemma OthersFit(s: Race, t: Race)
    requires ResumesFit(s) && ExpiriesFit(s)
    requires t.records == s.records && t.open == s.open && t.accepted == s.accepted
    requires t.answered == s.answered && (s.aborted.Some? ==> t.aborted.Some?)
    ensures forall r :: r in s.resumes && r in t.resumes && t.resumes[r] == s.resumes[r] ==> ResumeFits(t, r)
    ensures forall e :: e in s.expiries && e in t.expiries && t.expiries[e] == s.expiries[e] ==> ExpiryFits(t, e)
  {
    forall r | r in s.resumes && r in t.resumes && t.resumes[r] == s.resumes[r] ensures ResumeFits(t, r) {
      assert ResumeFits(s, r);
    }
    forall e | e in s.expiries && e in t.expiries && t.expiries[e] == s.expiries[e] ensures ExpiryFits(t, e) {
      assert ExpiryFits(s, e);
    }
  }

  /** A resume moves on, and nothing else changes but that the turn may be claimed. */
  lemma ResumeMoves(s: Race, r: nat, at: ResumeAt, t: Race)
    requires Inv(s) && (s.claimed == t.claimed || s.accepted != [])
    requires t == s.(claimed := t.claimed, live := t.live, resumes := s.resumes[r := at])
    requires ResumeFits(t, r)
    ensures Inv(t)
  {
    OthersFit(s, t);
  }

  lemma PlanKeeps(s: Race, r: nat, ids: seq<string>)
    requires Inv(s)
    ensures Inv(Do(s, Plan(r, ids)))
  {
    if r !in s.resumes && Covers(s, ids) {
      ResumeMoves(s, r, Planned(ids), Do(s, Plan(r, ids)));
    }
  }

  lemma CheckKeeps(s: Race, r: nat, progressed: bool)
    requires Inv(s)
    ensures Inv(Do(s, Check(r, progressed)))
  {
    var t := Do(s, Check(r, progressed));
    if r in s.resumes && s.resumes[r].Planned? {
      assert ResumeFits(s, r);
      ResumeMoves(s, r, t.resumes[r], t);
    }
  }

  lemma ClaimKeeps(s: Race, r: nat)
    requires Inv(s)
    ensures Inv(Do(s, Claim(r)))
  {
    var t := Do(s, Claim(r));
    if r in s.resumes && s.resumes[r].Won? {
      assert ResumeFits(s, r);
      ResumeMoves(s, r, t.resumes[r], t);
    }
  }

  /** The first resume to settle finds every record open and resolves them all. */
  lemma AcceptKeeps(s: Race, r: nat, ids: seq<string>, t: Race)
    requires Inv(s) && ids != [] && Covers(s, ids) && AllOpen(s.records, ids)
    requires t == s.(records := Moved(s.records, ids, Resolved), accepted := s.accepted + [r],
                     resumes := s.resumes[r := Won(ids)])
    ensures Inv(t)
  {
    assert IsOpen(s.records, ids[0]) && ids[0] in s.open;
    assert AllAt(s, Open) && s.accepted == [];
    assert AllAt(t, Resolved);
    assert s.open[0] in s.open;
    forall q | q in t.resumes ensures ResumeFits(t, q) {
      if q != r { assert ResumeFits(s, q); }
    }
    forall e | e in t.expiries ensures ExpiryFits(t, e) {
      assert ExpiryFits(s, e);
    }
  }

  lemma SettleResumeKeeps(s: Race, r: nat)
    requires Inv(s)
    ensures Inv(Do(s, SettleResume(r)))
  {
    if r in s.resumes && s.resumes[r].Checked? {
      var t, ids := Do(s, SettleResume(r)), s.resumes[r].ids;
      assert ResumeFits(s, r);
      SettleInRoom(s.records, s.max, ids, Resolved);
      if AllOpen(s.records, ids) {
        AcceptKeeps(s, r, ids, t);
      } else {
        ResumeMoves(s, r, Over, t);
      }
    }
  }

  lemma AnswerKeeps(s: Race, r: nat)
    requires Inv(s)
    ensures Inv(Do(s, Answer(r)))
  {
    var t := Do(s, Answer(r));
    if r in s.resumes && s.resumes[r].Driving? && s.aborted.None? {
      assert ResumeFits(s, r);
      ReleaseKeepsParks(s, s.resumes[r].ids, Answered(r));
      forall q | q in t.resumes ensures ResumeFits(t, q) {
        if q != r { assert ResumeFits(s, q); }
      }
      forall e | e in t.expiries ensures ExpiryFits(t, e) {
        assert ExpiryFits(s, e);
      }
    }
  }

  /** A change of records that leaves those of this turn alone. */
  lemma OtherRecords(s: Race, t: Race)
    requires Inv(s) && t == s.(records := t.records) && Roomy(t)
    requires forall id :: id in s.open ==> id in t.records.items && t.records.items[id] == s.records.items[id]
    ensures Inv(t)
  {
    assert s.open[0] in s.open;
    forall r | r in t.resumes ensures ResumeFits(t, r) {
      assert ResumeFits(s, r);
    }
    forall e | e in t.expiries ensures ExpiryFits(t, e) {
      assert ExpiryFits(s, e);
    }
  }

  /** All its records expire at once. */
  lemma AllExpire(s: Race, t: Race)
    requires Inv(s) && t == s.(records := t.records) && Roomy(t)
    requires AllAt(s, Open) && s.accepted == [] && AllAt(t, Expired)
    ensures Inv(t)
  {
    assert s.open[0] in s.open;
    forall r | r in t.resumes ensures ResumeFits(t, r) {
      assert ResumeFits(s, r);
    }
    forall e | e in t.expiries ensures ExpiryFits(t, e) {
      assert ExpiryFits(s, e);
    }
  }

  /** Records that are all open are settled together, by an expiry or elsewhere. */
  lemma ExpiredTogether(s: Race, ids: seq<string>, t: Race)
    requires Inv(s)
    requires t == s.(records := Settling(s.records, s.max, ids, Expired).0)
    requires AllOpen(s.records, ids) ==>
               (forall id :: id in s.open && IsOpen(s.records, id) ==> id in ids) || (forall id :: id in s.open ==> id !in ids)
    ensures Inv(t)
    ensures AllOpen(s.records, ids) && (forall id :: id in s.open ==> id in ids) ==> s.accepted == [] && AllAt(t, Expired)
  {
    SettleInRoom(s.records, s.max, ids, Expired);
    assert s.open[0] in s.open;
    if id :| AllOpen(s.records, ids) && id in s.open && id in ids {
      assert IsOpen(s.records, id);
      assert AllAt(s, Open);
      assert AllAt(t, Expired);
      AllExpire(s, t);
    } else {
      OtherRecords(s, t);
    }
  }

  lemma SettleExpiryKeeps(s: Race, e: nat)
    requires Inv(s)
    ensures Inv(Do(s, SettleExpiry(e)))
  {
    if e in s.expiries && s.expiries[e].Started? {
      var u := s.(records := Settling(s.records, s.max, s.open, Expired).0);
      var t := Do(s, SettleExpiry(e));
      ExpiredTogether(s, s.open, u);
      SettleInRoom(s.records, s.max, s.open, Expired);
      assert s.open[0] in s.open;
      OthersFit(u, t);
      assert ExpiryFits(t, e);
    }
  }

  lemma ExpiryMoves(s: Race, e: nat, at: ExpiryAt, t: Race)
    requires Inv(s) && t == s.(expiries := s.expiries[e := at])
    requires ExpiryFits(t, e)
    ensures Inv(t)
  {
    OthersFit(s, t);
  }

  lemma ExpireKeeps(s: Race, e: nat)
    requires Inv(s)
    ensures Inv(Do(s, Expire(e)))
  {
    if e !in s.expiries {
      ExpiryMoves(s, e, if s.claimed then Closed else Started, Do(s, Expire(e)));
    }
  }

  lemma ReadKeeps(s: Race, e: nat)
    requires Inv(s)
    ensures Inv(Do(s, ReadRecord(e)))
  {
    if e in s.expiries && s.expiries[e].Reading? {
      var t, at := Do(s, ReadRecord(e)), s.expiries[e];
      assert ExpiryFits(s, e);
      if at.next < |s.open| { assert s.open[at.next] in s.open; }
      ExpiryMoves(s, e, t.expiries[e], t);
    }
  }

  lemma AbortKeeps(s: Race, cause: Cause)
    requires Inv(s) && (cause == Expiry ==> s.accepted == [] && AllAt(s, Expired))
    ensures Inv(Abort(s, cause))
  {
    var t := Abort(s, cause);
    ReleaseKeepsParks(s, s.open, Released);
    OthersFit(s, t);
  }

  lemma CloseKeeps(s: Race, e: nat)
    requires Inv(s)
    ensures Inv(Do(s, Close(e)))
  {
    var t := Do(s, Close(e));
    if e in s.expiries && s.expiries[e].Deciding? {
      assert ExpiryFits(s, e);
      var u := Abort(s.(live := false), Expiry);
      OthersFit(s, s.(live := false));
      AbortKeeps(s.(live := false), Expiry);
      OthersFit(u, t);
    }
  }

  lemma StepKeeps(s: Race, step: Step)
    requires Inv(s) && Whole(s, step)
    ensures Inv(Do(s, step))
  {
    match step
    case Plan(r, ids) => PlanKeeps(s, r, ids);
    case Check(r, progressed) => CheckKeeps(s, r, progressed);
    case SettleResume(r) => SettleResumeKeeps(s, r);
    case Claim(r) => ClaimKeeps(s, r);
    case Answer(r) => AnswerKeeps(s, r);
    case Expire(e) => ExpireKeeps(s, e);
    case SettleExpiry(e) => SettleExpiryKeeps(s, e);
    case ReadRecord(e) => ReadKeeps(s, e);
    case Close(e) => CloseKeeps(s, e);
    case ExpireElsewhere(ids) => ExpiredTogether(s, ids, Do(s, step));
    case AbortOutside => AbortKeeps(s, Outside);
  }

  lemma RunKeeps(s: Race, steps: seq<Step>)
    requires Inv(s) && AllWhole(s, steps)
    ensures Inv(Run(s, steps))
  {
    forall r, step | Inv(r) && Whole(r, step) ensures Inv(Do(r, step)) {
      StepKeeps(r, step);
    }
    Machine.RunKeeps(Do, Whole, Inv, s, steps);
  }

  // ---- the race ----

  /**
   * However resumes and expiries interleave: at most one resume is accepted, the turn
   * of an accepted resume is never aborted by an expiry, every park is resolved at
   * most once, and an expiry that is through has either found a resume or ended the turn.
   */
  lemma ResumeAndExpiryNeverBothWin(s: Race, steps: seq<Step>)
    requires Announced(s) && AllWhole(s, steps)
    ensures var t := Run(s, steps);
            && |t.accepted| <= 1
            && (t.accepted != [] ==> t.aborted != Some(Expiry))
            && OncePerPark(t.resolutions)
            && (forall e :: e in t.expiries && t.expiries[e].Closed? ==> t.accepted != [] || t.aborted.Some?)
  {
    assert AllAt(s, Open);
    RunKeeps(s, steps);
    var t := Run(s, steps);
    forall e | e in t.expiries && t.expiries[e].Closed? ensures t.accepted != [] || t.aborted.Some? {
      assert ExpiryFits(t, e);
    }
  }

  lemma AnswersAreHandedOut(t: Race, r: nat)
    requires Inv(t) && r in t.resumes && t.resumes[r].Driving? && t.aborted.None?
    ensures var after := Do(t, Answer(r));
            && (forall id :: id in after.open ==> Resolution(id, Answered(r)) in after.resolutions)
            && (forall x :: x in after.resolutions ==> x.ending == Answered(r))
  {
    assert ResumeFits(t, r);
    ResolveOnce(t.parks, t.resumes[r].ids, Answered(r));
  }

  /** When the accepted resume gets to its answers and nothing outside ended the turn, every park gets its own. */
  lemma AcceptedResumeAnswersEveryPark(s: Race, steps: seq<Step>, r: nat)
    requires Announced(s) && AllWhole(s, steps)
    requires var t := Run(s, steps); r in t.resumes && t.resumes[r].Driving? && t.aborted != Some(Outside)
    ensures var after := Do(Run(s, steps), Answer(r));
            && (forall id :: id in after.open ==> Resolution(id, Answered(r)) in after.resolutions)
            && (forall x :: x in after.resolutions ==> x.ending == Answered(r))
  {
    assert AllAt(s, Open);
    RunKeeps(s, steps);
    var t := Run(s, steps);
    assert ResumeFits(t, r);
    match t.aborted
    case None => AnswersAreHandedOut(t, r);
    case Some(Expiry) =>
    case Some(Outside) =>
  }

  // ---- records that expire apart ----

  ghost predicate Leads(s: Race, t: Race) { Machine.Leads(Do, s, t) }

  /** An expiry of two records finds one expired and the other open. */
  predicate HalfExpired(t: Race) {
    && |t.open| == 2 && !IsOpen(t.records, t.open[0])
    && !IsResolved(t.records, t.open[0]) && !IsResolved(t.records, t.open[1])
  }

  lemma ExpiryStep(t: Race, step: Step, at: ExpiryAt, next: ExpiryAt)
    requires HalfExpired(t) && 0 in t.expiries && t.expiries[0] == at
    requires || (step == SettleExpiry(0) && at == Started && next == Reading(0, false))
             || (step == ReadRecord(0) && at == Reading(0, false) && next == Reading(1, false))
             || (step == ReadRecord(0) && at == Reading(1, false) && next == Reading(2, false))
             || (step == ReadRecord(0) && at == Reading(2, false) && next == Deciding)
    ensures Do(t, step) == StepExpiry(t, 0, next)
  {
    if step == SettleExpiry(0) {
      assert t.open[0] in t.open;
      assert !AllOpen(t.records, t.open);
    }
  }

  lemma ExpiryGoesOn(s: Race, t: Race, step: Step, at: ExpiryAt, next: ExpiryAt) returns (u: Race)
    requires Leads(s, t) && HalfExpired(t) && 0 in t.expiries && t.expiries[0] == at
    requires || (step == SettleExpiry(0) && at == Started && next == Reading(0, false))
             || (step == ReadRecord(0) && at == Reading(0, false) && next == Reading(1, false))
             || (step == ReadRecord(0) && at == Reading(1, false) && next == Reading(2, false))
             || (step == ReadRecord(0) && at == Reading(2, false) && next == Deciding)
    ensures Leads(s, u) && HalfExpired(u) && u == t.(expiries := u.expiries)
    ensures 0 in u.expiries && u.expiries[0] == next
  {
    ExpiryStep(t, step, at, next);
    var _ := Machine.On(Do, s, t, step);
    u := StepExpiry(t, 0, next);
  }

  /** So it goes on to close the turn. */
  lemma ExpiryFindsNobody(s: Race, t: Race) returns (u: Race)
    requires Leads(s, t) && HalfExpired(t) && !t.claimed && t.expiries == map[]
    ensures Leads(s, u) && u == t.(expiries := u.expiries) && 0 in u.expiries && u.expiries[0] == Deciding
  {
    var _ := Machine.On(Do, s, t, Expire(0));
    u := StartExpiry(t, 0);
    u := ExpiryGoesOn(s, u, SettleExpiry(0), Started, Reading(0, false));
    u := ExpiryGoesOn(s, u, ReadRecord(0), Reading(0, false), Reading(1, false));
    u := ExpiryGoesOn(s, u, ReadRecord(0), Reading(1, false), Reading(2, false));
    u := ExpiryGoesOn(s, u, ReadRecord(0), Reading(2, false), Deciding);
  }

  /** A resume that answers the open record is accepted then. */
  lemma LateResumeIsAccepted(s: Race, t: Race, b: string) returns (u: Race)
    requires Leads(s, t) && t.resumes == map[] && t.aborted.None? && t.accepted == []
    requires b in t.open && b in t.parks && IsOpen(t.records, b)
    requires forall id :: id in t.open && IsOpen(t.records, id) ==> id == b
    ensures Leads(s, u) && u.accepted == [1] && u.expiries == t.expiries && u.claimed == t.claimed && u.aborted.None?
  {
    assert Covers(t, [b]);
    var _ := Machine.On(Do, s, t, Plan(1, [b]));
    var t1 := StepResume(t, 1, Planned([b]));
    var _ := Machine.On(Do, s, t1, Check(1, false));
    var t2 := StepResume(t1, 1, Checked([b]));
    assert AllOpen(t2.records, [b]);
    var _ := Machine.On(Do, s, t2, SettleResume(1));
    u := Do(t2, SettleResume(1));
  }

  lemma OneOfTwoExpires(s: Race, a: string, b: string)
    requires Announced(s) && s.open == [a, b] && a != b
    ensures var t := Do(s, ExpireElsewhere([a]));
            HalfExpired(t) && t == s.(records := t.records) && IsOpen(t.records, b)
  {
    assert a in s.open && b in s.open;
    SettleInRoom(s.records, s.max, [a], Expired);
  }

  lemma ClosesOn(s: Race, u: Race)
    requires Leads(s, u) && u.accepted == [1] && u.aborted.None? && !u.claimed
    requires 0 in u.expiries && u.expiries[0] == Deciding
    ensures exists t :: Leads(s, t) && t.accepted != [] && t.aborted == Some(Expiry)
  {
    var _ := Machine.On(Do, s, u, Close(0));
    var t := Do(u, Close(0));
    assert t.accepted == [1] && t.aborted == Some(Expiry);
  }

  /**
   * The records must be expired together. If only some are, a resume of the rest is
   * accepted after the expiry has found nobody, and the expiry ends its turn.
   */
  lemma ExpiringAPartLosesAnAnswer(s: Race, a: string, b: string)
    requires Announced(s) && s.open == [a, b] && a != b
    ensures exists t :: Leads(s, t) && t.accepted != [] && t.aborted == Some(Expiry)
  {
    Machine.Here(Do, s);
    var _ := Machine.On(Do, s, s, ExpireElsewhere([a]));
    var t := Do(s, ExpireElsewhere([a]));
    OneOfTwoExpires(s, a, b);
    assert b in s.open;
    var u := ExpiryFindsNobody(s, t);
    u := LateResumeIsAccepted(s, u, b);
    ClosesOn(s, u);
  }
}
