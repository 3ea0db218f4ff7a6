/** Run statistics: the six counters of a test context and the derived
    `undefined` count of the summary. */
module Statistics {
  import opened Options

  /** How one `request` call ends. The first five are the outcome buckets;
      `NotDefined` (no request of that name) and `NoResponse` (the transport
      gave nothing back) leave every bucket alone. */
  datatype Outcome =
    | Passed
    | Failed
    | Unsupported
    | Skipped
    | Error(message: Option<string>)
    | NotDefined
    | NoResponse
  {
    /** The outcome is counted in one of the five buckets. */
    predicate Recorded()
    {
      !NotDefined? && !NoResponse?
    }
  }

  /** The counters `@tested`, `@unsupported`, `@failed`, `@passed`, `@error`
      and `@skipped`. */
  datatype Tally = Tally(tested: nat, unsupported: nat, failed: nat, passed: nat, error: nat, skipped: nat)
  {
    /** Requests counted as tested that no bucket accounts for. */
    function Undefined(): (u: int)
      ensures u + unsupported + failed + passed + error + skipped == tested
    {
      tested - unsupported - failed - passed - error - skipped
    }

    /** The tally after one outcome method ran for `o`: its own bucket grows
        by one and nothing else changes. */
    function Bump(o: Outcome): (t: Tally)
      ensures t.tested == tested
      ensures t.Undefined() == Undefined() - (if o.Recorded() then 1 else 0)
      ensures t.unsupported + t.failed + t.passed + t.error + t.skipped
           == unsupported + failed + passed + error + skipped + (if o.Recorded() then 1 else 0)
      ensures t.unsupported >= unsupported && t.failed >= failed && t.passed >= passed
      ensures t.error >= error && t.skipped >= skipped
    {
      match o
      case Passed => this.(passed := passed + 1)
      case Failed => this.(failed := failed + 1)
      case Unsupported => this.(unsupported := unsupported + 1)
      case Skipped => this.(skipped := skipped + 1)
      case Error(_) => this.(error := error + 1)
      case NotDefined => this
      case NoResponse => this
    }

    /** The tally after one `request` call ending with `o`: `tested` grows by
        one, then `o`'s bucket, if it has one. */
    function AfterRequest(o: Outcome): (t: Tally)
      ensures t.tested == tested + 1
      ensures t.Undefined() == Undefined() + (if o.Recorded() then 0 else 1)
    {
      this.(tested := tested + 1).Bump(o)
    }
  }

  /** An outcome method raises exactly its own counter, by one, and leaves
      `tested` and the other four counters as they were; an outcome without
      a bucket changes nothing. */
  lemma BumpOnlyItsBucket(t: Tally, o: Outcome)
    ensures var u := t.Bump(o);
      && u.tested == t.tested
      && u.passed == t.passed + (if o.Passed? then 1 else 0)
      && u.failed == t.failed + (if o.Failed? then 1 else 0)
      && u.unsupported == t.unsupported + (if o.Unsupported? then 1 else 0)
      && u.skipped == t.skipped + (if o.Skipped? then 1 else 0)
      && u.error == t.error + (if o.Error? then 1 else 0)
  {
  }

  /** The counters as `start` leaves them. */
  const Zero := Tally(0, 0, 0, 0, 0, 0)

  /** How many of the outcomes no bucket counts. */
  function Unrecorded(outcomes: seq<Outcome>): nat
  {
    if outcomes == [] then 0
    else (if outcomes[0].Recorded() then 0 else 1) + Unrecorded(outcomes[1..])
  }

  /** The tally after a sequence of `request` calls with these outcomes. */
  function Replay(t: Tally, outcomes: seq<Outcome>): Tally
    decreases outcomes
  {
    if outcomes == [] then t else Replay(t.AfterRequest(outcomes[0]), outcomes[1..])
  }

  /** Over a run of requests, `tested` counts the requests and `undefined`
      grows by exactly the requests no bucket counts. */
  lemma {:induction false} ReplayUndefined(t: Tally, outcomes: seq<Outcome>)
    decreases outcomes
    ensures Replay(t, outcomes).tested == t.tested + |outcomes|
    ensures Replay(t, outcomes).Undefined() == t.Undefined() + Unrecorded(outcomes)
  {
    if outcomes != [] {
      ReplayUndefined(t.AfterRequest(outcomes[0]), outcomes[1..]);
    }
  }

  /** From `start`, `undefined` is never negative, never decreases from one
      request to the next, and is zero exactly when every request ended in a
      bucket. */
  lemma {:induction false} UndefinedNeverNegative(outcomes: seq<Outcome>, o: Outcome)
    ensures Replay(Zero, outcomes).Undefined() >= 0
    ensures Replay(Zero, outcomes + [o]).Undefined() >= Replay(Zero, outcomes).Undefined()
    ensures Replay(Zero, outcomes).Undefined() == 0 <==>
      forall i :: 0 <= i < |outcomes| ==> outcomes[i].Recorded()
  {
    ReplayUndefined(Zero, outcomes);
    ReplayUndefined(Zero, outcomes + [o]);
    UnrecordedAppend(outcomes, o);
    UnrecordedZero(outcomes);
  }

  lemma {:induction false} UnrecordedAppend(outcomes: seq<Outcome>, o: Outcome)
    ensures Unrecorded(outcomes + [o]) == Unrecorded(outcomes) + (if o.Recorded() then 0 else 1)
  {
    if outcomes != [] {
      assert (outcomes + [o])[1..] == outcomes[1..] + [o];
      UnrecordedAppend(outcomes[1..], o);
    } else {
      assert [o][1..] == [];
    }
  }

  lemma {:induction false} UnrecordedZero(outcomes: seq<Outcome>)
    ensures Unrecorded(outcomes) == 0 <==> forall i :: 0 <= i < |outcomes| ==> outcomes[i].Recorded()
  {
    if outcomes != [] {
      UnrecordedZero(outcomes[1..]);
      assert forall i :: 1 <= i < |outcomes| ==> outcomes[i] == outcomes[1..][i - 1];
    }
  }
}
