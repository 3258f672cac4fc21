/** The human-in-the-loop approval wait that the tool wrapper and the agent both run:
    request an approval, then poll its status once a second until it is approved,
    rejected or expired, or until 300 seconds have passed since the wait began. */
module Approval {
  import opened Json
  import opened Effects

  /** The wait budget in seconds (`max_wait`). */
  const MaxWait: real := 300.0
  /** The `timeout_seconds` sent with every approval request. */
  const TimeoutSeconds: int := 300
  /** No wait can make more status checks than this. */
  const MaxPolls: nat := 300

  /** The clock the wait reads: reading 0 is `start_time`, reading k + 1 is the one taken
      by the k-th test of the loop condition. */
  type Clock = nat -> real

  /** Between two loop tests the loop sleeps one second, so those readings are at least a
      second apart. */
  ghost predicate Ticks(clock: Clock, k: nat)
  {
    clock(k) + 1.0 <= clock(k + 1)
  }

  /** The clock does not run backwards before the first test, and each sleep lasts at
      least one second. */
  ghost predicate ClockOk(clock: Clock)
  {
    clock(0) <= clock(1) && forall k: nat | 1 <= k :: Ticks(clock, k)
  }

  /** The loop condition `time.time() - start_time < max_wait` at the k-th test. */
  predicate InTime(clock: Clock, k: nat)
  {
    clock(k + 1) - clock(0) < MaxWait
  }

  /** By the k-th test at least k seconds have passed. */
  lemma {:induction false} ElapsedBound(clock: Clock, k: nat)
    requires ClockOk(clock)
    ensures clock(k + 1) - clock(0) >= k as real
  {
    if k > 0 {
      ElapsedBound(clock, k - 1);
      assert Ticks(clock, k);
    }
  }

  /** So a test that is still in time is one of the first 300. */
  lemma InTimeBound(clock: Clock, k: nat)
    requires ClockOk(clock) && InTime(clock, k)
    ensures k < MaxPolls
  {
    ElapsedBound(clock, k);
  }

  /** `status['status']` on one answer of the service. */
  function StatusOf(response: Result<Json>): (r: Result<Json>)
    ensures r.Ok? <==> response.Ok? && response.value.Obj? && "status" in response.value.fields
    ensures r.Ok? ==> r.value == response.value.fields["status"]
    ensures response.Err? ==> r == response
    ensures response.Ok? && response.value.Obj? && "status" !in response.value.fields ==> r == Err(KeyError("status"))
  {
    match response
    case Err(e) => Err(e)
    case Ok(v) => Index(v, "status")
  }

  /** `status['status'] in ['rejected', 'expired']`. */
  predicate Refuses(status: Json)
  {
    status == Str("rejected") || status == Str("expired")
  }

  /** A status answer that keeps the loop going: readable, and neither approved nor refused. */
  predicate Undecided(response: Result<Json>)
  {
    var s := StatusOf(response);
    s.Ok? && s.value != Str("approved") && !Refuses(s.value)
  }

  /** How a wait ends, with the number of status checks it made. */
  datatype Outcome =
    | Approved(polls: nat)
    | Refused(polls: nat)
    | TimedOut(polls: nat)
    | Failed(error: Error, polls: nat)

  /** The wait for approval `id`, from its k-th loop test on. */
  function Await(client: Client, id: Json, clock: Clock, k: nat): (o: Outcome)
    requires ClockOk(clock) && k <= MaxPolls
    ensures k <= o.polls <= MaxPolls
    ensures o.TimedOut? ==> !InTime(clock, o.polls)
    ensures !o.TimedOut? ==> o.polls > k && InTime(clock, o.polls - 1)
    decreases MaxPolls - k
  {
    if !InTime(clock, k) then TimedOut(k)
    else
      InTimeBound(clock, k);
      var status := StatusOf(client.service.checkApproval(id, k));
      if status.Err? then Failed(status.error, k + 1)
      else if status.value == Str("approved") then Approved(k + 1)
      else if Refuses(status.value) then Refused(k + 1)
      else Await(client, id, clock, k + 1)
  }

  /** The status checks that came back undecided, in time, between tests `start` and `stop`. */
  ghost predicate PendingBetween(client: Client, id: Json, clock: Clock, start: nat, stop: nat)
    decreases stop as int - start
  {
    start >= stop || (InTime(clock, start) && Undecided(client.service.checkApproval(id, start))
                   && PendingBetween(client, id, clock, start + 1, stop))
  }

  /** The number of loop rounds that went on to sleep. */
  function Rounds(o: Outcome): nat
  {
    if o.TimedOut? then o.polls else if o.polls == 0 then 0 else o.polls - 1
  }

  /** What the last loop test (and, if it polled, the last status check) saw. */
  ghost predicate EndedBy(client: Client, id: Json, clock: Clock, o: Outcome)
  {
    match o
    case TimedOut(n) => !InTime(clock, n)
    case Approved(n) =>
      n >= 1 && InTime(clock, n - 1) && StatusOf(client.service.checkApproval(id, n - 1)) == Ok(Str("approved"))
    case Refused(n) =>
      n >= 1 && InTime(clock, n - 1) && StatusOf(client.service.checkApproval(id, n - 1)).Ok?
      && Refuses(StatusOf(client.service.checkApproval(id, n - 1)).value)
    case Failed(e, n) =>
      n >= 1 && InTime(clock, n - 1) && StatusOf(client.service.checkApproval(id, n - 1)) == Err(e)
  }

  /** The wait ends with `o` exactly when every round before the last was in time and
      undecided and the last one saw what `o` says. */
  lemma AwaitCharacterised(client: Client, id: Json, clock: Clock, o: Outcome)
    requires ClockOk(clock)
    ensures Await(client, id, clock, 0) == o
        <==> PendingBetween(client, id, clock, 0, Rounds(o)) && EndedBy(client, id, clock, o)
  {
    if Await(client, id, clock, 0) == o {
      AwaitExplains(client, id, clock, 0);
    }
    if PendingBetween(client, id, clock, 0, Rounds(o)) && EndedBy(client, id, clock, o) {
      ExplainedAwait(client, id, clock, 0, o);
    }
  }

  lemma {:induction false} AwaitExplains(client: Client, id: Json, clock: Clock, k: nat)
    requires ClockOk(clock) && k <= MaxPolls
    ensures var o := Await(client, id, clock, k);
      k <= Rounds(o) && PendingBetween(client, id, clock, k, Rounds(o)) && EndedBy(client, id, clock, o)
    decreases MaxPolls - k
  {
    if !InTime(clock, k) {
      assert Await(client, id, clock, k) == TimedOut(k);
    } else {
      InTimeBound(clock, k);
      var status := StatusOf(client.service.checkApproval(id, k));
      if Undecided(client.service.checkApproval(id, k)) {
        AwaitContinues(client, id, clock, k);
        AwaitExplains(client, id, clock, k + 1);
        PendingExtends(client, id, clock, k, Rounds(Await(client, id, clock, k + 1)));
      } else if status.Err? {
        assert Await(client, id, clock, k) == Failed(status.error, k + 1);
      } else if status.value == Str("approved") {
        assert Await(client, id, clock, k) == Approved(k + 1);
      } else {
        assert Await(client, id, clock, k) == Refused(k + 1);
      }
    }
  }

  /** A round in time that finds the approval undecided leaves the outcome to the next. */
  lemma AwaitContinues(client: Client, id: Json, clock: Clock, k: nat)
    requires ClockOk(clock) && k <= MaxPolls && InTime(clock, k)
    requires Undecided(client.service.checkApproval(id, k))
    ensures k < MaxPolls && Await(client, id, clock, k) == Await(client, id, clock, k + 1)
  {
    InTimeBound(clock, k);
  }

  /** An undecided round in time extends a pending stretch one round forward. */
  lemma {:induction false} PendingAppend(client: Client, id: Json, clock: Clock, start: nat, stop: nat)
    requires start <= stop && PendingBetween(client, id, clock, start, stop)
    requires InTime(clock, stop) && Undecided(client.service.checkApproval(id, stop))
    ensures PendingBetween(client, id, clock, start, stop + 1)
    decreases stop as int - start
  {
    if start < stop {
      PendingAppend(client, id, clock, start + 1, stop);
    }
  }

  /** An undecided round in time extends a pending stretch one round back. */
  lemma PendingExtends(client: Client, id: Json, clock: Clock, k: nat, stop: nat)
    requires InTime(clock, k) && Undecided(client.service.checkApproval(id, k))
    requires PendingBetween(client, id, clock, k + 1, stop)
    ensures PendingBetween(client, id, clock, k, stop)
  {
  }

  lemma {:induction false} ExplainedAwait(client: Client, id: Json, clock: Clock, k: nat, o: Outcome)
    requires ClockOk(clock) && k <= Rounds(o) && k <= MaxPolls
    requires PendingBetween(client, id, clock, k, Rounds(o)) && EndedBy(client, id, clock, o)
    ensures Await(client, id, clock, k) == o
    decreases Rounds(o) - k
  {
    if k < Rounds(o) {
      assert InTime(clock, k) && Undecided(client.service.checkApproval(id, k));
      AwaitContinues(client, id, clock, k);
      ExplainedAwait(client, id, clock, k + 1, o);
    } else {
      EndedAwait(client, id, clock, o);
    }
  }

  /** The round an outcome names as its last ends the wait with that outcome. */
  lemma EndedAwait(client: Client, id: Json, clock: Clock, o: Outcome)
    requires ClockOk(clock) && Rounds(o) <= MaxPolls && EndedBy(client, id, clock, o)
    ensures Await(client, id, clock, Rounds(o)) == o
  {
    if !o.TimedOut? {
      InTimeBound(clock, Rounds(o));
    }
  }

  /** A service that never decides makes the wait time out, after at most 300 checks. */
  lemma {:induction false} NeverDecidedTimesOut(client: Client, id: Json, clock: Clock, k: nat)
    requires ClockOk(clock) && k <= MaxPolls
    requires forall j: nat :: Undecided(client.service.checkApproval(id, j))
    ensures Await(client, id, clock, k).TimedOut?
    decreases MaxPolls - k
  {
    if InTime(clock, k) {
      InTimeBound(clock, k);
      NeverDecidedTimesOut(client, id, clock, k + 1);
    }
  }

  /** The trace of `n` rounds that found the approval still pending. */
  function PendingRounds(id: Json, n: nat): (t: seq<Event>)
    ensures |t| == 2 * n
  {
    if n == 0 then [] else PendingRounds(id, n - 1) + [StatusChecked(id), Slept(1)]
  }

  /** Those rounds alternate: a status check of `id`, then a one-second sleep. */
  lemma {:induction false} PendingRoundsAlternate(id: Json, n: nat)
    ensures forall i | 0 <= i < 2 * n ::
      PendingRounds(id, n)[i] == (if i % 2 == 0 then StatusChecked(id) else Slept(1))
    decreases n
  {
    if n > 0 {
      PendingRoundsAlternate(id, n - 1);
      var t := PendingRounds(id, n);
      forall i | 0 <= i < 2 * n
        ensures t[i] == (if i % 2 == 0 then StatusChecked(id) else Slept(1))
      {
        if i < 2 * (n - 1) {
          assert t[i] == PendingRounds(id, n - 1)[i];
        } else if i == 2 * (n - 1) {
          assert i % 2 == 0;
        } else {
          assert i % 2 == 1;
        }
      }
    }
  }

  /** The trace of a whole wait: the pending rounds, then the deciding check if there was one. */
  function PollEvents(id: Json, o: Outcome): (t: seq<Event>)
  {
    PendingRounds(id, Rounds(o)) + if o.TimedOut? then [] else [StatusChecked(id)]
  }

  /** A wait alternates status checks of the approval the request returned with
      one-second sleeps, starting with a check, and makes as many checks as its outcome
      records. */
  lemma PollEventsChecks(id: Json, o: Outcome)
    requires o.TimedOut? || o.polls >= 1
    ensures forall i | 0 <= i < |PollEvents(id, o)| ::
      PollEvents(id, o)[i] == (if i % 2 == 0 then StatusChecked(id) else Slept(1))
    ensures Occurrences(PollEvents(id, o), IsApprovalTraffic) == o.polls
    ensures Occurrences(PollEvents(id, o), IsToolCall) == 0
  {
    PendingRoundsAlternate(id, Rounds(o));
    var t := PollEvents(id, o);
    forall i | 0 <= i < |t|
      ensures t[i] == (if i % 2 == 0 then StatusChecked(id) else Slept(1))
    {
      if i < 2 * Rounds(o) {
        assert t[i] == PendingRounds(id, Rounds(o))[i];
      } else {
        assert i == 2 * Rounds(o) && i % 2 == 0;
      }
    }
    ChecksInRounds(id, Rounds(o));
    assert Occurrences([StatusChecked(id)], IsApprovalTraffic) == 1 by {
      assert [StatusChecked(id)][1..] == [];
    }
    var last: seq<Event> := if o.TimedOut? then [] else [StatusChecked(id)];
    OccurrencesAppend(PendingRounds(id, Rounds(o)), last, IsApprovalTraffic);
  }

  /** A request followed by a wait: after the request, only status checks of `id` and
      one-second sleeps. */
  lemma RequestThenPoll(request: Event, id: Json, o: Outcome)
    requires o.TimedOut? || o.polls >= 1
    ensures var t := [request] + PollEvents(id, o);
      t[0] == request && forall i | 1 <= i < |t| :: t[i] == StatusChecked(id) || t[i] == Slept(1)
  {
    PollEventsChecks(id, o);
    var t := [request] + PollEvents(id, o);
    forall i | 1 <= i < |t|
      ensures t[i] == StatusChecked(id) || t[i] == Slept(1)
    {
      assert t[i] == PollEvents(id, o)[i - 1];
    }
  }

  lemma {:induction false} ChecksInRounds(id: Json, n: nat)
    ensures Occurrences(PendingRounds(id, n), IsApprovalTraffic) == n
    decreases n
  {
    if n > 0 {
      ChecksInRounds(id, n - 1);
      OccurrencesAppend(PendingRounds(id, n - 1), [StatusChecked(id), Slept(1)], IsApprovalTraffic);
      assert [StatusChecked(id), Slept(1)][1..] == [Slept(1)];
    }
  }

  /** The wait loop (both copies in the source run this loop): poll until a decision,
      an error, or the end of the time budget. */
  method Poll(client: Client, id: Json, clock: Clock) returns (o: Outcome, trace: seq<Event>)
    requires ClockOk(clock)
    ensures o == Await(client, id, clock, 0)
    ensures trace == PollEvents(id, o)
  {
    var k: nat := 0;
    trace := [];
    while clock(k + 1) - clock(0) < MaxWait
      invariant k <= MaxPolls
      invariant PendingBetween(client, id, clock, 0, k)
      invariant trace == PendingRounds(id, k)
      decreases MaxPolls - k
    {
      InTimeBound(clock, k);
      var status := StatusOf(client.service.checkApproval(id, k));
      trace := trace + [StatusChecked(id)];
      if status.Err? {
        o := Failed(status.error, k + 1);
      } else if status.value == Str("approved") {
        o := Approved(k + 1);
      } else if Refuses(status.value) {
        o := Refused(k + 1);
      } else {
        PendingAppend(client, id, clock, 0, k);
        trace := trace + [Slept(1)];
        k := k + 1;
        continue;
      }
      DecidedAt(client, id, clock, k, o);
      return;
    }
    o := TimedOut(k);
    TimedOutAt(client, id, clock, k);
  }

  /** A wait whose rounds before k were pending and whose k-th check decided. */
  lemma DecidedAt(client: Client, id: Json, clock: Clock, k: nat, o: Outcome)
    requires ClockOk(clock) && InTime(clock, k) && PendingBetween(client, id, clock, 0, k)
    requires !o.TimedOut? && o.polls == k + 1 && EndedBy(client, id, clock, o)
    ensures Await(client, id, clock, 0) == o
    ensures PollEvents(id, o) == PendingRounds(id, k) + [StatusChecked(id)]
  {
    assert Rounds(o) == k;
    AwaitCharacterised(client, id, clock, o);
  }

  /** A wait whose rounds before k were pending and whose k-th test found time up. */
  lemma TimedOutAt(client: Client, id: Json, clock: Clock, k: nat)
    requires ClockOk(clock) && !InTime(clock, k) && PendingBetween(client, id, clock, 0, k)
    ensures Await(client, id, clock, 0) == TimedOut(k)
    ensures PollEvents(id, TimedOut(k)) == PendingRounds(id, k)
  {
    AwaitCharacterised(client, id, clock, TimedOut(k));
    assert PendingRounds(id, k) + [] == PendingRounds(id, k);
  }
}
