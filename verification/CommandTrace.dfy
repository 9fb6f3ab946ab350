/** What the user of a MySQL connection observes, and the protocol it should follow.

    A trace is the sequence of callbacks, with the acceptance of each command by `execSqlInLoop`
    recorded as well.  The protocol is an automaton over these events. */
module CommandTrace {
  import opened Options

  /** The `index`-th of the `total` result sets of the query sent for command `query`. */
  datatype ResultSet = ResultSet(query: nat, index: nat, total: nat)

  /** `Failed(lost)` is the exception callback, `lost` when the server is gone; `Opened` and `Closed`
      are `okCallback_` and `closeCallback_`. */
  datatype Event =
    | Accepted(cmd: nat) | Delivered(results: ResultSet) | Failed(lost: bool) | Idle | Opened | Closed

  datatype Stage = Unopened | Open | Dead

  /** `announced` is the total that came with the last result set delivered. */
  datatype Job = Free | Busy(cmd: nat, delivered: nat, announced: nat) | Failing(lost: bool)

  /** `wasOpen` tells that `okCallback_` has been called, which is what a user waits for. */
  datatype Phase = Phase(stage: Stage, job: Job, accepted: nat, wasOpen: bool)

  function Next(p: Phase, e: Event): Option<Phase> {
    match e
    case Accepted(cmd) =>
      if p.wasOpen && p.job == Free && cmd == p.accepted then Some(p.(job := Busy(cmd, 0, 0), accepted := cmd + 1)) else None
    case Delivered(results) =>
      if p.job.Busy? then Some(p.(job := Busy(p.job.cmd, p.job.delivered + 1, results.total))) else None
    case Failed(lost) => if p.job.Busy? then Some(p.(job := if lost && p.stage == Dead then Free else Failing(lost))) else None
    case Idle => if (p.job.Busy? && p.job.delivered > 0) || p.job == Failing(false) then Some(p.(job := Free)) else None
    case Opened => if p.stage == Unopened && p.job == Free then Some(p.(stage := Open, wasOpen := true)) else None
    case Closed =>
      if p.stage != Dead && p.job != Failing(false)
      then Some(p.(stage := Dead, job := if p.job == Failing(true) then Free else p.job)) else None
  }

  const START := Phase(Unopened, Free, 0, false)

  /** Where the protocol stands after a trace; None when the trace breaks it. */
  function PhaseOf(trace: seq<Event>): Option<Phase> {
    if trace == [] then Some(START) else
    match PhaseOf(trace[..|trace| - 1])
    case None => None
    case Some(p) => Next(p, trace[|trace| - 1])
  }

  predicate Follows(trace: seq<Event>) {
    PhaseOf(trace).Some?
  }

  lemma PhaseAppend(trace: seq<Event>, e: Event)
    ensures PhaseOf(trace + [e]) == match PhaseOf(trace) case None => None case Some(p) => Next(p, e)
  {
    assert (trace + [e])[..|trace|] == trace;
  }

  /** Every prefix of a trace that follows the protocol follows it. */
  lemma {:induction false} PrefixFollows(trace: seq<Event>, k: nat)
    requires Follows(trace) && k <= |trace|
    ensures Follows(trace[..k])
  {
    if k < |trace| {
      PrefixFollows(trace[..|trace| - 1], k);
      assert trace[..|trace| - 1][..k] == trace[..k];
    } else {
      assert trace[..k] == trace;
    }
  }

  lemma PhaseStep(trace: seq<Event>, k: nat)
    requires Follows(trace) && k < |trace|
    ensures PhaseOf(trace[..k]).Some? && PhaseOf(trace[..k + 1]) == Next(PhaseOf(trace[..k]).value, trace[k])
    ensures PhaseOf(trace[..k + 1]).Some?
  {
    PrefixFollows(trace, k);
    PrefixFollows(trace, k + 1);
    assert trace[..k + 1][..k] == trace[..k];
  }

  // ------------------------------------------------------------------ every command ends exactly once

  /** An event that ends a command. */
  predicate Ends(e: Event) {
    e == Idle || e == Failed(true)
  }

  function Accepts(trace: seq<Event>): nat {
    if trace == [] then 0 else Accepts(trace[..|trace| - 1]) + if trace[|trace| - 1].Accepted? then 1 else 0
  }

  function Endings(trace: seq<Event>): nat {
    if trace == [] then 0 else Endings(trace[..|trace| - 1]) + if Ends(trace[|trace| - 1]) then 1 else 0
  }

  /** A lost connection's exception has ended its command already. */
  predicate InProgress(job: Job) {
    job.Busy? || job == Failing(false)
  }

  /** As many endings as acceptances, but for the one command in progress. */
  lemma {:induction false} EndsExactlyOnce(trace: seq<Event>)
    requires Follows(trace)
    ensures Accepts(trace) == Endings(trace) + if InProgress(PhaseOf(trace).value.job) then 1 else 0
    ensures Accepts(trace) == PhaseOf(trace).value.accepted
  {
    if trace != [] {
      EndsExactlyOnce(trace[..|trace| - 1]);
    }
  }

  predicate Reports(e: Event) {
    e.Delivered? || e.Failed? || e.Idle?
  }

  /** Between the end of a command and the next acceptance nothing is reported. */
  lemma {:induction false} QuietPhase(trace: seq<Event>, i: nat, j: nat)
    requires Follows(trace) && i < j <= |trace| && Ends(trace[i])
    requires forall k :: i < k < j ==> !trace[k].Accepted?
    ensures PhaseOf(trace[..j]).Some? && !InProgress(PhaseOf(trace[..j]).value.job)
  {
    PhaseStep(trace, j - 1);
    if j - 1 > i {
      QuietPhase(trace, i, j - 1);
    }
  }

  /** Nothing is delivered after completion. */
  lemma NothingAfterCompletion(trace: seq<Event>, i: nat, j: nat)
    requires Follows(trace) && i < j < |trace| && Ends(trace[i]) && Reports(trace[j])
    ensures exists k :: i < k < j && trace[k].Accepted?
  {
    if forall k :: i < k < j ==> !trace[k].Accepted? {
      QuietPhase(trace, i, j);
      PhaseStep(trace, j);
      assert false;
    }
  }

  /** An exception on a living connection is followed by idle at once. */
  lemma FailureThenIdle(trace: seq<Event>, i: nat)
    requires Follows(trace) && i + 1 < |trace| && trace[i] == Failed(false)
    ensures trace[i + 1] == Idle
  {
    PhaseStep(trace, i);
    PhaseStep(trace, i + 1);
  }

  /** The exception of a lost connection is followed by close at once, or close came before it. */
  lemma LossThenClose(trace: seq<Event>, i: nat)
    requires Follows(trace) && i + 1 < |trace| && trace[i] == Failed(true)
    ensures trace[i + 1] == Closed || exists k :: 0 <= k < i && trace[k] == Closed
  {
    PhaseStep(trace, i);
    PhaseStep(trace, i + 1);
    if PhaseOf(trace[..i]).value.stage == Dead {
      DeadMeansClosed(trace, i);
    }
  }

  lemma {:induction false} DeadMeansClosed(trace: seq<Event>, i: nat)
    requires Follows(trace) && i <= |trace| && PhaseOf(trace[..i]).Some?
    ensures PhaseOf(trace[..i]).value.stage == Dead <==> exists k :: 0 <= k < i && trace[k] == Closed
  {
    if i > 0 {
      PhaseStep(trace, i - 1);
      DeadMeansClosed(trace, i - 1);
    }
  }

  lemma {:induction false} OpenedBefore(trace: seq<Event>, i: nat)
    requires Follows(trace) && i <= |trace| && PhaseOf(trace[..i]).Some?
    ensures PhaseOf(trace[..i]).value.wasOpen <==> exists k :: 0 <= k < i && trace[k] == Opened
    ensures PhaseOf(trace[..i]).value.stage == Open ==> PhaseOf(trace[..i]).value.wasOpen
    ensures PhaseOf(trace[..i]).value.stage == Unopened ==> !PhaseOf(trace[..i]).value.wasOpen
  {
    if i > 0 {
      PhaseStep(trace, i - 1);
      OpenedBefore(trace, i - 1);
      assert trace[i - 1] == Opened || forall k :: 0 <= k < i && trace[k] == Opened ==> k < i - 1;
    }
  }

  /** The connection opens at most once, before any command, and closes at most once, never to open
      again; commands may be accepted after the close all the same. */
  lemma LifeCycle(trace: seq<Event>, i: nat, j: nat)
    requires Follows(trace) && i < j < |trace|
    ensures trace[i] == Closed ==> trace[j] !in {Closed, Opened}
    ensures trace[i] == Opened ==> trace[j] != Opened
    ensures trace[i].Accepted? ==> exists k :: 0 <= k < i && trace[k] == Opened
  {
    PhaseStep(trace, i);
    PhaseStep(trace, j);
    DeadMeansClosed(trace, j);
    OpenedBefore(trace, j);
    OpenedBefore(trace, i);
  }

  /** Idle comes after a result or an exception of the command it ends. */
  lemma {:induction false} SomethingBefore(trace: seq<Event>, j: nat)
    requires Follows(trace) && j <= |trace| && PhaseOf(trace[..j]).Some?
    requires var job := PhaseOf(trace[..j]).value.job; (job.Busy? && job.delivered > 0) || job == Failing(false)
    ensures exists i :: 0 <= i < j && (trace[i].Delivered? || trace[i] == Failed(false))
                        && forall k :: i < k < j ==> trace[k] == Closed
  {
    PhaseStep(trace, j - 1);
    if trace[j - 1] == Closed {
      SomethingBefore(trace, j - 1);
      var i :| 0 <= i < j - 1 && (trace[i].Delivered? || trace[i] == Failed(false)) && forall k :: i < k < j - 1 ==> trace[k] == Closed;
      assert forall k :: i < k < j ==> trace[k] == Closed;
    } else {
      assert trace[j - 1].Delivered? || trace[j - 1] == Failed(false);
    }
  }

  lemma IdleIsEarned(trace: seq<Event>, j: nat)
    requires Follows(trace) && j < |trace| && trace[j] == Idle
    ensures exists i :: 0 <= i < j && (trace[i].Delivered? || trace[i] == Failed(false))
                        && forall k :: i < k < j ==> trace[k] == Closed
  {
    PhaseStep(trace, j);
    SomethingBefore(trace, j);
  }

  // ------------------------------------------------------------------ results in order

  /** Each result goes to its own command in the order of the sets, a command goes idle behind its last
      result set, and none is cut off by a close. */
  predicate OrderlyAt(trace: seq<Event>, k: nat)
    requires k < |trace|
  {
    match PhaseOf(trace[..k])
    case None => false
    case Some(p) =>
      match trace[k]
      case Delivered(results) =>
        && p.job.Busy? && p.job.cmd == results.query && p.job.delivered == results.index < results.total
        && (results.index > 0 ==> p.job.announced == results.total)
      case Idle => p.job.Busy? ==> p.job.delivered == p.job.announced
      case Closed => !p.job.Busy?
      case _ => true
  }

  ghost predicate Orderly(trace: seq<Event>) {
    forall k :: 0 <= k < |trace| ==> OrderlyAt(trace, k)
  }

  lemma OrderlyAppend(trace: seq<Event>, e: Event)
    requires Orderly(trace) && OrderlyAt(trace + [e], |trace|)
    ensures Orderly(trace + [e])
  {
    forall k | 0 <= k < |trace| ensures OrderlyAt(trace + [e], k) {
      assert OrderlyAt(trace, k);
      assert (trace + [e])[..k] == trace[..k];
    }
  }

  /** The indices of the result sets of `cmd` delivered, in order. */
  function ResultsOf(trace: seq<Event>, cmd: nat): seq<nat> {
    if trace == [] then [] else
    var e := trace[|trace| - 1];
    ResultsOf(trace[..|trace| - 1], cmd) + if e.Delivered? && e.results.query == cmd then [e.results.index] else []
  }

  function UpTo(n: nat): seq<nat> {
    if n == 0 then [] else UpTo(n - 1) + [n - 1]
  }

  /** An orderly trace delivers, for every command, its result sets 0, 1, 2, ... without gap or repetition. */
  lemma {:induction false} DeliveredInOrder(trace: seq<Event>, cmd: nat)
    requires Follows(trace) && Orderly(trace)
    ensures ResultsOf(trace, cmd) == UpTo(|ResultsOf(trace, cmd)|)
    ensures PhaseOf(trace).value.accepted <= cmd ==> ResultsOf(trace, cmd) == []
    ensures var job := PhaseOf(trace).value.job;
            job.Busy? ==> job.cmd + 1 == PhaseOf(trace).value.accepted && (job.cmd == cmd ==> |ResultsOf(trace, cmd)| == job.delivered)
  {
    if trace != [] {
      var front, last := trace[..|trace| - 1], |trace| - 1;
      forall k | 0 <= k < |front| ensures OrderlyAt(front, k) {
        assert OrderlyAt(trace, k) && front[..k] == trace[..k];
      }
      DeliveredInOrder(front, cmd);
      assert OrderlyAt(trace, last);
    }
  }

  /** A command that goes idle without having failed has received all its result sets. */
  lemma CompleteWhenIdle(trace: seq<Event>, j: nat)
    requires Follows(trace) && Orderly(trace) && j < |trace| && trace[j] == Idle
    ensures PhaseOf(trace[..j]).Some?
    ensures var job := PhaseOf(trace[..j]).value.job;
            job.Busy? ==> job.announced > 0 && ResultsOf(trace[..j], job.cmd) == UpTo(job.announced)
  {
    PhaseStep(trace, j);
    var job := PhaseOf(trace[..j]).value.job;
    if job.Busy? {
      forall k | 0 <= k < j ensures OrderlyAt(trace[..j], k) {
        assert OrderlyAt(trace, k) && trace[..j][..k] == trace[..k];
      }
      assert OrderlyAt(trace, j);
      DeliveredInOrder(trace[..j], job.cmd);
    }
  }
}
