/** `WhatsappMessagesQueue`: a first-in first-out queue of outgoing messages
    with bounded re-enqueueing of failed sends. One iteration of the consumer
    loop is modelled as a step; whether the send succeeds is its input. */
module MessagesQueue {

  const MAX_RETRIES := 3
  const STOP := "STOP"

  datatype Job = Job(cellphone: string, message: string, wpId: string, retryCount: int)

  /** What one consumer iteration did. `Waiting` stands for the blocking get
      on an empty queue, which takes nothing. */
  datatype Outcome = Waiting | Stopped | Delivered | Requeued | Dropped

  /** One consumer iteration on the pending jobs: the front job is taken; a
      STOP job ends the loop without a send; a failed send (a send that
      raises counts as failed) is re-enqueued at the back with one more retry
      while fewer than `MAX_RETRIES` retries were made, and discarded
      otherwise; a delivered job is discarded. */
  function Step(q: seq<Job>, sent: bool): (seq<Job>, Outcome)
  {
    if q == [] then (q, Waiting)
    else
      var j := q[0];
      if j.message == STOP then (q[1..], Stopped)
      else if !sent && j.retryCount < MAX_RETRIES then (q[1..] + [j.(retryCount := j.retryCount + 1)], Requeued)
      else if !sent then (q[1..], Dropped)
      else (q[1..], Delivered)
  }

  /** An iteration removes the front job and keeps the others in order; the
      queue shrinks by one, except when the job is re-enqueued at the back
      with its retry count raised by one and its other fields unchanged. */
  lemma StepSpec(q: seq<Job>, sent: bool)
    requires q != []
    ensures var (q', o) := Step(q, sent);
      && q'[..|q| - 1] == q[1..]
      && (o == Stopped <==> q[0].message == STOP)
      && (o == Requeued <==> q[0].message != STOP && !sent && q[0].retryCount < MAX_RETRIES)
      && (o == Dropped <==> q[0].message != STOP && !sent && q[0].retryCount >= MAX_RETRIES)
      && (o == Delivered <==> q[0].message != STOP && sent)
      && (o == Requeued ==> |q'| == |q| && q'[|q| - 1] == Job(q[0].cellphone, q[0].message, q[0].wpId, q[0].retryCount + 1))
      && (o != Requeued ==> |q'| == |q| - 1)
  {
  }

  /** The consumer on an empty queue waits and takes nothing. */
  lemma StepWaits(sent: bool)
    ensures Step([], sent) == ([], Waiting)
  {
  }

  /** Consecutive iterations, with the send results in order. */
  function Run(q: seq<Job>, sends: seq<bool>): (seq<Job>, seq<Outcome>)
    decreases |sends|
  {
    if sends == [] then (q, [])
    else
      var (q1, o) := Step(q, sends[0]);
      var (q2, os) := Run(q1, sends[1..]);
      (q2, [o] + os)
  }

  /** How many sends a job that starts at `retryCount` gets when every one
      fails. */
  function Attempts(retryCount: int): nat
  {
    if retryCount < MAX_RETRIES then MAX_RETRIES + 1 - retryCount else 1
  }

  function Repeat<T>(x: T, n: nat): (s: seq<T>)
    ensures |s| == n && forall i :: 0 <= i < n ==> s[i] == x
  {
    seq(n, _ => x)
  }

  /** A job alone in the queue whose every send fails is sent `Attempts`
      times (4 times when it starts at 0): re-enqueued after each failure but
      the last, then discarded, leaving the queue empty. */
  lemma {:induction false} LoneFailingJob(j: Job)
    requires j.message != STOP
    ensures Run([j], Repeat(false, Attempts(j.retryCount))) ==
            ([], Repeat(Requeued, Attempts(j.retryCount) - 1) + [Dropped])
    decreases Attempts(j.retryCount)
  {
    var n := Attempts(j.retryCount);
    var sends := Repeat(false, n);
    assert [j][1..] == [] && [j][0] == j;
    if j.retryCount < MAX_RETRIES {
      var j' := j.(retryCount := j.retryCount + 1);
      assert [j][1..] + [j'] == [j'];
      assert Step([j], false) == ([j'], Requeued);
      assert sends[1..] == Repeat(false, Attempts(j'.retryCount));
      LoneFailingJob(j');
      assert Attempts(j'.retryCount) == n - 1;
      assert Run([j], sends) == (Run([j'], sends[1..]).0, [Requeued] + Run([j'], sends[1..]).1);
      var rest := Repeat(Requeued, n - 2) + [Dropped];
      assert Run([j'], sends[1..]) == ([], rest);
      assert Repeat(Requeued, n - 1) == [Requeued] + Repeat(Requeued, n - 2);
      assert [Requeued] + rest == Repeat(Requeued, n - 1) + [Dropped];
    } else {
      assert n == 1 && sends == [false];
      assert Step([j], false) == ([], Dropped);
      assert sends[1..] == [];
      assert Run([], []) == ([], []);
      assert Run([j], sends) == (Run([], sends[1..]).0, [Dropped] + Run([], sends[1..]).1);
      assert Repeat(Requeued, n - 1) + [Dropped] == [Dropped];
      assert Run([], sends[1..]) == ([], []);
      assert [Dropped] + [] == [Dropped];
    }
  }

  /** The sends still owed to the queued jobs if every one of them fails:
      the sum of their `Attempts`. */
  function Budget(q: seq<Job>): nat
  {
    if q == [] then 0 else Attempts(q[0].retryCount) + Budget(q[1..])
  }

  lemma {:induction false} BudgetAppend(a: seq<Job>, b: seq<Job>)
    ensures Budget(a + b) == Budget(a) + Budget(b)
  {
    if a == [] {
      assert a + b == b;
    } else {
      assert (a + b)[0] == a[0] && (a + b)[1..] == a[1..] + b;
      BudgetAppend(a[1..], b);
    }
  }

  /** The retry bound holds for every job, whatever else is queued: each
      iteration that takes a job lowers the budget of the whole queue, by
      exactly one when the send fails, and an empty queue keeps it. */
  lemma StepBudget(q: seq<Job>, sent: bool)
    ensures q == [] ==> Budget(Step(q, sent).0) == Budget(q)
    ensures q != [] ==> Budget(Step(q, sent).0) < Budget(q)
    ensures Step(q, sent).1 == Requeued || Step(q, sent).1 == Dropped ==>
              Budget(Step(q, sent).0) == Budget(q) - 1
  {
    if q != [] {
      var j := q[0];
      assert Budget(q) == Attempts(j.retryCount) + Budget(q[1..]);
      if j.message == STOP || sent {
        assert Step(q, sent).0 == q[1..];
      } else if j.retryCount < MAX_RETRIES {
        var j' := j.(retryCount := j.retryCount + 1);
        assert Step(q, sent) == (q[1..] + [j'], Requeued);
        BudgetAppend(q[1..], [j']);
        assert [j'][1..] == [];
        assert Budget([j']) == Attempts(j.retryCount) - 1;
      } else {
        assert Step(q, sent) == (q[1..], Dropped);
        assert Attempts(j.retryCount) == 1;
      }
    }
  }

  /** How many of the outcomes took a job off the queue. */
  function Taken(os: seq<Outcome>): (n: nat)
    ensures n <= |os|
  {
    if os == [] then 0 else (if os[0] == Waiting then 0 else 1) + Taken(os[1..])
  }

  /** Without new messages, the consumer takes jobs at most `Budget(q)`
      times in all, however the sends turn out: no job is retried forever,
      and the iterations that take a job use up the budget. */
  lemma {:induction false} RunBudget(q: seq<Job>, sends: seq<bool>)
    ensures var (q', os) := Run(q, sends);
      Taken(os) + Budget(q') <= Budget(q)
    decreases |sends|
  {
    if sends != [] {
      var (q1, o) := Step(q, sends[0]);
      StepBudget(q, sends[0]);
      RunBudget(q1, sends[1..]);
      var (q2, os) := Run(q1, sends[1..]);
      assert Run(q, sends) == (q2, [o] + os);
      assert ([o] + os)[1..] == os;
      assert o != Waiting ==> q != [];
    }
  }

  class WhatsappMessagesQueue {
    var jobs: seq<Job>
    var running: bool

    constructor()
      ensures jobs == [] && running
    {
      jobs := [];
      running := true;
    }

    /** `put_message`: enqueues one job at the back. */
    method PutMessage(cellphone: string, message: string, wpId: string, retryCount: int := 0)
      modifies this`jobs
      ensures jobs == old(jobs) + [Job(cellphone, message, wpId, retryCount)]
    {
      jobs := jobs + [Job(cellphone, message, wpId, retryCount)];
    }

    /** One iteration of `message_consumer`; `sent` is what the send gave. */
    method ConsumeOne(sent: bool) returns (outcome: Outcome)
      requires running
      modifies this
      ensures (jobs, outcome) == Step(old(jobs), sent)
      ensures running <==> outcome != Stopped
    {
      if jobs == [] {
        return Waiting;
      }
      var job := jobs[0];
      jobs := jobs[1..];
      if job.message == STOP {
        running := false;
        return Stopped;
      }
      if !sent && job.retryCount < MAX_RETRIES {
        PutMessage(job.cellphone, job.message, job.wpId, job.retryCount + 1);
        outcome := Requeued;
      } else if !sent {
        outcome := Dropped;
      } else {
        outcome := Delivered;
      }
    }
  }
}
