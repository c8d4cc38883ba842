/** The vocabulary shared by the scheduler models: fiber states, queue tasks and the eligibility
    rule a worker applies when it scans the task list. */
module Tasks {
  datatype FiberState = INIT | HOLD | EXEC | TERM | READY | EXCEPT

  /** The pin of a task that any thread may run. */
  const ANY_THREAD: int := -1

  /** A queue task holds either a fiber handle or a callback, never both and never neither. */
  datatype Task<+C> = FiberTask(fiber: nat, thread: int) | CallbackTask(cb: C, thread: int)

  predicate Finished(st: FiberState) {
    st == TERM || st == EXCEPT
  }

  predicate PinAllows(thread: int, me: int) {
    thread == ANY_THREAD || thread == me
  }

  /** The two tests of the scan: the pin matches, and a fiber is not executing already. */
  predicate Eligible<C>(t: Task<C>, me: int, executing: set<nat>) {
    PinAllows(t.thread, me) && !(t.FiberTask? && t.fiber in executing)
  }

  /** The position of the first task that `me` may claim, or `|q|` when there is none. */
  function FirstEligible<C>(q: seq<Task<C>>, me: int, executing: set<nat>): (k: nat)
    ensures k <= |q|
    ensures forall j :: 0 <= j < k ==> !Eligible(q[j], me, executing)
    ensures k < |q| ==> Eligible(q[k], me, executing)
  {
    if q == [] then 0
    else if Eligible(q[0], me, executing) then 0
    else 1 + FirstEligible(q[1..], me, executing)
  }

  function RemoveAt<T>(q: seq<T>, k: nat): (r: seq<T>)
    requires k < |q|
    ensures |r| == |q| - 1
    ensures multiset(r) + multiset{q[k]} == multiset(q)
  {
    assert q == q[..k] + [q[k]] + q[k + 1..];
    q[..k] + q[k + 1..]
  }
}
