/**
 Client runs of the controller: sequences of calls a caller makes, and what
 the controller's contracts let that caller conclude about the result.
 */
module TaskCtlScenarios {
  import opened TaskCtl

  /** The capacity vectors a controller accepts. */
  predicate Limits(limits: seq<int>)
  {
    |limits| == PoolCount && forall k :: 0 <= k < |limits| ==> limits[k] >= 0
  }

  /** Admitting `k` tasks from pool `i` and finishing all of them runs
      exactly `k` tasks at the peak and returns every token: the pool ends
      as full as it started. */
  method NoPermitLeak(limits: seq<int>, i: nat, k: nat) returns (peak: int, free: nat)
    requires Limits(limits)
    requires i < PoolCount && k <= limits[i]
    ensures peak == k
    ensures free == limits[i]
  {
    var c := new MTaskCtl(limits);
    var s := 0;
    while s < k
      invariant 0 <= s <= k
      invariant c.Valid() && c.Admission() && c.NilUntilCanceled()
      invariant c.e == None && !c.pa && !c.closed
      invariant c.n[i] == s && |c.ch[i]| == limits[i] - s
    {
      var index, err := c.Start(i);
      s := s + 1;
    }
    peak := c.n[i];
    while s > 0
      invariant 0 <= s <= k
      invariant c.Valid() && c.Admission() && c.NilUntilCanceled()
      invariant c.e == None && !c.pa && !c.closed
      invariant c.n[i] == s && |c.ch[i]| == limits[i] - s
    {
      c.Done(i);
      s := s - 1;
    }
    free := |c.ch[i]|;
  }

  /** One task holds a token of pool `i`; the controller is paused and the
      task finishes. While paused every pool is empty, so no `Start` can
      proceed, and the finished task's token is not returned. Resuming
      refills pool `i` to its full capacity and the next `Start` on it
      admits a task normally. */
  method PauseHoldsReleasedToken(limits: seq<int>, i: nat)
    returns (emptyWhilePaused: bool, refilled: nat, index: nat, err: Token)
    requires Limits(limits)
    requires i < PoolCount && limits[i] >= 1
    ensures emptyWhilePaused
    ensures refilled == limits[i]
    ensures index == i && err == None
  {
    var c := new MTaskCtl(limits);
    index, err := c.Start(i);
    c.TaskPause();
    c.Done(i);
    emptyWhilePaused := forall k :: 0 <= k < PoolCount ==> c.ch[k] == [];
    c.TaskResume();
    refilled := |c.ch[i]|;
    index, err := c.Start(i);
  }

  /** A controller paused with one task running from pool `i` is cancelled
      with `cause`. Every pool is refilled at once with tokens carrying the
      cause, one for each free slot; the continuation check and every later
      `Start` report the cause. */
  method CancelWhilePausedWakesAll(limits: seq<int>, i: nat, cause: Error)
    returns (pools: seq<seq<Token>>, checked: Token, index: nat, err: Token)
    requires Limits(limits)
    requires i < PoolCount && limits[i] >= 1
    ensures |pools| == PoolCount
    ensures forall k :: 0 <= k < PoolCount ==>
      pools[k] == Tokens(if k == i then limits[k] - 1 else limits[k], Some(cause))
    ensures checked == Some(cause)
    ensures index == 0 && err == Some(cause)
  {
    var c := new MTaskCtl(limits);
    index, err := c.Start(i);
    c.TaskPause();
    c.TaskCancel(Some(cause));
    pools := c.ch;
    checked := c.Check();
    index, err := c.Start(i);
  }

  /** A second cancellation replaces the cause of the first; a
      cancellation without a cause records `Canceled`. */
  method CancelReplacesCause(limits: seq<int>, first: Token, second: Token)
    returns (observed: Token)
    requires Limits(limits)
    ensures observed == Some(if second.Some? then second.value else Canceled)
  {
    var c := new MTaskCtl(limits);
    c.TaskCancel(first);
    c.TaskCancel(second);
    observed := c.Check();
  }

  /** After `Close`, a task that was running from pool `i` finishes: its
      count drops and, the channel being gone, no token is returned. */
  method DoneAfterClose(limits: seq<int>, i: nat) returns (running: int, free: nat)
    requires Limits(limits)
    requires i < PoolCount && limits[i] >= 1
    ensures running == 0 && free == 0
  {
    var c := new MTaskCtl(limits);
    var index, err := c.Start(i);
    c.Close();
    c.Done(i);
    running, free := c.n[i], |c.ch[i]|;
  }

  /** `TaskResume` on a controller that is not paused, with a task running
      from a pool of limit 2: the send fits in the channel, so the pool
      ends with two free tokens beside the running task, and two more
      `Start`s run three tasks at once. */
  method ResumeWhileRunningOverAdmits() returns (running: int, limit: int)
    ensures running > limit
  {
    var c := new MTaskCtl([2, 0, 0, 0, 0, 0, 0, 0]);
    var index, err := c.Start(0);
    c.TaskResume();
    index, err := c.Start(0);
    index, err := c.Start(0);
    running, limit := c.n[0], c.max[0];
  }

  /** The run above with the guarded resume that `TaskCancel` uses: on a
      running controller it changes nothing, so after the second `Start`
      pool 0 is empty (`free == 0`), a third `Start` would block, and the
      running count stays at the limit 2. */
  method GuardedResumeKeepsLimit() returns (running: int, limit: int, free: nat)
    ensures running <= limit
    ensures running == 2 && free == 0
  {
    var c := new MTaskCtl([2, 0, 0, 0, 0, 0, 0, 0]);
    var index, err := c.Start(0);
    c.ResumeIfPaused();
    index, err := c.Start(0);
    running, limit, free := c.n[0], c.max[0], |c.ch[0]|;
  }
}
