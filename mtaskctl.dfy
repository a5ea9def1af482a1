/**
 An admission-token controller with up to eight independent pools.

 Each pool `i` is a buffered channel of tokens of capacity `max[i]`: a task
 may start only after it has received a token from some pool, and when it is
 done a token carrying the current cause goes back to that pool. A token is either nil (run normally) or the
 cancellation cause. Pausing drains every pool of its free tokens, resuming
 refills them, and cancelling records a cause that every later `Start`
 reports.

 The controller is a sequential state machine here: every point where the
 original blocks on a channel (a receive from an empty channel, a send to a
 full one) is a precondition of the operation that reaches it, and the
 choice a `select` makes among ready channels is the caller's `choice`.
 */
module TaskCtl {

  datatype Option<+T> = None | Some(value: T)

  /** A non-nil error value: the package's `Canceled` sentinel, or any
      other error a caller passes to `TaskCancel`. */
  datatype Error = Canceled | Other(code: nat)

  /** What a channel carries: nil, or the cancellation cause. */
  type Token = Option<Error>

  /** The number of pools, fixed when the controller is built. */
  const PoolCount: nat := 8

  /** `k` copies of the token `t`: what `k` consecutive sends of `t` put
      into an empty channel. */
  function Tokens(k: nat, t: Token): (r: seq<Token>)
    ensures |r| == k
    ensures forall j :: 0 <= j < k ==> r[j] == t
  {
    if k == 0 then [] else Tokens(k - 1, t) + [t]
  }

  /** How many passes the loop `for j := running; j < limit; j++` makes:
      the number of tokens a pool lacks when `running` of its `limit`
      slots are taken. */
  function Deficit(limit: int, running: int): nat
  {
    if running < limit then limit - running else 0
  }

  class MTaskCtl {
    /** Tasks currently admitted from each pool. */
    var n: seq<int>
    /** The most tasks each pool admits at once; the capacity of its channel. */
    const max: seq<int>
    /** The tokens buffered in each pool's channel, oldest first. */
    var ch: seq<seq<Token>>
    /** The cancellation cause; `None` while running. */
    var e: Token
    /** Whether the controller is paused. */
    var pa: bool
    /** Whether `Close` has dropped the channels. */
    var closed: bool

    /** The capacity of pool `i`'s channel: a closed pool is a nil channel,
        whose capacity is zero. */
    function Cap(i: nat): (c: int)
      reads this
      requires i < |max|
    {
      if closed then 0 else max[i]
    }

    /** The shape of the state, and that no channel holds more than its
        capacity. */
    ghost predicate Valid()
      reads this
    {
      && |max| == PoolCount && |n| == PoolCount && |ch| == PoolCount
      && (forall i :: 0 <= i < PoolCount ==> max[i] >= 0)
      && (forall i :: 0 <= i < PoolCount ==> |ch[i]| <= Cap(i))
    }

    /** The admission invariant: admitted tasks plus free tokens never
        exceed a pool's limit, and a paused controller has no free token. */
    ghost predicate Admission()
      reads this
      requires Valid()
    {
      forall i :: 0 <= i < PoolCount ==> n[i] + |ch[i]| <= max[i] && (pa ==> ch[i] == [])
    }

    /** No token is lost: while running, every pool's admitted tasks and
        free tokens add up to its limit. */
    ghost predicate Balanced()
      reads this
      requires Valid()
    {
      !pa && !closed ==> forall i :: 0 <= i < PoolCount ==> n[i] + |ch[i]| == max[i]
    }

    /** Until a cause is set, every token in every pool is nil. */
    ghost predicate NilUntilCanceled()
      reads this
      requires Valid()
    {
      e == None ==> forall i, j :: 0 <= i < PoolCount && 0 <= j < |ch[i]| ==> ch[i][j] == None
    }

    /** No pool lacks more tokens than it holds, so that draining every
        pool receives without blocking. */
    ghost predicate CanDrain()
      reads this
      requires Valid()
    {
      forall i :: 0 <= i < PoolCount ==> Deficit(max[i], n[i]) <= |ch[i]|
    }

    /** Every pool has room for the tokens it lacks, so that refilling every
        pool sends without blocking. */
    ghost predicate CanRefill()
      reads this
      requires Valid()
    {
      forall i :: 0 <= i < PoolCount ==> |ch[i]| + Deficit(max[i], n[i]) <= Cap(i)
    }

    /** Builds a controller whose pool `i` admits `max[i]` tasks, each pool
        filled with nil tokens. A negative capacity makes the channel
        allocation fail, so it is excluded. */
    constructor (max: seq<int>)
      requires |max| == PoolCount
      requires forall i :: 0 <= i < |max| ==> max[i] >= 0
      ensures Valid() && Admission() && Balanced() && NilUntilCanceled()
      ensures this.max == max
      ensures forall i :: 0 <= i < PoolCount ==> n[i] == 0 && ch[i] == Tokens(max[i], None)
      ensures e == None && !pa && !closed
    {
      var pools: seq<seq<Token>> := [];
      var i := 0;
      while i < PoolCount
        invariant 0 <= i <= PoolCount
        invariant |pools| == i
        invariant forall k :: 0 <= k < i ==> pools[k] == Tokens(max[k], None)
      {
        var buf: seq<Token> := [];
        var j := 0;
        while j < max[i]
          invariant 0 <= j <= max[i]
          invariant buf == Tokens(j, None)
        {
          buf := buf + [None];
          j := j + 1;
        }
        pools := pools + [buf];
        i := i + 1;
      }
      this.max := max;
      n := seq(PoolCount, _ => 0);
      ch := pools;
      e := None;
      pa := false;
      closed := false;
    }

    /** Admits a task. Once a cause is set it returns `(0, cause)` at once.
        Otherwise it receives the oldest token of the ready pool `choice`;
        only a nil token counts the task as running, a cause token is
        consumed without being counted. */
    method Start(choice: nat) returns (index: nat, err: Token)
      requires Valid()
      requires choice < PoolCount
      requires e == None ==> ch[choice] != []
      modifies this
      ensures Valid()
      ensures old(e) != None ==> index == 0 && err == old(e) && unchanged(this)
      ensures old(e) == None ==>
        && index == choice
        && err == old(ch[choice][0])
        && ch == old(ch)[choice := old(ch[choice])[1..]]
        && n == (if err == None then old(n)[choice := old(n[choice]) + 1] else old(n))
        && e == old(e) && pa == old(pa) && closed == old(closed)
      ensures old(NilUntilCanceled()) ==> err == None || err == old(e)
      ensures old(Admission()) ==> Admission()
      ensures old(Balanced()) && old(NilUntilCanceled()) ==> Balanced()
      ensures old(NilUntilCanceled()) ==> NilUntilCanceled()
    {
      if e != None {
        return 0, e;
      }
      index := choice;
      err := ch[index][0];
      ch := ch[index := ch[index][1..]];
      if err == None {
        n := n[index := n[index] + 1];
      }
    }

    /** The continuation check on its non-paused path: reports the
        cancellation cause, nil while running. */
    method Check() returns (err: Token)
      requires Valid()
      requires !pa
      ensures err == e
    {
      err := e;
    }

    /** A task admitted from pool `index` finishes. The count always drops;
        a token carrying the current cause goes back only when the
        controller is not paused and the channel has room. */
    method Done(index: nat)
      requires Valid()
      requires index < PoolCount
      modifies this
      ensures Valid()
      ensures n == old(n)[index := old(n[index]) - 1]
      ensures ch == if !old(pa) && |old(ch[index])| < old(Cap(index))
                    then old(ch)[index := old(ch[index]) + [old(e)]]
                    else old(ch)
      ensures e == old(e) && pa == old(pa) && closed == old(closed)
      ensures old(Admission()) ==> Admission()
      ensures old(Balanced()) && old(n[index]) > 0 ==> Balanced()
      ensures old(NilUntilCanceled()) ==> NilUntilCanceled()
    {
      n := n[index := n[index] - 1];
      if !pa && |ch[index]| < Cap(index) {
        ch := ch[index := ch[index] + [e]];
      }
    }

    /** Pauses: receives, from every pool, the tokens its free slots stand
        for (`max[i] - n[i]` of them). From a state that keeps the admission
        invariant this leaves every pool empty. */
    method TaskPause()
      requires Valid()
      requires CanDrain()
      modifies this
      ensures Valid() && pa
      ensures n == old(n) && e == old(e) && closed == old(closed)
      ensures |ch| == PoolCount
      ensures forall i :: 0 <= i < PoolCount ==> ch[i] == old(ch[i])[Deficit(max[i], n[i])..]
      ensures old(Admission()) ==> Admission() && forall i :: 0 <= i < PoolCount ==> ch[i] == []
      ensures old(NilUntilCanceled()) ==> NilUntilCanceled()
    {
      pa := true;
      var i := 0;
      while i < PoolCount
        invariant 0 <= i <= PoolCount
        invariant Valid() && pa
        invariant n == old(n) && e == old(e) && closed == old(closed)
        invariant forall k :: 0 <= k < i ==> ch[k] == old(ch[k])[Deficit(max[k], n[k])..]
        invariant forall k :: i <= k < PoolCount ==> ch[k] == old(ch[k])
      {
        ghost var before := ch;
        var j := n[i];
        while j < max[i]
          invariant Valid() && pa
          invariant n == old(n) && e == old(e) && closed == old(closed)
          invariant j == n[i] || n[i] < j <= max[i]
          invariant ch[i] == old(ch[i])[Deficit(j, n[i])..]
          invariant forall k :: 0 <= k < PoolCount && k != i ==> ch[k] == before[k]
        {
          ch := ch[i := ch[i][1..]];
          j := j + 1;
        }
        i := i + 1;
      }
    }

    /** Resumes: sends to every pool the tokens its free slots stand for
        (`max[i] - n[i]` of them), each carrying the current cause. */
    method TaskResume()
      requires Valid()
      requires CanRefill()
      modifies this
      ensures Valid() && !pa
      ensures |ch| == PoolCount
      ensures forall i :: 0 <= i < PoolCount ==> ch[i] == old(ch[i]) + Tokens(Deficit(max[i], n[i]), e)
      ensures n == old(n) && e == old(e) && closed == old(closed)
      ensures old(Admission()) && old(pa) ==> Admission() && Balanced()
      ensures old(Admission()) && old(pa) ==>
        forall i :: 0 <= i < PoolCount ==> ch[i] == Tokens(Deficit(max[i], n[i]), e)
      ensures old(NilUntilCanceled()) ==> NilUntilCanceled()
    {
      pa := false;
      var i := 0;
      while i < PoolCount
        invariant 0 <= i <= PoolCount
        invariant |max| == PoolCount && |n| == PoolCount && |ch| == PoolCount && !pa
        invariant n == old(n) && e == old(e) && closed == old(closed)
        invariant forall k :: 0 <= k < i ==> ch[k] == old(ch[k]) + Tokens(Deficit(max[k], n[k]), e)
        invariant forall k :: i <= k < PoolCount ==> ch[k] == old(ch[k])
      {
        ghost var before := ch;
        var j := n[i];
        while j < max[i]
          invariant |ch| == PoolCount && !pa
          invariant n == old(n) && e == old(e) && closed == old(closed)
          invariant j == n[i] || n[i] < j <= max[i]
          invariant ch[i] == old(ch[i]) + Tokens(Deficit(j, n[i]), e)
          invariant forall k :: 0 <= k < PoolCount && k != i ==> ch[k] == before[k]
        {
          ch := ch[i := ch[i] + [e]];
          j := j + 1;
        }
        i := i + 1;
      }
      assert Valid();
    }

    /** Resumes only a paused controller, the guard `TaskCancel` puts
        around `TaskResume`; on a running controller it changes nothing. */
    method ResumeIfPaused()
      requires Valid()
      requires pa ==> CanRefill()
      modifies this
      ensures Valid() && !pa
      ensures !old(pa) ==> unchanged(this)
      ensures old(pa) ==> forall i :: 0 <= i < PoolCount ==> ch[i] == old(ch[i]) + Tokens(Deficit(max[i], n[i]), e)
      ensures n == old(n) && e == old(e) && closed == old(closed)
      ensures old(Admission()) ==> Admission()
      ensures old(Admission()) && old(Balanced()) ==> Balanced()
      ensures old(NilUntilCanceled()) ==> NilUntilCanceled()
    {
      if pa {
        TaskResume();
      }
    }

    /** Cancels: records `cause`, or `Canceled` when none is given,
        replacing any earlier cause; a paused controller is then resumed so
        that every pool is refilled with tokens carrying the cause. */
    method TaskCancel(cause: Token)
      requires Valid()
      requires pa ==> CanRefill()
      modifies this
      ensures Valid() && !pa
      ensures e == Some(if cause.Some? then cause.value else Canceled)
      ensures !old(pa) ==> ch == old(ch)
      ensures old(pa) ==> forall i :: 0 <= i < PoolCount ==> ch[i] == old(ch[i]) + Tokens(Deficit(max[i], n[i]), e)
      ensures n == old(n) && closed == old(closed)
      ensures old(Admission()) ==> Admission()
      ensures old(Admission()) && old(Balanced()) ==> Balanced()
    {
      if cause != None {
        e := cause;
      } else {
        e := Some(Canceled);
      }
      ResumeIfPaused();
    }

    /** Drops every pool's channel; afterwards each is a nil channel that
        holds no token and has no capacity. */
    method Close()
      requires Valid()
      modifies this
      ensures Valid() && closed
      ensures ch == seq(PoolCount, _ => [])
      ensures n == old(n) && e == old(e) && pa == old(pa)
      ensures old(Admission()) ==> Admission()
      ensures old(NilUntilCanceled()) ==> NilUntilCanceled()
    {
      var i := 0;
      while i < PoolCount
        invariant 0 <= i <= PoolCount
        invariant |ch| == PoolCount
        invariant n == old(n) && e == old(e) && pa == old(pa) && closed == old(closed)
        invariant forall k :: 0 <= k < i ==> ch[k] == []
        invariant forall k :: i <= k < PoolCount ==> ch[k] == old(ch[k])
      {
        ch := ch[i := []];
        i := i + 1;
      }
      closed := true;
    }
  }
}
