/** One allowance for waiting on the user, kept apart from the time for active work. */
module ChallengeWait {
  import opened Options

  datatype Toggle = Enter(at: real) | Leave(at: real)

  /** What ends one wait of the observer: the timeout, when the task may just be done as well, or a
      change of the waiting state. */
  datatype Wake = TimedOut(at: real, done: bool) | Changed(toggles: seq<Toggle>, at: real)

  datatype Refusal = Granted | AlreadyWaiting | Exhausted

  function Clamp(x: real, low: real, high: real): (r: real)
    requires low <= high
    ensures low <= r <= high
  {
    if x < low then low else if x > high then high else x
  }

  function Min(a: real, b: real): real { if a <= b then a else b }

  function Max(a: real, b: real): real { if a >= b then a else b }

  /** The four quantities of one look at the clock. */
  function ActiveLeft(active: real, wall: real, waited: real): real { active - (wall - waited) }

  function AbsoluteLeft(active: real, cap: real, wall: real): real { active + cap - wall }

  function Remaining(active: real, cap: real, wall: real, waited: real, paused: real, waiting: bool): real {
    Min(AbsoluteLeft(active, cap, wall), if waiting then cap - paused else ActiveLeft(active, wall, waited))
  }

  /** The absolute bound is the tighter one only when the waits of this observation together with
      earlier ones have already outgrown the cap; within the cap it never decides. */
  lemma AbsoluteNeverFirst(active: real, cap: real, wall: real, initial: real, paused: real, waiting: bool)
    requires 0.0 <= initial <= paused && ActiveLeft(active, wall, paused - initial) > 0.0
    ensures paused <= cap ==>
              Remaining(active, cap, wall, paused - initial, paused, waiting)
              == if waiting then cap - paused else ActiveLeft(active, wall, paused - initial)
    ensures AbsoluteLeft(active, cap, wall) < ActiveLeft(active, wall, paused - initial) <==> paused - initial > cap
  {
  }

  /** Whether the task is done when its observer first meets a fired timer; it is at the script's end. */
  predicate DoneInTime(script: seq<Wake>) {
    script == [] || if script[0].TimedOut? then script[0].done else DoneInTime(script[1..])
  }

  class ChallengeWaitBudget {
    const cap: real
    var used: real
    var started: Option<real>
    /** The latest reading of the monotonic clock. */
    ghost var clock: real

    ghost predicate Valid()
      reads this
    {
      cap > 0.0 && used >= 0.0 && (started.Some? ==> started.value <= clock)
    }

    function Elapsed(now: real): real
      reads this
    {
      used + if started.None? then 0.0 else now - started.value
    }

    constructor (cap: real, ghost now: real)
      requires cap > 0.0
      ensures Valid() && Elapsed(now) == 0.0 && this.cap == cap && clock == now && started == None
    {
      this.cap := cap;
      used, started, clock := 0.0, None, now;
    }

    method Pause(now: real) returns (r: Refusal)
      requires Valid() && clock <= now
      modifies this
      ensures Valid() && clock == now
      ensures r == if old(started).Some? then AlreadyWaiting else if old(used) >= cap then Exhausted else Granted
      ensures started == if r == Granted then Some(now) else old(started)
      ensures Elapsed(now) == old(Elapsed(now))
    {
      clock := now;
      if started.Some? { return AlreadyWaiting; }
      if used >= cap { return Exhausted; }
      started := Some(now);
      return Granted;
    }

    /** The end of a pause banks its length; nothing is ever given back. */
    method Resume(now: real)
      requires Valid() && clock <= now
      modifies this
      ensures Valid() && clock == now && started == None
      ensures Elapsed(now) == old(Elapsed(now)) && forall t: real :: Elapsed(t) == Elapsed(now)
    {
      clock := now;
      used, started := Elapsed(now), None;
    }

    /** Other work enters and leaves pauses up to `until`. */
    method Happen(toggles: seq<Toggle>, from: real, until: real)
      requires Valid() && from == clock <= until
      modifies this
      ensures Valid() && clock == until
      ensures 0.0 <= Elapsed(until) - old(Elapsed(clock)) <= until - old(clock)
    {
      var now := from;
      for k := 0 to |toggles|
        invariant Valid() && old(clock) <= now == clock <= until
        invariant 0.0 <= Elapsed(clock) - old(Elapsed(clock)) <= clock - old(clock)
      {
        now := Clamp(toggles[k].at, now, until);
        if toggles[k].Enter? {
          var r := Pause(now);
        } else {
          Resume(now);
        }
      }
      clock := until;
    }

    /** Watch a task that finishes after the wakes of `script`. Every timer may fire up to `late`
        after its deadline. A positive answer means that the task was done before or as a timer fired;
        a negative one that the active time or the allowance for waiting is used up, and it never comes
        later than both together allow. */
    method WaitForTask(active: real, first: real, script: seq<Wake>, late: real) returns (finished: bool)
      requires Valid() && late >= 0.0 && first == clock
      modifies this
      ensures Valid() && old(clock) <= clock
      ensures old(Elapsed(clock)) <= Elapsed(clock)
      ensures !finished ==>
                || ActiveLeft(active, clock - old(clock), Elapsed(clock) - old(Elapsed(clock))) <= 0.0
                || Elapsed(clock) >= cap
      ensures clock - old(clock) <= Max(0.0, active + cap) + late
      ensures finished ==> DoneInTime(script)
    {
      var now := first;
      var initial := Elapsed(first);
      for k := 0 to |script|
        invariant Valid() && now == clock && first == old(clock) && initial == old(Elapsed(clock))
        invariant first <= clock && clock - first <= Max(0.0, active + cap) + late
        invariant initial <= Elapsed(clock) && DoneInTime(script) == DoneInTime(script[k..])
      {
        var paused := Elapsed(now);
        var activeLeft := ActiveLeft(active, now - first, paused - initial);
        var remaining := Remaining(active, cap, now - first, paused - initial, paused, started.Some?);
        if activeLeft <= 0.0 || remaining <= 0.0 { return false; }
        if script[k].TimedOut? {
          now := Clamp(script[k].at, now + remaining, now + remaining + late);
          clock := now;
          return script[k].done;
        }
        var woken := Clamp(script[k].at, now, now + remaining + late);
        Happen(script[k].toggles, now, woken);
        now := woken;
      }
      return true;
    }
  }
}
