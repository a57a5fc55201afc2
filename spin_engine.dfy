/**
 * The spin engine shared by the category wheel, the game wheel and the
 * custom-option wheel: a self-rescheduling timer callback that highlights one
 * index per tick, slows down in two phases, stops on the first tick at or
 * after 10 seconds, and reports the index highlighted on that last tick.
 *
 * The three components run the same loop. `SpinWheel` models one of them:
 * its fields are the component's props and state (`items`, the highlighted
 * index, the 5-entry window, the outcome sink) together with the locals of
 * the running `spin` closure (`speed`, `currentIndex`, `actualFinalIndex`)
 * and the pending timeout. The category wheel publishes only the
 * highlighted index (`windowed == false`); the game and custom wheels also
 * publish the window (`windowed == true`).
 */
module SpinEngine {
  import opened Wrappers
  import opened Numeric

  const InitialSpeed: real := 40.0
  const MaxSpeed: real := 800.0
  const SpinDuration: int := 10000
  const SlowDownStart: int := 3000
  const FinalSlowDown: int := 3000

  /** An upper bound on the ticks of one session: every delay is at least 40 ms. */
  const MaxTicks: nat := 251

  function RealMin(a: real, b: real): real
  {
    if a <= b then a else b
  }

  /**
   * The delay armed after a tick whose elapsed reading is `elapsed`:
   * unchanged up to 3000 ms, then `speed + 15 + 50 p` up to 7000 ms and
   * `speed + 30 + 200 q` after that, both capped at 800.
   */
  function NextSpeed(speed: real, elapsed: int): (r: real)
    ensures elapsed <= SlowDownStart ==> r == speed
    ensures speed <= MaxSpeed ==> speed <= r <= MaxSpeed
    ensures speed <= MaxSpeed && SlowDownStart < elapsed <= SpinDuration - FinalSlowDown ==>
              r == MaxSpeed || r >= speed + 15.0
    ensures speed <= MaxSpeed && elapsed > SpinDuration - FinalSlowDown ==>
              r == MaxSpeed || r >= speed + 30.0
  {
    if elapsed > SlowDownStart then
      var slowDownProgress :=
        RealMin((elapsed - SlowDownStart) as real / (SpinDuration - SlowDownStart) as real, 1.0);
      if elapsed > SpinDuration - FinalSlowDown then
        var finalSlowProgress := 1.0 - (SpinDuration - elapsed) as real / FinalSlowDown as real;
        RealMin(speed + 30.0 + finalSlowProgress * 200.0, MaxSpeed)
      else
        RealMin(speed + 15.0 + slowDownProgress * 50.0, MaxSpeed)
    else
      speed
  }

  /** `Math.floor(Math.random() * n)` for a random value in [0, 1). */
  function RandomIndex(random: real, n: nat): (i: nat)
    requires 0.0 <= random < 1.0 && n > 0
    ensures i < n
  {
    var x := random * n as real;
    assert x < n as real;
    x.Floor
  }

  /**
   * The five entries rendered around index `i`, written as the source
   * computes them: `(i - 2 + n) % n`, `(i - 1 + n) % n`, `i`, `(i + 1) % n`,
   * `(i + 2) % n`, with JavaScript's remainder.
   */
  function Window<T>(items: seq<T>, i: nat): (w: seq<T>)
    requires i < |items|
    ensures |w| == 5 && w[2] == items[i]
  {
    var n := |items|;
    WindowIndexInRange(i, n);
    [items[JsRem(i - 2 + n, n)], items[JsRem(i - 1 + n, n)], items[i],
     items[JsRem(i + 1, n)], items[JsRem(i + 2, n)]]
  }

  /** Entry `j` of the window is the item `j - 2` steps around the circle from `i`. */
  lemma WindowIsCircular<T>(items: seq<T>, i: nat)
    requires i < |items|
    ensures forall j :: 0 <= j < 5 ==> Window(items, i)[j] == items[(i + j - 2) % |items|]
  {
    WindowIndexInRange(i, |items|);
  }

  /** Every index the window expression uses is in range and is the circular neighbour. */
  lemma WindowIndexInRange(i: nat, n: nat)
    requires i < n
    ensures 0 <= JsRem(i - 2 + n, n) < n && JsRem(i - 2 + n, n) == (i - 2) % n
    ensures 0 <= JsRem(i - 1 + n, n) < n && JsRem(i - 1 + n, n) == (i - 1) % n
    ensures i % n == i
    ensures (i + 1) % n == JsRem(i + 1, n) && (i + 2) % n == JsRem(i + 2, n)
  {
    ModUnique(i, n, 0, i);
    if n == 1 {
      ModUnique(1, 1, 1, 0);
      ModUnique(i - 2, 1, i - 2, 0);
      ModUnique(i - 1, 1, i - 1, 0);
    } else {
      ModShift(i - 2, n);
      ModShift(i - 1, n);
    }
  }

  lemma NextSpeedBounds(speed: real, elapsed: int)
    requires InitialSpeed <= speed <= MaxSpeed
    ensures speed <= NextSpeed(speed, elapsed) <= MaxSpeed
  {
  }

  /** `(i + 1) % n`: one step around the circle. */
  function Step(i: nat, n: nat): (r: nat)
    requires n > 0
    ensures r < n
  {
    (i + 1) % n
  }

  /** The index reached from `start` after `k` steps. */
  function Advance(start: nat, k: nat, n: nat): (r: nat)
    requires n > 0
  {
    if k == 0 then start else Step(Advance(start, k - 1, n), n)
  }

  /** For a start in range, `k` steps land on `(start + k) mod n`. */
  lemma {:induction false} AdvanceIsMod(start: nat, k: nat, n: nat)
    requires start < n
    ensures Advance(start, k, n) == (start + k) % n
  {
    if k == 0 {
      ModUnique(start, n, 0, start);
    } else {
      AdvanceIsMod(start, k - 1, n);
      AdvanceStep(start, k, n);
    }
  }

  lemma AdvanceStep(start: nat, k: nat, n: nat)
    requires n > 0 && k > 0
    requires Advance(start, k - 1, n) == (start + k - 1) % n
    ensures Advance(start, k, n) == (start + k) % n
  {
    var m: nat := start + k - 1;
    ModSucc(m, n);
    assert Advance(start, k, n) == (m % n + 1) % n;
  }

  /** `items[k] || items[0]`: the element at `k`, unless it is missing or falsy. */
  function OrFirst<T>(items: seq<T>, k: int, falsy: T -> bool): T
    requires |items| > 0
  {
    if 0 <= k < |items| && !falsy(items[k]) then items[k] else items[0]
  }

  /**
   * The window shown when the list changes, as the list-change effect builds
   * it: `items[n-2] || items[0]`, `items[n-1] || items[0]`, `items[0]`,
   * `items[1] || items[0]`, `items[2] || items[0]`.
   */
  function InitialWindow<T>(items: seq<T>, falsy: T -> bool): (w: seq<T>)
    requires |items| > 0
    ensures |w| == 5 && w[2] == items[0]
  {
    var n := |items|;
    [OrFirst(items, n - 2, falsy), OrFirst(items, n - 1, falsy), items[0],
     OrFirst(items, 1, falsy), OrFirst(items, 2, falsy)]
  }

  /**
   * When no entry is falsy (no game title is "", and option objects are
   * never falsy), the list-change window is exactly the window at index 0,
   * for every length including 1 and 2.
   */
  lemma InitialWindowIsWindowAtZero<T>(items: seq<T>, falsy: T -> bool)
    requires |items| > 0
    requires forall k :: 0 <= k < |items| ==> !falsy(items[k])
    ensures InitialWindow(items, falsy) == Window(items, 0)
  {
    var n := |items|;
    var w, v := InitialWindow(items, falsy), Window(items, 0);
    if n == 1 {
      ModUnique(1, 1, 1, 0);
      assert v == [items[0], items[0], items[0], items[0], items[0]];
    } else if n == 2 {
      ModUnique(0, 2, 0, 0);
      ModUnique(1, 2, 0, 1);
      ModUnique(2, 2, 1, 0);
      assert v == [items[0], items[1], items[0], items[1], items[0]];
    } else {
      ModUnique(n - 2, n, 0, n - 2);
      ModUnique(n - 1, n, 0, n - 1);
      ModUnique(1, n, 0, 1);
      ModUnique(2, n, 0, 2);
      assert v == [items[n - 2], items[n - 1], items[0], items[1], items[2]];
    }
  }

  class SpinWheel<T> {
    /** Whether the component also publishes the 5-entry window (game and custom wheels). */
    const windowed: bool
    /** The list prop: categories, games or wheel options. */
    var items: seq<T>
    /** The highlighted-index state (`highlightedIndex`, or `currentIndex` of the windowed wheels). */
    var shown: Option<nat>
    /** The `displayedGames` / `displayedOptions` state. */
    var display: seq<T>
    /** Every argument passed to `onSpinComplete`, oldest first. */
    var completions: seq<T>

    // Locals of the running `spin` closure.
    var speed: real
    var currentIndex: nat
    var actualFinalIndex: nat
    /** The elapsed reading of the last tick, in milliseconds. */
    var lastElapsed: int
    /** `intervalRef` holds a timeout that has not fired. */
    var timerArmed: bool
    /** The current session has settled and reported its outcome. */
    var done: bool

    /** The random start index of the current session. */
    var start: nat
    /** The number of `spin` calls in the current session. */
    var ticks: nat

    ghost predicate Valid()
      reads this
    {
      && !(timerArmed && done)
      && ((timerArmed || done) ==> InSession())
    }

    /** What holds after at least one tick of a session. */
    ghost predicate InSession()
      reads this
    {
      && |items| > 0
      && start < |items| && currentIndex < |items| && actualFinalIndex < |items|
      && 1 <= ticks
      && InitialSpeed <= speed <= MaxSpeed
      && currentIndex == Advance(start, ticks, |items|)
      && actualFinalIndex == Advance(start, ticks - 1, |items|)
      && shown == Some(actualFinalIndex)
      && (windowed ==> display == Window(items, actualFinalIndex))
      && lastElapsed >= 40 * (ticks - 1)
      && (timerArmed ==> lastElapsed < SpinDuration && ticks < MaxTicks)
      && (done ==> lastElapsed >= SpinDuration && ticks <= MaxTicks)
    }

    /** Mount: no session, nothing highlighted, an empty window. */
    constructor (items: seq<T>, windowed: bool)
      ensures Valid()
      ensures this.items == items && this.windowed == windowed
      ensures shown == (if windowed then Some(0) else None) && display == [] && completions == []
      ensures !timerArmed && !done
    {
      this.items := items;
      this.windowed := windowed;
      shown := if windowed then Some(0) else None;
      display := [];
      completions := [];
      speed := InitialSpeed;
      currentIndex := 0;
      actualFinalIndex := 0;
      lastElapsed := 0;
      timerArmed := false;
      done := false;
      start := 0;
      ticks := 0;
    }

    /**
     * The list-change effect of the windowed wheels: a non-empty list resets
     * the window to its start and the index state to 0.
     */
    method ResetDisplay(falsy: T -> bool)
      requires Valid() && !timerArmed && !done
      modifies this`display, this`shown
      ensures Valid()
      ensures if windowed && |items| > 0
              then display == InitialWindow(items, falsy) && shown == Some(0)
              else display == old(display) && shown == old(shown)
    {
      if windowed && |items| > 0 {
        display := InitialWindow(items, falsy);
        shown := Some(0);
      }
    }

    /**
     * A re-render in which a dependency of the spin effect changed (the
     * spinning flag, the list reference or the completion callback): the
     * cleanup clears the pending timeout, the list-change effect runs if the
     * list changed, and the spin effect starts a fresh session when the flag
     * is set and the list is non-empty. `random` is `Math.random()` and
     * `elapsed0` the clock reading of the immediate first tick.
     */
    method DependenciesChanged(newItems: seq<T>, listChanged: bool, isSpinning: bool,
                               falsy: T -> bool, random: real, elapsed0: int)
      requires Valid()
      requires !listChanged ==> newItems == items
      requires 0.0 <= random < 1.0 && elapsed0 >= 0
      modifies this
      ensures Valid() && items == newItems
      ensures isSpinning && |items| > 0 ==>
                && start == RandomIndex(random, |items|) && ticks == 1
                && shown == Some(start) && actualFinalIndex == start
                && currentIndex == Step(start, |items|)
                && speed == NextSpeed(InitialSpeed, elapsed0) && lastElapsed == elapsed0
                && (timerArmed <==> elapsed0 < SpinDuration) && (done <==> !timerArmed)
                && completions == old(completions) + (if done then [items[start]] else [])
      ensures !(isSpinning && |items| > 0) ==>
                && !timerArmed && !done && completions == old(completions)
                && (if windowed && listChanged && |items| > 0
                    then display == InitialWindow(items, falsy) && shown == Some(0)
                    else display == old(display) && shown == old(shown))
    {
      // cleanup: clearTimeout(intervalRef.current)
      timerArmed, done := false, false;
      items := newItems;
      if listChanged {
        ResetDisplay(falsy);
      }
      if isSpinning && |items| > 0 {
        StartSession(random, elapsed0);
      }
    }

    /** The body of the spin effect for a non-empty list: fresh session locals, then the first `spin()`. */
    method StartSession(random: real, elapsed0: int)
      requires |items| > 0 && 0.0 <= random < 1.0 && elapsed0 >= 0
      modifies this
      ensures Valid() && items == old(items)
      ensures start == RandomIndex(random, |items|) && ticks == 1
      ensures shown == Some(start) && actualFinalIndex == start
      ensures currentIndex == Step(start, |items|)
      ensures speed == NextSpeed(InitialSpeed, elapsed0) && lastElapsed == elapsed0
      ensures (timerArmed <==> elapsed0 < SpinDuration) && (done <==> !timerArmed)
      ensures completions == old(completions) + (if done then [items[start]] else [])
    {
      speed := InitialSpeed;
      currentIndex := RandomIndex(random, |items|);
      actualFinalIndex := 0;
      start, ticks := currentIndex, 0;
      lastElapsed := elapsed0;
      Spin(elapsed0);
    }

    /** The pending timeout fires; it never fires before its delay has passed. */
    method Tick(elapsed: int)
      requires Valid() && timerArmed
      requires elapsed >= lastElapsed + speed.Floor
      modifies this
      ensures Valid() && lastElapsed == elapsed
      ensures items == old(items) && ticks == old(ticks) + 1 && start == old(start)
      ensures actualFinalIndex == old(currentIndex) && shown == Some(old(currentIndex))
      ensures currentIndex == Step(old(currentIndex), |items|)
      ensures speed == NextSpeed(old(speed), elapsed) && old(speed) <= speed <= MaxSpeed
      ensures (timerArmed <==> elapsed < SpinDuration) && (done <==> !timerArmed)
      ensures completions == old(completions) + (if done then [items[actualFinalIndex]] else [])
      ensures windowed ==> display == Window(items, actualFinalIndex)
    {
      Spin(elapsed);
    }

    /** One call of the `spin` closure: publish, advance, slow down, then re-arm or settle. */
    method Spin(elapsed: int)
      requires |items| > 0 && currentIndex < |items| && start < |items|
      requires InitialSpeed <= speed <= MaxSpeed
      requires currentIndex == Advance(start, ticks, |items|)
      requires ticks == 0 ==> lastElapsed == elapsed && elapsed >= 0
      requires ticks > 0 ==> lastElapsed >= 40 * (ticks - 1) && lastElapsed < SpinDuration
                             && ticks < MaxTicks && elapsed >= lastElapsed + speed.Floor
      modifies this
      ensures Valid() && InSession()
      ensures items == old(items) && ticks == old(ticks) + 1 && start == old(start)
      ensures actualFinalIndex == old(currentIndex) && shown == Some(old(currentIndex))
      ensures currentIndex == Step(old(currentIndex), |items|)
      ensures speed == NextSpeed(old(speed), elapsed) && old(speed) <= speed <= MaxSpeed
      ensures lastElapsed == elapsed
      ensures (timerArmed <==> elapsed < SpinDuration) && (done <==> !timerArmed)
      ensures completions == old(completions) + (if done then [items[actualFinalIndex]] else [])
      ensures windowed ==> display == Window(items, actualFinalIndex)
    {
      Highlight();
      SlowDownAndReschedule(elapsed);
    }

    /** Publish the current index (and its window), remember it, and step to the next one. */
    method Highlight()
      requires |items| > 0 && currentIndex < |items| && start < |items|
      requires currentIndex == Advance(start, ticks, |items|)
      modifies this`shown, this`display, this`actualFinalIndex, this`currentIndex, this`ticks
      ensures ticks == old(ticks) + 1 && currentIndex < |items| && actualFinalIndex < |items|
      ensures actualFinalIndex == old(currentIndex) && shown == Some(old(currentIndex))
      ensures currentIndex == Step(old(currentIndex), |items|)
      ensures currentIndex == Advance(start, ticks, |items|)
      ensures actualFinalIndex == Advance(start, ticks - 1, |items|)
      ensures windowed ==> display == Window(items, actualFinalIndex)
      ensures !windowed ==> display == old(display)
    {
      var i := currentIndex;
      if windowed {
        display := Window(items, i);
      }
      shown, actualFinalIndex, currentIndex := Some(i), i, Step(i, |items|);
      ticks := ticks + 1;
    }

    /**
     * The slowdown and the stop rule: the next delay is `NextSpeed`; before
     * 10 seconds the timeout is re-armed, otherwise the session settles on
     * the index this tick highlighted and reports it once.
     */
    method SlowDownAndReschedule(elapsed: int)
      requires actualFinalIndex < |items| && ticks >= 1
      requires InitialSpeed <= speed <= MaxSpeed
      requires ticks == 1 ==> elapsed >= 0
      requires ticks > 1 ==> lastElapsed >= 40 * (ticks - 2) && ticks - 1 < MaxTicks
                             && elapsed >= lastElapsed + speed.Floor
      modifies this`speed, this`lastElapsed, this`timerArmed, this`done, this`completions
      ensures speed == NextSpeed(old(speed), elapsed) && old(speed) <= speed <= MaxSpeed
      ensures lastElapsed == elapsed && lastElapsed >= 40 * (ticks - 1)
      ensures (timerArmed <==> elapsed < SpinDuration) && (done <==> !timerArmed)
      ensures timerArmed ==> ticks < MaxTicks
      ensures done ==> ticks <= MaxTicks
      ensures completions == old(completions) + (if done then [items[actualFinalIndex]] else [])
    {
      assert ticks > 1 ==> speed.Floor >= 40;
      NextSpeedBounds(speed, elapsed);
      speed, lastElapsed := NextSpeed(speed, elapsed), elapsed;
      if elapsed < SpinDuration {
        timerArmed, done := true, false;
      } else {
        // the settle branch re-publishes `actualFinalIndex`, which this tick already shows
        timerArmed, done := false, true;
        completions := completions + [items[actualFinalIndex]];
      }
    }
  }

  /**
   * A whole session with simulated timers: the spin starts with the given
   * random value and the timeout armed after tick k fires `lateness(k)`
   * milliseconds after its (truncated) delay, for any such schedule of
   * latenesses. The session always settles, after at most 251 ticks,
   * on the item highlighted by the last tick: start + ticks - 1 steps
   * around the list. A one-item list always settles on that item.
   */
  method Simulate<T>(items: seq<T>, random: real, lateness: nat -> nat) returns (settled: T, ticks: nat)
    requires |items| > 0 && 0.0 <= random < 1.0
    ensures 1 <= ticks <= MaxTicks
    ensures settled == items[(RandomIndex(random, |items|) + ticks - 1) % |items|]
    ensures settled in items
    ensures |items| == 1 ==> settled == items[0]
  {
    var wheel := new SpinWheel(items, false);
    wheel.DependenciesChanged(items, false, true, _ => false, random, 0);
    while wheel.timerArmed
      invariant wheel.Valid() && wheel.items == items
      invariant wheel.start == RandomIndex(random, |items|)
      invariant wheel.timerArmed || wheel.done
      invariant |wheel.completions| == (if wheel.done then 1 else 0)
      invariant wheel.done ==> wheel.completions[0] == items[wheel.actualFinalIndex]
      decreases SpinDuration - wheel.lastElapsed
    {
      wheel.Tick(wheel.lastElapsed + wheel.speed.Floor + lateness(wheel.ticks));
    }
    AdvanceIsMod(wheel.start, wheel.ticks - 1, |items|);
    settled, ticks := wheel.completions[0], wheel.ticks;
  }
}
