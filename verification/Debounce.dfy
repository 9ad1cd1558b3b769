/**
 * src/utils/debounce.js over abstract time. `debounce(func, delay)` keeps one pending timer:
 * every call cancels it and schedules func with the latest arguments `delay` later.
 * `useDebounce(value, delay)` returns a value that follows its input once the input has stayed
 * put for `delay`; a new input, a new delay or unmounting cancels the pending update.
 * Time is an integer clock in milliseconds that only moves forward through Tick.
 */
module Debounce {
  import opened Wrappers

  /** The delay both debounce and useDebounce use when none is given. */
  const DefaultDelay := 500

  /** `delay = 500`: the parameter default applies when the argument is undefined. */
  function DelayArgument(delay: Option<int>): (r: int)
    ensures delay.None? ==> r == DefaultDelay
    ensures delay.Some? ==> r == delay.value
  {
    if delay.Some? then delay.value else DefaultDelay
  }

  /** setTimeout treats a negative delay as 0 (timer initialisation steps, HTML Living Standard). */
  function Effective(delay: int): (r: nat)
    ensures delay >= 0 ==> r == delay
    ensures delay < 0 ==> r == 0
  {
    if delay < 0 then 0 else delay
  }

  /** A scheduled callback: what it will run with and when it is due. */
  datatype Timer<A> = Timer(args: A, deadline: int)

  /** One run of func. */
  datatype Firing<A> = Firing(args: A, at: int)

  /** The closure's state: the clock, its timeoutId's pending timer and the runs of func so far. */
  datatype Debounced<A> = Debounced(now: int, delay: int, pending: Option<Timer<A>>, fired: seq<Firing<A>>)

  datatype Event<A> = Call(args: A) | Tick(elapsed: nat)

  /** The state right after `debounce(func, delay)`: nothing pending, nothing run. */
  function Create<A>(now: int, delay: int): (r: Debounced<A>)
    ensures r.pending.None? && r.fired == []
  {
    Debounced(now, delay, None, [])
  }

  /** Calling the debounced function: clearTimeout, then setTimeout with these arguments. */
  function Invoke<A>(s: Debounced<A>, args: A): (r: Debounced<A>)
    ensures r.pending == Some(Timer(args, s.now + Effective(s.delay)))
    ensures r.fired == s.fired && r.now == s.now && r.delay == s.delay
  {
    s.(pending := Some(Timer(args, s.now + Effective(s.delay))))
  }

  /** Letting time pass: a timer that comes due runs func once, at its deadline. */
  function Advance<A>(s: Debounced<A>, elapsed: nat): (r: Debounced<A>)
    ensures r.now == s.now + elapsed && r.delay == s.delay
    ensures s.pending.Some? && s.pending.value.deadline <= r.now ==>
      r.pending.None? && r.fired == s.fired + [Firing(s.pending.value.args, s.pending.value.deadline)]
    ensures !(s.pending.Some? && s.pending.value.deadline <= r.now) ==> r.pending == s.pending && r.fired == s.fired
  {
    var now := s.now + elapsed;
    if s.pending.Some? && s.pending.value.deadline <= now then
      Debounced(now, s.delay, None, s.fired + [Firing(s.pending.value.args, s.pending.value.deadline)])
    else s.(now := now)
  }

  function Step<A>(s: Debounced<A>, e: Event<A>): Debounced<A> {
    match e
    case Call(args) => Invoke(s, args)
    case Tick(elapsed) => Advance(s, elapsed)
  }

  function Run<A>(s: Debounced<A>, es: seq<Event<A>>): Debounced<A>
    decreases |es|
  {
    if es == [] then s else Run(Step(s, es[0]), es[1..])
  }

  /** func never runs more often than the debounced function was called. */
  function Calls<A>(es: seq<Event<A>>): nat {
    if es == [] then 0 else (if es[0].Call? then 1 else 0) + Calls(es[1..])
  }

  /**
   * A call followed by `delay` of quiet runs func exactly once, with that call's arguments,
   * whatever was pending before.
   */
  lemma QuietPeriodFires<A>(s: Debounced<A>, args: A, elapsed: nat)
    requires elapsed >= Effective(s.delay)
    ensures Run(s, [Call(args), Tick(elapsed)]).fired == s.fired + [Firing(args, s.now + Effective(s.delay))]
    ensures Run(s, [Call(args), Tick(elapsed)]).pending.None?
  {
    var evs := [Call(args), Tick(elapsed)];
    assert evs[1..] == [Tick(elapsed)] && evs[1..][1..] == [];
    var s1 := Invoke(s, args);
    assert Run(s, evs) == Run(s1, [Tick(elapsed)]);
    assert Run(s1, [Tick(elapsed)]) == Advance(s1, elapsed);
  }

  function Sum(gaps: seq<nat>): nat {
    if gaps == [] then 0 else gaps[0] + Sum(gaps[1..])
  }

  /** Calls args[i], each followed by gaps[i] of waiting. */
  function Burst<A>(args: seq<A>, gaps: seq<nat>): seq<Event<A>>
    requires |args| == |gaps|
  {
    if args == [] then [] else [Call(args[0]), Tick(gaps[0])] + Burst(args[1..], gaps[1..])
  }

  /**
   * A burst of calls spaced less than `delay` apart, followed by `delay` of quiet, runs func
   * exactly once, with the last call's arguments, `delay` after the last call.
   */
  lemma {:induction false} BurstFiresOnce<A>(s: Debounced<A>, args: seq<A>, gaps: seq<nat>)
    requires |args| == |gaps| > 0
    requires forall i :: 0 <= i < |gaps| - 1 ==> gaps[i] < Effective(s.delay)
    requires gaps[|gaps| - 1] >= Effective(s.delay)
    ensures Run(s, Burst(args, gaps)).fired ==
      s.fired + [Firing(args[|args| - 1], s.now + Sum(gaps[..|gaps| - 1]) + Effective(s.delay))]
    ensures Run(s, Burst(args, gaps)).pending.None?
    decreases |args|
  {
    var evs := Burst(args, gaps);
    assert evs[0] == Call(args[0]) && evs[1] == Tick(gaps[0]);
    assert evs[1..][1..] == Burst(args[1..], gaps[1..]);
    var s1 := Advance(Invoke(s, args[0]), gaps[0]);
    assert Run(s, evs) == Run(s1, Burst(args[1..], gaps[1..]));
    if |args| == 1 {
      assert gaps[..0] == [];
    } else {
      assert s1.fired == s.fired && s1.delay == s.delay && s1.now == s.now + gaps[0];
      BurstFiresOnce(s1, args[1..], gaps[1..]);
      assert gaps[..|gaps| - 1][1..] == gaps[1..][..|gaps| - 2];
      assert Sum(gaps[..|gaps| - 1]) == gaps[0] + Sum(gaps[1..][..|gaps[1..]| - 1]);
    }
  }

  /** func runs at most once per call: every run is owed to a distinct call. */
  lemma {:induction false} FiringsAtMostCalls<A>(s: Debounced<A>, es: seq<Event<A>>)
    ensures |Run(s, es).fired| + (if Run(s, es).pending.Some? then 1 else 0) <=
      |s.fired| + (if s.pending.Some? then 1 else 0) + Calls(es)
    decreases |es|
  {
    if es != [] {
      FiringsAtMostCalls(Step(s, es[0]), es[1..]);
    }
  }

  /** The debounced function returned by debounce(func, delay), with its timeoutId. */
  class Debouncer<A> {
    const delay: int
    var now: int
    var pending: Option<Timer<A>>
    var fired: seq<Firing<A>>

    function State(): Debounced<A>
      reads this
    {
      Debounced(now, delay, pending, fired)
    }

    /** `debounce(func, delay)` at time now. */
    constructor (delay: Option<int>, now: int)
      ensures State() == Create(now, DelayArgument(delay))
    {
      this.delay := DelayArgument(delay);
      this.now := now;
      pending := None;
      fired := [];
    }

    /** Calling the returned function. */
    method Call(args: A)
      modifies this
      ensures State() == Invoke(old(State()), args)
    {
      pending := None;
      pending := Some(Timer(args, now + Effective(delay)));
    }

    /** The event loop letting elapsed milliseconds pass. */
    method Tick(elapsed: nat)
      modifies this
      ensures State() == Advance(old(State()), elapsed)
    {
      now := now + elapsed;
      if pending.Some? && pending.value.deadline <= now {
        fired := fired + [Firing(pending.value.args, pending.value.deadline)];
        pending := None;
      }
    }
  }

  /**
   * One mounted useDebounce(value, delay): the hook's last input and delay, the time its effect
   * last ran, the state it returns, the effect's timer and whether the component is mounted.
   */
  datatype Hook<A> = Hook(now: int, input: A, delay: int, since: int, output: A, timer: Option<Timer<A>>, mounted: bool)

  datatype HookEvent<A> = Render(value: A, delay: int) | Elapse(elapsed: nat) | Unmount

  /** The first render: useState(value) and the effect's first timer. */
  function Mount<A>(now: int, value: A, delay: int): (r: Hook<A>)
    ensures r.output == value && r.mounted
    ensures r.timer == Some(Timer(value, now + Effective(delay)))
  {
    Hook(now, value, delay, now, value, Some(Timer(value, now + Effective(delay))), true)
  }

  /** A timer's settled view of the hook: it belongs to the current input and effect run. */
  predicate Valid<A(==)>(h: Hook<A>) {
    h.since <= h.now &&
    (h.timer.Some? ==> h.mounted && h.timer.value.args == h.input && h.timer.value.deadline == h.since + Effective(h.delay))
  }

  function HookStep<A(==)>(h: Hook<A>, e: HookEvent<A>): Hook<A> {
    match e
    case Render(value, delay) =>
      if !h.mounted || (value == h.input && delay == h.delay) then h
      else
        // the dependencies changed: the old effect's cleanup clears its timer, the new one schedules
        h.(input := value, delay := delay, since := h.now, timer := Some(Timer(value, h.now + Effective(delay))))
    case Elapse(elapsed) =>
      var now := h.now + elapsed;
      if h.timer.Some? && h.timer.value.deadline <= now then
        h.(now := now, output := h.timer.value.args, timer := None)
      else h.(now := now)
    case Unmount =>
      h.(timer := None, mounted := false)
  }

  function HookRun<A(==)>(h: Hook<A>, es: seq<HookEvent<A>>): Hook<A>
    decreases |es|
  {
    if es == [] then h else HookRun(HookStep(h, es[0]), es[1..])
  }

  lemma HookStepValid<A>(h: Hook<A>, e: HookEvent<A>)
    requires Valid(h)
    ensures Valid(HookStep(h, e))
  {
  }

  /**
   * The returned value changes only when the effect's timer fires: it then takes the current
   * input, which the hook has held, with the same delay, for at least that delay.
   */
  lemma OutputOnlyAfterQuiet<A>(h: Hook<A>, e: HookEvent<A>)
    requires Valid(h)
    ensures HookStep(h, e).output != h.output ==>
      e.Elapse? && HookStep(h, e).output == h.input && h.since + Effective(h.delay) <= HookStep(h, e).now
  {
  }

  /** Once unmounted, nothing is pending and the returned value never changes again. */
  lemma {:induction false} NoUpdateAfterUnmount<A>(h: Hook<A>, es: seq<HookEvent<A>>)
    requires Valid(h) && !h.mounted
    ensures HookRun(h, es).output == h.output && HookRun(h, es).timer.None?
    decreases |es|
  {
    if es != [] {
      HookStepValid(h, es[0]);
      NoUpdateAfterUnmount(HookStep(h, es[0]), es[1..]);
    }
  }

  /**
   * The timer invariant holds after any sequence of renders, waits and unmounting, so
   * OutputOnlyAfterQuiet applies at every step of a run from the first render.
   */
  lemma {:induction false} HookRunValid<A>(h: Hook<A>, es: seq<HookEvent<A>>)
    requires Valid(h)
    ensures Valid(HookRun(h, es))
    decreases |es|
  {
    if es != [] {
      HookStepValid(h, es[0]);
      HookRunValid(HookStep(h, es[0]), es[1..]);
    }
  }

  /** Re-rendering with the same value and delay keeps the pending update: it is not restarted. */
  lemma SameInputKeepsTimer<A>(h: Hook<A>)
    requires Valid(h) && h.mounted
    ensures HookStep(h, Render(h.input, h.delay)) == h
  {
  }

  /** The hook as a component instance holds it. */
  class DebouncedValue<A(==)> {
    var now: int
    var input: A
    var delay: int
    var since: int
    var output: A
    var timer: Option<Timer<A>>
    var mounted: bool

    function State(): Hook<A>
      reads this
    {
      Hook(now, input, delay, since, output, timer, mounted)
    }

    /** The first render of `useDebounce(value, delay)` at time now. */
    constructor (now: int, value: A, delay: Option<int>)
      ensures State() == Mount(now, value, DelayArgument(delay))
      ensures Valid(State())
    {
      this.now := now;
      input := value;
      this.delay := DelayArgument(delay);
      since := now;
      output := value;
      timer := Some(Timer(value, now + Effective(DelayArgument(delay))));
      mounted := true;
    }

    /** A later render; returns what the hook returns. */
    method Render(value: A, delay: Option<int>) returns (r: A)
      requires Valid(State())
      modifies this
      ensures State() == HookStep(old(State()), HookEvent.Render(value, DelayArgument(delay)))
      ensures Valid(State())
      ensures r == old(output)
    {
      var d := DelayArgument(delay);
      if mounted && (value != input || d != this.delay) {
        timer := None;
        input := value;
        this.delay := d;
        since := now;
        timer := Some(Timer(value, now + Effective(d)));
      }
      r := output;
    }

    method Elapse(elapsed: nat)
      requires Valid(State())
      modifies this
      ensures State() == HookStep(old(State()), HookEvent.Elapse(elapsed))
      ensures Valid(State())
    {
      now := now + elapsed;
      if timer.Some? && timer.value.deadline <= now {
        output := timer.value.args;
        timer := None;
      }
    }

    method Unmount()
      requires Valid(State())
      modifies this
      ensures State() == HookStep(old(State()), HookEvent.Unmount)
      ensures Valid(State())
    {
      timer := None;
      mounted := false;
    }
  }
}
