// The task-tick divider of SysTick_Handler in interrupts_cw32f003.c: every
// 1 ms call counts uwTick and two dividers that raise the 10 ms
// state-machine flag and the 100 ms display flag; the main loop of main.c
// clears each flag before running its task.
module SysTick {
  import opened MachineInts

  const StateMachinePeriod: nat := 10
  const DisplayPeriod: nat := 100

  /** One call's effect on a divider: the new count and whether it wrapped. */
  datatype DividerStep = DividerStep(counter: nat, fired: bool)

  /** `counter++; if (counter >= period) { counter = 0; flag = true; }` */
  function Advance(counter: nat, period: nat): (r: DividerStep)
    requires 0 < period && counter < period
    ensures r.counter < period
    ensures r.counter == (counter + 1) % period
    ensures r.fired <==> r.counter == 0
  {
    if counter + 1 >= period then DividerStep(0, true) else DividerStep(counter + 1, false)
  }

  /** The divider's count after n calls from the static initial 0. */
  function CounterAfter(period: nat, n: nat): (c: nat)
    requires 0 < period
    ensures c < period
  {
    if n == 0 then 0 else Advance(CounterAfter(period, n - 1), period).counter
  }

  /**
   * After n calls the divider holds n mod period, and call number n raises
   * the flag exactly when n is a multiple of the period.
   */
  lemma {:induction false} DividerCountsModulo(period: nat, n: nat)
    requires 0 < period
    ensures CounterAfter(period, n) == n % period
    ensures n > 0 ==> (Advance(CounterAfter(period, n - 1), period).fired <==> n % period == 0)
  {
    if n > 0 {
      DividerCountsModulo(period, n - 1);
      ModSucc(n - 1, period);
    }
  }

  /**
   * Every call that raises the 100 ms display flag also raises the 10 ms
   * state-machine flag: the display always refreshes on a state-machine tick.
   */
  lemma DisplayTickIsStateMachineTick(n: nat)
    requires n > 0
    requires Advance(CounterAfter(DisplayPeriod, n - 1), DisplayPeriod).fired
    ensures Advance(CounterAfter(StateMachinePeriod, n - 1), StateMachinePeriod).fired
  {
    DividerCountsModulo(DisplayPeriod, n);
    DividerCountsModulo(StateMachinePeriod, n);
    var k := n / DisplayPeriod;
    assert n == k * 100;
    DivModUnique(n, StateMachinePeriod, 10 * k, 0);
  }

  class SysTickCounters {
    /** uwTick, a uint32_t that wraps. */
    var uwTick: u32
    var counter10ms: u32
    var counter100ms: u32
    /** flag_run_state_machine and flag_update_display of main.c. */
    var flagRunStateMachine: bool
    var flagUpdateDisplay: bool
    /** Handler calls so far, and uwTick before the first one. */
    ghost var calls: nat
    ghost var tick0: u32

    /** The counters are the call count modulo their periods. */
    ghost predicate Valid()
      reads this
    {
      uwTick == (tick0 + calls) % Two32 &&
      counter10ms == calls % StateMachinePeriod &&
      counter100ms == calls % DisplayPeriod
    }

    /** Static initialisation; uwTick starts wherever the HAL left it. */
    constructor (tick: u32)
      ensures Valid() && calls == 0 && uwTick == tick
      ensures counter10ms == 0 && counter100ms == 0
      ensures !flagRunStateMachine && !flagUpdateDisplay
    {
      uwTick := tick;
      counter10ms, counter100ms := 0, 0;
      flagRunStateMachine, flagUpdateDisplay := false, false;
      calls := 0;
      tick0 := tick;
    }

    /**
     * SysTick_Handler: uwTick + 1 (mod 2^32); each divider advances, and a
     * divider that reaches its period resets and sets its flag. Flags are
     * only ever set here.
     */
    method Handler()
      requires Valid()
      modifies this
      ensures Valid() && calls == old(calls) + 1
      ensures uwTick == (old(uwTick) + 1) % Two32
      ensures counter10ms == Advance(old(counter10ms), StateMachinePeriod).counter
      ensures counter100ms == Advance(old(counter100ms), DisplayPeriod).counter
      ensures flagRunStateMachine == (old(flagRunStateMachine) || calls % StateMachinePeriod == 0)
      ensures flagUpdateDisplay == (old(flagUpdateDisplay) || calls % DisplayPeriod == 0)
    {
      ModSucc(calls, StateMachinePeriod);
      ModSucc(calls, DisplayPeriod);
      ModSucc(tick0 + calls, Two32);
      uwTick := (uwTick + 1) % Two32;
      calls := calls + 1;
      counter10ms := counter10ms + 1;
      if counter10ms >= StateMachinePeriod {
        counter10ms := 0;
        flagRunStateMachine := true;
      }
      counter100ms := counter100ms + 1;
      if counter100ms >= DisplayPeriod {
        counter100ms := 0;
        flagUpdateDisplay := true;
      }
    }

    /** The main loop's `if (flag) { flag = false; ... }` for the state machine. */
    method TakeRunStateMachineFlag() returns (run: bool)
      modifies this`flagRunStateMachine
      ensures run == old(flagRunStateMachine) && !flagRunStateMachine
    {
      run := flagRunStateMachine;
      if run {
        flagRunStateMachine := false;
      }
    }

    /** The main loop's `if (flag) { flag = false; ... }` for the display. */
    method TakeUpdateDisplayFlag() returns (update: bool)
      modifies this`flagUpdateDisplay
      ensures update == old(flagUpdateDisplay) && !flagUpdateDisplay
    {
      update := flagUpdateDisplay;
      if update {
        flagUpdateDisplay := false;
      }
    }
  }
}
