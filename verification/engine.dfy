/**
 * `AbstractH2O.stall_till_cloudsize`: start the engine on the first call only,
 * guarded by a static flag, then wait for a cloud of at least one node.
 */
module Engine {

  /** `Math.max(1, x)`: the cloud size actually waited for. */
  function ClampCloudSize(x: int): (n: int)
    ensures n >= 1 && n >= x
    ensures n == x || n == 1
  {
    if x < 1 then 1 else x
  }

  /**
   * The process-wide state the calls touch: the `_stall_called_before` flag,
   * how many times the engine's start-up ran, and the cloud sizes waited for.
   */
  datatype EngineState = EngineState(initialised: bool, starts: nat, waits: seq<int>)

  const Fresh: EngineState := EngineState(false, 0, [])

  /** The outcome of one call: the new state and whether it ran start-up. */
  datatype StallResult = StallResult(state: EngineState, ranStartup: bool, waitedFor: int)

  function Stall(e: EngineState, x: int): (r: StallResult)
    ensures r.ranStartup <==> !e.initialised
    ensures r.state.initialised
    ensures r.waitedFor == ClampCloudSize(x)
    ensures r.state.waits == e.waits + [r.waitedFor]
    ensures r.state.starts == e.starts + (if r.ranStartup then 1 else 0)
  {
    var n := ClampCloudSize(x);
    if !e.initialised then
      StallResult(EngineState(true, e.starts + 1, e.waits + [n]), true, n)
    else
      StallResult(e.(waits := e.waits + [n]), false, n)
  }

  /** A sequence of calls, one per requested cloud size. */
  function StallAll(e: EngineState, sizes: seq<int>): EngineState
    decreases |sizes|
  {
    if |sizes| == 0 then e else StallAll(Stall(e, sizes[0]).state, sizes[1..])
  }

  /** Start-up ran once exactly when the flag is up, and every wait was for at least one node. */
  predicate Consistent(e: EngineState) {
    && e.starts == (if e.initialised then 1 else 0)
    && forall i :: 0 <= i < |e.waits| ==> e.waits[i] >= 1
  }

  lemma StallPreservesConsistent(e: EngineState, x: int)
    requires Consistent(e)
    ensures Consistent(Stall(e, x).state)
  {
    var e' := Stall(e, x).state;
    assert forall i :: 0 <= i < |e.waits| ==> e'.waits[i] == e.waits[i];
  }

  /**
   * However many calls are made, start-up runs at most once; the flag, once
   * raised, is never lowered; one wait is recorded per call.
   */
  lemma {:induction false} StartupAtMostOnce(e: EngineState, sizes: seq<int>)
    requires Consistent(e)
    ensures Consistent(StallAll(e, sizes))
    ensures StallAll(e, sizes).initialised <==> e.initialised || |sizes| > 0
    ensures |StallAll(e, sizes).waits| == |e.waits| + |sizes|
    decreases |sizes|
  {
    if |sizes| > 0 {
      StallPreservesConsistent(e, sizes[0]);
      StartupAtMostOnce(Stall(e, sizes[0]).state, sizes[1..]);
    }
  }

  /** From a fresh process, start-up has run once exactly when some call was made. */
  lemma FreshProcess(sizes: seq<int>)
    ensures StallAll(Fresh, sizes).starts == if |sizes| == 0 then 0 else 1
  {
    StartupAtMostOnce(Fresh, sizes);
  }
}
