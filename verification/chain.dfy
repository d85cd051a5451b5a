/**
 The interceptor chain: an immutable cursor (interceptor list, index, stored
 request) with the `request()` accessor and the `process` dispatch of
 RealInterceptorChain, and the interceptor contract of Chain/Interceptor.

 Interceptors form a closed set of behaviours: each one reads the cursor's
 rendered request, appends its own text, and then either hands the new text
 to the cursor's `process` (exactly once) or returns it as the answer.
 Because `process` calls the interceptor and a forwarding interceptor calls
 `process` back, the two are mutually recursive; each round trip moves the
 index one step towards the end of the list.
 */
module Chain {
  import opened Nullable
  import opened Text

  /** A leaf interceptor: append `suffix`, then forward or stop. */
  datatype Interceptor = Forward(suffix: string) | Stop(suffix: string)

  /** One RealInterceptorChain object. It is never updated: advancing builds a new one. */
  datatype Cursor = Cursor(interceptors: seq<Interceptor>, index: int, request: Option<string>)

  /** What an interceptor chooses after reading the cursor: continue the
      chain with a new request, or finish with its own result. */
  datatype Decision = Continue(request: Option<string>) | Finish(result: Option<string>)

  /** What `process` yields: a nullable string, or the exception that
      `ArrayList.get` raises for a negative index. */
  datatype Outcome = Returned(value: Option<string>) | IndexOutOfBounds(index: int)

  /** The outcome of `process` together with the indices of the interceptors
      it invoked, in invocation order. */
  datatype Run = Run(outcome: Outcome, invoked: seq<int>)

  /** `request()`: the stored request written into a template followed by a
      line break. It is never null, even when the stored request is. */
  function Request(c: Cursor): (r: Option<string>)
    ensures r.Some?
    ensures |r.value| > 0 && r.value[|r.value| - 1] == '\n'
    ensures c.request.Some? ==> r.value == c.request.value + "\n"
    ensures c.request.None? ==> r.value == "null\n"
  {
    Some(Render(c.request) + "\n")
  }

  /** The leaf logic of `intercept`: read `request()`, append the suffix with
      `+=`, and decide whether to forward it. */
  function Decide(x: Interceptor, c: Cursor): (d: Decision)
    ensures d.Continue? <==> x.Forward?
    ensures d.Continue? ==> d.request.Some? && Request(c).value <= d.request.value
    ensures d.Finish? ==> d.result.Some? && Request(c).value <= d.result.value
    ensures d.Continue? ==> |d.request.value| == |Request(c).value| + |x.suffix|
    ensures d.Finish? ==> |d.result.value| == |Request(c).value| + |x.suffix|
    ensures d.Continue? ==> d.request.value[|Request(c).value|..] == x.suffix
    ensures d.Finish? ==> d.result.value[|Request(c).value|..] == x.suffix
  {
    var text := Concat(Request(c), x.suffix);
    match x
    case Forward(_) => Continue(Some(text))
    case Stop(_) => Finish(Some(text))
  }

  /** `process(request)` on cursor `c`. With no interceptor left it hands the
      request back; otherwise it builds the cursor one step further on and
      gives it to the interceptor at the current index.

      The result is an exception exactly when the list is non-empty and the
      index is negative; it is null exactly when a null request passes
      straight through; a non-null request only ever grows; and the
      interceptors invoked form a run of consecutive indices starting at the
      cursor's own index and staying inside the list. */
  function Process(c: Cursor, request: Option<string>): (run: Run)
    decreases |c.interceptors| - c.index, 0
    ensures run.outcome.IndexOutOfBounds? <==> |c.interceptors| > 0 && c.index < 0
    ensures run.outcome == Returned(None)
        <==> request.None? && (|c.interceptors| == 0 || c.index >= |c.interceptors|)
    ensures request.Some? && run.outcome.Returned? ==>
              run.outcome.value.Some? && request.value <= run.outcome.value.value
    ensures forall j :: 0 <= j < |run.invoked| ==> run.invoked[j] == c.index + j
    ensures |run.invoked| > 0 ==> 0 <= c.index && c.index + |run.invoked| <= |c.interceptors|
  {
    if |c.interceptors| == 0 || c.index >= |c.interceptors| then
      Run(Returned(request), [])
    else if c.index < 0 then
      Run(IndexOutOfBounds(c.index), [])
    else
      var next := Cursor(c.interceptors, c.index + 1, request);
      var inner := Intercept(c.interceptors[c.index], next);
      Run(inner.outcome, [c.index] + inner.invoked)
  }

  /** `intercept(chain)`: a forwarding interceptor calls `process` once and
      returns its result unchanged; a stopping one never calls it.
      Whatever comes back is non-null and extends the rendered request. */
  function Intercept(x: Interceptor, chain: Cursor): (run: Run)
    decreases |chain.interceptors| - chain.index, 1
    ensures chain.index >= 0 ==> run.outcome.Returned?
    ensures run.outcome.Returned? ==>
              run.outcome.value.Some? && Request(chain).value <= run.outcome.value.value
    ensures x.Stop? ==> run.invoked == []
    ensures forall j :: 0 <= j < |run.invoked| ==> run.invoked[j] == chain.index + j
    ensures |run.invoked| > 0 ==> 0 <= chain.index && chain.index + |run.invoked| <= |chain.interceptors|
  {
    match Decide(x, chain)
    case Continue(q) => Process(chain, q)
    case Finish(v) => Run(Returned(v), [])
  }

  /** With no interceptor left to run (empty list, or index at or past the
      end), `process` returns its argument as it is, null included, and
      invokes nothing. */
  lemma ProcessAtEnd(c: Cursor, request: Option<string>)
    requires |c.interceptors| == 0 || c.index >= |c.interceptors|
    ensures Process(c, request) == Run(Returned(request), [])
  {
  }

  /** Inside the list, `process` invokes exactly the interceptor at the
      current index, on a new cursor over the same list one index further on
      that stores the argument, and returns that interceptor's result as it is. */
  lemma ProcessDispatches(c: Cursor, request: Option<string>)
    requires 0 <= c.index < |c.interceptors|
    ensures var next := Cursor(c.interceptors, c.index + 1, request);
            var inner := Intercept(c.interceptors[c.index], next);
            && Process(c, request).outcome == inner.outcome
            && Process(c, request).invoked == [c.index] + inner.invoked
  {
  }

  /** A negative index on a non-empty list fails in the list lookup, before
      any interceptor runs; on an empty list the argument is returned. */
  lemma ProcessNegativeIndex(c: Cursor, request: Option<string>)
    requires c.index < 0
    ensures |c.interceptors| > 0 ==> Process(c, request) == Run(IndexOutOfBounds(c.index), [])
    ensures |c.interceptors| == 0 ==> Process(c, request) == Run(Returned(request), [])
  {
  }

  /** `process` reads the cursor's list and index but never its stored
      request: two cursors that differ only there behave alike. */
  lemma ProcessIgnoresStoredRequest(c: Cursor, stored: Option<string>, request: Option<string>)
    ensures Process(c.(request := stored), request) == Process(c, request)
  {
  }
}
