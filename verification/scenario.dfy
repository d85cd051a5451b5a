/**
 The demo's entry point: a chain of cache, connect and result interceptors
 started at index 0, with the same request stored in the cursor and passed
 to `process`. Only the value handed to the console is modelled.
 */
module Scenario {
  import opened Nullable
  import opened Text
  import opened Chain
  import opened Traversal
  import opened Interceptors

  /** The initial request. */
  const InitialRequest: string := "网络请求"

  /** The interceptors in the order they are added to the list. */
  const DemoChain: seq<Interceptor> := [Cache, Connect, Result]

  /** The text the demo prints, one printed line per literal. */
  const Expected: string :=
    "网络请求\n"
    + "检查缓存，从缓存读取数据--->缓存无数据！\n"
    + "链接成功，处理服务器返回数据....\n"
    + "向客户端返回数据"

  /** The run of the demo: the cursor at index 0 holding the initial request,
      processing that same request. */
  function DemoRun(): Run {
    Process(Cursor(DemoChain, 0, Some(InitialRequest)), Some(InitialRequest))
  }

  /** The expected text is the initial request followed, for each of the
      three interceptors, by a line break and that interceptor's text. */
  lemma ExpectedPieces()
    ensures Expected == InitialRequest + "\n" + CacheLookup + CacheMiss
                        + "\n" + Connected + "\n" + Respond
  {
  }

  /** Two forwarding steps and a stopping one lay their texts out in order,
      each after a line break. */
  lemma ThreeStepsShape(request: string, lookup: string, miss: string, connected: string, respond: string)
    ensures Step(Stop(respond), Some(Step(Forward(connected), Some(Step(Forward(lookup + miss), Some(request))))))
            == request + "\n" + lookup + miss + "\n" + connected + "\n" + respond
  {
  }

  /** The expected text is what cache, connect and result produce in turn
      from the initial request. */
  lemma ExpectedIsThreeSteps()
    ensures Expected == Step(Result, Some(Step(Connect, Some(Step(Cache, Some(InitialRequest))))))
  {
    ThreeStepsShape(InitialRequest, CacheLookup, CacheMiss, Connected, Respond);
    ExpectedPieces();
  }

  /** The value handed to the console is exactly the expected text, and
      cache, connect and result each run once, in that order. */
  lemma DemoOutput()
    ensures DemoRun().outcome == Returned(Some(Expected))
    ensures DemoRun().invoked == [0, 1, 2]
  {
    var s := DemoChain;
    var r := Some(InitialRequest);
    StopEndsTraversal(s, 2, r, r);
    var afterCache := Some(Step(Cache, r));
    var afterConnect := Some(Step(Connect, afterCache));
    assert s[..2] == [Cache, Connect];
    assert [Cache, Connect][1..] == [Connect];
    assert Pipeline([Connect], afterCache) == Pipeline([], afterConnect);
    assert Pipeline(s[..2], r) == afterConnect;
    assert Range(0, 3) == [0, 1, 2];
    ExpectedIsThreeSteps();
  }

  /** None of the fixed texts contains a line break. */
  lemma FixedTextsHaveNoLineBreak()
    ensures '\n' !in InitialRequest && '\n' !in CacheLookup && '\n' !in CacheMiss
    ensures '\n' !in Connected && '\n' !in Respond
  {
  }

  /** The printed text carries exactly three line breaks, one per
      interceptor that ran. */
  lemma DemoLineBreaks()
    ensures DemoRun().outcome.Returned? && DemoRun().outcome.value.Some?
    ensures Occurrences(DemoRun().outcome.value.value, '\n') == |DemoRun().invoked| == 3
  {
    DemoOutput();
    var r := Some(InitialRequest);
    var afterCache := Some(Step(Cache, r));
    var afterConnect := Some(Step(Connect, afterCache));
    ExpectedIsThreeSteps();
    FixedTextsHaveNoLineBreak();
    OccurrencesZero(InitialRequest, '\n');
    OccurrencesZero(Cache.suffix, '\n');
    OccurrencesZero(Connected, '\n');
    OccurrencesZero(Respond, '\n');
    StepAddsOneLineBreak(Cache, r);
    StepAddsOneLineBreak(Connect, afterCache);
    StepAddsOneLineBreak(Result, afterConnect);
  }
}
