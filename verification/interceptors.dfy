/**
 The three leaf interceptors of the demo: the cache lookup and the
 connection both append their text and pass it on, the result interceptor
 appends its text and answers without passing anything on.
 */
module Interceptors {
  import opened Nullable
  import opened Text
  import opened Chain

  /** The two segments the cache interceptor appends, in this order. */
  const CacheLookup: string := "检查缓存，从缓存读取数据--->"
  const CacheMiss: string := "缓存无数据！"

  /** The segment the connect interceptor appends. */
  const Connected: string := "链接成功，处理服务器返回数据...."

  /** The segment the result interceptor answers with. */
  const Respond: string := "向客户端返回数据"

  /** CacheInterceptor: never finds a cached answer, so it always forwards. */
  const Cache: Interceptor := Forward(CacheLookup + CacheMiss)

  /** ConnectInterceptor: always forwards. */
  const Connect: Interceptor := Forward(Connected)

  /** ResultInterceptor: always stops. */
  const Result: Interceptor := Stop(Respond)

  /** The cache interceptor forwards `request()` followed by the lookup and
      the miss segments, calls `process` with it once, and returns what
      `process` returns. */
  lemma CacheForwards(c: Cursor)
    ensures var forwarded := Request(c).value + CacheLookup + CacheMiss;
            && Decide(Cache, c) == Continue(Some(forwarded))
            && Intercept(Cache, c) == Process(c, Some(forwarded))
            && Request(c).value <= forwarded
            && |forwarded| == |Request(c).value| + |CacheLookup| + |CacheMiss|
  {
    var text := Request(c).value;
    assert text + (CacheLookup + CacheMiss) == text + CacheLookup + CacheMiss;
  }

  /** The connect interceptor forwards `request()` followed by its segment,
      calls `process` with it once, and returns what `process` returns. */
  lemma ConnectForwards(c: Cursor)
    ensures var forwarded := Request(c).value + Connected;
            && Decide(Connect, c) == Continue(Some(forwarded))
            && Intercept(Connect, c) == Process(c, Some(forwarded))
            && Request(c).value <= forwarded
            && |forwarded| == |Request(c).value| + |Connected|
  {
  }

  /** The result interceptor never calls `process`: it answers `request()`
      followed by its segment, and invokes no further interceptor. */
  lemma ResultStops(c: Cursor)
    ensures var answer := Request(c).value + Respond;
            && Decide(Result, c) == Finish(Some(answer))
            && Intercept(Result, c) == Run(Returned(Some(answer)), [])
            && Request(c).value <= answer
  {
  }

  /** The result interceptor's answer depends only on the stored request:
      neither the list it sits in nor the cursor's index, so nothing placed
      after it can change it. */
  lemma ResultIgnoresRestOfChain(c: Cursor, d: Cursor)
    requires c.request == d.request
    ensures Intercept(Result, c) == Intercept(Result, d)
  {
  }
}
