# Chain of responsibility: interceptor chain model

A Dafny model of the interceptor chain from the Kotlin `ChainOfResponsibility`
demo. A `RealInterceptorChain` is a cursor over a list of interceptors: an
index into the list and a stored request. `process(request)` either hands the
request back, when no interceptor is left, or builds the cursor one index
further on and gives it to the interceptor at the current index. That
interceptor reads `request()` (the stored request followed by a line break),
appends its own text, and then either forwards the new text through
`process` on that cursor or answers with it. The demo chains a cache lookup
(forwards), a connection (forwards) and a result step (stops).

Modules, following the source files:

- `Nullable` (`nullable.dfy`): Kotlin's nullable values as `Option`.
- `Text` (`text.dfy`): Kotlin's rendering of a null as `"null"` in templates
  and in `String?.plus`, and a character count.
- `Chain` (`chain.dfy`): the cursor, the closed set of interceptor
  behaviours (`Forward(suffix)` / `Stop(suffix)`), `request()` as `Request`,
  the leaf decision `Decide`, and the mutually recursive `Process` and
  `Intercept`. `Process` returns a `Run`: the Kotlin result (or the
  exception a negative index raises) and the indices of the interceptors it
  invoked, in order.
- `Traversal` (`traversal.dfy`): an independent reference for a whole
  traversal (`Pipeline` applies the transforms in index order; `Reference`
  cuts it at the first stopping interceptor) and the theorem that `Process`
  agrees with it.
- `Interceptors` (`interceptors.dfy`): the cache, connect and result
  interceptors with their fixed texts.
- `Scenario` (`scenario.dfy`): the value the demo's `main` computes.

Two details of the code the model keeps:

- The cursor's index is not kept inside `0..size` by anything in the code.
  The model takes any integer. A negative index on a non-empty list raises
  `IndexOutOfBoundsException` from the list lookup (after the next cursor
  has been built), which the model returns as `IndexOutOfBounds`. On an
  empty list the emptiness test wins and the request comes back unchanged.
- The demo's request is `"网络请求"`, and the line break after each step
  comes from `request()` itself, not from a separator between steps.

## Model

| member | source | states |
|---|---|---|
| Chain.Request | ChainOfResponsibility/src/RealInterceptorChain.kt:7-9 | `request()` is never null; it is the stored request followed by `"\n"`, and a null stored request reads `"null\n"` |
| Chain.Decide | ChainOfResponsibility/src/interceptor/CacheInterceptor.kt:8-14 | the leaf step shared by the cache, connect and result interceptors (`request += text`): an interceptor continues exactly when it is a forwarding one; the text it forwards or answers is non-null and is `request()` followed by exactly its suffix |
| Chain.Process | ChainOfResponsibility/src/RealInterceptorChain.kt:12-21 | `process` fails exactly when the list is non-empty and the index negative; returns null exactly when a null request passes straight through with no interceptor left; a non-null request is a prefix of the answer; the interceptors invoked are consecutive indices from the cursor's index, inside the list |
| Chain.Intercept | ChainOfResponsibility/src/interceptor/ConnectInterceptor.kt:7-13 | an interceptor handed a cursor at a non-negative index always returns a value; that value is non-null and starts with `request()`; a stopping interceptor invokes nothing further |
| Chain.ProcessAtEnd | ChainOfResponsibility/src/RealInterceptorChain.kt:13-14 | with an empty list or an index at or past the end, `process` returns its argument unchanged (null included) and invokes no interceptor |
| Chain.ProcessDispatches | ChainOfResponsibility/src/RealInterceptorChain.kt:16-20 | inside the list, `process` invokes exactly the interceptor at the index, on a new cursor with the same list, index + 1 and the argument as stored request, and returns that interceptor's result unchanged |
| Chain.ProcessNegativeIndex | ChainOfResponsibility/src/RealInterceptorChain.kt:13-18 | a negative index raises the lookup exception before any interceptor runs on a non-empty list, and returns the argument on an empty one |
| Chain.ProcessIgnoresStoredRequest | ChainOfResponsibility/src/RealInterceptorChain.kt:12-20 | `process` depends only on the list, the index and its argument, never on the cursor's stored request |
| Traversal.StepAddsOneLineBreak | ChainOfResponsibility/src/RealInterceptorChain.kt:8 | every interceptor that runs adds exactly one line break beyond those in its input and its suffix |
| Traversal.ProcessMatchesReference | ChainOfResponsibility/src/RealInterceptorChain.kt:12-20 | from any index inside the list, `process` equals the reference: transforms applied in index order up to the first stopping interceptor, whose text is the answer; the interceptors invoked are exactly the consecutive indices from the start up to and including that one (or to the end), so traversal ends and never skips or repeats |
| Traversal.AllForwardIsPipeline | ChainOfResponsibility/src/RealInterceptorChain.kt:12-20 | when every interceptor forwards, the answer is the request with every transform applied in index order, and every interceptor runs once, in order |
| Traversal.StopEndsTraversal | ChainOfResponsibility/src/interceptor/ResultInterceptor.kt:8-11 | when the interceptor at `k` is the first to stop, the answer is its text over the transforms before it, and only interceptors `0..k` run |
| Traversal.StopHidesTail | ChainOfResponsibility/src/interceptor/ResultInterceptor.kt:11 | replacing everything after the first stopping interceptor by any other list leaves the result and the invocations unchanged |
| Interceptors.CacheForwards | ChainOfResponsibility/src/interceptor/CacheInterceptor.kt:8-14 | the cache interceptor forwards `request()` + lookup text + miss text, in that order, through one `process` call whose result it returns unchanged; the forwarded text is non-null, extends `request()` and is longer by both segments |
| Interceptors.ConnectForwards | ChainOfResponsibility/src/interceptor/ConnectInterceptor.kt:7-12 | the connect interceptor forwards `request()` + its text through one `process` call whose result it returns unchanged; the forwarded text extends `request()` by exactly that text |
| Interceptors.ResultStops | ChainOfResponsibility/src/interceptor/ResultInterceptor.kt:7-11 | the result interceptor never calls `process`: it answers `request()` + its text and invokes nothing further |
| Interceptors.ResultIgnoresRestOfChain | ChainOfResponsibility/src/interceptor/ResultInterceptor.kt:8-11 | the result interceptor's answer depends only on the stored request, not on the list or the index, so nothing after it matters |
| Scenario.ExpectedIsThreeSteps | ChainOfResponsibility/src/Main.kt:6-13 | the expected printed text is what cache, connect and result produce in turn from the initial request |
| Scenario.DemoOutput | ChainOfResponsibility/src/Main.kt:5-13 | the list [cache, connect, result], a cursor at index 0 storing the initial request, and `process` of that same request yield exactly the expected text; the three interceptors run once each, in order |
| Scenario.DemoLineBreaks | ChainOfResponsibility/src/Main.kt:6-13 | the demo's answer is non-null and holds exactly as many line breaks as interceptors ran, namely three |

## Left out

- The `println` in `main`: console output. Only the value passed to it is modelled (`Scenario.DemoRun`).
- `Chain.kt`: an interface with no behaviour. It becomes the `Cursor` type and the signatures of `Request` and `Process`.
- The `Interceptor` interface and open dispatch over arbitrary implementations: its file is not part of this model. Interceptors are a closed datatype of the two behaviours the leaves show, append-and-forward and append-and-stop.
- The convention that an interceptor calls `process` at most once: it is not enforced by the code. In the model each behaviour calls it exactly once or never, by construction.
- Mutability: the list is an `ArrayList` and the cursor's fields are `var`, but nothing in the code changes them after construction. The model uses an immutable `seq` and an immutable cursor value.
- The null branch of `isNullOrEmpty`: the list's declared type is not nullable, so only the emptiness test is modelled.
- Integer width: the index is an `int`. A Kotlin `Int` cannot overflow on `index + 1` here, because that addition only happens when `index` is below the list size.
- Text lengths count Unicode code points, while Kotlin's `String.length` counts UTF-16 units. Every fixed text here lies in the Basic Multilingual Plane, so the two counts agree for them.
- Stack depth: each forward nests an `intercept` and a `process` call, so on the JVM a long enough list of forwarding interceptors ends in `StackOverflowError`. `Process` returns a value for a list of any length.
- Cache hits: the cache interceptor in the code never finds data, so it always forwards; a hit path does not exist to model.
