/**
 Whole-chain behaviour of `process`, stated against a reference definition
 that does not mention cursors: each interceptor is a text transform, the
 transforms are applied in index order, and the first stopping interceptor
 ends the run.
 */
module Traversal {
  import opened Nullable
  import opened Text
  import opened Chain

  /** The text interceptor `x` produces from request `r`: the rendered
      request, a line break, then the interceptor's own suffix. */
  function Step(x: Interceptor, r: Option<string>): string {
    Render(r) + "\n" + x.suffix
  }

  /** The request after every interceptor of `ws` has transformed it, the
      first one (index 0) first. Stopping is not considered here. */
  function Pipeline(ws: seq<Interceptor>, r: Option<string>): Option<string>
    decreases |ws|
  {
    if |ws| == 0 then r else Pipeline(ws[1..], Some(Step(ws[0], r)))
  }

  /** The position of the first stopping interceptor at or after `i`, or the
      length of the list when every one from `i` on forwards. */
  function FirstStop(s: seq<Interceptor>, i: nat): (k: nat)
    requires i <= |s|
    decreases |s| - i
    ensures i <= k <= |s|
    ensures k < |s| ==> s[k].Stop?
    ensures forall j :: i <= j < k ==> s[j].Forward?
  {
    if i == |s| then i
    else if s[i].Stop? then i
    else FirstStop(s, i + 1)
  }

  /** One past the last interceptor that runs when traversal starts at `i`. */
  function Reach(s: seq<Interceptor>, i: nat): nat
    requires i <= |s|
  {
    var k := FirstStop(s, i);
    if k < |s| then k + 1 else |s|
  }

  /** The consecutive indices `a, a+1, ..., b-1`. */
  function Range(a: int, b: int): (r: seq<int>)
    requires a <= b
    ensures |r| == b - a
    ensures forall j :: 0 <= j < |r| ==> r[j] == a + j
  {
    seq(b - a, j requires 0 <= j < b - a => a + j)
  }

  /** A range is its first index followed by the rest of the range. */
  lemma RangeCons(a: int, b: int)
    requires a < b
    ensures [a] + Range(a + 1, b) == Range(a, b)
  {
  }

  /** The reference answer of a traversal starting at `i` with request `r`:
      the transforms up to the first stopping interceptor, that one's text
      as the final answer, or the plain pipeline when nobody stops. */
  function Reference(s: seq<Interceptor>, i: nat, r: Option<string>): Option<string>
    requires i <= |s|
  {
    var k := FirstStop(s, i);
    if k == |s| then Pipeline(s[i..], r) else Some(Step(s[k], Pipeline(s[i..k], r)))
  }

  /** Each interceptor that runs adds exactly one line break of its own,
      besides any its suffix carries. */
  lemma StepAddsOneLineBreak(x: Interceptor, r: Option<string>)
    ensures Occurrences(Step(x, r), '\n') == Occurrences(Render(r), '\n') + 1 + Occurrences(x.suffix, '\n')
  {
    OccurrencesAppend(Render(r), "\n", '\n');
    OccurrencesAppend(Render(r) + "\n", x.suffix, '\n');
  }

  /** An interceptor's decision carries exactly the text `Step` describes. */
  lemma DecideIsStep(x: Interceptor, s: seq<Interceptor>, i: int, r: Option<string>)
    ensures Decide(x, Cursor(s, i, r))
            == if x.Forward? then Continue(Some(Step(x, r))) else Finish(Some(Step(x, r)))
  {
  }

  /** One forwarding step of `process`: the interceptor at `i` hands its text
      to the cursor at `i + 1`, whose run follows the invocation of `i`. */
  lemma ProcessForwardStep(s: seq<Interceptor>, i: nat, stored: Option<string>, r: Option<string>)
    requires i < |s| && s[i].Forward?
    ensures var inner := Process(Cursor(s, i + 1, r), Some(Step(s[i], r)));
            Process(Cursor(s, i, stored), r) == Run(inner.outcome, [i] + inner.invoked)
  {
  }

  /** One stopping step of `process`: the interceptor at `i` answers with its
      own text, and it is the only one invoked. */
  lemma ProcessStopStep(s: seq<Interceptor>, i: nat, stored: Option<string>, r: Option<string>)
    requires i < |s| && s[i].Stop?
    ensures Process(Cursor(s, i, stored), r) == Run(Returned(Some(Step(s[i], r))), [i])
  {
  }

  /** The reference moves past a forwarding interceptor by feeding its text on. */
  lemma ReferenceForwardStep(s: seq<Interceptor>, i: nat, r: Option<string>)
    requires i < |s| && s[i].Forward?
    ensures Reference(s, i, r) == Reference(s, i + 1, Some(Step(s[i], r)))
    ensures Reach(s, i) == Reach(s, i + 1)
  {
  }

  /** The inductive step of `ProcessMatchesReference`: if the traversal from
      `i + 1` agrees with the reference, so does the traversal from a
      forwarding interceptor at `i`. */
  lemma ForwardPreservesReference(s: seq<Interceptor>, i: nat, stored: Option<string>, r: Option<string>)
    requires i < |s| && s[i].Forward?
    requires var q := Some(Step(s[i], r));
             Process(Cursor(s, i + 1, r), q) == Run(Returned(Reference(s, i + 1, q)), Range(i + 1, Reach(s, i + 1)))
    ensures Process(Cursor(s, i, stored), r) == Run(Returned(Reference(s, i, r)), Range(i, Reach(s, i)))
  {
    var e := Reach(s, i);
    var inner := Process(Cursor(s, i + 1, r), Some(Step(s[i], r)));
    ProcessForwardStep(s, i, stored, r);
    ReferenceForwardStep(s, i, r);
    RangeCons(i, e);
    assert inner.outcome == Returned(Reference(s, i, r));
    assert inner.invoked == Range(i + 1, e);
  }

  /** Traversal from any valid index agrees with the reference: the result
      is the reference answer, and the interceptors invoked are exactly the
      consecutive indices from `i` up to and including the first stopping
      one (or to the end), with no skip and no repeat. */
  lemma {:induction false} ProcessMatchesReference(s: seq<Interceptor>, i: nat, stored: Option<string>, r: Option<string>)
    requires i <= |s|
    decreases |s| - i
    ensures Process(Cursor(s, i, stored), r) == Run(Returned(Reference(s, i, r)), Range(i, Reach(s, i)))
  {
    if i == |s| {
      assert s[i..] == [];
    } else if s[i].Stop? {
      ProcessStopStep(s, i, stored, r);
      assert s[i..i] == [];
      assert Range(i, i + 1) == [i];
    } else {
      ProcessMatchesReference(s, i + 1, r, Some(Step(s[i], r)));
      ForwardPreservesReference(s, i, stored, r);
    }
  }

  /** When every interceptor forwards, `process` from index 0 applies every
      transform in index order and invokes every interceptor once, in order. */
  lemma AllForwardIsPipeline(s: seq<Interceptor>, stored: Option<string>, r: Option<string>)
    requires forall j :: 0 <= j < |s| ==> s[j].Forward?
    ensures Process(Cursor(s, 0, stored), r) == Run(Returned(Pipeline(s, r)), Range(0, |s|))
  {
    ProcessMatchesReference(s, 0, stored, r);
    assert s[0..] == s;
  }

  /** When the interceptor at `k` is the first to stop, the answer is its
      text built on the transforms of the interceptors before it, and only
      interceptors `0..k` run. */
  lemma StopEndsTraversal(s: seq<Interceptor>, k: nat, stored: Option<string>, r: Option<string>)
    requires k < |s| && s[k].Stop?
    requires forall j :: 0 <= j < k ==> s[j].Forward?
    ensures Process(Cursor(s, 0, stored), r)
            == Run(Returned(Some(Step(s[k], Pipeline(s[..k], r)))), Range(0, k + 1))
  {
    ProcessMatchesReference(s, 0, stored, r);
    assert s[0..k] == s[..k];
  }

  /** Whatever follows the first stopping interceptor never matters: replacing
      the tail after position `k` by any other list leaves the run unchanged. */
  lemma StopHidesTail(s: seq<Interceptor>, k: nat, tail: seq<Interceptor>, stored: Option<string>, r: Option<string>)
    requires k < |s| && s[k].Stop?
    requires forall j :: 0 <= j < k ==> s[j].Forward?
    ensures Process(Cursor(s[..k + 1] + tail, 0, stored), r) == Process(Cursor(s, 0, stored), r)
  {
    var t := s[..k + 1] + tail;
    assert t[..k] == s[..k];
    StopEndsTraversal(s, k, stored, r);
    StopEndsTraversal(t, k, stored, r);
  }
}
