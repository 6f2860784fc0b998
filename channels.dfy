/** What a worker thread sends back: responses on one channel and partial
    (streaming) texts on another. Both workers of the application share
    this shape; the response type differs. */
module Channels {
  import opened Wrappers
  import opened Text

  datatype Trace<R> = Trace(responses: seq<R>, partials: seq<string>)

  /** Every forwarded partial text is trimmed. */
  ghost predicate AllTrimmed<R>(t: Trace<R>)
  {
    forall k :: 0 <= k < |t.partials| ==> IsTrimmed(t.partials[k])
  }

  /** What `a` sends followed by what `b` sends. */
  function Then<R>(a: Trace<R>, b: Trace<R>): Trace<R>
  {
    Trace(a.responses + b.responses, a.partials + b.partials)
  }

  function Silent<R>(): Trace<R> { Trace([], []) }

  function Reply<R>(r: R): Trace<R> { Trace([r], []) }

  /** A partial result is forwarded, trimmed, only when it succeeded. */
  function PartialOutput<R>(r: Result<string>): (t: Trace<R>)
    ensures t.responses == []
    ensures |t.partials| == (if r.Ok? then 1 else 0)
    ensures AllTrimmed(t)
  {
    if r.Ok? then TrimIsSlice(r.value); Trace([], [Trim(r.value)]) else Silent()
  }

  lemma ThenAssoc<R>(a: Trace<R>, b: Trace<R>, c: Trace<R>)
    ensures Then(Then(a, b), c) == Then(a, Then(b, c))
  {
    assert (a.responses + b.responses) + c.responses == a.responses + (b.responses + c.responses);
    assert (a.partials + b.partials) + c.partials == a.partials + (b.partials + c.partials);
  }

  lemma ThenReply<R>(a: Trace<R>, r: R)
    ensures Then(a, Reply(r)) == Trace(a.responses + [r], a.partials)
  {
    assert a.partials + [] == a.partials;
  }

  lemma ThenPartial<R>(a: Trace<R>, r: Result<string>)
    ensures Then(a, PartialOutput(r)) == Trace(a.responses, a.partials + PartialOutput<R>(r).partials)
  {
    assert a.responses + [] == a.responses;
  }

  lemma ThenSilent<R>(a: Trace<R>)
    ensures Then(a, Silent()) == a
  {
    assert a.responses + [] == a.responses;
    assert a.partials + [] == a.partials;
  }

  lemma ThenTrimmed<R>(a: Trace<R>, b: Trace<R>)
    requires AllTrimmed(a) && AllTrimmed(b)
    ensures AllTrimmed(Then(a, b))
  {
    var t := Then(a, b);
    forall k | 0 <= k < |t.partials| ensures IsTrimmed(t.partials[k]) {
      if k >= |a.partials| {
        assert t.partials[k] == b.partials[k - |a.partials|];
      }
    }
  }
}
