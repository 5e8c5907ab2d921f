/**
 The STUN client object: the promise-returning operations `bindP`,
 `sendBindRequestP` and `sendBindIndicationP`, and the callback forms `bind`,
 `sendBindRequest` and `sendBindIndication` that check both handlers before
 anything is sent and then route the promise's outcome to them.

 The communicator is not modelled: each operation is given the outcome its
 send would settle with, and the client records the descriptors it hands
 over (`sent`) and the callbacks it invokes (`delivered`).
 */
module CallbackAdapter {
  import opened StunTypes
  import opened Composer
  import opened BindExchange

  /** A handler argument: `undefined`, or a function that returns normally or throws `throws`. */
  datatype Handler = Undefined | Callback(throws: Option<Failure>)

  /** What `onSuccess` receives: a mapped address, a raw reply, or the indication's empty result. */
  datatype Value = AddressValue(mapped: TransportAddress) | ReplyValue(reply: Message) | NoValue

  /** One invocation of a handler, with its argument. */
  datatype Invocation = OnSuccess(value: Value) | OnFailure(error: Failure)

  /** The three callback-form operations. */
  datatype Operation = BindOp | SendBindRequestOp | SendBindIndicationOp

  /** The message each callback form throws when a handler is undefined. */
  function HandlersUndefinedMessage(op: Operation): string
  {
    match op
    case BindOp => "[stun-js] bind callback handlers are undefined"
    case SendBindRequestOp => "[stun-js] send bind request callback handlers are undefined"
    case SendBindIndicationOp => "[stun-js] send bind indication callback handlers are undefined"
  }

  /** The descriptor each operation hands to the communicator. */
  function Outgoing(op: Operation): (d: Descriptor)
    ensures d.stunMethod == Binding
    ensures d.msgClass == Request <==> !op.SendBindIndicationOp?
    ensures d.msgClass == Indication <==> op.SendBindIndicationOp?
  {
    if op.SendBindIndicationOp? then ComposeBindIndication() else ComposeBindRequest()
  }

  predicate HandlersDefined(onSuccess: Handler, onFailure: Handler)
  {
    onSuccess.Callback? && onFailure.Callback?
  }

  /**
   `promise.then(onSuccess).catch(onFailure)`: a fulfilment calls `onSuccess`
   with the value, a rejection calls `onFailure` with the reason; and since
   the catch is chained after the then, an exception thrown by `onSuccess`
   reaches `onFailure` as well.
   */
  function Deliver(completion: Settled<Value>, onSuccess: Handler): (calls: seq<Invocation>)
    requires onSuccess.Callback?
    ensures 1 <= |calls| <= 2
    ensures calls[0].OnSuccess? <==> completion.Fulfilled?
    ensures completion.Fulfilled? ==> calls[0] == OnSuccess(completion.value)
    ensures completion.Rejected? ==> calls == [OnFailure(completion.reason)]
    ensures |calls| == 2 <==> completion.Fulfilled? && onSuccess.throws.Some?
    ensures |calls| == 2 ==> calls[1] == OnFailure(onSuccess.throws.value)
  {
    match completion
    case Rejected(reason) => [OnFailure(reason)]
    case Fulfilled(v) =>
      [OnSuccess(v)] + (if onSuccess.throws.Some? then [OnFailure(onSuccess.throws.value)] else [])
  }

  /** What one callback-form call does: what it throws, what it sends, which handlers it calls. */
  datatype Effect = Effect(thrown: Option<Failure>, sends: seq<Descriptor>, calls: seq<Invocation>)

  /**
   A callback-form call: with a handler undefined it throws its fixed
   message at once and neither sends nor calls a handler; otherwise it sends
   one message and hands the promise's outcome to the handlers.
   */
  function Adapt(op: Operation, onSuccess: Handler, onFailure: Handler, completion: Settled<Value>): (e: Effect)
    ensures e.thrown.Some? <==> !HandlersDefined(onSuccess, onFailure)
    ensures e.thrown.Some? ==>
              e.thrown.value == Error(HandlersUndefinedMessage(op)) && e.sends == [] && e.calls == []
    ensures e.thrown.None? ==> e.sends == [Outgoing(op)] && e.calls == Deliver(completion, onSuccess)
  {
    if !HandlersDefined(onSuccess, onFailure) then
      Effect(Some(Error(HandlersUndefinedMessage(op))), [], [])
    else
      Effect(None, [Outgoing(op)], Deliver(completion, onSuccess))
  }

  function AddressCompletion(s: Settled<TransportAddress>): Settled<Value>
  {
    match s
    case Fulfilled(a) => Fulfilled(AddressValue(a))
    case Rejected(reason) => Rejected(reason)
  }

  function ReplyCompletion(s: Settled<Message>): Settled<Value>
  {
    match s
    case Fulfilled(m) => Fulfilled(ReplyValue(m))
    case Rejected(reason) => Rejected(reason)
  }

  function AckCompletion(s: Settled<()>): Settled<Value>
  {
    match s
    case Fulfilled(_) => Fulfilled(NoValue)
    case Rejected(reason) => Rejected(reason)
  }

  class StunClient {
    /** The descriptors handed to the communicator, in order. */
    var sent: seq<Descriptor>
    /** The handler invocations, in order. */
    var delivered: seq<Invocation>

    constructor ()
      ensures sent == [] && delivered == []
    {
      sent := [];
      delivered := [];
    }

    /** `sendBindRequestP`: sends a Binding request; settles as the communicator does. */
    method SendBindRequestP(reply: Settled<Message>) returns (r: Settled<Message>)
      modifies this
      ensures sent == old(sent) + [ComposeBindRequest()] && delivered == old(delivered)
      ensures r == reply
    {
      var message := ComposeBindRequest();
      sent := sent + [message];
      r := reply;
    }

    /** `bindP`: sends a Binding request and interprets the reply. */
    method BindP(reply: Settled<Message>) returns (r: Settled<TransportAddress>)
      modifies this
      ensures sent == old(sent) + [ComposeBindRequest()] && delivered == old(delivered)
      ensures r == BindOutcome(reply)
    {
      var answer := SendBindRequestP(reply);
      r := BindOutcome(answer);
    }

    /** `sendBindIndicationP`: sends a Binding indication; settles as the communicator does. */
    method SendBindIndicationP(ack: Settled<()>) returns (r: Settled<()>)
      modifies this
      ensures sent == old(sent) + [ComposeBindIndication()] && delivered == old(delivered)
      ensures r == ack
    {
      var message := ComposeBindIndication();
      sent := sent + [message];
      r := ack;
    }

    /** `bind(onSuccess, onFailure)`. */
    method Bind(onSuccess: Handler, onFailure: Handler, reply: Settled<Message>) returns (thrown: Option<Failure>)
      modifies this
      ensures var e := Adapt(BindOp, onSuccess, onFailure, AddressCompletion(BindOutcome(reply)));
              thrown == e.thrown && sent == old(sent) + e.sends && delivered == old(delivered) + e.calls
    {
      if !HandlersDefined(onSuccess, onFailure) {
        thrown := Some(Error(HandlersUndefinedMessage(BindOp)));
        return;
      }
      var result := BindP(reply);
      delivered := delivered + Deliver(AddressCompletion(result), onSuccess);
      thrown := None;
    }

    /** `sendBindRequest(onSuccess, onFailure)`. */
    method SendBindRequest(onSuccess: Handler, onFailure: Handler, reply: Settled<Message>) returns (thrown: Option<Failure>)
      modifies this
      ensures var e := Adapt(SendBindRequestOp, onSuccess, onFailure, ReplyCompletion(reply));
              thrown == e.thrown && sent == old(sent) + e.sends && delivered == old(delivered) + e.calls
    {
      if !HandlersDefined(onSuccess, onFailure) {
        thrown := Some(Error(HandlersUndefinedMessage(SendBindRequestOp)));
        return;
      }
      var result := SendBindRequestP(reply);
      delivered := delivered + Deliver(ReplyCompletion(result), onSuccess);
      thrown := None;
    }

    /** `sendBindIndication(onSuccess, onFailure)`. */
    method SendBindIndication(onSuccess: Handler, onFailure: Handler, ack: Settled<()>) returns (thrown: Option<Failure>)
      modifies this
      ensures var e := Adapt(SendBindIndicationOp, onSuccess, onFailure, AckCompletion(ack));
              thrown == e.thrown && sent == old(sent) + e.sends && delivered == old(delivered) + e.calls
    {
      if !HandlersDefined(onSuccess, onFailure) {
        thrown := Some(Error(HandlersUndefinedMessage(SendBindIndicationOp)));
        return;
      }
      var result := SendBindIndicationP(ack);
      delivered := delivered + Deliver(AckCompletion(result), onSuccess);
      thrown := None;
    }
  }

  /*
   Many calls on one client. `Replay` folds `Adapt` over a sequence of calls;
   `Issue` below shows that this fold is what a `StunClient` records when the
   calls are made on it one after another. Handler invocations are ordered by
   call, not by when each promise settles.
   */

  /** One callback-form call, with the outcome its promise settles with. */
  datatype Call = Call(op: Operation, onSuccess: Handler, onFailure: Handler, completion: Settled<Value>)

  /** The accumulated effect of a sequence of calls. */
  datatype Trace = Trace(thrown: seq<Failure>, sends: seq<Descriptor>, calls: seq<Invocation>)

  function EffectOf(c: Call): Effect
  {
    Adapt(c.op, c.onSuccess, c.onFailure, c.completion)
  }

  function Thrown(e: Effect): seq<Failure>
  {
    if e.thrown.Some? then [e.thrown.value] else []
  }

  function Join(t: Trace, u: Trace): Trace
  {
    Trace(t.thrown + u.thrown, t.sends + u.sends, t.calls + u.calls)
  }

  /** The effect of one call, as a trace of its own. */
  function Step(c: Call): Trace
  {
    var e := EffectOf(c);
    Trace(Thrown(e), e.sends, e.calls)
  }

  function Replay(calls: seq<Call>): Trace
  {
    if calls == [] then Trace([], [], [])
    else Join(Replay(calls[..|calls| - 1]), Step(calls[|calls| - 1]))
  }

  /** Replaying one more call adds that call's effect at the end. */
  lemma ReplaySnoc(calls: seq<Call>, c: Call)
    ensures Replay(calls + [c]) == Join(Replay(calls), Step(c))
  {
  }

  lemma JoinAssociative(t: Trace, u: Trace, v: Trace)
    ensures Join(Join(t, u), v) == Join(t, Join(u, v))
  {
  }

  /** The fold of `Adapt` over two batches of calls is the concatenation of the two folds. */
  lemma {:induction false} ReplayAppend(a: seq<Call>, b: seq<Call>)
    ensures Replay(a + b) == Join(Replay(a), Replay(b))
  {
    if b == [] {
      assert a + b == a;
      var ra := Replay(a);
      assert ra.thrown + [] == ra.thrown && ra.sends + [] == ra.sends && ra.calls + [] == ra.calls;
    } else {
      var b', c := b[..|b| - 1], b[|b| - 1];
      assert b == b' + [c];
      assert a + b == (a + b') + [c];
      ReplaySnoc(a + b', c);
      ReplaySnoc(b', c);
      ReplayAppend(a, b');
      JoinAssociative(Replay(a), Replay(b'), Step(c));
    }
  }

  predicate Accepted(c: Call)
  {
    HandlersDefined(c.onSuccess, c.onFailure)
  }

  /** Calls whose handlers are both defined. */
  function CountAccepted(calls: seq<Call>): nat
  {
    if calls == [] then 0
    else CountAccepted(calls[..|calls| - 1]) + (if Accepted(calls[|calls| - 1]) then 1 else 0)
  }

  /** Accepted calls whose promise fulfils. */
  function CountFulfilled(calls: seq<Call>): nat
  {
    if calls == [] then 0
    else
      var c := calls[|calls| - 1];
      CountFulfilled(calls[..|calls| - 1]) + (if Accepted(c) && c.completion.Fulfilled? then 1 else 0)
  }

  /** Rejections the accepted calls deliver: a rejected promise, or an `onSuccess` that throws. */
  function CountFailures(calls: seq<Call>): nat
  {
    if calls == [] then 0
    else
      var c := calls[|calls| - 1];
      var failing := Accepted(c) && (c.completion.Rejected? || c.onSuccess.throws.Some?);
      CountFailures(calls[..|calls| - 1]) + (if failing then 1 else 0)
  }

  function SuccessCount(invs: seq<Invocation>): nat
  {
    if invs == [] then 0
    else SuccessCount(invs[..|invs| - 1]) + (if invs[|invs| - 1].OnSuccess? then 1 else 0)
  }

  function FailureCount(invs: seq<Invocation>): nat
  {
    if invs == [] then 0
    else FailureCount(invs[..|invs| - 1]) + (if invs[|invs| - 1].OnFailure? then 1 else 0)
  }

  lemma {:induction false} InvocationCountsAppend(a: seq<Invocation>, b: seq<Invocation>)
    ensures SuccessCount(a + b) == SuccessCount(a) + SuccessCount(b)
    ensures FailureCount(a + b) == FailureCount(a) + FailureCount(b)
  {
    if b == [] {
      assert a + b == a;
    } else {
      var b' := b[..|b| - 1];
      assert (a + b)[..|a + b| - 1] == a + b';
      assert (a + b)[|a + b| - 1] == b[|b| - 1];
      InvocationCountsAppend(a, b');
    }
  }

  /** The invocations of one call: one `onSuccess` exactly when it is accepted and fulfils. */
  lemma EffectCounts(c: Call)
    ensures SuccessCount(EffectOf(c).calls) == if Accepted(c) && c.completion.Fulfilled? then 1 else 0
    ensures FailureCount(EffectOf(c).calls) ==
              if Accepted(c) && (c.completion.Rejected? || c.onSuccess.throws.Some?) then 1 else 0
  {
    var calls := EffectOf(c).calls;
    if Accepted(c) {
      if |calls| == 2 {
        var first := calls[..1];
        assert first == [calls[0]] && first[..0] == [];
        assert SuccessCount(first) == (if calls[0].OnSuccess? then 1 else 0);
        assert FailureCount(first) == (if calls[0].OnFailure? then 1 else 0);
      } else {
        assert calls[..0] == [];
      }
    }
  }

  /**
   Over any sequence of calls on one client: one send per accepted call, one
   synchronous throw per refused call, one `onSuccess` per accepted call
   whose promise fulfils, and one `onFailure` per accepted call whose promise
   rejects or whose `onSuccess` throws.
   */
  lemma {:induction false} ReplayCounts(calls: seq<Call>)
    ensures |Replay(calls).sends| == CountAccepted(calls)
    ensures |Replay(calls).thrown| + CountAccepted(calls) == |calls|
    ensures SuccessCount(Replay(calls).calls) == CountFulfilled(calls)
    ensures FailureCount(Replay(calls).calls) == CountFailures(calls)
  {
    if calls != [] {
      var init := calls[..|calls| - 1];
      var c := calls[|calls| - 1];
      ReplayCounts(init);
      EffectCounts(c);
      InvocationCountsAppend(Replay(init).calls, EffectOf(c).calls);
    }
  }

  /** A call to one of the callback forms, with what the communicator settles its send with. */
  datatype ClientCall =
    | BindCall(onSuccess: Handler, onFailure: Handler, reply: Settled<Message>)
    | SendBindRequestCall(onSuccess: Handler, onFailure: Handler, reply: Settled<Message>)
    | SendBindIndicationCall(onSuccess: Handler, onFailure: Handler, ack: Settled<()>)

  /** The operation and the promise outcome a client call hands to `Adapt`. */
  function AsCall(cc: ClientCall): Call
  {
    match cc
    case BindCall(s, f, reply) => Call(BindOp, s, f, AddressCompletion(BindOutcome(reply)))
    case SendBindRequestCall(s, f, reply) => Call(SendBindRequestOp, s, f, ReplyCompletion(reply))
    case SendBindIndicationCall(s, f, ack) => Call(SendBindIndicationOp, s, f, AckCompletion(ack))
  }

  function AsCalls(ccs: seq<ClientCall>): seq<Call>
  {
    if ccs == [] then [] else AsCalls(ccs[..|ccs| - 1]) + [AsCall(ccs[|ccs| - 1])]
  }

  lemma AppendAssociative<T>(a: seq<T>, b: seq<T>, c: seq<T>)
    ensures a + b + c == a + (b + c)
  {
  }

  /** Replaying one more call of a prefix adds its effect at the end. */
  lemma ReplayPrefix(ccs: seq<ClientCall>, i: nat)
    requires i < |ccs|
    ensures Replay(AsCalls(ccs[..i + 1])) == Join(Replay(AsCalls(ccs[..i])), Step(AsCall(ccs[i])))
  {
    assert ccs[..i + 1][..i] == ccs[..i];
    ReplaySnoc(AsCalls(ccs[..i]), AsCall(ccs[i]));
  }

  /**
   One callback-form call on `client`, by a caller that catches what it
   throws: the client records, and the caller catches, exactly what `Step`
   gives.
   */
  method IssueOne(client: StunClient, cc: ClientCall, caught: seq<Failure>) returns (caught': seq<Failure>)
    modifies client
    ensures caught' == caught + Step(AsCall(cc)).thrown
    ensures client.sent == old(client.sent) + Step(AsCall(cc)).sends
    ensures client.delivered == old(client.delivered) + Step(AsCall(cc)).calls
  {
    var failure: Option<Failure>;
    match cc {
      case BindCall(s, f, reply) =>
        failure := client.Bind(s, f, reply);
      case SendBindRequestCall(s, f, reply) =>
        failure := client.SendBindRequest(s, f, reply);
      case SendBindIndicationCall(s, f, ack) =>
        failure := client.SendBindIndication(s, f, ack);
    }
    caught' := if failure.Some? then caught + [failure.value] else caught;
  }

  /**
   A caller issuing a sequence of callback-form calls on one client and
   catching what each throws: the client's new sends and handler invocations,
   and the errors thrown, are the fold of `Adapt` over those calls.
   */
  method Issue(client: StunClient, ccs: seq<ClientCall>) returns (thrown: seq<Failure>)
    modifies client
    ensures thrown == Replay(AsCalls(ccs)).thrown
    ensures client.sent == old(client.sent) + Replay(AsCalls(ccs)).sends
    ensures client.delivered == old(client.delivered) + Replay(AsCalls(ccs)).calls
  {
    thrown := [];
    ghost var done := Trace([], [], []);
    for i := 0 to |ccs|
      invariant done == Replay(AsCalls(ccs[..i]))
      invariant thrown == done.thrown
      invariant client.sent == old(client.sent) + done.sends
      invariant client.delivered == old(client.delivered) + done.calls
    {
      ghost var step := Step(AsCall(ccs[i]));
      thrown := IssueOne(client, ccs[i], thrown);
      ReplayPrefix(ccs, i);
      AppendAssociative(old(client.sent), done.sends, step.sends);
      AppendAssociative(old(client.delivered), done.calls, step.calls);
      done := Join(done, step);
    }
    assert ccs[..|ccs|] == ccs;
  }
}
