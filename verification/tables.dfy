/**
 * The adapter's correlation tables as values, and the pure transitions the
 * adapter's methods are specified by: registering a one-shot callback,
 * draining the pending queue, and dispatching one inbound frame.
 */
module Tables {
  import opened Protocol

  /** `cbs`: correlation key to the FIFO of one-shot callbacks. */
  type OneShots = map<string, seq<CbId>>

  /** `staticCbs`: correlation key to the value last given to `subscribe`. */
  type Subscriptions = map<string, Option<CbId>>

  /** The callbacks waiting under `key`; an absent key waits for none. */
  function Pending(cbs: OneShots, key: string): seq<CbId>
  {
    if key in cbs then cbs[key] else []
  }

  /** Push onto `cbs[key]`, creating the array when the key is absent. */
  function Enqueue(cbs: OneShots, key: string, cb: CbId): (r: OneShots)
    ensures r.Keys == cbs.Keys + {key}
    ensures Pending(r, key) == Pending(cbs, key) + [cb]
    ensures forall k :: k in cbs && k != key ==> r[k] == cbs[k]
  {
    if key in cbs then cbs[key := cbs[key] + [cb]] else cbs[key := [cb]]
  }

  /** What a connected `sendCommand(cmd, params, cb)` does to `cbs`. */
  function RegisterOneShot(cbs: OneShots, cmd: string, params: Arg, cb: Option<CbId>): OneShots
  {
    var args := ResolveArgs(params, cb);
    if args.cb.None? then cbs else Enqueue(cbs, StripType(cmd), args.cb.value)
  }

  /**
   * A connected `sendCommand` with a callback queues it last under the
   * stripped command name and touches no other key; without one it leaves the
   * table alone, and `(cmd, f)` registers like `(cmd, {}, f)`.
   */
  lemma RegisterOneShotEffect(cbs: OneShots, cmd: string, params: Arg, cb: Option<CbId>)
    ensures ResolveArgs(params, cb).cb.None? ==> RegisterOneShot(cbs, cmd, params, cb) == cbs
    ensures ResolveArgs(params, cb).cb.Some? ==>
      var r := RegisterOneShot(cbs, cmd, params, cb);
      Pending(r, StripType(cmd)) == Pending(cbs, StripType(cmd)) + [ResolveArgs(params, cb).cb.value] &&
      forall k :: k != StripType(cmd) ==> Pending(r, k) == Pending(cbs, k)
    ensures params.Fn? ==> RegisterOneShot(cbs, cmd, params, cb) == RegisterOneShot(cbs, cmd, Obj(map[]), Some(params.cb))
  {
  }

  /** The `cbs` after every queued tuple has been re-sent, first to last. */
  function DrainCbs(cbs: OneShots, q: seq<Queued>): OneShots
  {
    if q == [] then cbs
    else
      var last := q[|q| - 1];
      RegisterOneShot(DrainCbs(cbs, q[..|q| - 1]), last.cmd, last.params, last.cb)
  }

  /** The writes made while draining `q`, all at clock reading `nowMs`. */
  function DrainTrace(q: seq<Queued>, nowMs: int): seq<Effect>
  {
    if q == [] then []
    else
      var last := q[|q| - 1];
      DrainTrace(q[..|q| - 1], nowMs) + [Wrote(MakeRequest(nowMs, last.cmd, last.params))]
  }

  /** Reference: the callbacks that the tuples of `q` register under `key`, in queue order. */
  function QueuedOneShots(q: seq<Queued>, key: string): seq<CbId>
  {
    if q == [] then []
    else
      var x := q[0];
      var args := ResolveArgs(x.params, x.cb);
      (if args.cb.Some? && StripType(x.cmd) == key then [args.cb.value] else [])
        + QueuedOneShots(q[1..], key)
  }

  lemma {:induction false} QueuedOneShotsAppend(q: seq<Queued>, x: Queued, key: string)
    ensures QueuedOneShots(q + [x], key) == QueuedOneShots(q, key) + QueuedOneShots([x], key)
    decreases |q|
  {
    if q == [] {
      assert q + [x] == [x];
    } else {
      assert (q + [x])[1..] == q[1..] + [x];
      QueuedOneShotsAppend(q[1..], x, key);
    }
  }

  /**
   * Draining sends every queued tuple exactly once, in order: exactly one
   * write per tuple, the i-th write being the request of the i-th tuple.
   */
  lemma {:induction false} DrainTraceWritesInOrder(q: seq<Queued>, nowMs: int)
    ensures |DrainTrace(q, nowMs)| == |q|
    ensures forall i :: 0 <= i < |q| ==>
      DrainTrace(q, nowMs)[i] == Wrote(MakeRequest(nowMs, q[i].cmd, q[i].params))
    decreases |q|
  {
    if q != [] {
      DrainTraceWritesInOrder(q[..|q| - 1], nowMs);
    }
  }

  /**
   * After draining, each key's FIFO holds its old callbacks followed by the
   * callbacks the queued tuples register under it, in queue order.
   */
  lemma {:induction false} DrainCbsPerKey(cbs: OneShots, q: seq<Queued>, key: string)
    ensures Pending(DrainCbs(cbs, q), key) == Pending(cbs, key) + QueuedOneShots(q, key)
    decreases |q|
  {
    if q == [] {
    } else {
      var init, last := q[..|q| - 1], q[|q| - 1];
      assert q == init + [last];
      DrainCbsPerKey(cbs, init, key);
      QueuedOneShotsAppend(init, last, key);
      assert QueuedOneShots([last], key) ==
        (if ResolveArgs(last.params, last.cb).cb.Some? && StripType(last.cmd) == key
         then [ResolveArgs(last.params, last.cb).cb.value] else []);
      RegisterOneShotEffect(DrainCbs(cbs, init), last.cmd, last.params, last.cb);
    }
  }

  /**
   * A command queued while disconnected as `sendCommand('peers', fn)` is
   * resolved only when the queue drains: it is written with `{}` params and
   * `fn` waits under `peers`.
   */
  lemma QueuedPeersScenario(cbs: OneShots, fn: CbId, nowMs: int)
    ensures DrainTrace([Queued("peers", Fn(fn), None)], nowMs) == [Wrote(Request(nowMs / 1000, "peers", map[]))]
    ensures Pending(DrainCbs(cbs, [Queued("peers", Fn(fn), None)]), "peers") == Pending(cbs, "peers") + [fn]
  {
    var q := [Queued("peers", Fn(fn), None)];
    assert q[..0] == [];
    assert !HasCheckPrefix("peers");
  }

  /** One-shot consumption: the table after the step and the callback removed, if any. */
  datatype Popped = Popped(cbs: OneShots, head: Option<CbId>)

  /** `if (cbs[type] && cbs[type].length) cbs[type].shift()`, with the raw type as key. */
  function PopOneShot(cbs: OneShots, ty: string): (r: Popped)
    ensures r.cbs.Keys == cbs.Keys
    ensures r.head.Some? <==> Pending(cbs, ty) != []
    ensures Pending(cbs, ty) == (if r.head.Some? then [r.head.value] else []) + Pending(r.cbs, ty)
    ensures forall k :: k in cbs && k != ty ==> r.cbs[k] == cbs[k]
  {
    if ty in cbs && |cbs[ty]| > 0 then Popped(cbs[ty := cbs[ty][1..]], Some(cbs[ty][0]))
    else Popped(cbs, None)
  }

  /** What the data handler reports back. */
  datatype Outcome =
    | NoHandler     // no handler is installed on the delivering stream
    | ParseError    // JSON.parse threw; reported on the stream
    | Fault         // `datum.result.type` threw: no `result` member
    | Dispatched

  /** One run of the data handler: new `cbs`, the effects in order, the outcome. */
  datatype Step = Step(cbs: OneShots, effects: seq<Effect>, fired: Option<CbId>, outcome: Outcome)

  /** The subscription invocation for `ty`, if a callback is stored under it. */
  function Subscribed(subs: Subscriptions, ty: string, frame: Frame): seq<Effect>
  {
    if ty in subs && subs[ty].Some? then [Invoke(subs[ty].value, frame)] else []
  }

  /**
   * The data handler for a frame delivered by stream `s`: parse, emit `data`,
   * consume the oldest one-shot for `result.type`, then call the subscription.
   * The subscription is called as the single function `subscribe` stores
   * (see `DispatchAsWritten` for the handler as written).
   */
  function Dispatch(cbs: OneShots, subs: Subscriptions, s: StreamId, frame: Frame): (r: Step)
    ensures frame.Malformed? ==> r.effects == [StreamError(s)] && r.outcome == ParseError
    ensures !frame.Malformed? ==> 1 <= |r.effects| && r.effects[0] == EmitData(frame)
    ensures !frame.Payload? ==> r.cbs == cbs && r.fired == None
    ensures frame.NoResult? ==> r.effects == [EmitData(frame)] && r.outcome == Fault
    ensures frame.Payload? ==>
      r.effects == [EmitData(frame)]
        + (if r.fired.Some? then [Invoke(r.fired.value, frame)] else [])
        + Subscribed(subs, frame.ty, frame)
    ensures frame.Payload? ==>
      r.outcome == Dispatched &&
      (r.fired.Some? <==> Pending(cbs, frame.ty) != []) &&
      Pending(cbs, frame.ty) == (if r.fired.Some? then [r.fired.value] else []) + Pending(r.cbs, frame.ty) &&
      r.cbs.Keys == cbs.Keys &&
      (forall k :: k in cbs && k != frame.ty ==> r.cbs[k] == cbs[k])
  {
    match frame
    case Malformed => Step(cbs, [StreamError(s)], None, ParseError)
    case NoResult(_) => Step(cbs, [EmitData(frame)], None, Fault)
    case Payload(ty, _) =>
      var p := PopOneShot(cbs, ty);
      var once := if p.head.Some? then [Invoke(p.head.value, frame)] else [];
      Step(p.cbs, [EmitData(frame)] + once + Subscribed(subs, ty, frame), p.head, Dispatched)
  }

  /**
   * For a payload, the one-shot (when one waits) and the subscription (when
   * one is stored) both fire, one-shot first, independently of each other.
   */
  lemma DispatchBothFire(cbs: OneShots, subs: Subscriptions, s: StreamId, ty: string, body: string)
    requires Pending(cbs, ty) != []
    requires ty in subs && subs[ty].Some?
    ensures Dispatch(cbs, subs, s, Payload(ty, body)).effects ==
      [EmitData(Payload(ty, body)), Invoke(Pending(cbs, ty)[0], Payload(ty, body)),
       Invoke(subs[ty].value, Payload(ty, body))]
  {
  }

  /** The subscription fires on every matching payload, whatever `cbs` holds. */
  lemma DispatchSubscriptionIndependent(cbs: OneShots, subs: Subscriptions, s: StreamId, ty: string, body: string)
    requires ty in subs && subs[ty].Some?
    ensures Invoke(subs[ty].value, Payload(ty, body)) in Dispatch(cbs, subs, s, Payload(ty, body)).effects
    ensures Dispatch(cbs, subs, s, Payload(ty, body)).effects[|Dispatch(cbs, subs, s, Payload(ty, body)).effects| - 1]
      == Invoke(subs[ty].value, Payload(ty, body))
  {
  }

  /** Bad JSON: one stream error, no `data` event, no callback, tables untouched. */
  lemma DispatchMalformedHarmless(cbs: OneShots, subs: Subscriptions, s: StreamId)
    ensures var r := Dispatch(cbs, subs, s, Malformed);
      r.cbs == cbs && r.effects == [StreamError(s)] && forall f :: EmitData(f) !in r.effects
  {
  }

  /**
   * A waiting one-shot and no subscription: `data`, then the oldest one-shot;
   * nothing waiting and no subscription: only `data`, and `cbs` is unchanged.
   */
  lemma DispatchOneShotOnly(cbs: OneShots, subs: Subscriptions, s: StreamId, ty: string, body: string)
    requires ty !in subs || subs[ty].None?
    ensures Pending(cbs, ty) != [] ==>
      Dispatch(cbs, subs, s, Payload(ty, body)).effects ==
        [EmitData(Payload(ty, body)), Invoke(Pending(cbs, ty)[0], Payload(ty, body))]
    ensures Pending(cbs, ty) == [] ==>
      Dispatch(cbs, subs, s, Payload(ty, body)).effects == [EmitData(Payload(ty, body))] &&
      Dispatch(cbs, subs, s, Payload(ty, body)).cbs == cbs
  {
  }

  /**
   * `subscribe('check_order_count', params, h)` stores `h` under
   * `order_count`; dispatch never changes the subscriptions, so two
   * successive `order_count` payloads both call it without re-registration.
   */
  lemma SubscribeCheckPrefixedScenario(cbs: OneShots, subs: Subscriptions, s: StreamId, h: CbId, b1: string, b2: string)
    ensures StripType("check_order_count") == "order_count"
    ensures var subs' := subs[StripType("check_order_count") := Some(h)];
      var d1 := Dispatch(cbs, subs', s, Payload("order_count", b1));
      var d2 := Dispatch(d1.cbs, subs', s, Payload("order_count", b2));
      Invoke(h, Payload("order_count", b1)) in d1.effects &&
      Invoke(h, Payload("order_count", b2)) in d2.effects
  {
    StripTypeOfPrefixed("order_count");
    assert CheckPrefix + "order_count" == "check_order_count";
  }

  /**
   * `subscribe('check_order_count', h)` with two arguments binds `h` to
   * `params` and stores no subscription (`undefined`); the send then makes
   * `h` a one-shot through the `(cmd, cb)` rule, so it fires on the first
   * `order_count` payload only.
   */
  lemma SubscribeWithoutParamsFiresOnce(cbs: OneShots, subs: Subscriptions, s: StreamId, h: CbId, b1: string, b2: string)
    requires Pending(cbs, "order_count") == []
    ensures var cbs' := RegisterOneShot(cbs, "check_order_count", Fn(h), None);
      var subs' := subs[StripType("check_order_count") := None];
      var d1 := Dispatch(cbs', subs', s, Payload("order_count", b1));
      var d2 := Dispatch(d1.cbs, subs', s, Payload("order_count", b2));
      d1.effects == [EmitData(Payload("order_count", b1)), Invoke(h, Payload("order_count", b1))] &&
      d2.effects == [EmitData(Payload("order_count", b2))]
  {
    StripTypeOfPrefixed("order_count");
    assert CheckPrefix + "order_count" == "check_order_count";
    var cbs' := RegisterOneShot(cbs, "check_order_count", Fn(h), None);
    assert Pending(cbs', "order_count") == [h];
    var subs' := subs["order_count" := None];
    var d1 := Dispatch(cbs', subs', s, Payload("order_count", b1));
    assert Pending(d1.cbs, "order_count") == [];
    DispatchOneShotOnly(cbs', subs', s, "order_count", b1);
    DispatchOneShotOnly(d1.cbs, subs', s, "order_count", b2);
  }

  /** A step on the key of the one-shot FIFO: a registration or a matching response. */
  datatype KeyEvent = Register(cb: CbId) | Respond

  /** The one-shots fired by a run of events on one key, and the table afterwards. */
  datatype Run = Run(cbs: OneShots, fired: seq<CbId>)

  /**
   * `Register(cb)` is a connected `sendCommand` whose stripped name is `key`;
   * `Respond` is a payload whose `result.type` is `key`.
   */
  function Replay(cbs: OneShots, key: string, events: seq<KeyEvent>): Run
    decreases |events|
  {
    if events == [] then Run(cbs, [])
    else match events[0]
      case Register(cb) => Replay(Enqueue(cbs, key, cb), key, events[1..])
      case Respond =>
        var p := PopOneShot(cbs, key);
        var rest := Replay(p.cbs, key, events[1..]);
        Run(rest.cbs, (if p.head.Some? then [p.head.value] else []) + rest.fired)
  }

  /** The callbacks registered by a run of events, in order. */
  function Registered(events: seq<KeyEvent>): seq<CbId>
  {
    if events == [] then []
    else (if events[0].Register? then [events[0].cb] else []) + Registered(events[1..])
  }

  /**
   * FIFO per key: whatever the interleaving of registrations and responses,
   * the callbacks fired followed by those still waiting are exactly the ones
   * that were waiting followed by the ones registered, in the same order.
   */
  lemma {:induction false} ReplayFifo(cbs: OneShots, key: string, events: seq<KeyEvent>)
    ensures Replay(cbs, key, events).fired + Pending(Replay(cbs, key, events).cbs, key)
      == Pending(cbs, key) + Registered(events)
    decreases |events|
  {
    if events != [] {
      if events[0].Register? {
        ReplayFifo(Enqueue(cbs, key, events[0].cb), key, events[1..]);
        ReplayRegisterStep(cbs, key, events);
      } else {
        ReplayFifo(PopOneShot(cbs, key).cbs, key, events[1..]);
        ReplayRespondStep(cbs, key, events);
      }
    }
  }

  lemma ReplayRegisterStep(cbs: OneShots, key: string, events: seq<KeyEvent>)
    requires events != [] && events[0].Register?
    requires var next := Enqueue(cbs, key, events[0].cb);
      Replay(next, key, events[1..]).fired + Pending(Replay(next, key, events[1..]).cbs, key)
        == Pending(next, key) + Registered(events[1..])
    ensures Replay(cbs, key, events).fired + Pending(Replay(cbs, key, events).cbs, key)
      == Pending(cbs, key) + Registered(events)
  {
    var cb := events[0].cb;
    var next := Enqueue(cbs, key, cb);
    var rest := Replay(next, key, events[1..]);
    assert Replay(cbs, key, events) == rest;
    assert Registered(events) == [cb] + Registered(events[1..]);
    AppendRegrouped(Pending(cbs, key), cb, Registered(events[1..]));
  }

  /** Sequence algebra for the register step: the new callback moves from the waiting side to the registered side. */
  lemma AppendRegrouped<T>(waiting: seq<T>, x: T, registered: seq<T>)
    ensures (waiting + [x]) + registered == waiting + ([x] + registered)
  {
  }

  lemma ReplayRespondStep(cbs: OneShots, key: string, events: seq<KeyEvent>)
    requires events != [] && events[0].Respond?
    requires var p := PopOneShot(cbs, key);
      Replay(p.cbs, key, events[1..]).fired + Pending(Replay(p.cbs, key, events[1..]).cbs, key)
        == Pending(p.cbs, key) + Registered(events[1..])
    ensures Replay(cbs, key, events).fired + Pending(Replay(cbs, key, events).cbs, key)
      == Pending(cbs, key) + Registered(events)
  {
    var p := PopOneShot(cbs, key);
    var rest := Replay(p.cbs, key, events[1..]);
    var h := if p.head.Some? then [p.head.value] else [];
    assert Replay(cbs, key, events) == Run(rest.cbs, h + rest.fired);
    assert Registered(events) == Registered(events[1..]);
    ShiftedConcat(h, rest.fired, Pending(rest.cbs, key), Pending(p.cbs, key), Registered(events[1..]));
  }

  /** Sequence algebra for the respond step: prepending the fired head on both sides. */
  lemma ShiftedConcat<T>(h: seq<T>, fired: seq<T>, waiting: seq<T>, before: seq<T>, registered: seq<T>)
    requires fired + waiting == before + registered
    ensures (h + fired) + waiting == (h + before) + registered
  {
    calc {
      (h + fired) + waiting;
      h + (fired + waiting);
      h + (before + registered);
      (h + before) + registered;
    }
  }

  /**
   * Two one-shots registered under the same key in order A then B, with
   * nothing waiting before them: two responses invoke A and then B.
   */
  lemma OneShotsFireInRegistrationOrder(cbs: OneShots, key: string, a: CbId, b: CbId)
    requires Pending(cbs, key) == []
    ensures Replay(cbs, key, [Register(a), Register(b), Respond, Respond]).fired == [a, b]
    ensures Replay(cbs, key, [Register(a), Respond, Register(b), Respond]).fired == [a, b]
  {
    var e1 := [Register(a), Register(b), Respond, Respond];
    var ca := Enqueue(cbs, key, a);
    var cab := Enqueue(ca, key, b);
    var p1 := PopOneShot(cab, key);
    var p2 := PopOneShot(p1.cbs, key);
    assert Pending(cab, key) == [a, b];
    assert p1.head == Some(a) && Pending(p1.cbs, key) == [b];
    assert p2.head == Some(b);
    assert e1[1..][1..][1..][1..] == [];
    assert Replay(p2.cbs, key, e1[1..][1..][1..][1..]).fired == [];
    assert Replay(p1.cbs, key, e1[1..][1..][1..]).fired == [b];
    assert Replay(cab, key, e1[1..][1..]).fired == [a, b];
    assert Replay(ca, key, e1[1..]).fired == [a, b];

    var e2 := [Register(a), Respond, Register(b), Respond];
    var q1 := PopOneShot(ca, key);
    assert q1.head == Some(a) && Pending(q1.cbs, key) == [];
    var cb' := Enqueue(q1.cbs, key, b);
    var q2 := PopOneShot(cb', key);
    assert q2.head == Some(b);
    assert e2[1..][1..][1..][1..] == [];
    assert Replay(q2.cbs, key, e2[1..][1..][1..][1..]).fired == [];
    assert Replay(cb', key, e2[1..][1..][1..]).fired == [b];
    assert Replay(q1.cbs, key, e2[1..][1..]).fired == [b];
    assert Replay(ca, key, e2[1..]).fired == [a, b];
  }

  /**
   * The handler AS WRITTEN: the stored subscription value is treated as an
   * array (`staticCbs[type].forEach`), but `subscribe` stores one function,
   * which has no `forEach`, so the call throws after the one-shot step.
   */
  function DispatchAsWritten(cbs: OneShots, subs: Subscriptions, s: StreamId, frame: Frame): (r: Step)
    ensures !frame.Payload? ==> r == Dispatch(cbs, subs, s, frame)
    ensures frame.Payload? ==> r.cbs == Dispatch(cbs, subs, s, frame).cbs && r.fired == Dispatch(cbs, subs, s, frame).fired
    ensures frame.Payload? ==>
      r.effects == [EmitData(frame)] + (if r.fired.Some? then [Invoke(r.fired.value, frame)] else []) &&
      r.outcome == (if Subscribed(subs, frame.ty, frame) != [] then Fault else Dispatched)
  {
    match frame
    case Payload(ty, _) =>
      var p := PopOneShot(cbs, ty);
      var once := if p.head.Some? then [Invoke(p.head.value, frame)] else [];
      if ty in subs && subs[ty].Some? then Step(p.cbs, [EmitData(frame)] + once, p.head, Fault)
      else Step(p.cbs, [EmitData(frame)] + once, p.head, Dispatched)
    case _ => Dispatch(cbs, subs, s, frame)
  }

  /**
   * Counterexample to the documented subscription behaviour: after
   * `subscribe(cmd, params, f)`, a payload of the stripped type never reaches
   * `f` as written and faults, while `Dispatch` calls `f`.
   */
  lemma SubscriptionFaultsAsWritten(cbs: OneShots, subs: Subscriptions, s: StreamId, cmd: string, f: CbId, body: string)
    ensures var subs' := subs[StripType(cmd) := Some(f)];
      var frame := Payload(StripType(cmd), body);
      DispatchAsWritten(cbs, subs', s, frame).outcome == Fault &&
      Invoke(f, frame) in Dispatch(cbs, subs', s, frame).effects &&
      (Pending(cbs, StripType(cmd)) == [] ==> Invoke(f, frame) !in DispatchAsWritten(cbs, subs', s, frame).effects)
  {
    var subs' := subs[StripType(cmd) := Some(f)];
    var frame := Payload(StripType(cmd), body);
    DispatchSubscriptionIndependent(cbs, subs', s, StripType(cmd), body);
  }
}
