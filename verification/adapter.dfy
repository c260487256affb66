/**
 * `OpenBazaarAdapter`: the command adapter of the OpenBazaar websocket
 * connector. It queues commands while no stream is attached, replays them on
 * (re)connection, writes requests, and routes each inbound reply to the
 * oldest one-shot callback and to the subscription for its `result.type`.
 *
 * Every observable effect (a write, an emitted event, a callback call) is
 * appended to `trace`, in the order it happens.
 */
module Adapter {
  import opened Protocol
  import opened Tables

  /** `sendCommand` returns the new queue length when it queues, else the adapter. */
  datatype SendResult = QueueLength(n: nat) | Chained

  class OpenBazaarAdapter {
    var stream: Option<StreamId>
    var sendQueue: seq<Queued>
    var cbs: OneShots
    var staticCbs: Subscriptions
    /** Streams that carry this adapter's 'data' handler. */
    var listening: set<StreamId>
    ghost var trace: seq<Effect>

    /**
     * Commands wait in the queue only while no stream is attached, and the
     * attached stream carries the data handler.
     */
    ghost predicate Valid()
      reads this
    {
      stream.Some? ==> sendQueue == [] && stream.value in listening
    }

    constructor ()
      ensures Valid()
      ensures stream == None && sendQueue == [] && cbs == map[] && staticCbs == map[]
      ensures listening == {} && trace == []
    {
      stream := None;
      sendQueue := [];
      cbs := map[];
      staticCbs := map[];
      listening := {};
      trace := [];
    }

    /**
     * `sendCommand(cmd, params, cb)` with the clock reading `nowMs`.
     * Disconnected: the raw tuple goes to the end of the queue, nothing is
     * written, and the new queue length is returned. Connected: one request
     * is written and the resolved callback, if any, is queued under the
     * stripped command name.
     */
    method SendCommand(cmd: string, params: Arg, cb: Option<CbId>, nowMs: int) returns (r: SendResult)
      modifies this
      ensures old(Valid()) ==> Valid()
      ensures stream == old(stream) && staticCbs == old(staticCbs) && listening == old(listening)
      ensures old(stream).None? ==>
        sendQueue == old(sendQueue) + [Queued(cmd, params, cb)] &&
        cbs == old(cbs) && trace == old(trace) &&
        r == QueueLength(|old(sendQueue)| + 1)
      ensures old(stream).Some? ==>
        sendQueue == old(sendQueue) &&
        trace == old(trace) + [Wrote(MakeRequest(nowMs, cmd, params))] &&
        cbs == RegisterOneShot(old(cbs), cmd, params, cb) &&
        r == Chained
    {
      if stream.None? {
        sendQueue := sendQueue + [Queued(cmd, params, cb)];
        return QueueLength(|sendQueue|);
      }
      var args := ResolveArgs(params, cb);
      var request := Request(nowMs / 1000, cmd, args.params);
      trace := trace + [Wrote(request)];
      if args.cb.None? {
        return Chained;
      }
      var key := StripType(cmd);
      if key in cbs {
        cbs := cbs[key := cbs[key] + [args.cb.value]];
      } else {
        cbs := cbs[key := [args.cb.value]];
      }
      return Chained;
    }

    /**
     * `_connected(stream)`: attach `s`, re-send every queued tuple in order
     * (each now writes, since the stream is set), clear the queue, and
     * install the data handler on `s`.
     */
    method Connected(s: StreamId, nowMs: int)
      modifies this
      ensures Valid()
      ensures stream == Some(s) && sendQueue == []
      ensures trace == old(trace) + DrainTrace(old(sendQueue), nowMs)
      ensures cbs == DrainCbs(old(cbs), old(sendQueue))
      ensures staticCbs == old(staticCbs) && listening == old(listening) + {s}
    {
      stream := Some(s);
      var q := sendQueue;
      var i := 0;
      while i < |q|
        invariant 0 <= i <= |q|
        invariant stream == Some(s) && sendQueue == q
        invariant trace == old(trace) + DrainTrace(q[..i], nowMs)
        invariant cbs == DrainCbs(old(cbs), q[..i])
        invariant staticCbs == old(staticCbs) && listening == old(listening)
      {
        assert q[..i + 1][..i] == q[..i];
        var _ := SendCommand(q[i].cmd, q[i].params, q[i].cb, nowMs);
        i := i + 1;
      }
      assert q[..i] == q;
      sendQueue := [];
      listening := listening + {s};
    }

    /** The reconnector's 'disconnect': detach the stream's listeners and drop it. */
    method Disconnect()
      modifies this
      ensures Valid()
      ensures stream == None
      ensures listening == if old(stream).Some? then old(listening) - {old(stream).value} else old(listening)
      ensures sendQueue == old(sendQueue) && cbs == old(cbs) && staticCbs == old(staticCbs)
      ensures trace == old(trace)
    {
      if stream.Some? {
        listening := listening - {stream.value};
      }
      stream := None;
    }

    /**
     * One inbound data chunk on stream `s`. Nothing happens on a stream
     * without the handler; otherwise the handler runs as `Dispatch` says.
     * The subscription is invoked as the one function `subscribe` stored
     * (the source's `forEach` over it is a defect; see `DispatchAsWritten`).
     */
    method OnData(s: StreamId, frame: Frame) returns (outcome: Outcome)
      modifies this
      ensures old(Valid()) ==> Valid()
      ensures s !in old(listening) ==> outcome == NoHandler && cbs == old(cbs) && trace == old(trace)
      ensures s in old(listening) ==>
        var step := Dispatch(old(cbs), old(staticCbs), s, frame);
        cbs == step.cbs && trace == old(trace) + step.effects && outcome == step.outcome
      ensures stream == old(stream) && sendQueue == old(sendQueue)
      ensures staticCbs == old(staticCbs) && listening == old(listening)
    {
      if s !in listening {
        return NoHandler;
      }
      if frame.Malformed? {
        trace := trace + [StreamError(s)];
        return ParseError;
      }
      trace := trace + [EmitData(frame)];
      if frame.NoResult? {
        return Fault;
      }
      var ty := frame.ty;
      if ty in cbs && |cbs[ty]| > 0 {
        var head := cbs[ty][0];
        cbs := cbs[ty := cbs[ty][1..]];
        trace := trace + [Invoke(head, frame)];
      }
      if ty in staticCbs && staticCbs[ty].Some? {
        trace := trace + [Invoke(staticCbs[ty].value, frame)];
      }
      return Dispatched;
    }

    /**
     * `subscribe(cmd, params, cb)`: store `cb` as the subscription for the
     * stripped name (overwriting), then `sendCommand(cmd, params)` with no
     * callback; returns the adapter.
     */
    method Subscribe(cmd: string, params: Arg, cb: Option<CbId>, nowMs: int) returns (r: SendResult)
      modifies this
      ensures old(Valid()) ==> Valid()
      ensures r == Chained
      ensures staticCbs == old(staticCbs)[StripType(cmd) := cb]
      ensures stream == old(stream) && listening == old(listening)
      ensures old(stream).None? ==>
        sendQueue == old(sendQueue) + [Queued(cmd, params, None)] &&
        cbs == old(cbs) && trace == old(trace)
      ensures old(stream).Some? ==>
        sendQueue == old(sendQueue) &&
        trace == old(trace) + [Wrote(MakeRequest(nowMs, cmd, params))] &&
        cbs == RegisterOneShot(old(cbs), cmd, params, None)
    {
      staticCbs := staticCbs[StripType(cmd) := cb];
      var _ := SendCommand(cmd, params, None, nowMs);
      return Chained;
    }

    /** A bound command shortcut `adapter[name](params)`: `sendCommand(name, params)`. */
    method Shortcut(name: string, params: Arg, nowMs: int) returns (r: SendResult)
      modifies this
      ensures old(Valid()) ==> Valid()
      ensures stream == old(stream) && staticCbs == old(staticCbs) && listening == old(listening)
      ensures old(stream).None? ==>
        sendQueue == old(sendQueue) + [Queued(name, params, None)] &&
        cbs == old(cbs) && trace == old(trace) &&
        r == QueueLength(|old(sendQueue)| + 1)
      ensures old(stream).Some? ==>
        sendQueue == old(sendQueue) &&
        trace == old(trace) + [Wrote(MakeRequest(nowMs, name, params))] &&
        cbs == RegisterOneShot(old(cbs), name, params, None) &&
        r == Chained
    {
      r := SendCommand(name, params, None, nowMs);
    }
  }
}
