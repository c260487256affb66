/**
 * Values exchanged by the OpenBazaar command adapter: the arguments of
 * `sendCommand`, the request written on the websocket, the inbound frames and
 * the observable effects (writes, emitted events, callback invocations).
 *
 * Callbacks are opaque ids; JSON text is replaced by datatypes.
 */
module Protocol {

  datatype Option<T> = None | Some(value: T)

  /** An opaque JavaScript callback. */
  type CbId = nat

  /** An opaque websocket stream object, one per (re)connection. */
  type StreamId = nat

  /** A params object; each value stands for its JSON rendering. */
  type Fields = map<string, string>

  /**
   * What can be passed in the `params` slot of `sendCommand`: nothing (any
   * falsy value), an object, or a function (the `(cmd, cb)` calling form).
   */
  datatype Arg = Absent | Obj(fields: Fields) | Fn(cb: CbId)

  /** The wire request `{id, command, params}`. */
  datatype Request = Request(id: int, command: string, params: Fields)

  /**
   * An inbound data chunk after `JSON.parse`: text that does not parse, a
   * parsed value without a `result` member, or one whose `result.type` is `ty`
   * (`body` stands for the whole parsed payload).
   */
  datatype Frame = Malformed | NoResult(body: string) | Payload(ty: string, body: string)

  /** Everything the adapter does that can be observed from outside. */
  datatype Effect =
    | Wrote(req: Request)               // stream.write(JSON.stringify(request))
    | EmitData(frame: Frame)            // adapter 'data' event
    | StreamError(stream: StreamId)     // 'error' event on the stream that delivered bad JSON
    | Invoke(cb: CbId, frame: Frame)    // a callback called with the parsed payload

  /** A deferred `[cmd, params, cb]` tuple, kept exactly as it was passed. */
  datatype Queued = Queued(cmd: string, params: Arg, cb: Option<CbId>)

  const CheckPrefix: string := "check_"

  predicate HasCheckPrefix(s: string)
  {
    |CheckPrefix| <= |s| && s[..|CheckPrefix|] == CheckPrefix
  }

  /**
   * The correlation key of a command: one leading `check_` removed
   * (`/^(?:check_)/` replaced by the empty string).
   */
  function StripType(s: string): (r: string)
    ensures HasCheckPrefix(s) ==> CheckPrefix + r == s
    ensures !HasCheckPrefix(s) ==> r == s
  {
    if HasCheckPrefix(s) then s[|CheckPrefix|..] else s
  }

  /** Stripping undoes exactly one prepended `check_`. */
  lemma StripTypeOfPrefixed(r: string)
    ensures StripType(CheckPrefix + r) == r
  {
    assert (CheckPrefix + r)[..|CheckPrefix|] == CheckPrefix;
  }

  /** Only one occurrence goes, so `StripType` is not idempotent. */
  lemma StripTypeNotIdempotent()
    ensures StripType("check_check_x") == "check_x"
    ensures StripType(StripType("check_check_x")) == "x"
    ensures StripType(StripType("check_check_x")) != StripType("check_check_x")
  {
    StripTypeOfPrefixed("check_x");
    StripTypeOfPrefixed("x");
  }

  /** Arguments after the arity rule: the params object sent and the callback kept. */
  datatype Resolved = Resolved(params: Fields, cb: Option<CbId>)

  /**
   * The `(cmd, cb)` arity rule followed by `params || {}`: a function in the
   * params slot becomes the callback (replacing any third argument) and the
   * params default to the empty object.
   */
  function ResolveArgs(params: Arg, cb: Option<CbId>): Resolved
  {
    match params
    case Fn(f) => Resolved(map[], Some(f))
    case Absent => Resolved(map[], cb)
    case Obj(fields) => Resolved(fields, cb)
  }

  /** `sendCommand(cmd, f)` resolves as `sendCommand(cmd, {}, f)`; no params is `{}`. */
  lemma ArityForms(f: CbId, cb: Option<CbId>)
    ensures ResolveArgs(Fn(f), cb) == ResolveArgs(Obj(map[]), Some(f))
    ensures ResolveArgs(Absent, cb) == ResolveArgs(Obj(map[]), cb)
  {
  }

  /**
   * The request written for `cmd` at clock reading `nowMs` (milliseconds):
   * the id is the whole number of seconds, the command is sent unstripped.
   */
  function MakeRequest(nowMs: int, cmd: string, params: Arg): (req: Request)
    ensures req.command == cmd
    ensures req.id * 1000 <= nowMs < req.id * 1000 + 1000
    ensures req.params == ResolveArgs(params, None).params
    ensures params.Obj? ==> req.params == params.fields
    ensures !params.Obj? ==> req.params == map[]
  {
    Request(nowMs / 1000, cmd, ResolveArgs(params, None).params)
  }
}
