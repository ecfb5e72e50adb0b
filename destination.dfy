/** The destination handle (the web framework's response object), its shape
    test, and what a call to the helper ends in. */
module Destination {
  import opened Json

  /** A destination handle, seen only through which methods it has. `NonObject`
      is `null`, `undefined` or a primitive; on it the `in` operator throws. */
  datatype Handle =
    | NonObject
    | Object(hasStatus: bool, hasJson: bool, hasCode: bool, hasSend: bool, hasType: bool)

  /** Express style: `status` and `json` are functions. */
  predicate StatusShape(res: Handle) {
    res.Object? && res.hasStatus && res.hasJson
  }

  /** Fastify style: `code` and `send` are functions. */
  predicate CodeShape(res: Handle) {
    res.Object? && res.hasCode && res.hasSend
  }

  /** `isResponseLike`: a truthy object with `status` and `json`, or with
      `code` and `send`. It is exactly the union of the two tests the
      dispatch step makes, so a handle it accepts always has a method to
      hand a body to; `null`, `undefined` and primitives never pass. */
  function IsResponseLike(res: Handle): (like: bool)
    ensures !res.Object? ==> !like
    ensures like <==> StatusShape(res) || CodeShape(res)
    ensures like ==> res.hasJson || res.hasSend
  {
    res.Object? && ((res.hasStatus && res.hasJson) || (res.hasCode && res.hasSend))
  }

  /** The shape test never looks at `type`, nor at `send` on an Express-style
      handle: two objects that differ only there are accepted alike. */
  lemma ShapeIgnoresTypeAndExpressSend(res: Handle, hasType: bool, hasSend: bool)
    requires res.Object? && StatusShape(res)
    ensures IsResponseLike(res.(hasType := hasType, hasSend := hasSend))
  {
  }

  /** An Express-style handle as the framework provides it. */
  const Express: Handle := Object(true, true, false, true, true)

  /** The last call made on the destination (or the adapter). */
  datatype Route =
    | AdapterCall(handle: Handle)  // adapter(res, statusCode, payload)
    | StatusJson                   // res.status(code).json(payload)
    | StatusTypeSend               // res.status(code).type("application/json").send(payload)
    | StatusSend                   // res.status(code).send()
    | CodeSend                     // res.code(code).send(payload)
    | CodeTypeSend                 // res.code(code).type("application/json").send(payload)

  /** Which setter a call chain started with. */
  datatype Setter = ViaStatus | ViaCode

  /** What the last call received. */
  datatype Payload =
    | ObjectBody(envelope: Envelope)  // the envelope object itself
    | TextBody(text: string)          // the envelope after JSON.stringify
    | NullPayload                     // the literal null
    | NoArgument                      // send() with no argument

  /** The three failures the helper raises itself, and the TypeError the
      JavaScript engine raises when a chain reaches a missing method. */
  datatype Failure = InvalidDestination | InvalidConfiguration | SerialisationFailure | TypeError

  /** How one call ends. `logged` says whether an error diagnostic was emitted
      before the throw. */
  datatype Outcome =
    | Dispatched(route: Route, status: int, payload: Payload)
    | StatusSetOnly(setter: Setter, status: int)  // `type?.(...)` short-circuited: nothing was sent
    | Returned                                    // returned undefined without calling anything
    | Failed(kind: Failure, logged: bool)
}
