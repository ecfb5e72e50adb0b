/** The earlier revision of the response helper (index.js): templates without
    a `code` key, no stringification, `noContent` through the general path,
    and static shortcuts that use a fresh default instance. */
module HttpReplyJs {
  import opened Json
  import opened Runtime
  import opened ReplyConfig
  import opened Destination
  import opened Catalog
  import opened Assembly

  /** The template a convenience operation starts from: `message` and
      `metaData` always, with `data`, `error` or both, and never `code`. */
  function Template(op: Operation, opts: Options): (t: Envelope)
    ensures t.Keys == {"message", "metaData"}
                      + (if Carried(op) != ErrorOnly then {"data"} else {})
                      + (if Carried(op) != DataOnly then {"error"} else {})
    ensures "code" !in t
    ensures t["message"] == MessageOf(op, opts)
    ensures t["metaData"] == Obj(opts.metaData.GetOr(map[]))
    ensures "data" in t ==> t["data"] == opts.data.GetOr(Null)
    ensures "error" in t ==> t["error"] == opts.error.GetOr(Null)
  {
    var common := map["message" := MessageOf(op, opts), "metaData" := Obj(opts.metaData.GetOr(map[]))];
    match Carried(op)
    case DataAndError => common["data" := opts.data.GetOr(Null)]["error" := opts.error.GetOr(Null)]
    case DataOnly => common["data" := opts.data.GetOr(Null)]
    case ErrorOnly => common["error" := opts.error.GetOr(Null)]
  }

  /** The last step of `_sendResponse`: the adapter with the envelope object,
      else `status(...).json(...)`, else `code(...).send(...)`. */
  function Deliver(c: Config, res: Handle, statusCode: int, e: Envelope): Outcome {
    if HasAdapter(c) then Dispatched(AdapterCall(res), statusCode, ObjectBody(e))
    else if StatusShape(res) then Dispatched(StatusJson, statusCode, ObjectBody(e))
    else if CodeShape(res) then Dispatched(CodeSend, statusCode, ObjectBody(e))
    else Returned
  }

  /** What `_sendResponse` does: destination check, timestamp, envelope,
      dispatch. The `stringify` option is never read. */
  function Reply(c: Config, res: Handle, body: Envelope, statusCode: int, extra: Envelope, host: Host): Outcome {
    if !IsResponseLike(res) && !HasAdapter(c) then Failed(InvalidDestination, c.enableLogging)
    else
      var s := StampFor(c, host);
      if s.BadDateFormat? then Failed(InvalidConfiguration, c.enableLogging)
      else Deliver(c, res, statusCode, Assemble(c, body, s, extra))
  }

  class HttpReply {
    const config: Config

    constructor (user: UserConfig)
      ensures config == Configure(user)
    {
      config := Configure(user);
    }

    /** `_sendResponse`: copies the template into a local object, then updates
        that object step by step. */
    method SendResponse(res: Handle, responseBody: Envelope, statusCode: int, extraFields: Envelope, host: Host)
      returns (out: Outcome)
      ensures out == Reply(config, res, responseBody, statusCode, extraFields, host)
    {
      if !IsResponseLike(res) && !HasAdapter(config) {
        return Failed(InvalidDestination, config.enableLogging);
      }

      var response := responseBody;
      ghost var s := Unstamped;
      if config.includeTimestamp {
        if config.dateFormat == "unix" {
          response := response[TimestampKey := Num(UnixSeconds(host.nowMs))];
        } else if config.dateFormat == "iso" {
          response := response[TimestampKey := Str(host.isoNow)];
        } else {
          return Failed(InvalidConfiguration, config.enableLogging);
        }
        s := Stamped(response[TimestampKey]);
      }
      assert s == StampFor(config, host) && response == Placed(responseBody, s);

      response := DeleteExcluded(config, response);

      response := response + config.customFields + extraFields;
      StepsBuildAssembled(config, responseBody, s, extraFields);

      if HasAdapter(config) {
        return Dispatched(AdapterCall(res), statusCode, ObjectBody(response));
      }
      if StatusShape(res) {
        return Dispatched(StatusJson, statusCode, ObjectBody(response));
      }
      if CodeShape(res) {
        return Dispatched(CodeSend, statusCode, ObjectBody(response));
      }
      return Returned;
    }

    /** The convenience operations `response`, `success`, ..., `notFound`. */
    method Respond(op: Operation, res: Handle, opts: Options, host: Host) returns (out: Outcome)
      ensures out == Reply(config, res, Template(op, opts), StatusOf(op, opts), ExtraOf(opts), host)
    {
      out := SendResponse(res, Template(op, opts), StatusOf(op, opts), ExtraOf(opts), host);
    }

    /** `noContent`: an empty template through the general path; the
        `message` option is read and then unused. */
    method NoContent(res: Handle, opts: Options, host: Host) returns (out: Outcome)
      ensures out == Reply(config, res, map[], opts.code.GetOr(NoContentCode), ExtraOf(opts), host)
    {
      out := SendResponse(res, map[], opts.code.GetOr(NoContentCode), ExtraOf(opts), host);
    }

    /** The static shortcuts `HttpReply.success(res, args)` and the rest: a
        fresh instance with the default configuration, then the instance
        method of the same name. */
    static method Shortcut(op: Operation, res: Handle, opts: Options, host: Host) returns (out: Outcome)
      ensures out == Reply(Configure(NoOverrides), res, Template(op, opts), StatusOf(op, opts), ExtraOf(opts), host)
    {
      var instance := new HttpReply(NoOverrides);
      out := instance.Respond(op, res, opts, host);
    }

    /** `HttpReply.noContent(res, args)`. */
    static method NoContentShortcut(res: Handle, opts: Options, host: Host) returns (out: Outcome)
      ensures out == Reply(Configure(NoOverrides), res, map[], opts.code.GetOr(NoContentCode), ExtraOf(opts), host)
    {
      var instance := new HttpReply(NoOverrides);
      out := instance.NoContent(res, opts, host);
    }
  }

  /** Destination check: a handle of neither shape, with no adapter, fails with
      invalid-destination (after a diagnostic when logging is on), and that is
      the only way to get this failure. */
  lemma InvalidDestinationFirst(c: Config, res: Handle, body: Envelope, statusCode: int, extra: Envelope, host: Host)
    ensures var out := Reply(c, res, body, statusCode, extra, host);
      out.Failed? && out.kind == InvalidDestination <==> !IsResponseLike(res) && !HasAdapter(c)
    ensures !IsResponseLike(res) && !HasAdapter(c) ==>
      Reply(c, res, body, statusCode, extra, host) == Failed(InvalidDestination, c.enableLogging)
  {
  }

  /** Timestamp format: once the destination is accepted, a timestamp with a
      format other than "unix" or "iso" is logged (when enabled) and thrown as
      a configuration error; nothing else fails that way. */
  lemma TimestampFormatChecked(c: Config, res: Handle, body: Envelope, statusCode: int, extra: Envelope, host: Host)
    ensures var out := Reply(c, res, body, statusCode, extra, host);
      out.Failed? && out.kind == InvalidConfiguration <==>
        (IsResponseLike(res) || HasAdapter(c)) && c.includeTimestamp && c.dateFormat != "unix" && c.dateFormat != "iso"
    ensures (IsResponseLike(res) || HasAdapter(c)) && c.includeTimestamp && c.dateFormat != "unix" && c.dateFormat != "iso" ==>
      Reply(c, res, body, statusCode, extra, host) == Failed(InvalidConfiguration, c.enableLogging)
  {
  }

  /** The only failures of this revision are the two it raises itself; every
      other call dispatches the assembled envelope as an object, with the
      call's status code. */
  lemma DispatchesObject(c: Config, res: Handle, body: Envelope, statusCode: int, extra: Envelope, host: Host)
    ensures var out := Reply(c, res, body, statusCode, extra, host);
      && out != Returned
      && !out.StatusSetOnly?
      && (out.Failed? ==> out.kind == InvalidDestination || out.kind == InvalidConfiguration)
      && (out.Dispatched? ==>
            && !StampFor(c, host).BadDateFormat?
            && out.status == statusCode
            && out.payload == ObjectBody(SentEnvelope(c, body, extra, host)))
  {
  }

  /** This revision never stringifies: the `stringify` option changes nothing. */
  lemma StringifyIgnored(c: Config, b: bool, res: Handle, body: Envelope, statusCode: int, extra: Envelope, host: Host)
    ensures Reply(c, res, body, statusCode, extra, host) == Reply(c.(stringify := b), res, body, statusCode, extra, host)
  {
    var c' := c.(stringify := b);
    assert Dropped(c) == Dropped(c') && StampFor(c, host) == StampFor(c', host);
    if !StampFor(c, host).BadDateFormat? {
      SameDeletionsSameEnvelope(c, c', body, StampFor(c, host), extra);
    }
  }

  /** Adapter precedence: with an adapter the shape of the handle is never
      consulted, and the adapter receives the caller's handle and the
      envelope object itself; two handles of any shapes lead to the same
      outcome, differing only in the handle passed on. Without an adapter,
      an Express-style handle is preferred over a Fastify-style one. */
  lemma RouteChoice(c: Config, res: Handle, res': Handle, body: Envelope, statusCode: int, extra: Envelope, host: Host)
    ensures var out := Reply(c, res, body, statusCode, extra, host);
      out.Dispatched? ==>
        out.route == (if HasAdapter(c) then AdapterCall(res) else if StatusShape(res) then StatusJson else CodeSend)
    ensures var out := Reply(c, res, body, statusCode, extra, host);
      HasAdapter(c) ==> out.Dispatched? || out == Failed(InvalidConfiguration, c.enableLogging)
    ensures var out, out' := Reply(c, res, body, statusCode, extra, host), Reply(c, res', body, statusCode, extra, host);
      HasAdapter(c) ==>
        && (out.Failed? ==> out == out')
        && (out.Dispatched? ==> out' == out.(route := AdapterCall(res')))
  {
  }

  /** A key whose `include*` flag is off never reaches the destination unless
      `customFields` or `extra` puts it back; an `extra` value always reaches
      it, beating `customFields`, which beats the template and the timestamp. */
  lemma FieldsAsSent(c: Config, res: Handle, body: Envelope, statusCode: int, extra: Envelope, host: Host, k: string)
    requires Reply(c, res, body, statusCode, extra, host).Dispatched?
    ensures var e := Reply(c, res, body, statusCode, extra, host).payload.envelope;
      && (k in Dropped(c) && k !in c.customFields && k !in extra ==> k !in e)
      && (k in extra ==> k in e && e[k] == extra[k])
      && (k in c.customFields && k !in extra ==> k in e && e[k] == c.customFields[k])
  {
    DispatchesObject(c, res, body, statusCode, extra, host);
    MergeOrder(c, body, StampFor(c, host), extra, k);
  }

  /** With timestamps on, the envelope carries the timestamp (unless a merge
      source overrides it): whole seconds for "unix", the ISO string for
      "iso". With timestamps off, no timestamp key is added. */
  lemma TimestampAsSent(c: Config, res: Handle, body: Envelope, statusCode: int, extra: Envelope, host: Host)
    requires Reply(c, res, body, statusCode, extra, host).Dispatched?
    requires TimestampKey !in c.customFields && TimestampKey !in extra
    ensures var e := Reply(c, res, body, statusCode, extra, host).payload.envelope;
      && (c.includeTimestamp && c.dateFormat == "unix" ==>
            TimestampKey in e && e[TimestampKey].Num? &&
            e[TimestampKey].n * 1000 <= host.nowMs < e[TimestampKey].n * 1000 + 1000)
      && (c.includeTimestamp && c.dateFormat == "iso" ==>
            TimestampKey in e && e[TimestampKey] == Str(host.isoNow))
      && (!c.includeTimestamp && TimestampKey !in body ==> TimestampKey !in e)
  {
    DispatchesObject(c, res, body, statusCode, extra, host);
    TimestampPlacement(c, body, StampFor(c, host), extra);
  }

  /** `includeCode` deletes a key these templates never hold (and deletion
      comes before the merge sources), so for any body without `code` it has
      no visible effect. */
  lemma {:induction false} IncludeCodeInert(c: Config, b: bool, res: Handle, body: Envelope, statusCode: int, extra: Envelope, host: Host)
    requires "code" !in body
    ensures Reply(c, res, body, statusCode, extra, host) == Reply(c.(includeCode := b), res, body, statusCode, extra, host)
  {
    var c' := c.(includeCode := b);
    var s := StampFor(c, host);
    assert s == StampFor(c', host);
    if !s.BadDateFormat? {
      SameDeletionsSameEnvelope(c, c', body, s, extra);
    }
  }

  /** Every convenience operation, and `noContent`, is unaffected by
      `includeCode`. */
  lemma ConvenienceIgnoresIncludeCode(op: Operation, c: Config, b: bool, res: Handle, opts: Options, host: Host)
    ensures Reply(c, res, Template(op, opts), StatusOf(op, opts), ExtraOf(opts), host)
         == Reply(c.(includeCode := b), res, Template(op, opts), StatusOf(op, opts), ExtraOf(opts), host)
    ensures Reply(c, res, map[], opts.code.GetOr(NoContentCode), ExtraOf(opts), host)
         == Reply(c.(includeCode := b), res, map[], opts.code.GetOr(NoContentCode), ExtraOf(opts), host)
  {
    IncludeCodeInert(c, b, res, Template(op, opts), StatusOf(op, opts), ExtraOf(opts), host);
    IncludeCodeInert(c, b, res, map[], opts.code.GetOr(NoContentCode), ExtraOf(opts), host);
  }

  /** `noContent` goes through the general path: a handle of neither shape
      raises invalid-destination, and what is sent is a body made of the
      timestamp (if any), then `customFields`, then `extra`. */
  lemma {:induction false} NoContentBody(c: Config, res: Handle, opts: Options, host: Host)
    ensures var out := Reply(c, res, map[], opts.code.GetOr(NoContentCode), ExtraOf(opts), host);
      !IsResponseLike(res) && !HasAdapter(c) ==> out == Failed(InvalidDestination, c.enableLogging)
    ensures var out := Reply(c, res, map[], opts.code.GetOr(NoContentCode), ExtraOf(opts), host);
      out.Dispatched? ==>
        && out.status == opts.code.GetOr(NoContentCode)
        && out.payload == ObjectBody(Placed(map[], StampFor(c, host)) + c.customFields + ExtraOf(opts))
  {
    var s := StampFor(c, host);
    if !s.BadDateFormat? {
      StepsBuildAssembled(c, map[], s, ExtraOf(opts));
      assert Placed(map[], s) - Dropped(c) == Placed(map[], s);
    }
  }

  /** `success(res, { data: { id: 1 } })` with the default configuration sends
      status 200 and the body { message: "Success", data: { id: 1 },
      metaData: {} }. */
  lemma SuccessScenario(host: Host)
    ensures var opts := NoOptions.(data := Some(Obj(map["id" := Num(1)])));
      Reply(Configure(NoOverrides), Express, Template(Success, opts), StatusOf(Success, opts), ExtraOf(opts), host)
      == Dispatched(StatusJson, 200, ObjectBody(map[
           "message" := Str("Success"), "data" := Obj(map["id" := Num(1)]), "metaData" := Obj(map[])]))
  {
    var opts := NoOptions.(data := Some(Obj(map["id" := Num(1)])));
    var t := Template(Success, opts);
    var body := map["message" := Str("Success"), "data" := Obj(map["id" := Num(1)]), "metaData" := Obj(map[])];
    assert t.Keys == body.Keys;
    forall k | k in t
      ensures t[k] == body[k]
    {
    }
    DefaultReply(t, 200, host);
    assert t == body && ExtraOf(opts) == map[] && StatusOf(Success, opts) == 200;
  }

  /** `notFound(res)` with the default configuration sends status 404 and the
      body { message: "Not Found", error: null, metaData: {} }. */
  lemma NotFoundScenario(host: Host)
    ensures Reply(Configure(NoOverrides), Express, Template(NotFound, NoOptions), StatusOf(NotFound, NoOptions),
                  ExtraOf(NoOptions), host)
      == Dispatched(StatusJson, 404, ObjectBody(map[
           "message" := Str("Not Found"), "error" := Null, "metaData" := Obj(map[])]))
  {
    var t := Template(NotFound, NoOptions);
    var body := map["message" := Str("Not Found"), "error" := Null, "metaData" := Obj(map[])];
    assert t.Keys == body.Keys;
    forall k | k in t
      ensures t[k] == body[k]
    {
    }
    DefaultReply(t, 404, host);
    assert t == body && ExtraOf(NoOptions) == map[] && StatusOf(NotFound, NoOptions) == 404;
  }

  /** Under the default configuration, with no extra fields, an Express-style
      handle receives the template unchanged through `status(...).json(...)`. */
  lemma {:induction false} DefaultReply(t: Envelope, statusCode: int, host: Host)
    ensures Reply(Configure(NoOverrides), Express, t, statusCode, map[], host)
      == Dispatched(StatusJson, statusCode, ObjectBody(t))
  {
    var c := Configure(NoOverrides);
    assert Dropped(c) == {} && StampFor(c, host) == Unstamped;
    var e := SentEnvelope(c, t, map[], host);
    assert e.Keys == t.Keys;
    forall k | k in e
      ensures e[k] == t[k]
    {
    }
    assert e == t;
    assert Reply(c, Express, t, statusCode, map[], host) == Deliver(c, Express, statusCode, e);
  }
}
