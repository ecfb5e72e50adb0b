/** The later revision of the response helper (index.ts): envelope assembly,
    optional JSON stringification, and dispatch to an adapter or to an
    Express-style or Fastify-style handle. */
module HttpReplyTs {
  import opened Json
  import opened Runtime
  import opened ReplyConfig
  import opened Destination
  import opened Catalog
  import opened Assembly

  /** The template a convenience operation starts from: `message`, `metaData`
      and `code` always, with `data`, `error` or both as the operation carries. */
  function Template(op: Operation, opts: Options): (t: Envelope)
    ensures t.Keys == {"message", "metaData", "code"}
                      + (if Carried(op) != ErrorOnly then {"data"} else {})
                      + (if Carried(op) != DataOnly then {"error"} else {})
    ensures t["code"] == Num(StatusOf(op, opts))
    ensures t["message"] == MessageOf(op, opts)
    ensures t["metaData"] == Obj(opts.metaData.GetOr(map[]))
    ensures "data" in t ==> t["data"] == opts.data.GetOr(Null)
    ensures "error" in t ==> t["error"] == opts.error.GetOr(Null)
  {
    var common := map[
      "message" := MessageOf(op, opts),
      "metaData" := Obj(opts.metaData.GetOr(map[])),
      "code" := Num(StatusOf(op, opts))];
    match Carried(op)
    case DataAndError => common["data" := opts.data.GetOr(Null)]["error" := opts.error.GetOr(Null)]
    case DataOnly => common["data" := opts.data.GetOr(Null)]
    case ErrorOnly => common["error" := opts.error.GetOr(Null)]
  }

  /** The last step of `_sendResponse`: the adapter if there is one, else the
      Express chain, else the Fastify chain. A stringified payload goes through
      `type?.("application/json")`, which ends the chain when `type` is
      missing, and then `send`, which the shape test never checked on an
      Express-style handle. */
  function Deliver(c: Config, res: Handle, statusCode: int, p: Payload): Outcome {
    if HasAdapter(c) then Dispatched(AdapterCall(res), statusCode, p)
    else if StatusShape(res) then
      if !c.stringify then Dispatched(StatusJson, statusCode, p)
      else if !res.hasType then StatusSetOnly(ViaStatus, statusCode)
      else if !res.hasSend then Failed(TypeError, false)
      else Dispatched(StatusTypeSend, statusCode, p)
    else if CodeShape(res) then
      if !c.stringify then Dispatched(CodeSend, statusCode, p)
      else if !res.hasType then StatusSetOnly(ViaCode, statusCode)
      else Dispatched(CodeTypeSend, statusCode, p)
    else Returned
  }

  /** What `_sendResponse` does, in the source's order: destination check,
      timestamp, envelope, stringification, dispatch. */
  function Reply(c: Config, res: Handle, body: Envelope, statusCode: int, extra: Envelope, host: Host): Outcome {
    if !IsResponseLike(res) && !HasAdapter(c) then Failed(InvalidDestination, c.enableLogging)
    else
      var s := StampFor(c, host);
      if s.BadDateFormat? then Failed(InvalidConfiguration, c.enableLogging)
      else
        var e := Assemble(c, body, s, extra);
        if !c.stringify then Deliver(c, res, statusCode, ObjectBody(e))
        else match host.stringify(e)
          case None => Failed(SerialisationFailure, c.enableLogging)
          case Some(text) => Deliver(c, res, statusCode, TextBody(text))
  }

  /** What `noContent` does: no envelope at all. */
  function NoContentReply(c: Config, res: Handle, code: int): Outcome {
    if HasAdapter(c) then Dispatched(AdapterCall(res), code, NullPayload)
    else if res.NonObject? then Failed(TypeError, false)  // `"status" in res` throws
    else if res.hasStatus && res.hasSend then Dispatched(StatusSend, code, NoArgument)
    else if res.hasCode && res.hasSend then Dispatched(CodeSend, code, NoArgument)
    else Returned
  }

  class HttpReply {
    const config: Config

    constructor (user: UserConfig)
      ensures config == Configure(user)
    {
      config := Configure(user);
    }

    /** `_sendResponse`: copies the template into a local object, then updates
        that object step by step. */
    method SendResponse(res: Handle, responseBody: Envelope, statusCode: int, extraFields: Envelope, host: Host)
      returns (out: Outcome)
      ensures out == Reply(config, res, responseBody, statusCode, extraFields, host)
    {
      if !IsResponseLike(res) && !HasAdapter(config) {
        return Failed(InvalidDestination, config.enableLogging);
      }

      var response := responseBody;
      ghost var s := Unstamped;
      if config.includeTimestamp {
        if config.dateFormat == "unix" {
          response := response[TimestampKey := Num(UnixSeconds(host.nowMs))];
        } else if config.dateFormat == "iso" {
          response := response[TimestampKey := Str(host.isoNow)];
        } else {
          return Failed(InvalidConfiguration, config.enableLogging);
        }
        s := Stamped(response[TimestampKey]);
      }
      assert s == StampFor(config, host) && response == Placed(responseBody, s);

      response := DeleteExcluded(config, response);

      response := response + config.customFields + extraFields;
      StepsBuildAssembled(config, responseBody, s, extraFields);

      var payload := ObjectBody(response);
      if config.stringify {
        var text := host.stringify(response);
        if text.None? {
          return Failed(SerialisationFailure, config.enableLogging);
        }
        payload := TextBody(text.value);
      }
      out := Dispatch(res, statusCode, payload);
    }

    /** The dispatch step of `_sendResponse`. The adapter, when configured,
        takes the call whatever the handle; otherwise an accepted handle never
        falls through, an object goes to `json` (Express) or `send`
        (Fastify), and text goes through `type(...).send`, unless `type` is
        missing (the status is set and nothing is sent) or an Express-style
        handle lacks `send` (the engine throws). */
    method Dispatch(res: Handle, statusCode: int, payload: Payload) returns (out: Outcome)
      ensures out == Deliver(config, res, statusCode, payload)
      ensures HasAdapter(config) ==> out == Dispatched(AdapterCall(res), statusCode, payload)
      ensures HasAdapter(config) || IsResponseLike(res) ==> out != Returned
      ensures !HasAdapter(config) && !IsResponseLike(res) ==> out == Returned
      ensures out.Dispatched? ==> out.status == statusCode && out.payload == payload
      ensures out.StatusSetOnly? ==> out.status == statusCode && config.stringify && res.Object? && !res.hasType
      ensures out.Failed? ==> out == Failed(TypeError, false) && config.stringify && StatusShape(res) && !res.hasSend
      ensures !HasAdapter(config) && !config.stringify && IsResponseLike(res) ==>
        out == Dispatched(if StatusShape(res) then StatusJson else CodeSend, statusCode, payload)
      ensures !HasAdapter(config) && config.stringify && IsResponseLike(res) && res.hasType && res.hasSend ==>
        out == Dispatched(if StatusShape(res) then StatusTypeSend else CodeTypeSend, statusCode, payload)
    {
      if HasAdapter(config) {
        return Dispatched(AdapterCall(res), statusCode, payload);
      }
      if StatusShape(res) {
        if !config.stringify {
          return Dispatched(StatusJson, statusCode, payload);
        } else if !res.hasType {
          return StatusSetOnly(ViaStatus, statusCode);
        } else if !res.hasSend {
          return Failed(TypeError, false);
        }
        return Dispatched(StatusTypeSend, statusCode, payload);
      }
      if CodeShape(res) {
        if !config.stringify {
          return Dispatched(CodeSend, statusCode, payload);
        } else if !res.hasType {
          return StatusSetOnly(ViaCode, statusCode);
        }
        return Dispatched(CodeTypeSend, statusCode, payload);
      }
      return Returned;
    }

    /** The convenience operations `response`, `success`, ..., `notFound`:
        each builds its template and delegates to `_sendResponse`. */
    method Respond(op: Operation, res: Handle, opts: Options, host: Host) returns (out: Outcome)
      ensures out == Reply(config, res, Template(op, opts), StatusOf(op, opts), ExtraOf(opts), host)
    {
      out := SendResponse(res, Template(op, opts), StatusOf(op, opts), ExtraOf(opts), host);
    }

    /** `noContent`: only the status code is read from the options, and no
        body is ever sent: the adapter gets `null`, a handle gets `send()`
        with no argument. The helper's own errors never arise; the only
        failure is the engine's TypeError for a handle that is not an object,
        and an object of neither shape is left untouched. */
    method NoContent(res: Handle, opts: Options) returns (out: Outcome)
      ensures out == NoContentReply(config, res, opts.code.GetOr(NoContentCode))
      ensures out.Dispatched? ==>
        && out.status == opts.code.GetOr(NoContentCode)
        && (out.payload == NullPayload <==> HasAdapter(config))
        && (out.payload == NullPayload || out.payload == NoArgument)
        && (out.route.AdapterCall? ==> out.route.handle == res)
      ensures out.Failed? <==> !HasAdapter(config) && res.NonObject?
      ensures out.Failed? ==> out == Failed(TypeError, false)
      ensures out == Returned <==> !HasAdapter(config) && res.Object? && !(res.hasSend && (res.hasStatus || res.hasCode))
      ensures !out.StatusSetOnly?
    {
      var code := opts.code.GetOr(NoContentCode);
      if HasAdapter(config) {
        return Dispatched(AdapterCall(res), code, NullPayload);
      }
      if res.NonObject? {
        return Failed(TypeError, false);
      }
      if res.hasStatus && res.hasSend {
        return Dispatched(StatusSend, code, NoArgument);
      }
      if res.hasCode && res.hasSend {
        return Dispatched(CodeSend, code, NoArgument);
      }
      return Returned;
    }
  }

  /** Destination check: a handle of neither shape, with no adapter, fails with
      invalid-destination (after a diagnostic when logging is on), whatever the
      template, the timestamp format or the serialiser; and that is the only
      way to get this failure. */
  lemma InvalidDestinationFirst(c: Config, res: Handle, body: Envelope, statusCode: int, extra: Envelope, host: Host)
    ensures var out := Reply(c, res, body, statusCode, extra, host);
      out.Failed? && out.kind == InvalidDestination <==> !IsResponseLike(res) && !HasAdapter(c)
    ensures !IsResponseLike(res) && !HasAdapter(c) ==>
      Reply(c, res, body, statusCode, extra, host) == Failed(InvalidDestination, c.enableLogging)
  {
  }

  /** Timestamp format: once the destination is accepted, a timestamp with a
      format other than "unix" or "iso" fails with a configuration error, and
      nothing else does. */
  lemma TimestampFormatChecked(c: Config, res: Handle, body: Envelope, statusCode: int, extra: Envelope, host: Host)
    ensures var out := Reply(c, res, body, statusCode, extra, host);
      out.Failed? && out.kind == InvalidConfiguration <==>
        (IsResponseLike(res) || HasAdapter(c)) && c.includeTimestamp && c.dateFormat != "unix" && c.dateFormat != "iso"
    ensures (IsResponseLike(res) || HasAdapter(c)) && c.includeTimestamp && c.dateFormat != "unix" && c.dateFormat != "iso" ==>
      Reply(c, res, body, statusCode, extra, host) == Failed(InvalidConfiguration, c.enableLogging)
  {
  }

  /** With timestamps off, `dateFormat` is never read: any other format gives
      the same outcome. */
  lemma FormatUnreadWithoutTimestamp(c: Config, f: string, res: Handle, body: Envelope, statusCode: int, extra: Envelope, host: Host)
    requires !c.includeTimestamp
    ensures Reply(c, res, body, statusCode, extra, host) == Reply(c.(dateFormat := f), res, body, statusCode, extra, host)
  {
    var c' := c.(dateFormat := f);
    assert StampFor(c, host) == StampFor(c', host) == Unstamped;
    SameDeletionsSameEnvelope(c, c', body, Unstamped, extra);
  }

  /** Whatever is dispatched is the assembled envelope: the object itself, or
      with `stringify` on, the text the serialiser made of it. A serialiser
      failure is raised (after a diagnostic when logging is on). */
  lemma PayloadIsEnvelope(c: Config, res: Handle, body: Envelope, statusCode: int, extra: Envelope, host: Host)
    ensures var out := Reply(c, res, body, statusCode, extra, host);
      out.Dispatched? ==>
        !StampFor(c, host).BadDateFormat? &&
        var e := SentEnvelope(c, body, extra, host);
        if c.stringify then host.stringify(e).Some? && out.payload == TextBody(host.stringify(e).value)
        else out.payload == ObjectBody(e)
    ensures var out := Reply(c, res, body, statusCode, extra, host);
      (IsResponseLike(res) || HasAdapter(c)) && !StampFor(c, host).BadDateFormat? && c.stringify ==>
        (out == Failed(SerialisationFailure, c.enableLogging) <==> host.stringify(SentEnvelope(c, body, extra, host)).None?)
  {
  }

  /** A key whose `include*` flag is off never reaches the destination unless
      `customFields` or `extra` puts it back; an `extra` value always reaches
      it, beating `customFields`, which beats the template and the timestamp. */
  lemma FieldsAsSent(c: Config, res: Handle, body: Envelope, statusCode: int, extra: Envelope, host: Host, k: string)
    requires Reply(c, res, body, statusCode, extra, host).Dispatched?
    requires Reply(c, res, body, statusCode, extra, host).payload.ObjectBody?
    ensures var e := Reply(c, res, body, statusCode, extra, host).payload.envelope;
      && (k in Dropped(c) && k !in c.customFields && k !in extra ==> k !in e)
      && (k in extra ==> k in e && e[k] == extra[k])
      && (k in c.customFields && k !in extra ==> k in e && e[k] == c.customFields[k])
  {
    PayloadIsEnvelope(c, res, body, statusCode, extra, host);
    MergeOrder(c, body, StampFor(c, host), extra, k);
  }

  /** With timestamps on, the object sent carries the timestamp (unless a
      merge source overrides it): whole seconds for "unix", the ISO string
      for "iso". With timestamps off, no timestamp key is added. */
  lemma TimestampAsSent(c: Config, res: Handle, body: Envelope, statusCode: int, extra: Envelope, host: Host)
    requires Reply(c, res, body, statusCode, extra, host).Dispatched?
    requires Reply(c, res, body, statusCode, extra, host).payload.ObjectBody?
    requires TimestampKey !in c.customFields && TimestampKey !in extra
    ensures var e := Reply(c, res, body, statusCode, extra, host).payload.envelope;
      && (c.includeTimestamp && c.dateFormat == "unix" ==>
            TimestampKey in e && e[TimestampKey].Num? &&
            e[TimestampKey].n * 1000 <= host.nowMs < e[TimestampKey].n * 1000 + 1000)
      && (c.includeTimestamp && c.dateFormat == "iso" ==>
            TimestampKey in e && e[TimestampKey] == Str(host.isoNow))
      && (!c.includeTimestamp && TimestampKey !in body ==> TimestampKey !in e)
  {
    PayloadIsEnvelope(c, res, body, statusCode, extra, host);
    TimestampPlacement(c, body, StampFor(c, host), extra);
  }

  /** Adapter precedence: with an adapter the shape of the handle is never
      consulted, and a call either fails before dispatch (bad timestamp
      format, serialiser failure) or calls the adapter, once, with the
      caller's handle and the call's status code; only an adapter is ever
      called this way. Two handles of any shapes lead to the same failure or
      to the same adapter call, differing only in the handle passed on. */
  lemma AdapterPrecedence(c: Config, res: Handle, res': Handle, body: Envelope, statusCode: int, extra: Envelope, host: Host)
    ensures var out := Reply(c, res, body, statusCode, extra, host);
      HasAdapter(c) ==>
        (out.Failed? && (out.kind == InvalidConfiguration || out.kind == SerialisationFailure))
        || (out.Dispatched? && out.route == AdapterCall(res) && out.status == statusCode)
    ensures var out := Reply(c, res, body, statusCode, extra, host);
      out.Dispatched? && out.route.AdapterCall? ==> HasAdapter(c)
    ensures var out, out' := Reply(c, res, body, statusCode, extra, host), Reply(c, res', body, statusCode, extra, host);
      HasAdapter(c) ==>
        && (out.Failed? <==> out'.Failed?)
        && (out.Failed? ==> out == out')
        && (out.Dispatched? ==> out' == out.(route := AdapterCall(res')))
  {
  }

  /** Route choice without an adapter: an Express-style handle wins over a
      Fastify-style one; an object payload goes to `json` or `send`, a
      stringified one through `type(...).send`; a missing `type` ends the
      chain after the status is set; the status is always the call's code;
      and the call never falls through without dispatching or failing. */
  lemma RouteChoice(c: Config, res: Handle, body: Envelope, statusCode: int, extra: Envelope, host: Host)
    requires !HasAdapter(c)
    ensures var out := Reply(c, res, body, statusCode, extra, host);
      && out != Returned
      && (out.Dispatched? ==> out.status == statusCode)
      && (out.StatusSetOnly? ==> out.status == statusCode && c.stringify && res.Object? && !res.hasType)
      && (out.Dispatched? && StatusShape(res) ==> out.route == (if c.stringify then StatusTypeSend else StatusJson))
      && (out.Dispatched? && !StatusShape(res) ==>
            CodeShape(res) && out.route == (if c.stringify then CodeTypeSend else CodeSend))
      && (out.Failed? && out.kind == TypeError ==> StatusShape(res) && c.stringify && res.hasType && !res.hasSend)
  {
  }

  /** The status dispatched by a convenience operation is its `code` (the
      caller's or the default), even when `includeCode` keeps `code` out of
      the body; with `includeCode` on, the body's `code` is that status. */
  lemma OperationStatus(op: Operation, c: Config, res: Handle, opts: Options, host: Host)
    ensures var out := Reply(c, res, Template(op, opts), StatusOf(op, opts), ExtraOf(opts), host);
      (out.Dispatched? || out.StatusSetOnly?) ==> out.status == StatusOf(op, opts)
    ensures var out := Reply(c, res, Template(op, opts), StatusOf(op, opts), ExtraOf(opts), host);
      out.Dispatched? && out.payload.ObjectBody? && "code" !in c.customFields && "code" !in ExtraOf(opts) ==>
        ("code" in out.payload.envelope <==> c.includeCode) &&
        (c.includeCode ==> out.payload.envelope["code"] == Num(out.status))
  {
    var out := Reply(c, res, Template(op, opts), StatusOf(op, opts), ExtraOf(opts), host);
    if out.Dispatched? && out.payload.ObjectBody? && "code" !in c.customFields && "code" !in ExtraOf(opts) {
      FieldsAsSent(c, res, Template(op, opts), StatusOf(op, opts), ExtraOf(opts), host, "code");
      PayloadIsEnvelope(c, res, Template(op, opts), StatusOf(op, opts), ExtraOf(opts), host);
      if c.includeCode {
        TemplateKeysKept(c, Template(op, opts), StampFor(c, host), ExtraOf(opts), "code");
      }
    }
  }

  /** `success(res, { data: { id: 1 } })` with the default configuration sends
      status 200 and the body { message: "Success", data: { id: 1 },
      metaData: {}, code: 200 } through `status(200).json(...)`. */
  lemma SuccessScenario(host: Host)
    ensures var opts := NoOptions.(data := Some(Obj(map["id" := Num(1)])));
      Reply(Configure(NoOverrides), Express, Template(Success, opts), StatusOf(Success, opts), ExtraOf(opts), host)
      == Dispatched(StatusJson, 200, ObjectBody(map[
           "message" := Str("Success"), "data" := Obj(map["id" := Num(1)]),
           "metaData" := Obj(map[]), "code" := Num(200)]))
  {
    var opts := NoOptions.(data := Some(Obj(map["id" := Num(1)])));
    var t := Template(Success, opts);
    var body := map["message" := Str("Success"), "data" := Obj(map["id" := Num(1)]),
                    "metaData" := Obj(map[]), "code" := Num(200)];
    assert t.Keys == body.Keys;
    forall k | k in t
      ensures t[k] == body[k]
    {
    }
    DefaultReply(t, 200, host);
    assert t == body && ExtraOf(opts) == map[] && StatusOf(Success, opts) == 200;
  }

  /** `notFound(res)` with the default configuration sends status 404 and the
      body { message: "Not Found", error: null, metaData: {}, code: 404 }. */
  lemma NotFoundScenario(host: Host)
    ensures Reply(Configure(NoOverrides), Express, Template(NotFound, NoOptions), StatusOf(NotFound, NoOptions),
                  ExtraOf(NoOptions), host)
      == Dispatched(StatusJson, 404, ObjectBody(map[
           "message" := Str("Not Found"), "error" := Null,
           "metaData" := Obj(map[]), "code" := Num(404)]))
  {
    var t := Template(NotFound, NoOptions);
    var body := map["message" := Str("Not Found"), "error" := Null,
                    "metaData" := Obj(map[]), "code" := Num(404)];
    assert t.Keys == body.Keys;
    forall k | k in t
      ensures t[k] == body[k]
    {
    }
    DefaultReply(t, 404, host);
    assert t == body && ExtraOf(NoOptions) == map[] && StatusOf(NotFound, NoOptions) == 404;
  }

  /** Under the default configuration, with no extra fields, an Express-style
      handle receives the template unchanged through `status(...).json(...)`. */
  lemma {:induction false} DefaultReply(t: Envelope, statusCode: int, host: Host)
    ensures Reply(Configure(NoOverrides), Express, t, statusCode, map[], host)
      == Dispatched(StatusJson, statusCode, ObjectBody(t))
  {
    var c := Configure(NoOverrides);
    assert Dropped(c) == {} && StampFor(c, host) == Unstamped;
    var e := SentEnvelope(c, t, map[], host);
    assert e.Keys == t.Keys;
    forall k | k in e
      ensures e[k] == t[k]
    {
    }
    assert e == t;
    assert Reply(c, Express, t, statusCode, map[], host) == Deliver(c, Express, statusCode, ObjectBody(e));
  }

  /** `noContent` never carries a body: the adapter gets `null`, a handle gets
      `send()` with no argument. It never raises the helper's own errors; the
      only failure is the engine's TypeError for a handle that is not an
      object; and an object of neither shape is left untouched. */
  lemma NoContentWithoutBody(c: Config, res: Handle, code: int)
    ensures var out := NoContentReply(c, res, code);
      && (out.Dispatched? ==>
            && out.status == code
            && (out.payload == NullPayload <==> HasAdapter(c))
            && (out.payload == NullPayload || out.payload == NoArgument))
      && (out.Failed? <==> !HasAdapter(c) && res.NonObject?)
      && (out.Failed? ==> out == Failed(TypeError, false))
      && (out == Returned <==> !HasAdapter(c) && res.Object? && !(res.hasSend && (res.hasStatus || res.hasCode)))
      && !out.StatusSetOnly?
  {
  }
}
