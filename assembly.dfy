/** The envelope a call sends, defined key by key rather than step by step:
    the reference that each revision's `_sendResponse` is proved against.

    The steps the source performs on its copy of the template are: add the
    timestamp, delete the keys whose `include*` flag is false, then
    `Object.assign(response, customFields, extra)`. Read per key, that says:
    a key of `extra` takes `extra`'s value; otherwise a key of `customFields`
    takes that value; otherwise the timestamp; otherwise the template's value,
    unless its flag deleted it. Both revisions assemble the envelope this way. */
module Assembly {
  import opened Json
  import opened Runtime
  import opened ReplyConfig

  /** The outcome of the timestamp step. */
  datatype Stamp = Unstamped | Stamped(value: Value) | BadDateFormat

  /** The key the timestamp is stored under. */
  const TimestampKey: string := "timestamp"

  /** The four keys an `include*` flag can delete. */
  const FlaggedKeys: set<string> := {"code", "message", "error", "metaData"}

  /** The timestamp step. It consults `dateFormat` only when timestamps are on;
      "unix" gives whole seconds (the floor of milliseconds / 1000), "iso" the
      host's ISO string, and any other format is a configuration error. */
  function StampFor(c: Config, host: Host): (s: Stamp)
    ensures s.Unstamped? <==> !c.includeTimestamp
    ensures s.BadDateFormat? <==> c.includeTimestamp && c.dateFormat != "unix" && c.dateFormat != "iso"
    ensures s.Stamped? && c.dateFormat == "unix" ==>
      s.value.Num? && s.value.n * 1000 <= host.nowMs < s.value.n * 1000 + 1000
    ensures s.Stamped? && c.dateFormat == "iso" ==> s.value == Str(host.isoNow)
  {
    if !c.includeTimestamp then Unstamped
    else if c.dateFormat == "unix" then Stamped(Num(UnixSeconds(host.nowMs)))
    else if c.dateFormat == "iso" then Stamped(Str(host.isoNow))
    else BadDateFormat
  }

  /** The keys the configuration deletes: exactly those whose flag is off. */
  function Dropped(c: Config): (d: set<string>)
    ensures d <= FlaggedKeys
    ensures "code" in d <==> !c.includeCode
    ensures "message" in d <==> !c.includeMessage
    ensures "error" in d <==> !c.includeError
    ensures "metaData" in d <==> !c.includeMetaData
  {
    (if c.includeCode then {} else {"code"})
    + (if c.includeMessage then {} else {"message"})
    + (if c.includeError then {} else {"error"})
    + (if c.includeMetaData then {} else {"metaData"})
  }

  function StampKeys(s: Stamp): set<string> {
    if s.Stamped? then {TimestampKey} else {}
  }

  /** The envelope, key by key, with `extra` above `customFields` above the
      timestamp above the template. */
  function Assemble(c: Config, body: Envelope, s: Stamp, extra: Envelope): Envelope {
    var kept := (body.Keys + StampKeys(s)) - Dropped(c);
    map k | k in kept + c.customFields.Keys + extra.Keys ::
      if k in extra then extra[k]
      else if k in c.customFields then c.customFields[k]
      else if s.Stamped? && k == TimestampKey then s.value
      else body[k]
  }

  /** The template with the timestamp step applied. */
  function Placed(body: Envelope, s: Stamp): Envelope {
    if s.Stamped? then body[TimestampKey := s.value] else body
  }

  /** The envelope a call hands to the dispatch step once the timestamp
      format has been accepted. */
  function SentEnvelope(c: Config, body: Envelope, extra: Envelope, host: Host): Envelope
    requires !StampFor(c, host).BadDateFormat?
  {
    Assemble(c, body, StampFor(c, host), extra)
  }

  /** The four `delete`s of `_sendResponse` (the same in both revisions): each
      flag that is off removes its key from the local object, and nothing
      else is removed. */
  method DeleteExcluded(c: Config, response: Envelope) returns (pruned: Envelope)
    ensures pruned == response - Dropped(c)
  {
    pruned := response;
    ghost var gone: set<string> := {};
    if !c.includeCode { pruned, gone := pruned - {"code"}, gone + {"code"}; }
    assert pruned == response - gone;
    if !c.includeMessage { pruned, gone := pruned - {"message"}, gone + {"message"}; }
    assert pruned == response - gone;
    if !c.includeError { pruned, gone := pruned - {"error"}, gone + {"error"}; }
    assert pruned == response - gone;
    if !c.includeMetaData { pruned, gone := pruned - {"metaData"}, gone + {"metaData"}; }
    assert gone == Dropped(c);
  }

  /** The source's steps (place the timestamp, delete the flagged keys, assign
      `customFields` and then `extra`) build exactly the key-by-key envelope. */
  lemma {:induction false} StepsBuildAssembled(c: Config, body: Envelope, s: Stamp, extra: Envelope)
    requires !s.BadDateFormat?
    ensures (Placed(body, s) - Dropped(c)) + c.customFields + extra == Assemble(c, body, s, extra)
  {
    var stepwise := (Placed(body, s) - Dropped(c)) + c.customFields + extra;
    var reference := Assemble(c, body, s, extra);
    assert stepwise.Keys == reference.Keys;
    forall k | k in stepwise
      ensures stepwise[k] == reference[k]
    {
    }
  }

  /** The envelope depends on the configuration only through `customFields`
      and the template keys the flags actually delete. */
  lemma {:induction false} SameDeletionsSameEnvelope(c: Config, c': Config, body: Envelope, s: Stamp, extra: Envelope)
    requires c.customFields == c'.customFields
    requires (body.Keys + StampKeys(s)) - Dropped(c) == (body.Keys + StampKeys(s)) - Dropped(c')
    ensures Assemble(c, body, s, extra) == Assemble(c', body, s, extra)
  {
    var e, e' := Assemble(c, body, s, extra), Assemble(c', body, s, extra);
    assert e.Keys == e'.Keys;
    forall k | k in e
      ensures e[k] == e'[k]
    {
    }
  }

  /** Merge order, for any key: an `extra` value always arrives; a
      `customFields` value arrives unless `extra` has the key; a key deleted by
      its flag arrives only if one of the two merge sources puts it back. */
  lemma MergeOrder(c: Config, body: Envelope, s: Stamp, extra: Envelope, k: string)
    ensures k in extra ==> k in Assemble(c, body, s, extra) && Assemble(c, body, s, extra)[k] == extra[k]
    ensures k in c.customFields && k !in extra ==>
      k in Assemble(c, body, s, extra) && Assemble(c, body, s, extra)[k] == c.customFields[k]
    ensures k in Dropped(c) && k !in c.customFields && k !in extra ==> k !in Assemble(c, body, s, extra)
  {
  }

  /** The timestamp is added under its key, beneath both merge sources; when no
      timestamp is added, no source but the template and the merge sources can
      contribute the key. */
  lemma TimestampPlacement(c: Config, body: Envelope, s: Stamp, extra: Envelope)
    ensures s.Stamped? && TimestampKey !in c.customFields && TimestampKey !in extra ==>
      TimestampKey in Assemble(c, body, s, extra) && Assemble(c, body, s, extra)[TimestampKey] == s.value
    ensures !s.Stamped? && TimestampKey !in body && TimestampKey !in c.customFields && TimestampKey !in extra ==>
      TimestampKey !in Assemble(c, body, s, extra)
  {
  }

  /** A template key that no flag deletes, that no merge source names, and that
      the timestamp does not overwrite is sent unchanged. */
  lemma TemplateKeysKept(c: Config, body: Envelope, s: Stamp, extra: Envelope, k: string)
    requires k in body && k !in Dropped(c) && k !in c.customFields && k !in extra
    requires !(s.Stamped? && k == TimestampKey)
    ensures k in Assemble(c, body, s, extra) && Assemble(c, body, s, extra)[k] == body[k]
  {
  }

  /** No key appears from nowhere: every key of the envelope comes from the
      template, the timestamp or a merge source. */
  lemma AssembledKeys(c: Config, body: Envelope, s: Stamp, extra: Envelope)
    ensures Assemble(c, body, s, extra).Keys ==
      ((body.Keys + StampKeys(s)) - Dropped(c)) + c.customFields.Keys + extra.Keys
  {
  }
}
