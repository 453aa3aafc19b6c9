/** The `axon.send.requested` message (axon/src/axon/envelope.py): what is put on the queue and read from it. */
module Envelope {
  import opened Texts
  import opened JsonText
  import opened Json
  import opened JsonRoundTrip
  import opened JsonCanon
  import opened JsonClean
  import Utf8
  import opened Uuids

  datatype Channel = Email | WhatsApp | Sms

  const SCHEMA_VERSION := 1

  /** The text columns are JSON values, because reading checks none of their types; `actorSubject` is Null for None. */
  datatype SendRequested = SendRequested(
    deliveryId: Uuid,
    channel: Channel,
    recipient: Value,
    subject: Value,
    body: Value,
    notificationClass: Value,
    subjectKind: Value,
    subjectId: Value,
    actorSubject: Value,
    schemaVersion: int)

  datatype Refusal =
    | NotUtf8
    | NotJson(why: Failure)
    | NotAnObject
    | OtherVersion
    | MissingKey(key: Text)
    | BadUuid
    | BadChannel

  datatype Parsed = Accepted(envelope: SendRequested) | Refused(reason: Refusal)

  function ChannelText(c: Channel): Text {
    match c
    case Email => Lit("email")
    case WhatsApp => Lit("whatsapp")
    case Sms => Lit("sms")
  }

  function ChannelOf(v: Value): Option<Channel> {
    if v == Str(Lit("email")) then Some(Email)
    else if v == Str(Lit("whatsapp")) then Some(WhatsApp)
    else if v == Str(Lit("sms")) then Some(Sms)
    else None
  }

  function UuidOf(v: Value): Option<Uuid> {
    if v.Str? then FromText(v.t) else None
  }

  /** The dict `to_json` builds: its keys, in its own order, and their values. */
  const PAYLOAD_KEYS: seq<string> :=
    [ "schema_version", "delivery_id", "channel", "recipient", "subject", "body", "notification_class",
      "subject_kind", "subject_id", "actor_subject" ]

  function PayloadValues(e: SendRequested): (values: seq<Value>)
    ensures |values| == 10
  {
    [ Int(e.schemaVersion), Str(ToText(e.deliveryId)), Str(ChannelText(e.channel)), e.recipient, e.subject, e.body,
      e.notificationClass, e.subjectKind, e.subjectId, e.actorSubject ]
  }

  lemma PayloadKeysAscii()
    ensures |PAYLOAD_KEYS| == 10
    ensures forall i :: 0 <= i < 10 ==> forall j :: 0 <= j < |PAYLOAD_KEYS[i]| ==> PAYLOAD_KEYS[i][j] as int < 128
  {
  }

  function PayloadFields(e: SendRequested): (fields: seq<Field>)
    ensures |fields| == 10
  {
    PayloadKeysAscii();
    seq(10, i requires 0 <= i < 10 => Field(Lit(PAYLOAD_KEYS[i]), PayloadValues(e)[i]))
  }

  function ToJson(e: SendRequested): (raw: seq<Byte>) {
    var t := Dumps(Obj(PayloadFields(e)), true);
    DumpsAscii(Obj(PayloadFields(e)));
    Utf8.EncodeAscii(t);
    Utf8.Encode(t).value
  }

  function Lookup(fields: seq<Field>, key: Text): Option<Value> {
    if fields == [] then None
    else if fields[0].key == key then Some(fields[0].value)
    else Lookup(fields[1..], key)
  }

  /** Python's `version == 1` over what JSON can hold: an int equal to 1, or `true`. */
  predicate EqualsOne(v: Value) { v == Int(1) || v == Bool(true) }

  function FromJson(raw: seq<Byte>): Parsed {
    match Utf8.Decode(raw)
    case None => Refused(NotUtf8)
    case Some(t) =>
      match Loads(t)
      case Fail(why) => Refused(NotJson(why))
      case Got(v, _) => if v.Obj? then FromPayload(v.fields) else Refused(NotAnObject)
  }

  /** The checks and the construction, in the order Python evaluates them. */
  function FromPayload(p: seq<Field>): Parsed {
    var version := Lookup(p, Lit("schema_version"));
    if version.None? || !EqualsOne(version.value) then Refused(OtherVersion)
    else if Lookup(p, Lit("delivery_id")).None? then Refused(MissingKey(Lit("delivery_id")))
    else if UuidOf(Lookup(p, Lit("delivery_id")).value).None? then Refused(BadUuid)
    else if Lookup(p, Lit("channel")).None? then Refused(MissingKey(Lit("channel")))
    else if ChannelOf(Lookup(p, Lit("channel")).value).None? then Refused(BadChannel)
    else Construct(p, UuidOf(Lookup(p, Lit("delivery_id")).value).value, ChannelOf(Lookup(p, Lit("channel")).value).value)
  }

  /** The six text members, each of which must be there, and the optional one. */
  function Construct(p: seq<Field>, id: Uuid, channel: Channel): Parsed {
    var recipient, subject, body := Lookup(p, Lit("recipient")), Lookup(p, Lit("subject")), Lookup(p, Lit("body"));
    var class_, kind := Lookup(p, Lit("notification_class")), Lookup(p, Lit("subject_kind"));
    var subjectId, actor := Lookup(p, Lit("subject_id")), Lookup(p, Lit("actor_subject"));
    if recipient.None? then Refused(MissingKey(Lit("recipient")))
    else if subject.None? then Refused(MissingKey(Lit("subject")))
    else if body.None? then Refused(MissingKey(Lit("body")))
    else if class_.None? then Refused(MissingKey(Lit("notification_class")))
    else if kind.None? then Refused(MissingKey(Lit("subject_kind")))
    else if subjectId.None? then Refused(MissingKey(Lit("subject_id")))
    else Accepted(SendRequested(id, channel, recipient.value, subject.value, body.value, class_.value, kind.value,
                                subjectId.value, if actor.Some? then actor.value else Null, SCHEMA_VERSION))
  }

  // ----------------------------------------------------------------- alphabet

  predicate Ascii(t: Text) { forall i :: 0 <= i < |t| ==> t[i] < 0x80 }

  lemma AsciiConcat(a: Text, b: Text)
    requires Ascii(a) && Ascii(b)
    ensures Ascii(a + b)
  {
  }

  lemma {:induction false} StringAscii(t: Text)
    ensures Ascii(EscapeAll(t, true))
  {
    if t != [] {
      StringAscii(t[1..]);
      AsciiConcat(Escape(t[0], true), EscapeAll(t[1..], true));
    }
  }

  lemma {:induction false} ShowAscii(v: Value)
    ensures Ascii(Show(v, true))
    decreases v, 1
  {
    match v
    case Str(t) => StringAscii(t);
    case Arr(items) => ItemsAscii(items);
    case Obj(fields) => FieldsAscii(fields);
    case _ =>
  }

  lemma {:induction false} ItemsAscii(items: seq<Value>)
    ensures Ascii(ShowItems(items, true))
    decreases items, 0
  {
    if items != [] {
      ShowAscii(items[0]);
      ItemsAscii(items[1..]);
      AsciiConcat(Show(items[0], true), if |items| == 1 then [] else [0x2C]);
      AsciiConcat(Show(items[0], true) + (if |items| == 1 then [] else [0x2C]), ShowItems(items[1..], true));
    }
  }

  lemma {:induction false} FieldsAscii(fields: seq<Field>)
    ensures Ascii(ShowFields(fields, true))
    decreases fields, 0
  {
    if fields != [] {
      ShowAscii(fields[0].value);
      StringAscii(fields[0].key);
      FieldsAscii(fields[1..]);
      var one := ShowString(fields[0].key, true) + [0x3A] + Show(fields[0].value, true);
      AsciiConcat(one, if |fields| == 1 then [] else [0x2C]);
      AsciiConcat(one + (if |fields| == 1 then [] else [0x2C]), ShowFields(fields[1..], true));
    }
  }

  lemma DumpsAscii(v: Value)
    ensures Ascii(Dumps(v, true))
  {
    ShowAscii(Norm(v));
  }

  // --------------------------------------------------------------- round trip

  /** What a field's value comes back as: keys sorted, surrogate pairs joined. */
  function Settled(v: Value): Value { Landed(Norm(v), true) }

  function SettledEnvelope(e: SendRequested): SendRequested {
    SendRequested(e.deliveryId, e.channel, Settled(e.recipient), Settled(e.subject), Settled(e.body),
                  Settled(e.notificationClass), Settled(e.subjectKind), Settled(e.subjectId),
                  Settled(e.actorSubject), SCHEMA_VERSION)
  }

  lemma PayloadKeysDistinct(e: SendRequested)
    ensures DistinctKeys(PayloadFields(e))
  {
    var keys := [14, 11, 7, 9, 7, 4, 18, 12, 10, 13];
    var f := PayloadFields(e);
    assert forall i :: 0 <= i < 10 ==> |f[i].key| == keys[i];
    assert f[2].key[0] != f[4].key[0];
  }

  lemma PayloadKeysSurvive(e: SendRequested)
    ensures KeysSurvive(PayloadFields(e))
  {
    PayloadKeysAscii();
    forall i | 0 <= i < 10 ensures Joined(PayloadFields(e)[i].key) == PayloadFields(e)[i].key {
      JoinedShrinks(Lit(PAYLOAD_KEYS[i]));
    }
  }

  lemma {:induction false} LookupHit(fields: seq<Field>, f: Field)
    requires DistinctKeys(fields) && f in fields
    ensures Lookup(fields, f.key) == Some(f.value)
  {
    if fields[0] != f { LookupHit(fields[1..], f); }
  }

  lemma {:induction false} LandedFieldsAt(fields: seq<Field>, ascii: bool)
    ensures |LandedFields(fields, ascii)| == |fields|
    ensures forall i :: 0 <= i < |fields| ==>
              LandedFields(fields, ascii)[i] == LandedField(fields[i], ascii)
  {
    if fields != [] { LandedFieldsAt(fields[1..], ascii); }
  }

  /** Keys that survive the wire stay distinct, so no member is put over another. */
  lemma LandedDict(sorted: seq<Field>)
    requires DistinctKeys(sorted) && KeysSurvive(sorted)
    ensures var landed := LandedFields(sorted, true); DistinctKeys(landed) && PutAll([], landed) == landed
  {
    LandedFieldsAt(sorted, true);
    var landed := LandedFields(sorted, true);
    assert forall i :: 0 <= i < |sorted| ==> landed[i].key == sorted[i].key;
    PutAllOfDict(landed);
  }

  predicate KeysSurvive(fields: seq<Field>) { forall i :: 0 <= i < |fields| ==> Joined(fields[i].key) == fields[i].key }

  lemma SortedKeysSurvive(fields: seq<Field>)
    requires DistinctKeys(fields) && KeysSurvive(fields)
    ensures DistinctKeys(Sort(NormFields(fields))) && KeysSurvive(Sort(NormFields(fields)))
  {
    NormFieldsDistinct(fields);
    SortSorts(NormFields(fields));
    forall g | g in Sort(NormFields(fields)) ensures Joined(g.key) == g.key {
      var i := NormFieldsSource(fields, g);
    }
  }

  /** Sorting the keys and landing the values loses no member of a dict whose keys survive. */
  lemma LandedLookup(fields: seq<Field>, i: nat)
    requires DistinctKeys(fields) && KeysSurvive(fields) && i < |fields|
    ensures Lookup(LandedFields(Sort(NormFields(fields)), true), fields[i].key) == Some(Settled(fields[i].value))
  {
    var sorted := Sort(NormFields(fields));
    SortedKeysSurvive(fields);
    LandedDict(sorted);
    NormFieldsDistinct(fields);
    SortSorts(NormFields(fields));
    NormFieldsAt(fields, i);
    assert NormFields(fields)[i] in sorted;
    var k :| 0 <= k < |sorted| && sorted[k] == NormFields(fields)[i];
    LandedFieldsAt(sorted, true);
    var landed := LandedFields(sorted, true);
    assert landed[k] in landed;
    LookupHit(landed, landed[k]);
  }

  lemma {:induction false} AsciiPairFree(t: Text)
    requires Ascii(t)
    ensures PairFree(t) && Joined(t) == t
  {
    JoinedShrinks(t);
  }

  /** The payload `from_json` sees when it is handed what `to_json` produced. */
  lemma LoadedPayload(e: SendRequested)
    ensures FromJson(ToJson(e)) == FromPayload(LandedFields(Sort(NormFields(PayloadFields(e))), true))
  {
    var v := Obj(PayloadFields(e));
    PayloadKeysDistinct(e);
    PayloadKeysSurvive(e);
    SortedKeysSurvive(PayloadFields(e));
    LandedDict(Sort(NormFields(PayloadFields(e))));
    DumpsAscii(v);
    Utf8.EncodeAscii(Dumps(v, true));
    Utf8.DecodeEncode(Dumps(v, true));
    LoadsDumps(v, true);
  }

  function LandedPayload(e: SendRequested): seq<Field> {
    LandedFields(Sort(NormFields(PayloadFields(e))), true)
  }

  lemma LandedAt(e: SendRequested, i: nat, f: Field)
    requires i < 10 && PayloadFields(e)[i] == f
    ensures Lookup(LandedPayload(e), f.key) == Some(Settled(f.value))
  {
    PayloadKeysDistinct(e);
    PayloadKeysSurvive(e);
    LandedLookup(PayloadFields(e), i);
  }

  lemma LandedMessage(e: SendRequested)
    ensures Lookup(LandedPayload(e), Lit("recipient")) == Some(Settled(e.recipient))
    ensures Lookup(LandedPayload(e), Lit("subject")) == Some(Settled(e.subject))
    ensures Lookup(LandedPayload(e), Lit("body")) == Some(Settled(e.body))
  {
    LandedAt(e, 3, Field(Lit("recipient"), e.recipient));
    LandedAt(e, 4, Field(Lit("subject"), e.subject));
    LandedAt(e, 5, Field(Lit("body"), e.body));
  }

  lemma LandedContext(e: SendRequested)
    ensures Lookup(LandedPayload(e), Lit("notification_class")) == Some(Settled(e.notificationClass))
    ensures Lookup(LandedPayload(e), Lit("subject_kind")) == Some(Settled(e.subjectKind))
    ensures Lookup(LandedPayload(e), Lit("subject_id")) == Some(Settled(e.subjectId))
    ensures Lookup(LandedPayload(e), Lit("actor_subject")) == Some(Settled(e.actorSubject))
  {
    LandedAt(e, 6, Field(Lit("notification_class"), e.notificationClass));
    LandedAt(e, 7, Field(Lit("subject_kind"), e.subjectKind));
    LandedAt(e, 8, Field(Lit("subject_id"), e.subjectId));
    LandedAt(e, 9, Field(Lit("actor_subject"), e.actorSubject));
  }

  lemma LandedHeader(e: SendRequested)
    ensures Lookup(LandedPayload(e), Lit("schema_version")) == Some(Int(e.schemaVersion))
    ensures Lookup(LandedPayload(e), Lit("delivery_id")) == Some(Str(ToText(e.deliveryId)))
    ensures Lookup(LandedPayload(e), Lit("channel")) == Some(Str(ChannelText(e.channel)))
  {
    LandedAt(e, 0, Field(Lit("schema_version"), Int(e.schemaVersion)));
    LandedAt(e, 1, Field(Lit("delivery_id"), Str(ToText(e.deliveryId))));
    LandedAt(e, 2, Field(Lit("channel"), Str(ChannelText(e.channel))));
    HeaderTexts(e);
  }

  lemma HeaderTexts(e: SendRequested)
    ensures Settled(Str(ToText(e.deliveryId))) == Str(ToText(e.deliveryId))
    ensures Settled(Str(ChannelText(e.channel))) == Str(ChannelText(e.channel))
  {
    TextAlphabet(e.deliveryId);
    AsciiPairFree(ToText(e.deliveryId));
    AsciiPairFree(ChannelText(e.channel));
  }

  /** The general law: an envelope of the current version is read back with its values settled, any other is refused. */
  lemma {:induction false} RoundTrip(e: SendRequested)
    ensures FromJson(ToJson(e)) ==
            if e.schemaVersion == SCHEMA_VERSION then Accepted(SettledEnvelope(e)) else Refused(OtherVersion)
  {
    LoadedPayload(e);
    LandedHeader(e);
    LandedMessage(e);
    LandedContext(e);
    TextRoundTrip(e.deliveryId);
    ChannelRoundTrip(e.channel);
  }

  lemma ChannelRoundTrip(c: Channel)
    ensures ChannelOf(Str(ChannelText(c))) == Some(c)
  {
    assert |Lit("email")| == 5 && |Lit("whatsapp")| == 8 && |Lit("sms")| == 3;
  }

  // ----------------------------------------------------------- text envelopes

  /** The envelope as its type annotations describe it. */
  predicate AllText(e: SendRequested) {
    && e.recipient.Str? && e.subject.Str? && e.body.Str? && e.notificationClass.Str?
    && e.subjectKind.Str? && e.subjectId.Str? && (e.actorSubject.Str? || e.actorSubject.Null?)
  }

  predicate NoSplitPair(v: Value) { v.Str? ==> PairFree(v.t) }

  predicate AllPairFree(e: SendRequested) {
    && NoSplitPair(e.recipient) && NoSplitPair(e.subject) && NoSplitPair(e.body) && NoSplitPair(e.notificationClass)
    && NoSplitPair(e.subjectKind) && NoSplitPair(e.subjectId) && NoSplitPair(e.actorSubject)
  }

  lemma SettledText(v: Value)
    requires v.Str? || v.Null?
    ensures Settled(v) == v <==> NoSplitPair(v)
  {
    if v.Str? { JoinedShrinks(v.t); }
  }

  /** A text envelope survives the wire if and only if it has version 1 and no string holds the two halves of
      a surrogate pair side by side; every envelope over Unicode scalar strings is of that kind. */
  lemma {:induction false} TextRoundTripIff(e: SendRequested)
    requires AllText(e)
    ensures FromJson(ToJson(e)) == Accepted(e) <==> e.schemaVersion == SCHEMA_VERSION && AllPairFree(e)
  {
    SettledText(e.recipient);
    SettledText(e.subject);
    SettledText(e.body);
    SettledText(e.notificationClass);
    SettledText(e.subjectKind);
    SettledText(e.subjectId);
    SettledText(e.actorSubject);
    RoundTrip(e);
  }

  /** The domain the original promises: Unicode scalar strings. */
  lemma ScalarIsPairFree(t: Text)
    requires Scalar(t)
    ensures PairFree(t)
  {
  }

  predicate AllScalar(e: SendRequested) {
    && ScalarText(e.recipient) && ScalarText(e.subject) && ScalarText(e.body) && ScalarText(e.notificationClass)
    && ScalarText(e.subjectKind) && ScalarText(e.subjectId) && ScalarText(e.actorSubject)
  }

  predicate ScalarText(v: Value) { v.Str? ==> Scalar(v.t) }

  /** Every version 1 envelope over Unicode scalar strings is read back exactly. */
  lemma {:induction false} ScalarRoundTrip(e: SendRequested)
    requires AllText(e) && AllScalar(e) && e.schemaVersion == SCHEMA_VERSION
    ensures FromJson(ToJson(e)) == Accepted(e)
  {
    forall t: Text | Scalar(t) ensures PairFree(t) { ScalarIsPairFree(t); }
    TextRoundTripIff(e);
  }

  // ------------------------------------------------------------- fixed points

  predicate CleanEnvelope(e: SendRequested) {
    && Clean(e.recipient) && Clean(e.subject) && Clean(e.body) && Clean(e.notificationClass)
    && Clean(e.subjectKind) && Clean(e.subjectId) && Clean(e.actorSubject)
  }

  lemma {:induction false} LookupClean(fields: seq<Field>, key: Text)
    requires forall f | f in fields :: Clean(f.value)
    ensures Lookup(fields, key).Some? ==> Clean(Lookup(fields, key).value)
  {
    if fields != [] && fields[0].key != key { LookupClean(fields[1..], key); }
  }

  lemma FromPayloadClean(p: seq<Field>)
    requires FromPayload(p).Accepted? && forall f | f in p :: Clean(f.value)
    ensures CleanEnvelope(FromPayload(p).envelope) && FromPayload(p).envelope.schemaVersion == SCHEMA_VERSION
  {
    ConstructClean(p, UuidOf(Lookup(p, Lit("delivery_id")).value).value, ChannelOf(Lookup(p, Lit("channel")).value).value);
  }

  lemma ConstructClean(p: seq<Field>, id: Uuid, channel: Channel)
    requires Construct(p, id, channel).Accepted? && forall f | f in p :: Clean(f.value)
    ensures var e := Construct(p, id, channel).envelope; CleanEnvelope(e) && e.schemaVersion == SCHEMA_VERSION
  {
    LookupClean(p, Lit("recipient"));
    LookupClean(p, Lit("subject"));
    LookupClean(p, Lit("body"));
    LookupClean(p, Lit("notification_class"));
    LookupClean(p, Lit("subject_kind"));
    LookupClean(p, Lit("subject_id"));
    LookupClean(p, Lit("actor_subject"));
  }

  lemma AcceptedIsClean(raw: seq<Byte>)
    requires FromJson(raw).Accepted?
    ensures CleanEnvelope(FromJson(raw).envelope) && FromJson(raw).envelope.schemaVersion == SCHEMA_VERSION
  {
    LoadsClean(Utf8.Decode(raw).value);
    FromPayloadClean(Loads(Utf8.Decode(raw).value).value.fields);
  }

  lemma SettledIsFixed(v: Value)
    requires Clean(v)
    ensures Clean(Settled(v)) && Settled(v) == Norm(v) && Settled(Settled(v)) == Settled(v)
    ensures v.Str? || v.Null? ==> Settled(v) == v
  {
    CleanIsProper(v);
    NormClean(v);
    NormIdempotent(v);
    LandedClean(Norm(v));
  }

  lemma SettledEnvelopeIsFixed(e: SendRequested)
    requires CleanEnvelope(e)
    ensures CleanEnvelope(SettledEnvelope(e))
    ensures SettledEnvelope(SettledEnvelope(e)) == SettledEnvelope(e)
    ensures AllText(e) && e.schemaVersion == SCHEMA_VERSION ==> SettledEnvelope(e) == e
  {
    SettledIsFixed(e.recipient);
    SettledIsFixed(e.subject);
    SettledIsFixed(e.body);
    SettledIsFixed(e.notificationClass);
    SettledIsFixed(e.subjectKind);
    SettledIsFixed(e.subjectId);
    SettledIsFixed(e.actorSubject);
  }

  /** Any accepted body, however it was written: writing the envelope and reading it again is stable from then
      on, and gives the very same envelope back when its fields are the strings its annotations promise. */
  lemma {:induction false} AcceptedReachesFixedPoint(raw: seq<Byte>)
    requires FromJson(raw).Accepted?
    ensures var e := FromJson(raw).envelope;
            && FromJson(ToJson(e)) == Accepted(SettledEnvelope(e))
            && FromJson(ToJson(SettledEnvelope(e))) == Accepted(SettledEnvelope(e))
            && (AllText(e) ==> FromJson(ToJson(e)) == Accepted(e))
  {
    var e := FromJson(raw).envelope;
    AcceptedIsClean(raw);
    SettledEnvelopeIsFixed(e);
    RoundTrip(e);
    SettledEnvelopeIsFixed(SettledEnvelope(e));
    RoundTrip(SettledEnvelope(e));
  }
}
