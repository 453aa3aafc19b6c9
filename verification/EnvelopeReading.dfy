/** Which bodies `from_json` accepts and what the envelope then says, in terms of the members of the object alone. */
module EnvelopeReading {
  import opened Texts
  import opened JsonText
  import opened Json
  import opened JsonCanon
  import opened JsonClean
  import opened JsonForm
  import Utf8
  import opened Uuids
  import opened Envelope

  /** The object that the bytes spell, if they spell one. */
  function Payload(raw: seq<Byte>): Option<seq<Field>> {
    match Utf8.Decode(raw)
    case None => None
    case Some(t) =>
      match Loads(t)
      case Fail(_) => None
      case Got(v, _) => if v.Obj? then Some(v.fields) else None
  }

  /** The object has this member. */
  predicate Member(p: seq<Field>, key: Text, v: Value) { Field(key, v) in p }

  ghost predicate Missing(p: seq<Field>, key: Text) { forall v :: !Member(p, key, v) }

  predicate VersionOne(p: seq<Field>) {
    Member(p, Lit("schema_version"), Int(1)) || Member(p, Lit("schema_version"), Bool(true))
  }

  ghost predicate NamesAnId(p: seq<Field>) {
    exists t: Text :: Member(p, Lit("delivery_id"), Str(t)) && FromText(t).Some?
  }

  predicate NamesAChannel(p: seq<Field>) {
    || Member(p, Lit("channel"), Str(Lit("email")))
    || Member(p, Lit("channel"), Str(Lit("whatsapp")))
    || Member(p, Lit("channel"), Str(Lit("sms")))
  }

  ghost predicate TextsThere(p: seq<Field>) {
    && !Missing(p, Lit("recipient")) && !Missing(p, Lit("subject")) && !Missing(p, Lit("body"))
    && !Missing(p, Lit("notification_class")) && !Missing(p, Lit("subject_kind")) && !Missing(p, Lit("subject_id"))
  }

  /** The envelope has the members' values; an absent `actor_subject` is None. */
  ghost predicate Says(p: seq<Field>, e: SendRequested) { SaysHeader(p, e) && SaysMessage(p, e) && SaysContext(p, e) }

  ghost predicate SaysHeader(p: seq<Field>, e: SendRequested) {
    && e.schemaVersion == 1
    && (exists t: Text :: Member(p, Lit("delivery_id"), Str(t)) && FromText(t) == Some(e.deliveryId))
    && match e.channel
       case Email => Member(p, Lit("channel"), Str(Lit("email")))
       case WhatsApp => Member(p, Lit("channel"), Str(Lit("whatsapp")))
       case Sms => Member(p, Lit("channel"), Str(Lit("sms")))
  }

  predicate SaysMessage(p: seq<Field>, e: SendRequested) {
    && Member(p, Lit("recipient"), e.recipient) && Member(p, Lit("subject"), e.subject) && Member(p, Lit("body"), e.body)
  }

  ghost predicate SaysContext(p: seq<Field>, e: SendRequested) {
    && Member(p, Lit("notification_class"), e.notificationClass)
    && Member(p, Lit("subject_kind"), e.subjectKind) && Member(p, Lit("subject_id"), e.subjectId)
    && if Missing(p, Lit("actor_subject")) then e.actorSubject == Null
       else Member(p, Lit("actor_subject"), e.actorSubject)
  }

  // -------------------------------------------------------------------- members

  /** Looking a key up in a dict finds its one member. */
  lemma {:induction false} LookupIsMember(p: seq<Field>, key: Text)
    requires DistinctKeys(p)
    ensures Lookup(p, key).None? <==> Missing(p, key)
    ensures forall v :: Lookup(p, key) == Some(v) <==> Member(p, key, v)
  {
    forall v | Member(p, key, v) ensures Lookup(p, key) == Some(v) { LookupHit(p, Field(key, v)); }
    if Lookup(p, key).Some? { LookupFound(p, key); }
  }

  lemma {:induction false} LookupFound(p: seq<Field>, key: Text)
    requires Lookup(p, key).Some?
    ensures Member(p, key, Lookup(p, key).value)
  {
    if p[0].key != key { LookupFound(p[1..], key); }
  }

  lemma PayloadIsDict(raw: seq<Byte>)
    requires Payload(raw).Some?
    ensures DistinctKeys(Payload(raw).value)
  {
    LoadsClean(Utf8.Decode(raw).value);
  }

  // ----------------------------------------------------------------- the header

  function Header(p: seq<Field>): (Option<Value>, Option<Value>, Option<Value>) {
    (Lookup(p, Lit("schema_version")), Lookup(p, Lit("delivery_id")), Lookup(p, Lit("channel")))
  }

  /** The checks before the construction. */
  predicate HeaderRead(p: seq<Field>) {
    var (version, id, channel) := Header(p);
    && version.Some? && EqualsOne(version.value)
    && id.Some? && UuidOf(id.value).Some? && channel.Some? && ChannelOf(channel.value).Some?
  }

  lemma HeaderIff(p: seq<Field>)
    requires DistinctKeys(p)
    ensures HeaderRead(p) <==> VersionOne(p) && NamesAnId(p) && NamesAChannel(p)
  {
    VersionIff(p);
    IdIff(p);
    ChannelIff(p);
  }

  lemma VersionIff(p: seq<Field>)
    requires DistinctKeys(p)
    ensures var v := Lookup(p, Lit("schema_version")); (v.Some? && EqualsOne(v.value)) <==> VersionOne(p)
  {
    LookupIsMember(p, Lit("schema_version"));
  }

  lemma IdIff(p: seq<Field>)
    requires DistinctKeys(p)
    ensures var v := Lookup(p, Lit("delivery_id"));
            && ((v.Some? && UuidOf(v.value).Some?) <==> NamesAnId(p))
            && (v.Some? && UuidOf(v.value).Some? ==>
                 Member(p, Lit("delivery_id"), Str(v.value.t)) && FromText(v.value.t) == UuidOf(v.value))
  {
    LookupIsMember(p, Lit("delivery_id"));
  }

  lemma ChannelIff(p: seq<Field>)
    requires DistinctKeys(p)
    ensures var v := Lookup(p, Lit("channel"));
            && ((v.Some? && ChannelOf(v.value).Some?) <==> NamesAChannel(p))
            && (v.Some? && ChannelOf(v.value).Some? ==>
                 match ChannelOf(v.value).value
                 case Email => Member(p, Lit("channel"), Str(Lit("email")))
                 case WhatsApp => Member(p, Lit("channel"), Str(Lit("whatsapp")))
                 case Sms => Member(p, Lit("channel"), Str(Lit("sms"))))
  {
    LookupIsMember(p, Lit("channel"));
    ChannelRoundTrip(Email);
    ChannelRoundTrip(WhatsApp);
    ChannelRoundTrip(Sms);
  }

  // ----------------------------------------------------------- the construction

  lemma AbsentIff(p: seq<Field>, key: Text)
    requires DistinctKeys(p)
    ensures Lookup(p, key).None? <==> Missing(p, key)
  {
    LookupIsMember(p, key);
  }

  lemma MessageMembers(p: seq<Field>)
    requires DistinctKeys(p)
    ensures Lookup(p, Lit("recipient")).None? <==> Missing(p, Lit("recipient"))
    ensures Lookup(p, Lit("subject")).None? <==> Missing(p, Lit("subject"))
    ensures Lookup(p, Lit("body")).None? <==> Missing(p, Lit("body"))
  {
    AbsentIff(p, Lit("recipient"));
    AbsentIff(p, Lit("subject"));
    AbsentIff(p, Lit("body"));
  }

  lemma ContextMembers(p: seq<Field>)
    requires DistinctKeys(p)
    ensures Lookup(p, Lit("notification_class")).None? <==> Missing(p, Lit("notification_class"))
    ensures Lookup(p, Lit("subject_kind")).None? <==> Missing(p, Lit("subject_kind"))
    ensures Lookup(p, Lit("subject_id")).None? <==> Missing(p, Lit("subject_id"))
    ensures Lookup(p, Lit("actor_subject")).None? <==> Missing(p, Lit("actor_subject"))
  {
    AbsentIff(p, Lit("notification_class"));
    AbsentIff(p, Lit("subject_kind"));
    AbsentIff(p, Lit("subject_id"));
    AbsentIff(p, Lit("actor_subject"));
  }

  lemma ConstructIff(p: seq<Field>, id: Uuid, channel: Channel)
    requires DistinctKeys(p)
    ensures Construct(p, id, channel).Accepted? <==> TextsThere(p)
    ensures Construct(p, id, channel).Accepted? ==>
              var e := Construct(p, id, channel).envelope;
              e.deliveryId == id && e.channel == channel && e.schemaVersion == 1 && SaysMessage(p, e) && SaysContext(p, e)
  {
    MessageMembers(p);
    ContextMembers(p);
    if Construct(p, id, channel).Accepted? {
      MessageSaid(p, id, channel);
      ContextSaid(p, id, channel);
    }
  }

  lemma MessageSaid(p: seq<Field>, id: Uuid, channel: Channel)
    requires Construct(p, id, channel).Accepted?
    ensures SaysMessage(p, Construct(p, id, channel).envelope)
  {
    LookupFound(p, Lit("recipient"));
    LookupFound(p, Lit("subject"));
    LookupFound(p, Lit("body"));
  }

  lemma ContextSaid(p: seq<Field>, id: Uuid, channel: Channel)
    requires DistinctKeys(p) && Construct(p, id, channel).Accepted?
    ensures SaysContext(p, Construct(p, id, channel).envelope)
  {
    LookupFound(p, Lit("notification_class"));
    LookupFound(p, Lit("subject_kind"));
    LookupFound(p, Lit("subject_id"));
    LookupIsMember(p, Lit("actor_subject"));
  }

  lemma FromPayloadIff(p: seq<Field>)
    requires DistinctKeys(p)
    ensures FromPayload(p).Accepted? <==> VersionOne(p) && NamesAnId(p) && NamesAChannel(p) && TextsThere(p)
    ensures FromPayload(p).Accepted? ==> Says(p, FromPayload(p).envelope)
  {
    HeaderIff(p);
    if HeaderRead(p) {
      var id, channel := UuidOf(Header(p).1.value).value, ChannelOf(Header(p).2.value).value;
      assert FromPayload(p) == Construct(p, id, channel);
      ConstructIff(p, id, channel);
      IdIff(p);
      ChannelIff(p);
    }
  }

  /** A body is accepted if and only if its bytes are the UTF-8 of a JSON object with version 1 (or true), an id that
      is a UUID, one of the three channels, and the six text members; the envelope then has the members' values. */
  lemma {:induction false} AcceptedIff(raw: seq<Byte>)
    ensures FromJson(raw).Accepted? <==>
              && Payload(raw).Some?
              && var p := Payload(raw).value;
                 VersionOne(p) && NamesAnId(p) && NamesAChannel(p) && TextsThere(p)
    ensures FromJson(raw).Accepted? ==> Says(Payload(raw).value, FromJson(raw).envelope)
  {
    if Payload(raw).Some? {
      PayloadIsDict(raw);
      FromPayloadIff(Payload(raw).value);
    }
  }

  /** Why a body is refused, as far as it is told before the envelope's fields are looked at. */
  lemma {:induction false} RefusedIff(raw: seq<Byte>)
    ensures FromJson(raw) == Refused(NotUtf8) <==> forall t :: Utf8.Encode(t) != Some(raw)
    ensures FromJson(raw) == Refused(OtherVersion) <==> Payload(raw).Some? && !VersionOne(Payload(raw).value)
  {
    NoText(raw);
    if Payload(raw).Some? {
      PayloadIsDict(raw);
      Reached(raw);
      WrongVersion(Payload(raw).value);
    } else {
      NotReached(raw);
    }
  }

  lemma Reached(raw: seq<Byte>)
    requires Payload(raw).Some?
    ensures FromJson(raw) == FromPayload(Payload(raw).value) && Utf8.Decode(raw).Some?
  {
  }

  lemma NotReached(raw: seq<Byte>)
    requires Payload(raw).None?
    ensures FromJson(raw).Refused? && FromJson(raw).reason != OtherVersion
    ensures FromJson(raw).reason == NotUtf8 <==> Utf8.Decode(raw).None?
  {
  }

  lemma NoText(raw: seq<Byte>)
    ensures Utf8.Decode(raw).None? <==> forall t :: Utf8.Encode(t) != Some(raw)
  {
    if Utf8.Decode(raw).Some? { Utf8.DecodeIff(raw, Utf8.Decode(raw).value); }
    forall t ensures Utf8.Encode(t) == Some(raw) ==> Utf8.Decode(raw).Some? { Utf8.DecodeIff(raw, t); }
  }

  lemma WrongVersion(p: seq<Field>)
    requires DistinctKeys(p)
    ensures FromPayload(p) == Refused(OtherVersion) <==> !VersionOne(p)
    ensures FromPayload(p) != Refused(NotUtf8)
  {
    VersionIff(p);
  }

  // ------------------------------------------------------------------ the wire form

  /** The ten members of an envelope. */
  function WireFields(e: SendRequested): seq<Field> {
    [ Field(Lit("schema_version"), Int(e.schemaVersion)),
      Field(Lit("delivery_id"), Str(ToText(e.deliveryId))),
      Field(Lit("channel"), Str(match e.channel
                                case Email => Lit("email")
                                case WhatsApp => Lit("whatsapp")
                                case Sms => Lit("sms"))),
      Field(Lit("recipient"), Norm(e.recipient)),
      Field(Lit("subject"), Norm(e.subject)),
      Field(Lit("body"), Norm(e.body)),
      Field(Lit("notification_class"), Norm(e.notificationClass)),
      Field(Lit("subject_kind"), Norm(e.subjectKind)),
      Field(Lit("subject_id"), Norm(e.subjectId)),
      Field(Lit("actor_subject"), Norm(e.actorSubject)) ]
  }

  /** The message on the wire is one JSON object in ASCII, compact, with those members in key order and no other. */
  lemma {:induction false} WireForm(e: SendRequested) returns (p: seq<Field>)
    ensures ToJson(e) == Show(Obj(p), true) && forall i :: 0 <= i < |ToJson(e)| ==> ToJson(e)[i] < 0x80
    ensures forall i, j :: 0 <= i < j < |p| ==> Earlier(p[i].key, p[j].key)
    ensures forall f :: f in p <==> f in WireFields(e)
  {
    var fields := PayloadFields(e);
    p := Sort(NormFields(fields));
    PayloadKeysDistinct(e);
    NormFieldsDistinct(fields);
    SortSorts(NormFields(fields));
    DumpsAscii(Obj(fields));
    Utf8.EncodeAscii(Dumps(Obj(fields), true));
    forall i, j | 0 <= i < j < |p| ensures Earlier(p[i].key, p[j].key) { BeforeIff(p[i].key, p[j].key); }
    PayloadMembers(e);
  }

  lemma PayloadMembers(e: SendRequested)
    ensures NormFields(PayloadFields(e)) == WireFields(e)
  {
    var fields := PayloadFields(e);
    forall i | 0 <= i < 10 ensures NormFields(fields)[i] == Field(fields[i].key, Norm(fields[i].value)) {
      NormFieldsAt(fields, i);
    }
  }
}
