/** Axon's send path on one message: the platform ledger (ledger.py), send_platform (send.py) and the consumer's
    decision (subscriber.py). What the provider, the clock and the database do is an argument. */
module Ledger {
  import opened Texts
  import opened Json
  import opened JsonNumber
  import opened Uuids
  import opened Envelope

  datatype DeliveryState = ACCEPTED | FAILED | SUPPRESSED

  datatype SuppressionReason = NoAddress | ChannelNotOnboarded | ConsentWithheld | NoApprovedTemplate

  datatype DeliveryRecord = DeliveryRecord(
    deliveryId: Uuid,
    createdAt: int,
    channel: Channel,
    notificationClass: Value,
    subjectKind: Value,
    subjectId: Value,
    recipient: Value,
    state: DeliveryState,
    provider: Text,
    suppressionReason: Option<SuppressionReason>,
    failureDetail: Option<Text>,
    actorSubject: Value)

  // ------------------------------------------------------------ environment

  /** What `adapter.send` did; `Breaks` is any exception that is not a ChannelSendError. */
  datatype Answer = Accepts | Refuses(detail: Text) | Breaks

  /** One call to the adapter: the clock just before it, the adapter's name and its answer. */
  datatype AdapterCall = AdapterCall(now: int, provider: Text, answer: Answer)

  /** The parts of a DBAPIError that the code looks at. */
  datatype DbError = DbError(sqlstate: Option<string>, constraint: Option<string>)

  const UNIQUE_VIOLATION := "23505"
  const PRIMARY_KEY := "pk_platform_deliveries"

  predicate IsDuplicateDelivery(e: DbError) {
    if e.sqlstate != Some(UNIQUE_VIOLATION) then false else e.constraint == Some(PRIMARY_KEY)
  }

  /** An error of the connection or of another constraint: only the table itself reports its primary key. */
  type OtherDbError = e: DbError | !(e.sqlstate == Some("23505") && e.constraint == Some("pk_platform_deliveries"))
    witness DbError(None, None)

  /** What goes wrong around the INSERT: an error before anything is written, an error after the commit, or an
      exception that is not a DBAPIError (the posture guard's RlsContextError, a pool timeout). */
  datatype Fault = NoFault | Before(e: OtherDbError) | After(e: OtherDbError) | NotDbapi

  // ------------------------------------------------------------- constraints

  /** The driver encodes every string; a lone surrogate has no UTF-8 form and raises UnicodeEncodeError. */
  predicate Encodable(r: DeliveryRecord) {
    && EncodableColumn(r.notificationClass) && EncodableColumn(r.subjectKind) && EncodableColumn(r.subjectId)
    && EncodableColumn(r.recipient) && EncodableColumn(r.actorSubject) && Scalar(r.provider)
    && (r.failureDetail.Some? ==> Scalar(r.failureDetail.value))
  }

  predicate EncodableColumn(v: Value) { v.Str? ==> Scalar(v.t) }

  predicate Stringy(t: Text) { 0 !in t }

  /** What the assignment cast to a string type makes of a parameter: integers and booleans have a text form,
      NULL and objects have none. */
  function TextForm(v: Value): Option<Text> {
    match v
    case Str(t) => Some(t)
    case Int(n) => Some(ShowInt(n))
    case Bool(b) => Some(if b then Lit("true") else Lit("false"))
    case _ => None
  }

  predicate TextColumn(v: Value) { TextForm(v).Some? && Stringy(TextForm(v).value) }

  /** A value longer than its column is refused unless only blanks are cut off. */
  predicate FitsWidth(t: Text, width: nat) { forall i :: width <= i < |t| ==> t[i] == 0x20 }

  predicate VarcharColumn(v: Value, width: nat) { TextColumn(v) && FitsWidth(TextForm(v).value, width) }

  function Cut(t: Text, width: nat): Text { if |t| <= width then t else t[..width] }

  function StoredText(v: Value): Value { if TextForm(v).Some? then Str(TextForm(v).value) else v }

  function StoredVarchar(v: Value, width: nat): Value {
    if TextForm(v).Some? then Str(Cut(TextForm(v).value, width)) else v
  }

  /** The row as the table holds it. */
  function Stored(r: DeliveryRecord): DeliveryRecord {
    r.(notificationClass := StoredVarchar(r.notificationClass, 64),
       subjectKind := StoredVarchar(r.subjectKind, 32),
       subjectId := StoredText(r.subjectId),
       recipient := StoredText(r.recipient),
       provider := Cut(r.provider, 32),
       actorSubject := StoredText(r.actorSubject))
  }

  // ---------------------------------------------------------- what a row says

  /** A text column that was given this value: strings as they are, integers and booleans in their text form, NULL as
      NULL. */
  predicate ShowsText(column: Value, given: Value) {
    match given
    case Str(t) => column == Str(t)
    case Int(n) => column == Str(ShowInt(n))
    case Bool(b) => column == Str(Lit(if b then "true" else "false"))
    case _ => column == given
  }

  /** `column` is `given`, or its first `width` characters where only blanks follow. */
  predicate ShowsWithin(column: Text, given: Text, width: nat) {
    if |given| <= width then column == given
    else |column| == width && column <= given && forall i :: width <= i < |given| ==> given[i] == 0x20
  }

  /** The same for a value whose text form is `Whole(given)`. */
  ghost predicate ShowsVarchar(column: Value, given: Value, width: nat) {
    column.Str? && exists whole: Text :: ShowsText(Str(whole), given) && ShowsWithin(column.t, whole, width)
  }

  /** The row that is left of one send, column by column: the envelope's fields, the clock and the adapter's name at
      the call, and the adapter's answer. */
  ghost predicate Reports(row: DeliveryRecord, e: SendRequested, c: AdapterCall) {
    && row.deliveryId == e.deliveryId && row.createdAt == c.now && row.channel == e.channel
    && ShowsVarchar(row.notificationClass, e.notificationClass, 64) && ShowsVarchar(row.subjectKind, e.subjectKind, 32)
    && ShowsText(row.subjectId, e.subjectId) && ShowsText(row.recipient, e.recipient)
    && (c.answer.Accepts? ==> row.state == ACCEPTED && row.failureDetail == None)
    && (c.answer.Refuses? ==> row.state == FAILED && row.failureDetail == Some(c.answer.detail))
    && ShowsWithin(row.provider, c.provider, 32) && row.suppressionReason == None
    && ShowsText(row.actorSubject, e.actorSubject)
  }

  /** The same for the record that is written, whoever made it. */
  ghost predicate ShowsRecord(row: DeliveryRecord, r: DeliveryRecord) {
    && row.deliveryId == r.deliveryId && row.createdAt == r.createdAt && row.channel == r.channel
    && ShowsVarchar(row.notificationClass, r.notificationClass, 64) && ShowsVarchar(row.subjectKind, r.subjectKind, 32)
    && ShowsText(row.subjectId, r.subjectId) && ShowsText(row.recipient, r.recipient)
    && row.state == r.state && row.failureDetail == r.failureDetail && row.suppressionReason == r.suppressionReason
    && ShowsWithin(row.provider, r.provider, 32) && ShowsText(row.actorSubject, r.actorSubject)
  }

  /** Column types, NOT NULL and the CHECK constraints of axon.platform_deliveries. */
  predicate Storable(r: DeliveryRecord) {
    && r.channel == Email
    && VarcharColumn(r.notificationClass, 64) && VarcharColumn(r.subjectKind, 32)
    && TextColumn(r.subjectId) && TextColumn(r.recipient)
    && Stringy(r.provider) && FitsWidth(r.provider, 32)
    && (r.failureDetail.Some? ==> Stringy(r.failureDetail.value))
    && (r.actorSubject.Null? || TextColumn(r.actorSubject))
    && (r.state.SUPPRESSED? <==> r.suppressionReason.Some?)
  }

  /** The table takes the record if its key is free. */
  predicate Fitting(r: DeliveryRecord) { Encodable(r) && Storable(r) }

  // ----------------------------------------------------------- specification

  /** What record_platform_delivery tells its caller. */
  datatype Recorded = New | Duplicate | LedgerWriteError | Escapes

  function RowsAfter(rows: map<Uuid, DeliveryRecord>, r: DeliveryRecord, f: Fault): map<Uuid, DeliveryRecord> {
    if (f.NoFault? || f.After?) && Encodable(r) && Storable(r) && r.deliveryId !in rows
    then rows[r.deliveryId := Stored(r)] else rows
  }

  function Seen(rows: map<Uuid, DeliveryRecord>, r: DeliveryRecord, f: Fault): Recorded {
    match f
    case Before(_) => LedgerWriteError
    case NotDbapi => Escapes
    case After(_) => if Encodable(r) then LedgerWriteError else Escapes
    case NoFault =>
      if !Encodable(r) then Escapes
      else if !Storable(r) then LedgerWriteError
      else if r.deliveryId in rows then Duplicate
      else New
  }

  function RecordOf(e: SendRequested, c: AdapterCall): DeliveryRecord {
    DeliveryRecord(e.deliveryId, c.now, e.channel, e.notificationClass, e.subjectKind, e.subjectId, e.recipient,
                   if c.answer.Refuses? then FAILED else ACCEPTED, c.provider, None,
                   if c.answer.Refuses? then Some(c.answer.detail) else None, e.actorSubject)
  }

  lemma VarcharShown(v: Value, width: nat)
    requires VarcharColumn(v, width)
    ensures ShowsVarchar(StoredVarchar(v, width), v, width)
  {
    var whole := TextForm(v).value;
    assert ShowsText(Str(whole), v) && ShowsWithin(Cut(whole, width), whole, width);
  }

  lemma StoredShowsRecord(r: DeliveryRecord)
    requires Storable(r)
    ensures ShowsRecord(Stored(r), r)
  {
    VarcharShown(r.notificationClass, 64);
    VarcharShown(r.subjectKind, 32);
  }

  lemma StoredReports(e: SendRequested, c: AdapterCall)
    requires Storable(RecordOf(e, c)) && !c.answer.Breaks?
    ensures Reports(Stored(RecordOf(e, c)), e, c)
  {
    StoredShowsRecord(RecordOf(e, c));
  }

  /** A string that the driver can encode and a text column can hold. */
  predicate Plain(t: Text) { Scalar(t) && 0 !in t }

  predicate BlankFrom(t: Text, width: nat) { forall i :: width <= i < |t| ==> t[i] == 0x20 }

  /** When the table takes a record whose columns are the strings they are declared to be. */
  lemma {:induction false} RecordFits(r: DeliveryRecord)
    requires r.notificationClass.Str? && r.subjectKind.Str? && r.subjectId.Str? && r.recipient.Str?
    requires r.actorSubject.Str? || r.actorSubject.Null?
    ensures Fitting(r) <==>
              && r.channel == Email && (r.state == SUPPRESSED <==> r.suppressionReason != None)
              && Plain(r.notificationClass.t) && BlankFrom(r.notificationClass.t, 64)
              && Plain(r.subjectKind.t) && BlankFrom(r.subjectKind.t, 32)
              && Plain(r.subjectId.t) && Plain(r.recipient.t) && (r.actorSubject.Str? ==> Plain(r.actorSubject.t))
              && Plain(r.provider) && BlankFrom(r.provider, 32)
              && (r.failureDetail.Some? ==> Plain(r.failureDetail.value))
  {
    assert TextForm(r.notificationClass) == Some(r.notificationClass.t) && TextForm(r.subjectKind) == Some(r.subjectKind.t);
    assert TextForm(r.subjectId) == Some(r.subjectId.t) && TextForm(r.recipient) == Some(r.recipient.t);
  }

  /** The same for the row of a text envelope. */
  lemma {:induction false} TextRecordFits(e: SendRequested, c: AdapterCall)
    requires AllText(e)
    ensures Fitting(RecordOf(e, c)) <==>
              && e.channel == Email
              && Plain(e.notificationClass.t) && BlankFrom(e.notificationClass.t, 64)
              && Plain(e.subjectKind.t) && BlankFrom(e.subjectKind.t, 32)
              && Plain(e.subjectId.t) && Plain(e.recipient.t) && (e.actorSubject.Str? ==> Plain(e.actorSubject.t))
              && Plain(c.provider) && BlankFrom(c.provider, 32)
              && (c.answer.Refuses? ==> Plain(c.answer.detail))
  {
    RecordFits(RecordOf(e, c));
  }

  /** The text of a LedgerWriteError. */
  function WriteFailed(id: Uuid): Text { Lit("the delivery ledger write failed for ") + ToText(id) }

  /** `recorded` and `duplicate` as send_platform returns them, or the exception it lets through. */
  datatype SendOutcome =
    | Returned(state: DeliveryState, recorded: bool, detail: Option<Text>, duplicate: bool)
    | Raised

  datatype Decision = Ack | Nack

  /** What the consumer does with one raw message: acks, nacks, or dies with an exception. */
  datatype Processed = Decided(decision: Decision) | Died

  /** The message can be sent: it parses and names the one channel there is an adapter for. */
  predicate Sendable(raw: seq<Byte>) {
    FromJson(raw).Accepted? && FromJson(raw).envelope.channel == Email
  }

  /** Whether an attempt ends in an ack depends on the message, the adapter and the fault, not on the rows. */
  predicate EndsInAck(raw: seq<Byte>, c: AdapterCall, f: Fault) {
    && Sendable(raw) && !c.answer.Breaks? && f.NoFault?
    && Fitting(RecordOf(FromJson(raw).envelope, c))
  }

  predicate Dies(raw: seq<Byte>, c: AdapterCall, f: Fault) {
    Sendable(raw) &&
    ( || c.answer.Breaks? || f.NotDbapi?
      || (!f.Before? && !Encodable(RecordOf(FromJson(raw).envelope, c))))
  }

  function RowsAfterMessage(rows: map<Uuid, DeliveryRecord>, raw: seq<Byte>, c: AdapterCall, f: Fault)
    : map<Uuid, DeliveryRecord>
  {
    if !Sendable(raw) || c.answer.Breaks? then rows else RowsAfter(rows, RecordOf(FromJson(raw).envelope, c), f)
  }

  // ------------------------------------------------------- lone surrogates

  /** A recipient with half a surrogate pair in it. */
  predicate LoneRecipient(e: SendRequested) { e.recipient.Str? && !Scalar(e.recipient.t) }

  /** Such a message can arrive: the envelope carries a lone surrogate through the wire unharmed, for every text
      envelope without split pairs. The consumer then dies on it unless the database fails first, and never acks. */
  lemma {:induction false} LoneSurrogateIsFatal(e: SendRequested, c: AdapterCall, f: Fault)
    requires AllText(e) && AllPairFree(e) && e.schemaVersion == SCHEMA_VERSION && e.channel == Email
    requires LoneRecipient(e)
    ensures Sendable(ToJson(e)) && FromJson(ToJson(e)).envelope == e
    ensures Dies(ToJson(e), c, f) <==> c.answer.Breaks? || !f.Before?
    ensures !EndsInAck(ToJson(e), c, f)
  {
    TextRoundTripIff(e);
  }

  const LONE := SendRequested(
    seq(32, _ => 0), Email, Str([0xD800]), Str([]), Str([]), Str([]), Str([]), Str([]), Null, SCHEMA_VERSION)

  /** There is such an envelope. */
  lemma LoneSurrogateArrives(c: AdapterCall)
    ensures AllText(LONE) && AllPairFree(LONE) && LoneRecipient(LONE)
    ensures Sendable(ToJson(LONE)) && Dies(ToJson(LONE), c, NoFault)
  {
    assert LONE.recipient.t[0] == 0xD800;
    LoneSurrogateIsFatal(LONE, c, NoFault);
  }

  // -------------------------------------------------------------- the program

  /** One INSERT statement: committed, refused with an error, or not even sent. */
  datatype Statement = Committed | Errored(e: DbError) | NotSent

  class PlatformLedger {
    var rows: map<Uuid, DeliveryRecord>

    constructor ()
      ensures rows == map[]
    {
      rows := map[];
    }

    /** The database's side of the INSERT. */
    method Insert(r: DeliveryRecord, f: Fault) returns (s: Statement)
      modifies this
      ensures rows == RowsAfter(old(rows), r, f)
      ensures s.Committed? <==> f.NoFault? && Encodable(r) && Storable(r) && r.deliveryId !in old(rows)
      ensures s.NotSent? <==> f.NotDbapi? || (!f.Before? && !Encodable(r))
      ensures s.Errored? ==>
                (IsDuplicateDelivery(s.e) <==> f.NoFault? && Storable(r) && r.deliveryId in old(rows))
      ensures rows != old(rows) ==> r.deliveryId !in old(rows) && rows == old(rows)[r.deliveryId := rows[r.deliveryId]]
      ensures rows != old(rows) ==> ShowsRecord(rows[r.deliveryId], r)
    {
      if f.NotDbapi? { return NotSent; }
      if f.Before? { return Errored(f.e); }
      if !Encodable(r) { return NotSent; }
      if !Storable(r) {
        return Errored(if f.After? then f.e else DbError(Some("23514"), None));
      }
      StoredShowsRecord(r);
      if r.deliveryId in rows {
        return Errored(if f.After? then f.e else DbError(Some(UNIQUE_VIOLATION), Some(PRIMARY_KEY)));
      }
      rows := rows[r.deliveryId := Stored(r)];
      s := if f.After? then Errored(f.e) else Committed;
    }

    /** True for a new row, false for a repeat, LedgerWriteError for every other database error. */
    method RecordPlatformDelivery(r: DeliveryRecord, f: Fault) returns (seen: Recorded)
      modifies this
      ensures rows == RowsAfter(old(rows), r, f)
      ensures seen == Seen(old(rows), r, f)
      ensures rows != old(rows) ==> r.deliveryId !in old(rows) && rows == old(rows)[r.deliveryId := rows[r.deliveryId]]
      ensures rows != old(rows) ==> ShowsRecord(rows[r.deliveryId], r)
    {
      var s := Insert(r, f);
      match s
      case Committed => seen := New;
      case Errored(e) => seen := if IsDuplicateDelivery(e) then Duplicate else LedgerWriteError;
      case NotSent => seen := Escapes;
    }

    /** Send, then record. It raises only what is neither a ChannelSendError nor a LedgerWriteError. */
    method SendPlatform(e: SendRequested, c: AdapterCall, f: Fault) returns (o: SendOutcome)
      modifies this
      ensures o.Raised? <==> c.answer.Breaks? || f.NotDbapi? || (!f.Before? && !Encodable(RecordOf(e, c)))
      ensures rows == if c.answer.Breaks? then old(rows) else RowsAfter(old(rows), RecordOf(e, c), f)
      ensures o.Returned? ==>
                && o.state == (if c.answer.Refuses? then FAILED else ACCEPTED)
                && (o.recorded <==> f.NoFault? && Storable(RecordOf(e, c)))
                && (o.duplicate <==> o.recorded && e.deliveryId in old(rows))
                && (!o.recorded ==>
                     o.detail == Some(Lit("the delivery ledger write failed for ") + ToText(e.deliveryId)))
      ensures o.Returned? && o.recorded ==>
                && o.detail == (if c.answer.Refuses? then Some(c.answer.detail) else None)
                && e.deliveryId in rows
                && (!o.duplicate ==> rows == old(rows)[e.deliveryId := rows[e.deliveryId]])
                && (!o.duplicate ==> Reports(rows[e.deliveryId], e, c))
                && (o.duplicate ==> rows == old(rows))
      ensures rows != old(rows) ==> e.deliveryId in rows && Reports(rows[e.deliveryId], e, c)
    {
      var state, failureDetail := ACCEPTED, None;
      match c.answer {
        case Accepts =>
        case Refuses(detail) =>
          state := FAILED;
          failureDetail := Some(detail);
        case Breaks =>
          return Raised;
      }
      var record := DeliveryRecord(e.deliveryId, c.now, e.channel, e.notificationClass, e.subjectKind, e.subjectId,
                                   e.recipient, state, c.provider, None, failureDetail, e.actorSubject);
      var seen := RecordPlatformDelivery(record, f);
      if Storable(RecordOf(e, c)) { StoredReports(e, c); }
      match seen
      case New => o := Returned(state, true, failureDetail, false);
      case Duplicate => o := Returned(state, true, failureDetail, true);
      case LedgerWriteError => o := Returned(state, false, Some(WriteFailed(e.deliveryId)), false);
      case Escapes => o := Raised;
    }

    /** process_message: an ack means that the ledger holds the message's row when the method returns. */
    method ProcessMessage(raw: seq<Byte>, c: AdapterCall, f: Fault) returns (p: Processed)
      modifies this
      ensures rows == RowsAfterMessage(old(rows), raw, c, f)
      ensures p == Decided(Ack) <==> EndsInAck(raw, c, f)
      ensures p.Died? <==> Dies(raw, c, f)
      ensures FromJson(raw).Refused? || FromJson(raw).envelope.channel != Email ==> p == Decided(Nack) && rows == old(rows)
      ensures p == Decided(Ack) ==> FromJson(raw).envelope.deliveryId in rows
    {
      var parsed := FromJson(raw);
      if parsed.Refused? { return Decided(Nack); }
      if parsed.envelope.channel != Email { return Decided(Nack); }
      var o := SendPlatform(parsed.envelope, c, f);
      if o.Raised? { return Died; }
      if !o.recorded { return Decided(Nack); }
      p := Decided(Ack);
    }

    /** One message of a batch, with what its processing meets. */
    method ProcessDelivery(d: Delivery) returns (p: Processed)
      modifies this
      ensures rows == RowsAfterMessage(old(rows), d.raw, d.call, d.fault)
      ensures p == Decided(Ack) <==> EndsInAck(d.raw, d.call, d.fault)
      ensures p.Died? <==> Dies(d.raw, d.call, d.fault)
    {
      p := ProcessMessage(d.raw, d.call, d.fault);
    }

    /** poll_once on what one pull returned: acks and nacks go out only after every message was processed, so
        an exception in the middle leaves rows written and nothing acked. */
    method PollOnce(batch: seq<Delivery>) returns (died: bool, acks: seq<nat>, nacks: seq<nat>)
      modifies this
      ensures died <==> !AllSurvive(batch, |batch|)
      ensures died ==> acks == [] && nacks == []
      ensures !died ==> acks == Indices(Verdicts(batch), true, |batch|) && nacks == Indices(Verdicts(batch), false, |batch|)
      ensures rows == RowsAfterBatch(old(rows), batch[..Reached(batch, |batch|)])
    {
      died, acks, nacks := false, [], [];
      var i := 0;
      ghost var before, verdicts := rows, Verdicts(batch);
      while i < |batch|
        invariant 0 <= i <= |batch| && !died && AllSurvive(batch, i) && Reached(batch, i) == i
        invariant rows == RowsAfterBatch(before, batch[..i])
        invariant acks == Indices(verdicts, true, i) && nacks == Indices(verdicts, false, i)
      {
        OneMoreProcessed(before, batch, i);
        var p := ProcessDelivery(batch[i]);
        if p.Died? {
          NobodyAfterADeath(batch, i + 1, |batch|);
          return true, [], [];
        }
        if p.decision.Ack? { acks := acks + [i]; } else { nacks := nacks + [i]; }
        i := i + 1;
      }
    }
  }

  /** One received message, with what its processing will meet. */
  datatype Delivery = Delivery(raw: seq<Byte>, call: AdapterCall, fault: Fault)

  /** For each message whether it ends in an ack. */
  function Verdicts(batch: seq<Delivery>): (v: seq<bool>)
    ensures |v| == |batch|
    ensures forall i :: 0 <= i < |batch| ==> v[i] == EndsInAck(batch[i].raw, batch[i].call, batch[i].fault)
  {
    seq(|batch|, i requires 0 <= i < |batch| => EndsInAck(batch[i].raw, batch[i].call, batch[i].fault))
  }

  /** The positions below n with this verdict, in order. */
  function Indices(verdicts: seq<bool>, acked: bool, n: nat): seq<nat>
    requires n <= |verdicts|
  {
    if n == 0 then [] else Indices(verdicts, acked, n - 1) + if verdicts[n - 1] == acked then [n - 1] else []
  }

  function RowsAfterBatch(rows: map<Uuid, DeliveryRecord>, batch: seq<Delivery>): map<Uuid, DeliveryRecord> {
    if batch == [] then rows
    else
      var d := batch[|batch| - 1];
      RowsAfterMessage(RowsAfterBatch(rows, batch[..|batch| - 1]), d.raw, d.call, d.fault)
  }

  /** None of the first n messages raises. */
  predicate AllSurvive(batch: seq<Delivery>, n: nat)
    requires n <= |batch|
  {
    n > 0 ==> AllSurvive(batch, n - 1) && !Dies(batch[n - 1].raw, batch[n - 1].call, batch[n - 1].fault)
  }

  /** How many of the first n messages are processed: up to and with the first that raises. */
  function Reached(batch: seq<Delivery>, n: nat): (k: nat)
    requires n <= |batch|
    ensures k <= n
  {
    if n == 0 then 0 else if AllSurvive(batch, n - 1) then n else Reached(batch, n - 1)
  }

  lemma {:induction false} NobodyAfterADeath(batch: seq<Delivery>, k: nat, n: nat)
    requires k <= n <= |batch| && !AllSurvive(batch, k)
    ensures !AllSurvive(batch, n) && Reached(batch, n) == Reached(batch, k)
  {
    if k < n { NobodyAfterADeath(batch, k, n - 1); }
  }

  lemma TakeOneMore(batch: seq<Delivery>, i: nat)
    requires i < |batch|
    ensures batch[..i + 1][..i] == batch[..i]
  {
  }

  lemma OneMoreProcessed(rows: map<Uuid, DeliveryRecord>, batch: seq<Delivery>, i: nat)
    requires i < |batch|
    ensures RowsAfterBatch(rows, batch[..i + 1]) ==
              RowsAfterMessage(RowsAfterBatch(rows, batch[..i]), batch[i].raw, batch[i].call, batch[i].fault)
  {
    TakeOneMore(batch, i);
  }

  lemma MessageKeepsRows(rows: map<Uuid, DeliveryRecord>, d: Delivery, id: Uuid)
    requires id in rows
    ensures id in RowsAfterMessage(rows, d.raw, d.call, d.fault)
    ensures RowsAfterMessage(rows, d.raw, d.call, d.fault)[id] == rows[id]
  {
  }

  lemma AckedMessageIsRecorded(rows: map<Uuid, DeliveryRecord>, d: Delivery)
    requires EndsInAck(d.raw, d.call, d.fault)
    ensures FromJson(d.raw).envelope.deliveryId in RowsAfterMessage(rows, d.raw, d.call, d.fault)
  {
  }

  lemma {:induction false} InIndices(verdicts: seq<bool>, acked: bool, n: nat, i: nat)
    requires n <= |verdicts|
    ensures i in Indices(verdicts, acked, n) <==> i < n && verdicts[i] == acked
  {
    if n > 0 { InIndices(verdicts, acked, n - 1, i); }
  }

  lemma {:induction false} LaterMessagesKeepRows(rows: map<Uuid, DeliveryRecord>, batch: seq<Delivery>, k: nat, n: nat, id: Uuid)
    requires k <= n <= |batch| && id in RowsAfterBatch(rows, batch[..k])
    ensures id in RowsAfterBatch(rows, batch[..n])
  {
    if k < n {
      LaterMessagesKeepRows(rows, batch, k, n - 1, id);
      TakeOneMore(batch, n - 1);
      MessageKeepsRows(RowsAfterBatch(rows, batch[..n - 1]), batch[n - 1], id);
    }
  }

  lemma AckedIsRecorded(rows: map<Uuid, DeliveryRecord>, batch: seq<Delivery>, i: nat)
    requires i < |batch| && EndsInAck(batch[i].raw, batch[i].call, batch[i].fault)
    ensures FromJson(batch[i].raw).envelope.deliveryId in RowsAfterBatch(rows, batch[..i + 1])
  {
    TakeOneMore(batch, i);
    AckedMessageIsRecorded(RowsAfterBatch(rows, batch[..i]), batch[i]);
  }

  /** A batch that was processed to its end: every message is acked or nacked and not both, and the row of every
      acked one is in the ledger at the end, whatever the other messages did. */
  lemma AckedBatchIsRecorded(rows: map<Uuid, DeliveryRecord>, batch: seq<Delivery>, i: nat)
    requires i < |batch|
    ensures i in Indices(Verdicts(batch), true, |batch|) <==> i !in Indices(Verdicts(batch), false, |batch|)
    ensures i in Indices(Verdicts(batch), true, |batch|) ==>
              Sendable(batch[i].raw) && FromJson(batch[i].raw).envelope.deliveryId in RowsAfterBatch(rows, batch)
  {
    InIndices(Verdicts(batch), true, |batch|, i);
    InIndices(Verdicts(batch), false, |batch|, i);
    assert batch[..|batch|] == batch;
    if Verdicts(batch)[i] {
      AckedIsRecorded(rows, batch, i);
      LaterMessagesKeepRows(rows, batch, i + 1, |batch|, FromJson(batch[i].raw).envelope.deliveryId);
    }
  }

  lemma RecordedMeansFitting(rows: map<Uuid, DeliveryRecord>, r: DeliveryRecord, f: Fault)
    ensures Seen(rows, r, f) in {New, Duplicate} ==> Fitting(r)
  {
  }

  lemma RowsGrow(rows: map<Uuid, DeliveryRecord>, r: DeliveryRecord, f: Fault)
    ensures RowsAfter(rows, r, f) == rows ||
            (r.deliveryId !in rows && RowsAfter(rows, r, f) == rows[r.deliveryId := Stored(r)])
  {
  }

  /** An acked message's row is what some attempt on this id observed of the provider: a new row is this
      attempt's own, and an error that is not the primary key's is never read as a repeat. */
  lemma OnlyThePrimaryKeyIsARepeat(rows: map<Uuid, DeliveryRecord>, r: DeliveryRecord, f: Fault)
    ensures Seen(rows, r, f).Duplicate? ==> r.deliveryId in rows && RowsAfter(rows, r, f) == rows
    ensures Seen(rows, r, f).New? ==> r.deliveryId !in rows && RowsAfter(rows, r, f) == rows[r.deliveryId := Stored(r)]
    ensures (f.Before? || f.After?) ==> Seen(rows, r, f) in {LedgerWriteError, Escapes}
    ensures f.After? && Encodable(r) && Storable(r) ==> r.deliveryId in RowsAfter(rows, r, f)
  {
  }
}
