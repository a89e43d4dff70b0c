/**
 * MultiEventConsumer: one consumer per wire convention for "many event
 * types on one topic".  The record handlers are pure classifications; each
 * `consume*` method copies the base configuration, puts its own overrides
 * and handles the polled records one at a time, in poll order.
 */
module MultiEventConsumer {
  import opened Wrappers
  import opened Schemas
  import Data

  /** A configuration value: a string, a boolean or a class reference. */
  datatype ConfigValue = StringValue(s: string) | BoolValue(b: bool) | ClassValue(className: string)

  type Configs = map<string, ConfigValue>

  // Configuration keys of the Kafka consumer and of the Confluent deserializers.
  const KEY_DESERIALIZER := "key.deserializer"
  const VALUE_DESERIALIZER := "value.deserializer"
  const GROUP_ID := "group.id"
  const AUTO_OFFSET_RESET := "auto.offset.reset"
  const SPECIFIC_AVRO_READER := "specific.avro.reader"
  const JSON_TYPE_PROPERTY := "type.property"
  const SPECIFIC_PROTOBUF_VALUE_TYPE := "specific.protobuf.value.type"

  // Classes named in the configuration.
  const STRING_DESERIALIZER := "org.apache.kafka.common.serialization.StringDeserializer"
  const AVRO_DESERIALIZER := "io.confluent.kafka.serializers.KafkaAvroDeserializer"
  const JSON_SCHEMA_DESERIALIZER := "io.confluent.kafka.serializers.json.KafkaJsonSchemaDeserializer"
  const PROTOBUF_DESERIALIZER := "io.confluent.kafka.serializers.protobuf.KafkaProtobufDeserializer"
  const PROTO_CUSTOMER_EVENT := "io.confluent.developer.proto.CustomerEventProto$CustomerEvent"

  /** `configs` is a copy of `base` with the entries of `puts` put over it. */
  predicate OverridesOf(base: Configs, configs: Configs, puts: Configs)
  {
    && configs.Keys == base.Keys + puts.Keys
    && forall k :: k in configs ==> configs[k] == if k in puts then puts[k] else base[k]
  }

  /** The two entries `main` puts into the loaded properties before any consumer runs. */
  function ConsumerDefaults(): Configs
  {
    map[KEY_DESERIALIZER := ClassValue(STRING_DESERIALIZER), AUTO_OFFSET_RESET := StringValue("earliest")]
  }

  /** `main`'s base configuration: the loaded properties with the string key deserializer and `earliest`. */
  function WithConsumerDefaults(properties: Configs): (base: Configs)
    ensures OverridesOf(properties, base, ConsumerDefaults())
  {
    properties[KEY_DESERIALIZER := ClassValue(STRING_DESERIALIZER)][AUTO_OFFSET_RESET := StringValue("earliest")]
  }

  function AvroUnwrappedOverrides(): Configs
  {
    map[VALUE_DESERIALIZER := ClassValue(AVRO_DESERIALIZER), SPECIFIC_AVRO_READER := BoolValue(true),
        GROUP_ID := StringValue("unwrapped-avro-group")]
  }

  function AvroWrappedOverrides(): Configs
  {
    map[VALUE_DESERIALIZER := ClassValue(AVRO_DESERIALIZER), SPECIFIC_AVRO_READER := BoolValue(true),
        GROUP_ID := StringValue("wrapped-avro-group")]
  }

  function JsonSchemaOverrides(): Configs
  {
    map[VALUE_DESERIALIZER := ClassValue(JSON_SCHEMA_DESERIALIZER), JSON_TYPE_PROPERTY := StringValue("javaTypeName"),
        GROUP_ID := StringValue("json-schema-group")]
  }

  function ProtobufOverrides(): Configs
  {
    map[VALUE_DESERIALIZER := ClassValue(PROTOBUF_DESERIALIZER),
        SPECIFIC_PROTOBUF_VALUE_TYPE := ClassValue(PROTO_CUSTOMER_EVENT), GROUP_ID := StringValue("proto-group")]
  }

  /**
   * The four consumers join pairwise distinct groups, and none of them
   * overrides the key deserializer or the offset reset set by `main`.
   */
  lemma ConsumerGroups()
    ensures var groups := [AvroUnwrappedOverrides()[GROUP_ID], AvroWrappedOverrides()[GROUP_ID],
                           JsonSchemaOverrides()[GROUP_ID], ProtobufOverrides()[GROUP_ID]];
      forall i, j :: 0 <= i < j < |groups| ==> groups[i] != groups[j]
    ensures forall puts :: puts in [AvroUnwrappedOverrides(), AvroWrappedOverrides(), JsonSchemaOverrides(), ProtobufOverrides()] ==>
      KEY_DESERIALIZER !in puts && AUTO_OFFSET_RESET !in puts
  {
  }

  /** A consumer configured over `main`'s base still deserializes keys as strings and starts at `earliest`. */
  lemma {:induction false} DefaultsSurviveOverrides(properties: Configs, configs: Configs, puts: Configs)
    requires OverridesOf(WithConsumerDefaults(properties), configs, puts)
    requires KEY_DESERIALIZER !in puts && AUTO_OFFSET_RESET !in puts
    ensures configs[KEY_DESERIALIZER] == ClassValue(STRING_DESERIALIZER)
    ensures configs[AUTO_OFFSET_RESET] == StringValue("earliest")
  {
    var base := WithConsumerDefaults(properties);
    assert KEY_DESERIALIZER in ConsumerDefaults() && AUTO_OFFSET_RESET in ConsumerDefaults();
    assert base[KEY_DESERIALIZER] == ClassValue(STRING_DESERIALIZER);
    assert base[AUTO_OFFSET_RESET] == StringValue("earliest");
  }

  /** What handling a record reports (the handlers' log lines). */
  datatype Outcome =
    | FoundPageView(pageView: PageView)
    | FoundPurchase(purchase: Purchase)
    | ActionNotSet
    | Unrecognized(description: string)

  /** The `IllegalStateException` of `handleAvroRecord`, carrying the schema's full name. */
  datatype HandlerError = IllegalState(schemaFullName: string)

  /** `handleAvroRecord`: a page view or a purchase, anything else throws. */
  function HandleAvroRecord(record: AvroRecord): Result<Outcome, HandlerError>
  {
    match record
    case PageViewRecord(pv) => Ok(FoundPageView(pv))
    case PurchaseRecord(p) => Ok(FoundPurchase(p))
    case OtherRecord(name) => Err(IllegalState(name))
  }

  /** `handleJsonSchemaRecord`: a page view or a purchase, anything else is only reported. */
  function HandleJsonSchemaRecord(value: JsonValue): Outcome
  {
    match value
    case JsonPageView(pv) => FoundPageView(pv)
    case JsonPurchase(p) => FoundPurchase(p)
    case OtherJsonObject(text) => Unrecognized(text)
  }

  /** The body of the Protobuf `forEach`: the switch on `getActionCase()`. */
  function HandleProtobufRecord(event: ProtoCustomerEvent): Outcome
  {
    match GetActionCase(event)
    case PURCHASE => FoundPurchase(GetPurchase(event))
    case PAGE_VIEW => FoundPageView(GetPageView(event))
    case ACTION_NOT_SET => ActionNotSet
  }

  /** The Avro handler accepts exactly the two event types and fails on every other record with its full name. */
  lemma AvroClassification(record: AvroRecord)
    ensures HandleAvroRecord(record).Ok? <==> record.PageViewRecord? || record.PurchaseRecord?
    ensures record.PageViewRecord? ==> HandleAvroRecord(record) == Ok(FoundPageView(record.pageView))
    ensures record.PurchaseRecord? ==> HandleAvroRecord(record) == Ok(FoundPurchase(record.purchase))
    ensures record.OtherRecord? ==> HandleAvroRecord(record) == Err(IllegalState(record.schemaFullName))
    ensures HandleAvroRecord(record).Ok? ==>
      !HandleAvroRecord(record).value.ActionNotSet? && !HandleAvroRecord(record).value.Unrecognized?
  {
  }

  /** The JSON-Schema handler never fails on a non-null value: unknown objects become an "unrecognized" outcome. */
  lemma JsonClassification(value: JsonValue)
    ensures HandleJsonSchemaRecord(value).Unrecognized? <==> value.OtherJsonObject?
    ensures value.JsonPageView? ==> HandleJsonSchemaRecord(value) == FoundPageView(value.pageView)
    ensures value.JsonPurchase? ==> HandleJsonSchemaRecord(value) == FoundPurchase(value.purchase)
    ensures !HandleJsonSchemaRecord(value).ActionNotSet?
  {
  }

  /** The Protobuf switch covers every action case; "not set" is a normal outcome and nothing is unrecognized. */
  lemma ProtobufClassification(event: ProtoCustomerEvent)
    ensures HandleProtobufRecord(event) == ActionNotSet <==> GetActionCase(event) == ACTION_NOT_SET
    ensures event.action.PurchaseAction? ==> HandleProtobufRecord(event) == FoundPurchase(event.action.purchase)
    ensures event.action.PageViewAction? ==> HandleProtobufRecord(event) == FoundPageView(event.action.pageView)
    ensures !HandleProtobufRecord(event).Unrecognized?
  {
  }

  /** The same page view or purchase gets the same outcome under all three conventions, wrapped or not. */
  lemma CrossConventionAgreement(id: string, pv: PageView, p: Purchase)
    ensures HandleAvroRecord(PageViewRecord(pv)) == Ok(HandleJsonSchemaRecord(JsonPageView(pv)))
    ensures HandleJsonSchemaRecord(JsonPageView(pv)) == HandleProtobufRecord(ProtoCustomerEvent(id, PageViewAction(pv)))
    ensures HandleAvroRecord(PurchaseRecord(p)) == Ok(HandleJsonSchemaRecord(JsonPurchase(p)))
    ensures HandleJsonSchemaRecord(JsonPurchase(p)) == HandleProtobufRecord(ProtoCustomerEvent(id, PurchaseAction(p)))
    ensures HandleAvroRecord(CustomerEvent(id, PageViewRecord(pv)).action) == HandleAvroRecord(PageViewRecord(pv))
    ensures HandleAvroRecord(CustomerEvent(id, PurchaseRecord(p)).action) == HandleAvroRecord(PurchaseRecord(p))
  {
  }

  /** The outcomes logged by an Avro `forEach`, and the exception that ended it, if any. */
  datatype AvroRun = AvroRun(handled: seq<Outcome>, failure: Option<HandlerError>)

  /** `handled` reported before the outcomes of `rest`. */
  function Prepend(handled: seq<Outcome>, rest: AvroRun): AvroRun
  {
    AvroRun(handled + rest.handled, rest.failure)
  }

  /** Records handled one at a time in poll order; the first exception ends the `forEach`. */
  function HandleAvroAll(records: seq<AvroRecord>): AvroRun
    decreases |records|
  {
    if records == [] then AvroRun([], None)
    else match HandleAvroRecord(records[0])
      case Ok(o) => Prepend([o], HandleAvroAll(records[1..]))
      case Err(e) => AvroRun([], Some(e))
  }

  /**
   * An Avro run handles a prefix of the records in order; it fails exactly
   * when some record is neither a page view nor a purchase, and then with
   * the first such record's full name, right after handling all before it.
   */
  lemma {:induction false} HandleAvroAllSpec(records: seq<AvroRecord>)
    ensures var run := HandleAvroAll(records);
      && |run.handled| <= |records|
      && (forall i :: 0 <= i < |run.handled| ==> HandleAvroRecord(records[i]) == Ok(run.handled[i]))
      && (run.failure.None? <==> forall i :: 0 <= i < |records| ==> HandleAvroRecord(records[i]).Ok?)
      && (run.failure.None? ==> |run.handled| == |records|)
      && (run.failure.Some? ==>
            |run.handled| < |records| && HandleAvroRecord(records[|run.handled|]) == Err(run.failure.value))
    decreases |records|
  {
    if records != [] {
      HandleAvroAllSpec(records[1..]);
      var rest := HandleAvroAll(records[1..]);
      match HandleAvroRecord(records[0])
      case Ok(o) =>
        assert HandleAvroAll(records) == AvroRun([o] + rest.handled, rest.failure);
        forall i | 0 < i < |records| ensures records[i] == records[1..][i - 1] { }
        if rest.failure.None? {
          assert forall i :: 0 <= i < |records| ==> HandleAvroRecord(records[i]).Ok? by {
            forall i | 0 <= i < |records| ensures HandleAvroRecord(records[i]).Ok? {
              if i > 0 { assert records[i] == records[1..][i - 1]; }
            }
          }
        } else {
          var j := |rest.handled|;
          assert records[1..][j] == records[j + 1];
        }
      case Err(e) =>
    }
  }

  /** Advancing one record in an Avro run. */
  lemma AvroRunStep(records: seq<AvroRecord>, i: nat, handled: seq<Outcome>)
    requires i < |records|
    ensures HandleAvroRecord(records[i]).Ok? ==>
      Prepend(handled, HandleAvroAll(records[i..])) ==
      Prepend(handled + [HandleAvroRecord(records[i]).value], HandleAvroAll(records[i + 1..]))
    ensures HandleAvroRecord(records[i]).Err? ==>
      Prepend(handled, HandleAvroAll(records[i..])) == AvroRun(handled, Some(HandleAvroRecord(records[i]).error))
  {
    assert records[i..][0] == records[i];
    assert records[i..][1..] == records[i + 1..];
  }

  /** The record actions a wrapped-Avro consumer passes to the handler. */
  function Actions(events: seq<CustomerEvent>): seq<AvroRecord>
  {
    seq(|events|, i requires 0 <= i < |events| => events[i].action)
  }

  /** `consumeAvroUnwrappedRecords`: configure, then hand every polled record to `handleAvroRecord`. */
  method ConsumeAvroUnwrappedRecords(baseConfigs: Configs, polled: seq<AvroRecord>)
    returns (consumerConfigs: Configs, handled: seq<Outcome>, failure: Option<HandlerError>)
    ensures OverridesOf(baseConfigs, consumerConfigs, AvroUnwrappedOverrides())
    ensures AvroRun(handled, failure) == HandleAvroAll(polled)
  {
    consumerConfigs := baseConfigs;
    consumerConfigs := consumerConfigs[VALUE_DESERIALIZER := ClassValue(AVRO_DESERIALIZER)];
    consumerConfigs := consumerConfigs[SPECIFIC_AVRO_READER := BoolValue(true)];
    consumerConfigs := consumerConfigs[GROUP_ID := StringValue("unwrapped-avro-group")];
    handled, failure := [], None;
    var i := 0;
    while i < |polled|
      invariant 0 <= i <= |polled|
      invariant HandleAvroAll(polled) == Prepend(handled, HandleAvroAll(polled[i..]))
    {
      AvroRunStep(polled, i, handled);
      var result := HandleAvroRecord(polled[i]);
      if result.Err? {
        failure := Some(result.error);
        return;
      }
      handled := handled + [result.value];
      i := i + 1;
    }
    assert polled[i..] == [];
  }

  /** `consumeAvroSpecificRecords`: configure, then unwrap each event's `action` and hand it to `handleAvroRecord`. */
  method ConsumeAvroSpecificRecords(baseConfigs: Configs, polled: seq<CustomerEvent>)
    returns (consumerConfigs: Configs, handled: seq<Outcome>, failure: Option<HandlerError>)
    ensures OverridesOf(baseConfigs, consumerConfigs, AvroWrappedOverrides())
    ensures AvroRun(handled, failure) == HandleAvroAll(Actions(polled))
  {
    consumerConfigs := baseConfigs;
    consumerConfigs := consumerConfigs[VALUE_DESERIALIZER := ClassValue(AVRO_DESERIALIZER)];
    consumerConfigs := consumerConfigs[SPECIFIC_AVRO_READER := BoolValue(true)];
    consumerConfigs := consumerConfigs[GROUP_ID := StringValue("wrapped-avro-group")];
    ghost var actions := Actions(polled);
    handled, failure := [], None;
    var i := 0;
    while i < |polled|
      invariant 0 <= i <= |polled|
      invariant HandleAvroAll(actions) == Prepend(handled, HandleAvroAll(actions[i..]))
    {
      var customerEvent := polled[i];
      var action := customerEvent.action;
      AvroRunStep(actions, i, handled);
      var result := HandleAvroRecord(action);
      if result.Err? {
        failure := Some(result.error);
        return;
      }
      handled := handled + [result.value];
      i := i + 1;
    }
    assert actions[i..] == [];
  }

  /** `consumeJsonSchemaRecords`: configure, then classify every polled value; on non-null values nothing stops the loop. */
  method ConsumeJsonSchemaRecords(baseConfigs: Configs, polled: seq<JsonValue>)
    returns (consumerConfigs: Configs, handled: seq<Outcome>)
    ensures OverridesOf(baseConfigs, consumerConfigs, JsonSchemaOverrides())
    ensures |handled| == |polled|
    ensures forall i :: 0 <= i < |polled| ==> handled[i] == HandleJsonSchemaRecord(polled[i])
  {
    consumerConfigs := baseConfigs;
    consumerConfigs := consumerConfigs[VALUE_DESERIALIZER := ClassValue(JSON_SCHEMA_DESERIALIZER)];
    consumerConfigs := consumerConfigs[JSON_TYPE_PROPERTY := StringValue("javaTypeName")];
    consumerConfigs := consumerConfigs[GROUP_ID := StringValue("json-schema-group")];
    handled := [];
    var i := 0;
    while i < |polled|
      invariant 0 <= i <= |polled|
      invariant |handled| == i
      invariant forall j :: 0 <= j < i ==> handled[j] == HandleJsonSchemaRecord(polled[j])
    {
      handled := handled + [HandleJsonSchemaRecord(polled[i])];
      i := i + 1;
    }
  }

  /** `consumeProtobufRecords`: configure, then switch on each event's action case. */
  method ConsumeProtobufRecords(baseConfigs: Configs, polled: seq<ProtoCustomerEvent>)
    returns (consumerConfigs: Configs, handled: seq<Outcome>)
    ensures OverridesOf(baseConfigs, consumerConfigs, ProtobufOverrides())
    ensures |handled| == |polled|
    ensures forall i :: 0 <= i < |polled| ==> handled[i] == HandleProtobufRecord(polled[i])
  {
    consumerConfigs := baseConfigs;
    consumerConfigs := consumerConfigs[VALUE_DESERIALIZER := ClassValue(PROTOBUF_DESERIALIZER)];
    consumerConfigs := consumerConfigs[SPECIFIC_PROTOBUF_VALUE_TYPE := ClassValue(PROTO_CUSTOMER_EVENT)];
    consumerConfigs := consumerConfigs[GROUP_ID := StringValue("proto-group")];
    handled := [];
    var i := 0;
    while i < |polled|
      invariant 0 <= i <= |polled|
      invariant |handled| == i
      invariant forall j :: 0 <= j < i ==> handled[j] == HandleProtobufRecord(polled[j])
    {
      var customerEvent := polled[i];
      handled := handled + [HandleProtobufRecord(customerEvent)];
      i := i + 1;
    }
  }

  /** A wrapped topic and an unwrapped topic carrying the same actions are handled identically. */
  lemma WrappedMatchesUnwrapped(events: seq<CustomerEvent>, records: seq<AvroRecord>)
    requires |events| == |records|
    requires forall i :: 0 <= i < |events| ==> events[i].action == records[i]
    ensures HandleAvroAll(Actions(events)) == HandleAvroAll(records)
  {
    assert Actions(events) == records;
  }

  /** The unwrapped Avro topic as the producer fills it: the purchase, then the page view, both recognised. */
  lemma AvroFixtureRun()
    ensures HandleAvroAll([PurchaseRecord(Data.AvroPurchase()), PageViewRecord(Data.AvroPageView())])
         == AvroRun([FoundPurchase(Data.AvroPurchase()), FoundPageView(Data.AvroPageView())], None)
  {
    var records := [PurchaseRecord(Data.AvroPurchase()), PageViewRecord(Data.AvroPageView())];
    assert records[1..] == [PageViewRecord(Data.AvroPageView())];
    assert records[1..][1..] == [];
  }
}
