# Multi-event Kafka example: a verified model

This project models the logic inside a Kafka example that puts several
event types (a `PageView` and a `Purchase` of one customer) on one topic
under three wire conventions, consumes them back, and aggregates them per
customer with a Kafka Streams value transformer.

- `schemas.dfy` (module `Schemas`): the decoded values of the generated
  Avro, JSON-Schema and Protobuf classes: `PageView`, `Purchase`, an Avro
  `SpecificRecord` (`AvroRecord`), the Avro wrapper `CustomerEvent` with
  one `action` slot, the Protobuf `CustomerEvent` with its `oneof`, its
  `ActionCase`, and the aggregate `CustomerInfo`.
- `data.dfy` (module `Data`): the fixture values.
- `streams.dfy` (module `MultiEventStreams`): the transformer of the
  streams application. `Apply`, `Step` and `Run` are the specification: one
  event folded into an aggregate, one `transform` call on the store's
  contents, and a whole run of calls in partition order. `KeyValueStore`,
  `EventValueTransformerSupplier` and `EventValueTransformer` are the
  classes the source mutates. `Transform` is proved against `Step`, and the
  lemmas about `Run` give order preservation, partitioning by variant,
  isolation between keys and the invariant that every stored aggregate's
  `customerId` equals its key.
- `consumer.dfy` (module `MultiEventConsumer`): the three handlers as pure
  classifications into one closed `Outcome` type, and the four `consume*`
  methods. Each copies the base configuration, puts its own overrides, and
  handles the polled records one at a time in poll order. The Avro loop
  stops at the first `IllegalStateException`; on non-null values the
  JSON-Schema and Protobuf loops never stop.
- `producer.dfy` (module `DataProducer`): the Avro wrapper builder and the
  Protobuf builder as classes that are mutated and reused, and the three
  `produce*` methods, which build the envelopes and the keyed records in
  list order.
- `wrappers.dfy` (module `Wrappers`): `Option` and `Result`.

The model follows the code in these points of its error behaviour and state handling:

- An unknown JSON-Schema object is only reported, not rejected as an unknown schema.
- An unknown Avro record type is a hard failure (`IllegalState` with the schema's full name).
- A Protobuf event with no action set is a normal outcome (`ActionNotSet`).
- The streams transformer decodes nothing and can raise no unknown-type error. A value that is neither a page
  view nor a purchase leaves the aggregate unchanged, but it is still put: an absent key gains a fresh entry
  (`StepOnOtherRecord`).
- The consumers only classify and report. They do not feed the aggregator.

## Model

| member | source | states |
|---|---|---|
| `MultiEventStreams.NewCustomerInfo` | src/main/java/io/confluent/developer/streams/MultiEventKafkaStreamsExample.java:91 | the definition of the fresh aggregate (the key as customerId, empty lists); `RunPreservesKeyed` and `SingleCustomerFold` are about it |
| `MultiEventStreams.GetOrCreate` | src/main/java/io/confluent/developer/streams/MultiEventKafkaStreamsExample.java:89-92 | the definition of get-or-create; `Transform` and `RunAggregate` are stated with it |
| `MultiEventStreams.Apply` | src/main/java/io/confluent/developer/streams/MultiEventKafkaStreamsExample.java:93-100 | the definition of folding one value; `ApplyAppends` is the lemma about it |
| `MultiEventStreams.Step` | src/main/java/io/confluent/developer/streams/MultiEventKafkaStreamsExample.java:88-104 | the definition of one `transform` call on the store's contents; `Transform` is proved equal to it and `StepIsolation`, `StepOnOtherRecord` are about it |
| `MultiEventStreams.Run` | src/main/java/io/confluent/developer/streams/MultiEventKafkaStreamsExample.java:88-104 | the definition of successive `transform` calls in arrival order; `RunDomain`, `RunAggregate`, `RunAt`, `RunPreservesKeyed` and `Isolation` are about it |
| `MultiEventStreams.KeyValueStore.constructor` | src/main/java/io/confluent/developer/streams/MultiEventKafkaStreamsExample.java:45-46 | a new in-memory store holds no entries |
| `MultiEventStreams.EventValueTransformer.Transform` | src/main/java/io/confluent/developer/streams/MultiEventKafkaStreamsExample.java:88-104 | the aggregate is the stored one when the key is present, else a fresh one whose customerId is the record key; exactly the page view's url or the purchase's item is appended; the store afterwards maps the record key to the returned value and every other key is unchanged; the customerId-equals-key invariant is kept |
| `MultiEventStreams.EventValueTransformer.Init` | src/main/java/io/confluent/developer/streams/MultiEventKafkaStreamsExample.java:83-85 | binds the store registered under the supplier's store name |
| `MultiEventStreams.EventValueTransformer.constructor` | src/main/java/io/confluent/developer/streams/MultiEventKafkaStreamsExample.java:80-81 | a new transformer knows the store name and has no store yet |
| `MultiEventStreams.EventValueTransformerSupplier.constructor` | src/main/java/io/confluent/developer/streams/MultiEventKafkaStreamsExample.java:74-76 | the supplier remembers the store name |
| `MultiEventStreams.EventValueTransformerSupplier.Get` | src/main/java/io/confluent/developer/streams/MultiEventKafkaStreamsExample.java:79-80 | returns a fresh transformer for the same store name, with no store bound |
| `MultiEventStreams.KeyValueStore.Get` | src/main/java/io/confluent/developer/streams/MultiEventKafkaStreamsExample.java:89 | returns a value exactly when the key is stored, and then the stored aggregate |
| `MultiEventStreams.KeyValueStore.Put` | src/main/java/io/confluent/developer/streams/MultiEventKafkaStreamsExample.java:101 | replaces the entry for the key and no other |
| `MultiEventStreams.ApplyAppends` | src/main/java/io/confluent/developer/streams/MultiEventKafkaStreamsExample.java:93-100 | one fold keeps the customerId and appends exactly the value's url (page view) or item (purchase); any other value leaves the aggregate equal |
| `MultiEventStreams.ApplyAllAppends` | src/main/java/io/confluent/developer/streams/MultiEventKafkaStreamsExample.java:88-104 | folding a sequence appends the in-order urls of its page views to pageViews and the in-order items of its purchases to items |
| `MultiEventStreams.StepIsolation` | src/main/java/io/confluent/developer/streams/MultiEventKafkaStreamsExample.java:89-101 | a transform on one key neither adds, removes nor changes the entry of any other key |
| `MultiEventStreams.StepOnOtherRecord` | src/main/java/io/confluent/developer/streams/MultiEventKafkaStreamsExample.java:93-103 | an unrecognised value leaves an existing store unchanged and gives an absent key a fresh entry |
| `MultiEventStreams.RunDomain` | src/main/java/io/confluent/developer/streams/MultiEventKafkaStreamsExample.java:89-101 | the keys stored after a run are those stored before plus the keys the records carry; nothing is ever deleted |
| `MultiEventStreams.RunAggregate` | src/main/java/io/confluent/developer/streams/MultiEventKafkaStreamsExample.java:88-104 | a stored key's aggregate after a run is its earlier (or fresh) aggregate with only that key's values folded in, in arrival order |
| `MultiEventStreams.RunAt` | src/main/java/io/confluent/developer/streams/MultiEventKafkaStreamsExample.java:88-104 | after a run, a key is stored exactly when it was stored before or occurs in the records, and its aggregate is its earlier (or fresh) aggregate with only that key's values folded in, in arrival order |
| `MultiEventStreams.RunPreservesKeyed` | src/main/java/io/confluent/developer/streams/MultiEventKafkaStreamsExample.java:88-101 | the invariant "every stored aggregate's customerId is its key" survives any run of records |
| `MultiEventStreams.SingleCustomerFold` | src/main/java/io/confluent/developer/streams/MultiEventKafkaStreamsExample.java:88-104 | one customer's events folded into an empty store give the aggregate (key, in-order urls, in-order items) |
| `MultiEventStreams.ValuesForAll` | src/main/java/io/confluent/developer/streams/MultiEventKafkaStreamsExample.java:88-89 | when every record carries the key, the values looked up for that key are all the values in order |
| `MultiEventStreams.ValuesForPresent` | src/main/java/io/confluent/developer/streams/MultiEventKafkaStreamsExample.java:88-89 | a key has values in a run of records exactly when some record carries it |
| `MultiEventStreams.Isolation` | src/main/java/io/confluent/developer/streams/MultiEventKafkaStreamsExample.java:88-104 | two runs that carry the same values for a key, and where the key was stored or has values, both hold an aggregate for it and agree on it, however other keys are interleaved |
| `MultiEventStreams.FixtureScenario` | src/main/java/io/confluent/developer/streams/MultiEventKafkaStreamsExample.java:88-104 | the page-view fixture then the purchase fixture give exactly one aggregate: "vandelay1234" with the sale url and the flux capacitor |
| `MultiEventStreams.InterleavedScenario` | src/main/java/io/confluent/developer/streams/MultiEventKafkaStreamsExample.java:88-104 | two customers' interleaved records give two separate aggregates, each with only its own urls and items |
| `MultiEventStreams.TransformFixtures` | src/main/java/io/confluent/developer/streams/MultiEventKafkaStreamsExample.java:44-54 | a transformer bound to "the_store" returns the purchase-only aggregate, then the aggregate holding both fixtures |
| `Schemas.GetPurchase` | src/main/java/io/confluent/developer/clients/MultiEventConsumer.java:129 | the definition of `getPurchase()`: the set purchase, or Protobuf's default instance; `ProtobufClassification` is the lemma about it |
| `Schemas.GetPageView` | src/main/java/io/confluent/developer/clients/MultiEventConsumer.java:132 | the definition of `getPageView()`: the set page view, or Protobuf's default instance; `ProtobufClassification` is the lemma about it |
| `Schemas.GetActionCase` | src/main/java/io/confluent/developer/clients/MultiEventConsumer.java:126 | the action case is ACTION_NOT_SET exactly when no action is set, and PURCHASE exactly when the purchase is set |
| `MultiEventConsumer.WithConsumerDefaults` | src/main/java/io/confluent/developer/clients/MultiEventConsumer.java:37-38 | the base configuration is the loaded properties with the string key deserializer and `earliest` put over them |
| `MultiEventConsumer.ConsumerGroups` | src/main/java/io/confluent/developer/clients/MultiEventConsumer.java:48-119 | the four consumers' group ids are pairwise distinct and none overrides the key deserializer or the offset reset |
| `MultiEventConsumer.DefaultsSurviveOverrides` | src/main/java/io/confluent/developer/clients/MultiEventConsumer.java:37-51 | a consumer configuration built over the base keeps the string key deserializer and `earliest` |
| `MultiEventConsumer.HandleAvroRecord` | src/main/java/io/confluent/developer/clients/MultiEventConsumer.java:103-113 | the definition of `handleAvroRecord`; `AvroClassification` and `CrossConventionAgreement` are the lemmas about it |
| `MultiEventConsumer.HandleJsonSchemaRecord` | src/main/java/io/confluent/developer/clients/MultiEventConsumer.java:91-101 | the definition of `handleJsonSchemaRecord`; `JsonClassification` and `CrossConventionAgreement` are the lemmas about it |
| `MultiEventConsumer.HandleProtobufRecord` | src/main/java/io/confluent/developer/clients/MultiEventConsumer.java:124-137 | the definition of the `ActionCase` switch in the Protobuf `forEach`; `ProtobufClassification` and `CrossConventionAgreement` are the lemmas about it |
| `MultiEventConsumer.HandleAvroAll` | src/main/java/io/confluent/developer/clients/MultiEventConsumer.java:56 | the definition of an Avro `forEach` that the first exception ends; `HandleAvroAllSpec` is the lemma about it |
| `MultiEventConsumer.AvroClassification` | src/main/java/io/confluent/developer/clients/MultiEventConsumer.java:103-113 | the Avro handler succeeds exactly on page views and purchases, with the matching outcome, and fails on any other record with its schema's full name |
| `MultiEventConsumer.JsonClassification` | src/main/java/io/confluent/developer/clients/MultiEventConsumer.java:91-101 | the JSON-Schema handler never fails on a non-null value; it is "unrecognized" exactly for objects of another type |
| `MultiEventConsumer.ProtobufClassification` | src/main/java/io/confluent/developer/clients/MultiEventConsumer.java:126-137 | the Protobuf switch covers every action case: purchase and page view give their payloads, "not set" is a normal outcome, nothing is unrecognized |
| `MultiEventConsumer.CrossConventionAgreement` | src/main/java/io/confluent/developer/clients/MultiEventConsumer.java:91-137 | the same page view or purchase gets the same outcome under Avro, JSON-Schema and Protobuf, and inside the Avro wrapper |
| `MultiEventConsumer.HandleAvroAllSpec` | src/main/java/io/confluent/developer/clients/MultiEventConsumer.java:56-113 | an Avro run handles a prefix of the records in order; it fails exactly when some record is of another type, and then with the first such record's full name, right after all records before it |
| `MultiEventConsumer.ConsumeAvroUnwrappedRecords` | src/main/java/io/confluent/developer/clients/MultiEventConsumer.java:47-58 | configuration is the base with its three overrides; the outcomes and the failure are those of handling the polled records in order, stopping at the first exception |
| `MultiEventConsumer.ConsumeAvroSpecificRecords` | src/main/java/io/confluent/developer/clients/MultiEventConsumer.java:60-76 | configuration is the base with its three overrides; each event's action is handed to the same handler as the unwrapped topic, in poll order |
| `MultiEventConsumer.ConsumeJsonSchemaRecords` | src/main/java/io/confluent/developer/clients/MultiEventConsumer.java:78-89 | configuration is the base with its three overrides; one outcome per polled record, in poll order |
| `MultiEventConsumer.ConsumeProtobufRecords` | src/main/java/io/confluent/developer/clients/MultiEventConsumer.java:115-140 | configuration is the base with its three overrides; one action-case outcome per polled event, in poll order |
| `MultiEventConsumer.AvroFixtureRun` | src/main/java/io/confluent/developer/clients/MultiEventConsumer.java:47-58 | the unwrapped topic as the producer fills it (purchase, then page view) is handled completely, in that order, with no exception |
| `MultiEventConsumer.WrappedMatchesUnwrapped` | src/main/java/io/confluent/developer/clients/MultiEventConsumer.java:56-73 | a wrapped topic whose actions are the records of an unwrapped topic is handled identically |
| `DataProducer.ProtoCustomerEventBuilder.constructor` | src/main/java/io/confluent/developer/clients/DataProducer.java:59 | a new Protobuf builder has the default id and no action |
| `DataProducer.ProtoCustomerEventBuilder.SetPurchase` | src/main/java/io/confluent/developer/clients/DataProducer.java:60 | the purchase becomes the set field of the oneof; the id is untouched |
| `DataProducer.ProtoCustomerEventBuilder.SetPageView` | src/main/java/io/confluent/developer/clients/DataProducer.java:63 | the page view becomes the set field of the oneof, replacing any purchase; the id is untouched |
| `DataProducer.ProtoCustomerEventBuilder.SetId` | src/main/java/io/confluent/developer/clients/DataProducer.java:60 | sets the id; the action is untouched |
| `DataProducer.ProtoCustomerEventBuilder.Clear` | src/main/java/io/confluent/developer/clients/DataProducer.java:62 | every field returns to its default |
| `DataProducer.ProtoCustomerEventBuilder.Build` | src/main/java/io/confluent/developer/clients/DataProducer.java:61 | the envelope holds exactly the builder's current id and action |
| `DataProducer.CustomerEventBuilder.constructor` | src/main/java/io/confluent/developer/clients/DataProducer.java:83 | a new Avro wrapper builder has neither field set |
| `DataProducer.CustomerEventBuilder.SetAction` | src/main/java/io/confluent/developer/clients/DataProducer.java:84-86 | the new action replaces any earlier one; the id is untouched |
| `DataProducer.CustomerEventBuilder.SetId` | src/main/java/io/confluent/developer/clients/DataProducer.java:84-86 | sets the id; the action is untouched |
| `DataProducer.CustomerEventBuilder.Build` | src/main/java/io/confluent/developer/clients/DataProducer.java:84 | the envelope holds exactly the id and action set so far |
| `DataProducer.CustomerIdField` | src/main/java/io/confluent/developer/clients/DataProducer.java:107 | the definition of `event.get("customer_id")` on the two event types; `ProduceAvro` states its keys with it |
| `DataProducer.ProduceProtobuf` | src/main/java/io/confluent/developer/clients/DataProducer.java:49-69 | two records, purchase first; each envelope's id is its payload's customer id, each key is the envelope's id, and the second envelope carries only the page view |
| `DataProducer.ProduceAvroWrapped` | src/main/java/io/confluent/developer/clients/DataProducer.java:74-92 | two records, purchase first; each envelope holds the action set just before its build, with that action's customer id as id and as key |
| `DataProducer.ProduceAvro` | src/main/java/io/confluent/developer/clients/DataProducer.java:96-111 | two bare records, purchase first, each keyed by its own customer_id field |
| `DataProducer.ProduceFixtures` | src/main/java/io/confluent/developer/clients/DataProducer.java:39-44 | over the fixtures, every record on every topic has key "vandelay1234", the Protobuf and wrapped Avro envelopes carry id "vandelay1234", and each topic gets the purchase first and the page view second |
| `Data.AvroPageView` | src/main/java/io/confluent/developer/utils/Data.java:8-15 | the definition of `avroPageView()`; the `Data` lemmas are about it |
| `Data.AvroPurchase` | src/main/java/io/confluent/developer/utils/Data.java:17-23 | the definition of `avroPurchase()` without its amount; the `Data` lemmas are about it |
| `Data.JsonSchemaPurchase` | src/main/java/io/confluent/developer/utils/Data.java:25-30 | the definition of `jsonSchemaPurchase()` without its amount; the `Data` lemmas are about it |
| `Data.JsonSchemaPageView` | src/main/java/io/confluent/developer/utils/Data.java:32-37 | the definition of `jsonSchemaPageView()`; the `Data` lemmas are about it |
| `Data.ProtoPageView` | src/main/java/io/confluent/developer/utils/Data.java:39-45 | the definition of `protoPageView()`; the `Data` lemmas are about it |
| `Data.ProtoPurchase` | src/main/java/io/confluent/developer/utils/Data.java:47-53 | the definition of `protoPurchase()` without its amount; the `Data` lemmas are about it |
| `Data.FixturesShareOneCustomer` | src/main/java/io/confluent/developer/utils/Data.java:8-53 | every fixture has customer id "vandelay1234" |
| `Data.PageViewFixtures` | src/main/java/io/confluent/developer/utils/Data.java:8-45 | every page-view fixture has the sale url and is special |
| `Data.PurchaseFixtures` | src/main/java/io/confluent/developer/utils/Data.java:17-53 | every purchase fixture buys the flux capacitor |
| `Data.FixturesAgreeAcrossEncodings` | src/main/java/io/confluent/developer/utils/Data.java:8-53 | the "proto" and JSON-Schema fixtures equal the Avro ones field for field |

## Left out

- The `main` methods (argument checks, `System.exit`, property loading, the topology builder and its start and shutdown hook), `PropertiesLoader.load` and `Topics.main`: process bootstrap and file or admin I/O. `WithConsumerDefaults` models the two entries the consumer's `main` puts into its base configuration, and `ProduceFixtures` the order in which the producer's `main` calls the three producers.
- `poll`, `subscribe`, `send` and the asynchronous send callbacks: network clients. Polled values become parameters of the `consume*` methods; the records handed to `send` become the results of the `produce*` methods.
- Topic names read from configuration (`avro.topic`, `proto.topic`, ...): the producers take the topic as a parameter, and the consumers do not model subscription.
- The producers' own configuration copies (the value serializer and the Avro registration settings): they only choose library serializers.
- Serdes, schema registry and byte encodings: library code that is not shown. The model works on decoded values only.
- The purchase `amount` (a double): floating point that never affects any decision.
- The log lines: handlers return an `Outcome` instead of printing.
- Null (tombstone) record values: every handler dereferences its value and throws a `NullPointerException` (`toString()` at MultiEventConsumer.java:99, `getSchema()` at :111, also for a wrapped event whose action is null, `getActionCase()` at :126); the model's decoded values are never null.
- The `Data.proto*` fixtures are typed as Avro classes but used as Protobuf messages. The model keeps the logical values only.
- The configuration key strings and class names come from the Kafka and Confluent client libraries, which are not part of this model.
- `close()` of the transformer and the consumers: it does nothing, or it belongs to the client library.
- MultiEventStreams.EventValueTransformer.Init: when no store of that name is attached, Kafka Streams throws. The model leaves the store unbound instead, and `Transform` requires a bound store.
- DataProducer.CustomerEventBuilder.Build: requires both fields to be set. Avro's builder throws otherwise, but the wrapper schema is not part of this model, and the producer always sets both.
- MultiEventStreams.EventValueTransformer.Transform: models the aggregate as a value. The in-memory store is wrapped with serdes, so `get` returns a copy and the in-place `add` on its lists is visible only through the `put`. A record with a null key makes `store.get` throw a `NullPointerException` at MultiEventKafkaStreamsExample.java:89; the model's keys are never null. A null value fails both `instanceof` tests at :93 and :97 and so behaves as `OtherRecord`.
