/**
 * DataProducer: builds the two events (a purchase, then a page view) for
 * each wire convention and sends one keyed record per event, in list order.
 * The send itself and its callback belong to the Kafka client; what is
 * modelled is the list of records handed to `send`.
 */
module DataProducer {
  import opened Wrappers
  import opened Schemas
  import Data

  /** A `ProducerRecord(topic, key, value)`. */
  datatype ProducerRecord<V> = ProducerRecord(topic: string, key: string, value: V)

  /** The customer id of the payload a Protobuf envelope carries, if it carries one. */
  function ProtoPayloadCustomerId(event: ProtoCustomerEvent): Option<string>
  {
    match event.action
    case PurchaseAction(p) => Some(p.customerId)
    case PageViewAction(pv) => Some(pv.customerId)
    case NoAction => None
  }

  /** `record.get("customer_id")` on an Avro record; only the two event types have that field. */
  function CustomerIdField(record: AvroRecord): Option<string>
  {
    match record
    case PageViewRecord(pv) => Some(pv.customerId)
    case PurchaseRecord(p) => Some(p.customerId)
    case OtherRecord(_) => None
  }

  /** `CustomerEventProto.CustomerEvent.Builder`: an `id` and the `oneof action`, both starting at their defaults. */
  class ProtoCustomerEventBuilder {
    var id: string
    var action: ProtoAction

    /** `newBuilder()`. */
    constructor ()
      ensures id == "" && action == NoAction
    {
      id, action := "", NoAction;
    }

    /** `setPurchase`: the purchase becomes the set field of the `oneof`. */
    method SetPurchase(purchase: Purchase)
      modifies this
      ensures action == PurchaseAction(purchase) && id == old(id)
    {
      action := PurchaseAction(purchase);
    }

    /** `setPageView`: the page view becomes the set field of the `oneof`. */
    method SetPageView(pageView: PageView)
      modifies this
      ensures action == PageViewAction(pageView) && id == old(id)
    {
      action := PageViewAction(pageView);
    }

    /** `setId`. */
    method SetId(newId: string)
      modifies this
      ensures id == newId && action == old(action)
    {
      id := newId;
    }

    /** `clear()`: every field back to its default. */
    method Clear()
      modifies this
      ensures id == "" && action == NoAction
    {
      id, action := "", NoAction;
    }

    /** `build()`: a snapshot of the fields set so far. */
    method Build() returns (event: ProtoCustomerEvent)
      ensures event.id == id && event.action == action
    {
      event := ProtoCustomerEvent(id, action);
    }
  }

  /** The Avro `CustomerEvent.Builder`: neither field is set until its setter is called. */
  class CustomerEventBuilder {
    var id: Option<string>
    var action: Option<AvroRecord>

    /** `CustomerEvent.newBuilder()`. */
    constructor ()
      ensures id == None && action == None
    {
      id, action := None, None;
    }

    /** `setAction`: replaces whatever action was set before. */
    method SetAction(newAction: AvroRecord)
      modifies this
      ensures action == Some(newAction) && id == old(id)
    {
      action := Some(newAction);
    }

    /** `setId`. */
    method SetId(newId: string)
      modifies this
      ensures id == Some(newId) && action == old(action)
    {
      id := Some(newId);
    }

    /** `build()`: Avro requires both fields to have been set. */
    method Build() returns (event: CustomerEvent)
      requires id.Some? && action.Some?
      ensures event.id == id.value && event.action == action.value
    {
      event := CustomerEvent(id.value, action.value);
    }
  }

  /**
   * `produceProtobuf`: one reused builder; the purchase envelope, then
   * `clear()`, then the page-view envelope; each envelope's id is its
   * payload's customer id and each record's key is the envelope's id.
   */
  method ProduceProtobuf(topic: string, purchase: Purchase, pageView: PageView)
    returns (records: seq<ProducerRecord<ProtoCustomerEvent>>)
    ensures records == [
      ProducerRecord(topic, purchase.customerId, ProtoCustomerEvent(purchase.customerId, PurchaseAction(purchase))),
      ProducerRecord(topic, pageView.customerId, ProtoCustomerEvent(pageView.customerId, PageViewAction(pageView)))]
    ensures forall i :: 0 <= i < |records| ==>
      records[i].topic == topic && records[i].key == records[i].value.id
      && ProtoPayloadCustomerId(records[i].value) == Some(records[i].value.id)
  {
    var events: seq<ProtoCustomerEvent> := [];
    var builder := new ProtoCustomerEventBuilder();
    builder.SetPurchase(purchase);
    builder.SetId(purchase.customerId);
    var first := builder.Build();
    events := events + [first];
    builder.Clear();
    builder.SetPageView(pageView);
    builder.SetId(pageView.customerId);
    var second := builder.Build();
    events := events + [second];

    records := [];
    var i := 0;
    while i < |events|
      invariant 0 <= i <= |events|
      invariant |records| == i
      invariant forall j :: 0 <= j < i ==> records[j] == ProducerRecord(topic, events[j].id, events[j])
    {
      var event := events[i];
      records := records + [ProducerRecord(topic, event.id, event)];
      i := i + 1;
    }
  }

  /**
   * `produceAvroWrapped`: one reused builder, no `clear()`; the second
   * `setAction` replaces the first, so each envelope holds the action set
   * just before its `build()`, with that action's customer id.
   */
  method ProduceAvroWrapped(topic: string, purchase: Purchase, pageView: PageView)
    returns (records: seq<ProducerRecord<CustomerEvent>>)
    ensures records == [
      ProducerRecord(topic, purchase.customerId, CustomerEvent(purchase.customerId, PurchaseRecord(purchase))),
      ProducerRecord(topic, pageView.customerId, CustomerEvent(pageView.customerId, PageViewRecord(pageView)))]
    ensures forall i :: 0 <= i < |records| ==>
      records[i].topic == topic && records[i].key == records[i].value.id
      && CustomerIdField(records[i].value.action) == Some(records[i].value.id)
  {
    var events: seq<CustomerEvent> := [];
    var builder := new CustomerEventBuilder();
    builder.SetAction(PurchaseRecord(purchase));
    builder.SetId(purchase.customerId);
    var eventOne := builder.Build();
    events := events + [eventOne];
    builder.SetAction(PageViewRecord(pageView));
    builder.SetId(pageView.customerId);
    var eventTwo := builder.Build();
    events := events + [eventTwo];

    records := [];
    var i := 0;
    while i < |events|
      invariant 0 <= i <= |events|
      invariant |records| == i
      invariant forall j :: 0 <= j < i ==> records[j] == ProducerRecord(topic, events[j].id, events[j])
    {
      var event := events[i];
      records := records + [ProducerRecord(topic, event.id, event)];
      i := i + 1;
    }
  }

  /** `produceAvro`: the bare records, purchase first, each keyed by its own `customer_id` field. */
  method ProduceAvro(topic: string, purchase: Purchase, pageView: PageView)
    returns (records: seq<ProducerRecord<AvroRecord>>)
    ensures records == [
      ProducerRecord(topic, purchase.customerId, PurchaseRecord(purchase)),
      ProducerRecord(topic, pageView.customerId, PageViewRecord(pageView))]
    ensures forall i :: 0 <= i < |records| ==>
      records[i].topic == topic && CustomerIdField(records[i].value) == Some(records[i].key)
  {
    var events := [PurchaseRecord(purchase), PageViewRecord(pageView)];
    records := [];
    var i := 0;
    while i < |events|
      invariant 0 <= i <= |events|
      invariant |records| == i
      invariant forall j :: 0 <= j < i ==>
        CustomerIdField(events[j]).Some? && records[j] == ProducerRecord(topic, CustomerIdField(events[j]).value, events[j])
    {
      var event := events[i];
      var key := CustomerIdField(event).value;
      records := records + [ProducerRecord(topic, key, event)];
      i := i + 1;
    }
  }

  /**
   * The producer run over the fixtures of `Data`: every record of every
   * topic carries the key "vandelay1234", and each topic gets the purchase
   * first and the page view second.
   */
  method ProduceFixtures(protoTopic: string, wrappedTopic: string, avroTopic: string)
    returns (proto: seq<ProducerRecord<ProtoCustomerEvent>>,
             wrapped: seq<ProducerRecord<CustomerEvent>>,
             bare: seq<ProducerRecord<AvroRecord>>)
    ensures |proto| == |wrapped| == |bare| == 2
    ensures forall i :: 0 <= i < 2 ==>
      proto[i].key == "vandelay1234" && wrapped[i].key == "vandelay1234" && bare[i].key == "vandelay1234"
    ensures forall i :: 0 <= i < 2 ==> proto[i].value.id == "vandelay1234" && wrapped[i].value.id == "vandelay1234"
    ensures proto[0].value.action == PurchaseAction(Data.ProtoPurchase())
    ensures proto[1].value.action == PageViewAction(Data.ProtoPageView())
    ensures wrapped[0].value.action == PurchaseRecord(Data.AvroPurchase())
    ensures wrapped[1].value.action == PageViewRecord(Data.AvroPageView())
    ensures bare[0].value == PurchaseRecord(Data.AvroPurchase()) && bare[1].value == PageViewRecord(Data.AvroPageView())
  {
    wrapped := ProduceAvroWrapped(wrappedTopic, Data.AvroPurchase(), Data.AvroPageView());
    bare := ProduceAvro(avroTopic, Data.AvroPurchase(), Data.AvroPageView());
    proto := ProduceProtobuf(protoTopic, Data.ProtoPurchase(), Data.ProtoPageView());
  }
}
