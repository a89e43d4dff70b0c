/**
 * The per-customer aggregation of MultiEventKafkaStreamsExample: a value
 * transformer that reads the customer's `CustomerInfo` from a key-value
 * store (creating it when absent), folds one event into it, writes it back
 * under the record key and returns it.
 *
 * The pure part (Apply, Step, Run) is the specification; the classes below
 * are the store and the transformer with their in-place updates.
 */
module MultiEventStreams {
  import opened Wrappers
  import opened Schemas
  import Data

  /** A record of the input topic: its key and its Avro value. */
  datatype StreamRecord = StreamRecord(key: string, value: AvroRecord)

  /** `CustomerInfo.newBuilder().setCustomerId(key).build()`: both lists take their empty defaults. */
  function NewCustomerInfo(customerId: string): CustomerInfo
  {
    CustomerInfo(customerId, [], [])
  }

  /** The aggregate the transformer works on: the stored one, or a fresh one for the key. */
  function GetOrCreate(entries: map<string, CustomerInfo>, key: string): CustomerInfo
  {
    if key in entries then entries[key] else NewCustomerInfo(key)
  }

  /** Folds one value into an aggregate: the `instanceof` chain of `transform`. */
  function Apply(info: CustomerInfo, value: AvroRecord): CustomerInfo
  {
    match value
    case PageViewRecord(pv) => info.(pageViews := info.pageViews + [pv.url])
    case PurchaseRecord(p) => info.(items := info.items + [p.item])
    case OtherRecord(_) => info
  }

  /** One call of `transform` on the store's contents. */
  function Step(entries: map<string, CustomerInfo>, key: string, value: AvroRecord): map<string, CustomerInfo>
  {
    entries[key := Apply(GetOrCreate(entries, key), value)]
  }

  /** The store after `transform` has been called on each record in turn. */
  function Run(entries: map<string, CustomerInfo>, records: seq<StreamRecord>): map<string, CustomerInfo>
    decreases |records|
  {
    if records == [] then entries
    else Run(Step(entries, records[0].key, records[0].value), records[1..])
  }

  /** Folds a sequence of values into one aggregate, in order. */
  function ApplyAll(info: CustomerInfo, values: seq<AvroRecord>): CustomerInfo
    decreases |values|
  {
    if values == [] then info else ApplyAll(Apply(info, values[0]), values[1..])
  }

  /** The url a value contributes, if it is a page view. */
  function UrlOf(value: AvroRecord): seq<string>
  {
    if value.PageViewRecord? then [value.pageView.url] else []
  }

  /** The item a value contributes, if it is a purchase. */
  function ItemOf(value: AvroRecord): seq<string>
  {
    if value.PurchaseRecord? then [value.purchase.item] else []
  }

  /** The urls of the page views among `values`, in order (the reference for `pageViews`). */
  function PageViewUrls(values: seq<AvroRecord>): seq<string>
    decreases |values|
  {
    if values == [] then [] else UrlOf(values[0]) + PageViewUrls(values[1..])
  }

  /** The items of the purchases among `values`, in order (the reference for `items`). */
  function PurchasedItems(values: seq<AvroRecord>): seq<string>
    decreases |values|
  {
    if values == [] then [] else ItemOf(values[0]) + PurchasedItems(values[1..])
  }

  /** The values of the records carrying `key`, in arrival order. */
  function ValuesFor(key: string, records: seq<StreamRecord>): seq<AvroRecord>
    decreases |records|
  {
    if records == [] then []
    else (if records[0].key == key then [records[0].value] else []) + ValuesFor(key, records[1..])
  }

  /** The keys that occur in `records`. */
  function KeysOf(records: seq<StreamRecord>): set<string>
  {
    set i | 0 <= i < |records| :: records[i].key
  }

  /** Every stored aggregate carries the key it is stored under. */
  predicate KeyedByCustomerId(entries: map<string, CustomerInfo>)
  {
    forall k :: k in entries ==> entries[k].customerId == k
  }

  /** A single fold: the customer id is kept and exactly the value's url or item is appended. */
  lemma ApplyAppends(info: CustomerInfo, value: AvroRecord)
    ensures Apply(info, value).customerId == info.customerId
    ensures Apply(info, value).pageViews == info.pageViews + UrlOf(value)
    ensures Apply(info, value).items == info.items + ItemOf(value)
    ensures !value.PageViewRecord? && !value.PurchaseRecord? ==> Apply(info, value) == info
  {
  }

  /**
   * Folding a sequence of values appends exactly the in-order urls of its
   * page views and the in-order items of its purchases.
   */
  lemma {:induction false} ApplyAllAppends(info: CustomerInfo, values: seq<AvroRecord>)
    ensures ApplyAll(info, values) ==
      CustomerInfo(info.customerId, info.pageViews + PageViewUrls(values), info.items + PurchasedItems(values))
    decreases |values|
  {
    if values != [] {
      var next := Apply(info, values[0]);
      ApplyAppends(info, values[0]);
      ApplyAllAppends(next, values[1..]);
      var urls, items := UrlOf(values[0]), ItemOf(values[0]);
      assert PageViewUrls(values) == urls + PageViewUrls(values[1..]);
      assert PurchasedItems(values) == items + PurchasedItems(values[1..]);
      calc {
        ApplyAll(info, values).pageViews;
        next.pageViews + PageViewUrls(values[1..]);
        (info.pageViews + urls) + PageViewUrls(values[1..]);
        info.pageViews + (urls + PageViewUrls(values[1..]));
      }
      calc {
        ApplyAll(info, values).items;
        next.items + PurchasedItems(values[1..]);
        (info.items + items) + PurchasedItems(values[1..]);
        info.items + (items + PurchasedItems(values[1..]));
      }
    }
  }

  /** `transform` on a key leaves every other key's entry as it was. */
  lemma StepIsolation(entries: map<string, CustomerInfo>, key: string, value: AvroRecord, other: string)
    requires other != key
    ensures other in Step(entries, key, value) <==> other in entries
    ensures other in entries ==> Step(entries, key, value)[other] == entries[other]
  {
  }

  /** An unrecognised value changes no aggregate, but an absent key still gains a fresh entry. */
  lemma StepOnOtherRecord(entries: map<string, CustomerInfo>, key: string, name: string)
    ensures key in entries ==> Step(entries, key, OtherRecord(name)) == entries
    ensures key !in entries ==> Step(entries, key, OtherRecord(name)) == entries[key := NewCustomerInfo(key)]
  {
  }

  /** The keys of a non-empty run: the first record's key and the rest's. */
  lemma KeysOfCons(records: seq<StreamRecord>)
    requires records != []
    ensures KeysOf(records) == {records[0].key} + KeysOf(records[1..])
  {
    forall k | k in KeysOf(records) ensures k in {records[0].key} + KeysOf(records[1..]) {
      var i :| 0 <= i < |records| && records[i].key == k;
      if i > 0 { assert records[1..][i - 1].key == k; }
    }
    forall k | k in KeysOf(records[1..]) ensures k in KeysOf(records) {
      var i :| 0 <= i < |records[1..]| && records[1..][i].key == k;
      assert records[i + 1].key == k;
    }
  }

  /** Folding one more value in front of a sequence. */
  lemma ApplyAllCons(info: CustomerInfo, value: AvroRecord, values: seq<AvroRecord>)
    ensures ApplyAll(info, [value] + values) == ApplyAll(Apply(info, value), values)
  {
    assert ([value] + values)[1..] == values;
  }

  /** The keys stored after a run: those stored before and those the records carry. */
  lemma {:induction false} RunDomain(entries: map<string, CustomerInfo>, records: seq<StreamRecord>)
    ensures Run(entries, records).Keys == entries.Keys + KeysOf(records)
    decreases |records|
  {
    if records != [] {
      KeysOfCons(records);
      RunDomain(Step(entries, records[0].key, records[0].value), records[1..]);
    }
  }

  /**
   * A key's aggregate after a run is the one it had (or a fresh one) with
   * just the values for that key folded in, in order; the records of other
   * keys do not touch it.
   */
  lemma {:induction false} RunAggregate(entries: map<string, CustomerInfo>, records: seq<StreamRecord>, key: string)
    requires key in Run(entries, records)
    ensures Run(entries, records)[key] == ApplyAll(GetOrCreate(entries, key), ValuesFor(key, records))
    decreases |records|
  {
    if records != [] {
      var r := records[0];
      var next := Step(entries, r.key, r.value);
      RunAggregate(next, records[1..], key);
      if r.key == key {
        assert GetOrCreate(next, key) == Apply(GetOrCreate(entries, key), r.value);
        assert ValuesFor(key, records) == [r.value] + ValuesFor(key, records[1..]);
        ApplyAllCons(GetOrCreate(entries, key), r.value, ValuesFor(key, records[1..]));
      } else {
        assert GetOrCreate(next, key) == GetOrCreate(entries, key);
        assert ValuesFor(key, records) == ValuesFor(key, records[1..]);
      }
    }
  }

  /**
   * The store after a run of records: a key is present exactly when it was
   * before or occurs in the records, and its aggregate is the one it had (or
   * a fresh one) with just the values for that key folded in, in order.
   */
  lemma RunAt(entries: map<string, CustomerInfo>, records: seq<StreamRecord>, key: string)
    ensures key in Run(entries, records) <==> key in entries || key in KeysOf(records)
    ensures key in Run(entries, records) ==>
      Run(entries, records)[key] == ApplyAll(GetOrCreate(entries, key), ValuesFor(key, records))
  {
    RunDomain(entries, records);
    if key in Run(entries, records) {
      RunAggregate(entries, records, key);
    }
  }

  /** The invariant "every aggregate's customerId is its key" holds across any run of records. */
  lemma {:induction false} RunPreservesKeyed(entries: map<string, CustomerInfo>, records: seq<StreamRecord>)
    requires KeyedByCustomerId(entries)
    ensures KeyedByCustomerId(Run(entries, records))
    decreases |records|
  {
    if records != [] {
      var r := records[0];
      ApplyAppends(GetOrCreate(entries, r.key), r.value);
      RunPreservesKeyed(Step(entries, r.key, r.value), records[1..]);
    }
  }

  /**
   * Folding the events of one customer into an empty store yields an
   * aggregate whose customer id is the record key and whose lists are the
   * in-order urls and items of the page views and purchases.
   */
  lemma {:induction false} SingleCustomerFold(records: seq<StreamRecord>, key: string)
    requires records != []
    requires forall i :: 0 <= i < |records| ==> records[i].key == key
    ensures key in Run(map[], records)
    ensures Run(map[], records)[key] ==
      CustomerInfo(key, PageViewUrls(ValuesOf(records)), PurchasedItems(ValuesOf(records)))
  {
    assert records[0].key in KeysOf(records);
    RunAt(map[], records, key);
    ValuesForAll(records, key);
    ApplyAllAppends(NewCustomerInfo(key), ValuesOf(records));
  }

  /** The values of all records, in order. */
  function ValuesOf(records: seq<StreamRecord>): seq<AvroRecord>
  {
    seq(|records|, i requires 0 <= i < |records| => records[i].value)
  }

  /** When every record carries `key`, the values for `key` are all the values. */
  lemma {:induction false} ValuesForAll(records: seq<StreamRecord>, key: string)
    requires forall i :: 0 <= i < |records| ==> records[i].key == key
    ensures ValuesFor(key, records) == ValuesOf(records)
    decreases |records|
  {
    if records != [] {
      ValuesForAll(records[1..], key);
      assert ValuesOf(records) == [records[0].value] + ValuesOf(records[1..]);
    }
  }

  /** A key has values in a run of records exactly when it occurs in them. */
  lemma {:induction false} ValuesForPresent(records: seq<StreamRecord>, key: string)
    ensures ValuesFor(key, records) != [] <==> key in KeysOf(records)
    decreases |records|
  {
    if records != [] {
      ValuesForPresent(records[1..], key);
      if key in KeysOf(records[1..]) {
        var i :| 0 <= i < |records[1..]| && records[1..][i].key == key;
        assert records[i + 1].key == key;
      }
      if key in KeysOf(records) && records[0].key != key {
        var i :| 0 <= i < |records| && records[i].key == key;
        assert records[1..][i - 1].key == key;
      }
    }
  }

  /**
   * Interleaving other customers' records does not change a customer's
   * aggregate: two runs that carry the same values for `key` both hold an
   * aggregate for it (when it was stored or has values) and agree on it.
   */
  lemma {:induction false} Isolation(entries: map<string, CustomerInfo>, left: seq<StreamRecord>, right: seq<StreamRecord>, key: string)
    requires ValuesFor(key, left) == ValuesFor(key, right)
    requires key in entries || ValuesFor(key, left) != []
    ensures key in Run(entries, left) && key in Run(entries, right)
    ensures Run(entries, left)[key] == Run(entries, right)[key]
  {
    ValuesForPresent(left, key);
    ValuesForPresent(right, key);
    RunAt(entries, left, key);
    RunAt(entries, right, key);
  }

  /** The page-view fixture, then the purchase fixture, under their shared key. */
  lemma FixtureScenario()
    ensures var key := Data.AvroPageView().customerId;
      Run(map[], [StreamRecord(key, PageViewRecord(Data.AvroPageView())), StreamRecord(key, PurchaseRecord(Data.AvroPurchase()))])
      == map["vandelay1234" := CustomerInfo("vandelay1234", ["https://acme.commerce/sale"], ["flux-capacitor"])]
  {
    var key := Data.AvroPageView().customerId;
    var records := [StreamRecord(key, PageViewRecord(Data.AvroPageView())), StreamRecord(key, PurchaseRecord(Data.AvroPurchase()))];
    var m1 := Step(map[], key, records[0].value);
    var m2 := Step(m1, key, records[1].value);
    assert m1[key] == CustomerInfo(key, [] + ["https://acme.commerce/sale"], []);
    var info := Apply(m1[key], records[1].value);
    assert info.items == [] + ["flux-capacitor"];
    assert m2 == m1[key := info] == map[key := info];
    assert key == "vandelay1234";
    assert info == CustomerInfo("vandelay1234", ["https://acme.commerce/sale"], ["flux-capacitor"]);
    calc {
      Run(map[], records);
      Run(m1, records[1..]);
      { assert records[1..][0] == records[1] && records[1..][1..] == []; }
      Run(m2, []);
    }
  }

  /** Two customers' records interleaved build two separate aggregates. */
  lemma InterleavedScenario(a: PageView, b: Purchase, c: PageView)
    requires a.customerId != b.customerId
    ensures var records := [StreamRecord(a.customerId, PageViewRecord(a)), StreamRecord(b.customerId, PurchaseRecord(b)),
                            StreamRecord(a.customerId, PageViewRecord(c))];
      Run(map[], records) == map[a.customerId := CustomerInfo(a.customerId, [a.url, c.url], []),
                                 b.customerId := CustomerInfo(b.customerId, [], [b.item])]
  {
    var records := [StreamRecord(a.customerId, PageViewRecord(a)), StreamRecord(b.customerId, PurchaseRecord(b)),
                    StreamRecord(a.customerId, PageViewRecord(c))];
    var m1 := Step(map[], a.customerId, PageViewRecord(a));
    var m2 := Step(m1, b.customerId, PurchaseRecord(b));
    var m3 := Step(m2, a.customerId, PageViewRecord(c));
    var infoA := CustomerInfo(a.customerId, [] + [a.url], []);
    var infoB := CustomerInfo(b.customerId, [], [] + [b.item]);
    assert m1 == map[a.customerId := infoA];
    assert GetOrCreate(m1, b.customerId) == NewCustomerInfo(b.customerId);
    assert m2 == map[a.customerId := infoA, b.customerId := infoB];
    assert GetOrCreate(m2, a.customerId) == infoA;
    assert m3 == map[a.customerId := infoA.(pageViews := infoA.pageViews + [c.url]), b.customerId := infoB];
    assert infoA.pageViews + [c.url] == [a.url, c.url] && infoB.items == [b.item];
    calc {
      Run(map[], records);
      Run(m1, records[1..]);
      { assert records[1..][0] == records[1] && records[1..][1..] == records[2..]; }
      Run(m2, records[2..]);
      { assert records[2..][0] == records[2] && records[2..][1..] == []; }
      Run(m3, []);
    }
  }

  /** The in-memory key-value store of customer aggregates. */
  class KeyValueStore {
    var entries: map<string, CustomerInfo>

    /** An empty store. */
    constructor ()
      ensures entries == map[]
    {
      entries := map[];
    }

    /** `store.get(key)`: the stored aggregate, or `null` when there is none. */
    method Get(key: string) returns (found: Option<CustomerInfo>)
      ensures found.Some? <==> key in entries
      ensures found.Some? ==> found.value == entries[key]
    {
      if key in entries {
        found := Some(entries[key]);
      } else {
        found := None;
      }
    }

    /** `store.put(key, value)`: replaces the entry for `key` and no other. */
    method Put(key: string, value: CustomerInfo)
      modifies this
      ensures entries == old(entries)[key := value]
    {
      entries := entries[key := value];
    }
  }

  /** The processor context: the state stores attached to the processor, by name. */
  datatype ProcessorContext = ProcessorContext(stateStores: map<string, KeyValueStore>)

  /** `EventValueTransformerSupplier`: hands out transformers bound to one store name. */
  class EventValueTransformerSupplier {
    const storeName: string

    constructor (storeName: string)
      ensures this.storeName == storeName
    {
      this.storeName := storeName;
    }

    /** `get()`: a new transformer whose store is not yet bound. */
    method Get() returns (transformer: EventValueTransformer)
      ensures fresh(transformer)
      ensures transformer.storeName == storeName && transformer.store == null
    {
      transformer := new EventValueTransformer(storeName);
    }
  }

  /** The anonymous `ValueTransformerWithKey` of the supplier. */
  class EventValueTransformer {
    const storeName: string
    var store: KeyValueStore?

    constructor (storeName: string)
      ensures this.storeName == storeName && store == null
    {
      this.storeName := storeName;
      store := null;
    }

    /** `init(context)`: binds the store registered under the supplier's store name. */
    method Init(context: ProcessorContext)
      modifies this
      ensures store == if storeName in context.stateStores then context.stateStores[storeName] else null
    {
      if storeName in context.stateStores {
        store := context.stateStores[storeName];
      } else {
        store := null;
      }
    }

    /**
     * `transform(readOnlyKey, value)`: get-or-create the aggregate under the
     * record key, append the page view's url or the purchase's item, put it
     * back under the same key and return it.
     */
    method Transform(readOnlyKey: string, value: AvroRecord) returns (info: CustomerInfo)
      requires store != null
      modifies store
      ensures var before := GetOrCreate(old(store.entries), readOnlyKey);
        && (readOnlyKey in old(store.entries) ==> before == old(store.entries)[readOnlyKey])
        && (readOnlyKey !in old(store.entries) ==> before.customerId == readOnlyKey)
        && info.customerId == before.customerId
        && info.pageViews == before.pageViews + UrlOf(value)
        && info.items == before.items + ItemOf(value)
      ensures store.entries == old(store.entries)[readOnlyKey := info]
      ensures store.entries == Step(old(store.entries), readOnlyKey, value)
      ensures KeyedByCustomerId(old(store.entries)) ==> KeyedByCustomerId(store.entries)
    {
      var customerInfo: CustomerInfo;
      var found := store.Get(readOnlyKey);
      if found.None? {
        customerInfo := NewCustomerInfo(readOnlyKey);
      } else {
        customerInfo := found.value;
      }
      match value {
        case PageViewRecord(pageView) =>
          customerInfo := customerInfo.(pageViews := customerInfo.pageViews + [pageView.url]);
        case PurchaseRecord(purchase) =>
          customerInfo := customerInfo.(items := customerInfo.items + [purchase.item]);
        case OtherRecord(_) =>
      }
      store.Put(readOnlyKey, customerInfo);
      info := customerInfo;
    }
  }

  /**
   * The topology's use of the transformer on the produced fixtures: the
   * supplier's transformer is bound to "the_store" and sees the purchase,
   * then the page view, under the shared key.
   */
  method TransformFixtures() returns (afterPurchase: CustomerInfo, afterPageView: CustomerInfo)
    ensures afterPurchase == CustomerInfo("vandelay1234", [], ["flux-capacitor"])
    ensures afterPageView == CustomerInfo("vandelay1234", ["https://acme.commerce/sale"], ["flux-capacitor"])
  {
    var store := new KeyValueStore();
    var supplier := new EventValueTransformerSupplier("the_store");
    var transformer := supplier.Get();
    transformer.Init(ProcessorContext(map["the_store" := store]));
    var purchase, pageView := Data.AvroPurchase(), Data.AvroPageView();
    afterPurchase := transformer.Transform(purchase.customerId, PurchaseRecord(purchase));
    afterPageView := transformer.Transform(pageView.customerId, PageViewRecord(pageView));
  }
}
