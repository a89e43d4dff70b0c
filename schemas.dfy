/**
 * The decoded, in-memory values of the generated Avro, JSON-Schema and
 * Protobuf classes (io.confluent.developer.avro, .json and .proto).  Only
 * the logical fields are kept; the `amount` of a purchase is a double and
 * never influences any decision, so it is left out.
 */
module Schemas {

  /** A page view, as carried by every one of the three encodings. */
  datatype PageView = PageView(customerId: string, url: string, isSpecial: bool)

  /** A purchase (without its floating-point amount). */
  datatype Purchase = Purchase(customerId: string, item: string)

  /**
   * An Avro `SpecificRecord` as a specific-reader deserializer hands it
   * over: one of the two event types, or some other record type known only
   * by its schema's full name.
   */
  datatype AvroRecord =
    | PageViewRecord(pageView: PageView)
    | PurchaseRecord(purchase: Purchase)
    | OtherRecord(schemaFullName: string)

  /** The Avro wrapper `CustomerEvent`: an `id` plus a single `action` slot. */
  datatype CustomerEvent = CustomerEvent(id: string, action: AvroRecord)

  /** The Avro aggregate kept per customer by the streams application. */
  datatype CustomerInfo = CustomerInfo(customerId: string, pageViews: seq<string>, items: seq<string>)

  /**
   * What the JSON-Schema deserializer returns, with the Java type chosen by
   * the `javaTypeName` property: one of the two generated classes or some
   * other object, known only by its `toString()`.
   */
  datatype JsonValue =
    | JsonPageView(pageView: PageView)
    | JsonPurchase(purchase: Purchase)
    | OtherJsonObject(text: string)

  /** The `oneof action` of the Protobuf `CustomerEvent`. */
  datatype ProtoAction =
    | PurchaseAction(purchase: Purchase)
    | PageViewAction(pageView: PageView)
    | NoAction

  /** The Protobuf `CustomerEvent`: an `id` plus the `oneof action`. */
  datatype ProtoCustomerEvent = ProtoCustomerEvent(id: string, action: ProtoAction)

  /** The generated enum `CustomerEvent.ActionCase`. */
  datatype ActionCase = PURCHASE | PAGE_VIEW | ACTION_NOT_SET

  /** `getActionCase()`: which field of the `oneof` is set. */
  function GetActionCase(event: ProtoCustomerEvent): (c: ActionCase)
    ensures c == ACTION_NOT_SET <==> event.action.NoAction?
    ensures c == PURCHASE <==> event.action.PurchaseAction?
  {
    match event.action
    case PurchaseAction(_) => PURCHASE
    case PageViewAction(_) => PAGE_VIEW
    case NoAction => ACTION_NOT_SET
  }

  /** `getPurchase()`: the purchase, or Protobuf's default instance when it is not the set field. */
  function GetPurchase(event: ProtoCustomerEvent): Purchase
  {
    if event.action.PurchaseAction? then event.action.purchase else Purchase("", "")
  }

  /** `getPageView()`: the page view, or Protobuf's default instance when it is not the set field. */
  function GetPageView(event: ProtoCustomerEvent): PageView
  {
    if event.action.PageViewAction? then event.action.pageView else PageView("", "", false)
  }
}
