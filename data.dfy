/**
 * The fixture values of `Data`: one page view and one purchase per
 * encoding, all for the same customer.  The Java methods build these with
 * the generated builders; here each is the logical value it produces.
 */
module Data {
  import opened Schemas

  /** `Data.avroPageView()`. */
  function AvroPageView(): PageView
  {
    PageView(customerId := "vandelay1234", url := "https://acme.commerce/sale", isSpecial := true)
  }

  /** `Data.avroPurchase()` (its amount, 437.83, is not modelled). */
  function AvroPurchase(): Purchase
  {
    Purchase(customerId := "vandelay1234", item := "flux-capacitor")
  }

  /** `Data.jsonSchemaPurchase()`. */
  function JsonSchemaPurchase(): Purchase
  {
    Purchase(customerId := "vandelay1234", item := "flux-capacitor")
  }

  /** `Data.jsonSchemaPageView()`. */
  function JsonSchemaPageView(): PageView
  {
    PageView(customerId := "vandelay1234", url := "https://acme.commerce/sale", isSpecial := true)
  }

  /** `Data.protoPageView()`: written with the Avro builder, like `avroPageView`. */
  function ProtoPageView(): PageView
  {
    PageView(customerId := "vandelay1234", url := "https://acme.commerce/sale", isSpecial := true)
  }

  /** `Data.protoPurchase()`: written with the Avro builder, like `avroPurchase`. */
  function ProtoPurchase(): Purchase
  {
    Purchase(customerId := "vandelay1234", item := "flux-capacitor")
  }

  /** Every fixture belongs to customer "vandelay1234", so all produced events share one key. */
  lemma FixturesShareOneCustomer()
    ensures AvroPageView().customerId == "vandelay1234"
    ensures AvroPurchase().customerId == "vandelay1234"
    ensures JsonSchemaPurchase().customerId == "vandelay1234"
    ensures JsonSchemaPageView().customerId == "vandelay1234"
    ensures ProtoPageView().customerId == "vandelay1234"
    ensures ProtoPurchase().customerId == "vandelay1234"
  {
  }

  /** The page-view fixtures point at the sale page and are special. */
  lemma PageViewFixtures()
    ensures forall pv :: pv in {AvroPageView(), JsonSchemaPageView(), ProtoPageView()} ==>
      pv.url == "https://acme.commerce/sale" && pv.isSpecial
  {
  }

  /** The purchase fixtures all buy the flux capacitor. */
  lemma PurchaseFixtures()
    ensures forall p :: p in {AvroPurchase(), JsonSchemaPurchase(), ProtoPurchase()} ==>
      p.item == "flux-capacitor"
  {
  }

  /** The "proto" fixtures are field-for-field the Avro ones (so are the JSON-Schema ones). */
  lemma FixturesAgreeAcrossEncodings()
    ensures ProtoPageView() == AvroPageView() && ProtoPurchase() == AvroPurchase()
    ensures JsonSchemaPageView() == AvroPageView() && JsonSchemaPurchase() == AvroPurchase()
  {
  }
}
