/**
 * The admin invoices page: the list filter, the status badge style and
 * label, and the request body `createInvoice` builds from the cart.
 */
module Invoices {
  import opened Wrappers
  import opened Seqs
  import opened Text
  import opened Cart

  /** An invoice row. `total` is in cents. */
  datatype Invoice = Invoice(
    id: string,
    customerEmail: string,
    customerName: string,
    total: int,
    status: string,
    createdAt: string,
    stripeId: Option<string>,
    invoiceUrl: Option<string>)

  /** The search box: the term occurs, ignoring case, in the customer's email or name. */
  predicate MatchesSearch(inv: Invoice, searchTerm: string)
  {
    MatchesIgnoringCase(inv.customerEmail, searchTerm) || MatchesIgnoringCase(inv.customerName, searchTerm)
  }

  /** The status selector: 'All' or exactly the invoice's status. */
  predicate MatchesStatus(inv: Invoice, filterStatus: string)
  {
    filterStatus == "All" || inv.status == filterStatus
  }

  /** `filteredInvoices`: the invoices passing the search and the status selector, in order. */
  function FilteredInvoices(invoices: seq<Invoice>, searchTerm: string, filterStatus: string): (r: seq<Invoice>)
    ensures forall i :: 0 <= i < |r| ==>
      r[i] in invoices && MatchesSearch(r[i], searchTerm) && MatchesStatus(r[i], filterStatus)
    ensures forall i :: 0 <= i < |invoices| ==>
      (MatchesSearch(invoices[i], searchTerm) && MatchesStatus(invoices[i], filterStatus) ==> invoices[i] in r)
    ensures IsSubsequence(r, invoices)
  {
    FilterMembers(invoices, (inv: Invoice) => MatchesSearch(inv, searchTerm) && MatchesStatus(inv, filterStatus));
    Filter(invoices, (inv: Invoice) => MatchesSearch(inv, searchTerm) && MatchesStatus(inv, filterStatus))
  }

  /** A status other than 'All' keeps only invoices with exactly that status; an empty search with 'All' keeps every invoice. */
  lemma {:induction false} StatusFilterExact(invoices: seq<Invoice>, searchTerm: string, filterStatus: string)
    ensures filterStatus != "All" ==> forall i :: 0 <= i < |FilteredInvoices(invoices, searchTerm, filterStatus)| ==>
      FilteredInvoices(invoices, searchTerm, filterStatus)[i].status == filterStatus
    ensures FilteredInvoices(invoices, "", "All") == invoices
  {
    var keep := (inv: Invoice) => MatchesSearch(inv, "") && MatchesStatus(inv, "All");
    forall i | 0 <= i < |invoices| ensures keep(invoices[i]) {
      EmptyTermMatches(invoices[i].customerEmail);
    }
    FilterKeepsAll(invoices, keep);
  }

  const PaidStyle := "bg-green-100 text-green-800"
  const PendingStyle := "bg-yellow-100 text-yellow-800"
  const DraftStyle := "bg-gray-100 text-gray-800"
  const VoidStyle := "bg-red-100 text-red-800"

  /** `getStatusColor`: green for paid, yellow for pending, red for void, and the draft gray for every other status. */
  function StatusColor(status: string): (r: string)
    ensures r == PaidStyle <==> status == "paid"
    ensures r == PendingStyle <==> status == "pending"
    ensures r == VoidStyle <==> status == "void"
    ensures r == DraftStyle <==> status != "paid" && status != "pending" && status != "void"
  {
    match status
    case "paid" => PaidStyle
    case "pending" => PendingStyle
    case "draft" => DraftStyle
    case "void" => VoidStyle
    case _ => DraftStyle
  }

  datatype InvoiceItem = InvoiceItem(name: string, description: string, quantity: int, price: int)

  datatype ShippingAddress = ShippingAddress(
    line1: string,
    line2: Option<string>,
    city: string,
    state: string,
    postalCode: string,
    country: string)

  datatype InvoiceData = InvoiceData(
    customerEmail: string,
    customerName: string,
    items: seq<InvoiceItem>,
    shippingAddress: ShippingAddress)

  /** One invoice item per cart line. */
  function ToInvoiceItem(x: CartItem): InvoiceItem
  {
    InvoiceItem(x.name, "Cat food - " + x.name, x.quantity, x.price)
  }

  /** The body `createInvoice` posts, or None when the cart is empty and nothing is sent. */
  function InvoiceRequest(cart: seq<CartItem>): (r: Option<InvoiceData>)
    ensures r.None? <==> cart == []
    ensures r.Some? ==> |r.value.items| == |cart|
    ensures r.Some? ==> forall i :: 0 <= i < |cart| ==>
      && r.value.items[i].name == cart[i].name
      && r.value.items[i].quantity == cart[i].quantity
      && r.value.items[i].price == cart[i].price
      && r.value.items[i].description == "Cat food - " + cart[i].name
  {
    if |cart| == 0 then None
    else Some(InvoiceData(
      "customer@example.com",
      "Customer Name",
      Map(cart, ToInvoiceItem),
      ShippingAddress("123 Main St", None, "City", "State", "12345", "US")))
  }

  /** Sum of price times quantity over invoice items. */
  function Amount(items: seq<InvoiceItem>): int
  {
    if items == [] then 0 else Amount(items[..|items| - 1]) + items[|items| - 1].price * items[|items| - 1].quantity
  }

  /** The invoice requested for a non-empty cart is for exactly the cart's total. */
  lemma {:induction false} InvoiceAmountIsCartTotal(cart: seq<CartItem>)
    requires cart != []
    ensures Amount(InvoiceRequest(cart).value.items) == Total(cart)
  {
    MappedAmount(cart);
  }

  lemma {:induction false} MappedAmount(cart: seq<CartItem>)
    ensures Amount(Map(cart, ToInvoiceItem)) == Total(cart)
  {
    if cart != [] {
      var n := |cart| - 1;
      var items := Map(cart, ToInvoiceItem);
      MappedAmount(cart[..n]);
      assert items[..n] == Map(cart[..n], ToInvoiceItem);
    }
  }
}
