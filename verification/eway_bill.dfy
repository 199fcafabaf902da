/**
 * The e-way bill editor: `formatAddress`, the defaults `fetchInitialData`
 * applies to a loaded bill, the address fallbacks of
 * `handleCustomerChange`, and the payload `handleUpdate` sends.
 */
module EWayBill {
  import opened Wrappers
  import RowLists

  // ---------------------------------------------------------------------
  // Addresses.

  /**
   * An address as the page receives it, which may be any value:
   * `Missing` is a falsy non-string (undefined, null, 0, false, NaN),
   * `Text` a string (the empty string is falsy too), `Scalar` any other
   * truthy non-object, and `Record` an object, whose absent or falsy
   * fields read as "".
   */
  datatype Address =
    | Missing
    | Text(line: string)
    | Scalar
    | Record(street: string, city: string, state: string, country: string, pincode: string)

  /** JavaScript truthiness of an address value. */
  predicate Truthy(a: Address) {
    !a.Missing? && !(a.Text? && a.line == "")
  }

  /** `filter(Boolean)` on a list of strings: the non-empty ones, in order. */
  function NonEmpty(xs: seq<string>): (r: seq<string>)
    ensures |r| <= |xs|
    ensures forall i :: 0 <= i < |r| ==> r[i] != ""
    ensures forall s :: s in r ==> s in xs
    ensures forall s :: s in xs && s != "" ==> s in r
    ensures (forall i :: 0 <= i < |xs| ==> xs[i] == "") ==> r == []
  {
    if xs == [] then []
    else if xs[0] == "" then NonEmpty(xs[1..])
    else [xs[0]] + NonEmpty(xs[1..])
  }

  /** A list none of whose entries is empty passes the filter whole. */
  lemma {:induction false} NonEmptyKeepsAll(xs: seq<string>)
    requires forall i :: 0 <= i < |xs| ==> xs[i] != ""
    ensures NonEmpty(xs) == xs
  {
    if xs != [] {
      NonEmptyKeepsAll(xs[1..]);
    }
  }

  /** The filter distributes over concatenation, so it keeps the order of what it keeps. */
  lemma {:induction false} NonEmptyAppend(a: seq<string>, b: seq<string>)
    ensures NonEmpty(a + b) == NonEmpty(a) + NonEmpty(b)
  {
    if a != [] {
      assert (a + b)[0] == a[0] && (a + b)[1..] == a[1..] + b;
      NonEmptyAppend(a[1..], b);
      if a[0] != "" {
        assert NonEmpty(a + b) == [a[0]] + (NonEmpty(a[1..]) + NonEmpty(b));
        assert [a[0]] + (NonEmpty(a[1..]) + NonEmpty(b)) == ([a[0]] + NonEmpty(a[1..])) + NonEmpty(b);
      }
    } else {
      assert a + b == b;
    }
  }

  /** The five fields of an object address in the page's fixed order. */
  function Fields(a: Address): seq<string>
    requires a.Record?
  {
    [a.street, a.city, a.state, a.country, a.pincode]
  }

  /** One field as a list of lines: itself when non-empty, nothing otherwise. */
  function Line(s: string): (r: seq<string>)
    ensures r == [] <==> s == ""
  {
    if s == "" then [] else [s]
  }

  /**
   * `formatAddress`: `['-']` for a falsy value or a non-object, `[s]` for a
   * string, and for an object its non-empty fields in the fixed order,
   * or `['-']` when all are empty. The result is never empty and never
   * holds an empty line.
   */
  function FormatAddress(a: Address): (r: seq<string>)
    ensures |r| >= 1
    ensures forall i :: 0 <= i < |r| ==> r[i] != ""
    ensures !Truthy(a) || a.Scalar? ==> r == ["-"]
    ensures a.Text? && a.line != "" ==> r == [a.line]
    ensures a.Record? && a.street == a.city == a.state == a.country == a.pincode == "" ==> r == ["-"]
    ensures a.Record? ==> forall s :: s in r ==> s == "-" || s in Fields(a)
    ensures a.Record? ==> forall s :: s in Fields(a) && s != "" ==> s in r
  {
    if !Truthy(a) then ["-"]
    else if a.Text? then [a.line]
    else if !a.Record? then ["-"]
    else
      var parts := NonEmpty(Fields(a));
      if |parts| > 0 then parts else ["-"]
  }

  /**
   * The lines of an object address, written field by field: each non-empty
   * field contributes one line, in the order street, city, state, country,
   * pincode.
   */
  lemma RecordLines(a: Address)
    requires a.Record?
    ensures var lines := Line(a.street) + Line(a.city) + Line(a.state) + Line(a.country) + Line(a.pincode);
      FormatAddress(a) == if lines == [] then ["-"] else lines
  {
    var f := Fields(a);
    assert f == [a.street] + [a.city] + [a.state] + [a.country] + [a.pincode];
    NonEmptyAppend([a.street] + [a.city] + [a.state] + [a.country], [a.pincode]);
    NonEmptyAppend([a.street] + [a.city] + [a.state], [a.country]);
    NonEmptyAppend([a.street] + [a.city], [a.state]);
    NonEmptyAppend([a.street], [a.city]);
    SingleLine(a.street);
    SingleLine(a.city);
    SingleLine(a.state);
    SingleLine(a.country);
    SingleLine(a.pincode);
  }

  lemma SingleLine(s: string)
    ensures NonEmpty([s]) == Line(s)
  {
    assert [s][1..] == [];
  }

  /** A completely filled object address shows all five fields, one per line, in order. */
  lemma FullAddressShowsEveryField(a: Address)
    requires a.Record? && a.street != "" && a.city != "" && a.state != "" && a.country != "" && a.pincode != ""
    ensures FormatAddress(a) == [a.street, a.city, a.state, a.country, a.pincode]
  {
    NonEmptyKeepsAll(Fields(a));
  }

  /** The page's blank address: every field empty except the country, India. */
  function DefaultAddress(): (a: Address)
    ensures a.Record? && a.country == "India"
  {
    Record("", "", "", "India", "")
  }

  /** The blank address shows as the single line "India". */
  lemma DefaultAddressShowsIndia()
    ensures FormatAddress(DefaultAddress()) == ["India"]
  {
    RecordLines(DefaultAddress());
  }

  /** `addressData`: the four addresses of the bill. */
  datatype Addresses = Addresses(dispatchFrom: Address, billFrom: Address, billTo: Address, shipTo: Address)

  function DefaultAddresses(): (d: Addresses)
    ensures d.dispatchFrom == d.billFrom == d.billTo == d.shipTo == DefaultAddress()
  {
    Addresses(DefaultAddress(), DefaultAddress(), DefaultAddress(), DefaultAddress())
  }

  /** `a || fallback` on address values. */
  function AddressOr(a: Address, fallback: Address): (r: Address)
    ensures Truthy(a) ==> r == a
    ensures !Truthy(a) ==> r == fallback
  {
    if Truthy(a) then a else fallback
  }

  // ---------------------------------------------------------------------
  // The form and the bill as the server returns it.

  /** `formData`. */
  datatype FormData = FormData(
    ewayBillNumber: string,
    documentType: string,
    transactionSubType: string,
    customerId: string,
    customerName: string,
    documentNumber: string,
    documentId: string,
    date: string,
    transactionType: string,
    placeOfDelivery: string,
    transporter: string,
    distance: int,
    modeOfTransportation: string,
    vehicleType: string,
    vehicleNo: string,
    transporterDocNo: string,
    transporterDocDate: string,
    total: real,
    status: string
  )

  /** The form before anything is loaded. */
  function InitialForm(): (f: FormData)
    ensures f.documentType == "invoices" && f.transactionSubType == "supply" && f.transactionType == "regular"
    ensures f.modeOfTransportation == "road" && f.vehicleType == "regular" && f.distance == 0 && f.total == 0.0
    ensures f.status == "" && f.customerId == ""
  {
    FormData("", "invoices", "supply", "", "", "", "", "", "regular", "", "", 0, "road", "regular", "", "", "", 0.0, "")
  }

  /** A row of the bill's `items`, which the page only displays. */
  datatype BillItem = BillItem(name: string, quantity: real, amount: Option<real>, total: Option<real>)

  /** The stored bill as the server returns it: `None` is an absent field; a number `None` also covers `NaN`. */
  datatype BillRecord = BillRecord(
    ewayBillNumber: Option<string>,
    documentType: Option<string>,
    transactionSubType: Option<string>,
    customerId: Option<string>,
    customerName: Option<string>,
    documentNumber: Option<string>,
    documentId: Option<string>,
    date: Option<string>,
    transactionType: Option<string>,
    placeOfDelivery: Option<string>,
    transporter: Option<string>,
    distance: Option<int>,
    modeOfTransportation: Option<string>,
    vehicleType: Option<string>,
    vehicleNo: Option<string>,
    transporterDocNo: Option<string>,
    transporterDocDate: Option<string>,
    total: Option<real>,
    status: Option<string>,
    dispatchFrom: Address,
    billFrom: Address,
    billTo: Address,
    shipTo: Address,
    items: Option<seq<BillItem>>
  )

  /** `value || fallback` on a string field: an absent or empty value gives the fallback. */
  function Or(value: Option<string>, fallback: string): (r: string)
    ensures value.Some? && value.value != "" ==> r == value.value
    ensures value.None? || value.value == "" ==> r == fallback
  {
    if value.Some? && value.value != "" then value.value else fallback
  }

  /** `value || 0` on a number field. */
  function IntOrZero(value: Option<int>): (r: int)
    ensures value.Some? ==> r == value.value
    ensures value.None? ==> r == 0
  {
    if value.Some? && value.value != 0 then value.value else 0
  }

  function RealOrZero(value: Option<real>): (r: real)
    ensures value.Some? ==> r == value.value
    ensures value.None? ==> r == 0.0
  {
    if value.Some? && value.value != 0.0 then value.value else 0.0
  }

  /** A date field: the calendar day of a present value, "" otherwise. */
  function DayOr(value: Option<string>, isoDay: string -> string): (r: string)
    ensures value.None? || value.value == "" ==> r == ""
  {
    if value.Some? && value.value != "" then isoDay(value.value) else ""
  }

  /**
   * The form `fetchInitialData` builds from a loaded bill; `isoDay` stands
   * for the conversion of a stored date to its `yyyy-mm-dd` day.
   */
  function LoadedForm(data: BillRecord, isoDay: string -> string): FormData {
    FormData(
      Or(data.ewayBillNumber, ""),
      Or(data.documentType, "invoices"),
      Or(data.transactionSubType, "supply"),
      Or(data.customerId, ""),
      Or(data.customerName, ""),
      Or(data.documentNumber, ""),
      Or(data.documentId, ""),
      DayOr(data.date, isoDay),
      Or(data.transactionType, "regular"),
      Or(data.placeOfDelivery, ""),
      Or(data.transporter, ""),
      IntOrZero(data.distance),
      Or(data.modeOfTransportation, "road"),
      Or(data.vehicleType, "regular"),
      Or(data.vehicleNo, ""),
      Or(data.transporterDocNo, ""),
      DayOr(data.transporterDocDate, isoDay),
      RealOrZero(data.total),
      Or(data.status, "")
    )
  }

  /** The addresses after a load: each absent or falsy one keeps what the page held before. */
  function LoadedAddresses(data: BillRecord, prev: Addresses): Addresses {
    Addresses(
      AddressOr(data.dispatchFrom, prev.dispatchFrom),
      AddressOr(data.billFrom, prev.billFrom),
      AddressOr(data.billTo, prev.billTo),
      AddressOr(data.shipTo, prev.shipTo)
    )
  }

  /** The choice fields of a loaded form are never blank: each falls back to its default. */
  lemma LoadedChoicesNeverBlank(data: BillRecord, isoDay: string -> string)
    ensures var f := LoadedForm(data, isoDay);
      f.documentType != "" && f.transactionSubType != "" && f.transactionType != "" &&
      f.modeOfTransportation != "" && f.vehicleType != ""
  {
  }

  /** The bill with every field absent. */
  function EmptyRecord(): BillRecord {
    BillRecord(None, None, None, None, None, None, None, None, None, None, None, None, None, None, None, None, None,
               None, None, Missing, Missing, Missing, Missing, None)
  }

  /** Loading a bill that has no fields at all yields exactly the initial form and leaves the addresses as they were. */
  lemma LoadingNothingGivesInitialState(isoDay: string -> string, prev: Addresses)
    ensures LoadedForm(EmptyRecord(), isoDay) == InitialForm()
    ensures LoadedAddresses(EmptyRecord(), prev) == prev
  {
  }

  /** Every field the bill does carry, non-empty, is loaded as it is. */
  lemma LoadKeepsPresentFields(data: BillRecord, isoDay: string -> string)
    ensures var f := LoadedForm(data, isoDay);
      (data.documentType.Some? && data.documentType.value != "" ==> f.documentType == data.documentType.value) &&
      (data.transactionSubType.Some? && data.transactionSubType.value != "" ==> f.transactionSubType == data.transactionSubType.value) &&
      (data.modeOfTransportation.Some? && data.modeOfTransportation.value != "" ==> f.modeOfTransportation == data.modeOfTransportation.value) &&
      (data.customerId.Some? ==> f.customerId == data.customerId.value) &&
      (data.status.Some? ==> f.status == data.status.value) &&
      (data.distance.Some? ==> f.distance == data.distance.value) &&
      (data.total.Some? ==> f.total == data.total.value)
  {
  }

  /** Loading the same bill twice gives the state a single load gives. */
  lemma LoadIsIdempotent(data: BillRecord, prev: Addresses)
    ensures LoadedAddresses(data, LoadedAddresses(data, prev)) == LoadedAddresses(data, prev)
  {
  }

  // ---------------------------------------------------------------------
  // Customers.

  datatype Customer = Customer(id: string, displayName: string, companyName: string,
                               billingAddress: Address, shippingAddress: Address)

  function CustomerId(c: Customer): string { c.id }

  /** `customers.find(c => c.id === id)`. */
  function FindCustomer(customers: seq<Customer>, id: string): Option<Customer> {
    RowLists.Find(customers, CustomerId, id)
  }

  /** The customer's name as the form shows it: the display name, else the company name. */
  function CustomerName(c: Customer): (r: string)
    ensures c.displayName != "" ==> r == c.displayName
    ensures c.displayName == "" ==> r == c.companyName
  {
    if c.displayName != "" then c.displayName else c.companyName
  }

  /**
   * The addresses after choosing a customer: the bill-to is the billing
   * address, else the previous one; the ship-to is the shipping address,
   * else the billing address, else the previous one; the two "from"
   * addresses are left alone.
   */
  function ChosenAddresses(prev: Addresses, c: Customer): (r: Addresses)
    ensures r.dispatchFrom == prev.dispatchFrom && r.billFrom == prev.billFrom
    ensures r.billTo == (if Truthy(c.billingAddress) then c.billingAddress else prev.billTo)
    ensures r.shipTo == (if Truthy(c.shippingAddress) then c.shippingAddress
                         else if Truthy(c.billingAddress) then c.billingAddress else prev.shipTo)
  {
    prev.(billTo := AddressOr(c.billingAddress, prev.billTo),
          shipTo := AddressOr(c.shippingAddress, AddressOr(c.billingAddress, prev.shipTo)))
  }

  /** Choosing the same customer again changes nothing more. */
  lemma ChoosingTwiceIsChoosingOnce(prev: Addresses, c: Customer)
    ensures ChosenAddresses(ChosenAddresses(prev, c), c) == ChosenAddresses(prev, c)
  {
  }

  /** A customer with a billing address but no shipping address ships to where it is billed. */
  lemma ShipToFollowsBilling(prev: Addresses, c: Customer)
    requires Truthy(c.billingAddress) && !Truthy(c.shippingAddress)
    ensures ChosenAddresses(prev, c).shipTo == ChosenAddresses(prev, c).billTo == c.billingAddress
  {
  }

  /** A customer with neither address keeps both the bill-to and the ship-to address the form had. */
  lemma NoCustomerAddressKeepsPrevious(prev: Addresses, c: Customer)
    requires !Truthy(c.billingAddress) && !Truthy(c.shippingAddress)
    ensures ChosenAddresses(prev, c) == prev
  {
  }

  // ---------------------------------------------------------------------
  // The update payload.

  /** `{ ...formData, ...addressData, status }`. */
  datatype Payload = Payload(form: FormData, addresses: Addresses)

  // ---------------------------------------------------------------------
  // The page state.

  class EWayBillEditor {
    var customers: seq<Customer>
    var form: FormData
    var addresses: Addresses
    var selectedItems: seq<BillItem>

    /** The page before anything is loaded. */
    constructor ()
      ensures customers == [] && selectedItems == []
      ensures form == InitialForm() && addresses == DefaultAddresses()
    {
      customers := [];
      form := InitialForm();
      addresses := DefaultAddresses();
      selectedItems := [];
    }

    /** The customer list `fetchInitialData` stores: the response's list, or none when it has no list. */
    method LoadCustomers(list: Option<seq<Customer>>)
      modifies this`customers
      ensures list.Some? ==> customers == list.value
      ensures list.None? ==> customers == []
    {
      customers := if list.Some? then list.value else [];
    }

    /**
     * The bill `fetchInitialData` loads: every form field takes the stored
     * value or its default, an absent address keeps the current one, and
     * absent items become none.
     */
    method LoadBill(data: BillRecord, isoDay: string -> string)
      modifies this`form, this`addresses, this`selectedItems
      ensures form == LoadedForm(data, isoDay)
      ensures addresses == LoadedAddresses(data, old(addresses))
      ensures selectedItems == (if data.items.Some? then data.items.value else [])
    {
      form := LoadedForm(data, isoDay);
      addresses := Addresses(
        AddressOr(data.dispatchFrom, addresses.dispatchFrom),
        AddressOr(data.billFrom, addresses.billFrom),
        AddressOr(data.billTo, addresses.billTo),
        AddressOr(data.shipTo, addresses.shipTo));
      selectedItems := if data.items.Some? then data.items.value else [];
    }

    /**
     * `handleCustomerChange`: an id no customer has changes nothing; a
     * known customer sets the id and name and the bill-to and ship-to
     * addresses, and nothing else.
     */
    method ChangeCustomer(customerId: string)
      modifies this`form, this`addresses
      ensures FindCustomer(customers, customerId).None? ==> form == old(form) && addresses == old(addresses)
      ensures FindCustomer(customers, customerId).Some? ==>
        var c := FindCustomer(customers, customerId).value;
        form == old(form).(customerId := customerId, customerName := CustomerName(c)) &&
        addresses == ChosenAddresses(old(addresses), c)
    {
      var found := FindCustomer(customers, customerId);
      if found.Some? {
        var c := found.value;
        form := form.(customerId := c.id, customerName := if c.displayName != "" then c.displayName else c.companyName);
        addresses := addresses.(billTo := if Truthy(c.billingAddress) then c.billingAddress else addresses.billTo,
                                shipTo := if Truthy(c.shippingAddress) then c.shippingAddress
                                          else if Truthy(c.billingAddress) then c.billingAddress
                                          else addresses.shipTo);
      }
    }

    /**
     * The payload of `handleUpdate(generate)`: the form and the four
     * addresses as they are, with the status 'GENERATED' when generating
     * and the current status otherwise.
     */
    method Update(generate: bool) returns (p: Payload)
      ensures generate ==> p.form.status == "GENERATED"
      ensures !generate ==> p.form.status == form.status
      ensures p.form.(status := form.status) == form
      ensures p.addresses == addresses
    {
      p := Payload(form.(status := if generate then "GENERATED" else form.status), addresses);
    }
  }
}
