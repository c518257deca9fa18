/** The `POS` class of Invoicing.py: the session's map of all invoices, the
    unpaid filter, and the rules a menu, service or invoice choice must meet
    before the session acts on it. */
module PointOfSale {
  import opened Wrappers
  import opened InvoiceNumbering
  import opened Invoicing

  /** The class attribute `POS._menu`; item `i` is chosen by entering `i + 1`. */
  const Menu: seq<string> := [
    "create invoice", "add service to invoice", "remove service from invoice",
    "accept payment", "print invoice", "exit"
  ]

  /** What a menu entry amounts to. `NotANumber` is the `ValueError` branch
      of `getMenuSelection`; `OutOfRange` is a number outside the menu, which
      the session answers by asking again. */
  datatype MenuChoice = Selected(item: nat) | NotANumber | OutOfRange

  /** The menu selection rule, applied to an entry already read as an
      integer (`None` when `int(...)` fails): a choice names a menu item. */
  function MenuSelection(choice: Option<int>): (r: MenuChoice)
    ensures r.Selected? <==> choice.Some? && 1 <= choice.value <= |Menu|
    ensures r.Selected? ==> r.item == choice.value
    ensures r.NotANumber? <==> choice.None?
  {
    match choice
    case None => NotANumber
    case Some(n) => if 1 <= n <= |Menu| then Selected(n) else OutOfRange
  }

  /** The test the retry loop of `getMenuSelection` actually applies: it
      only rejects numbers above the menu length. */
  predicate AcceptedAsWritten(choice: int) {
    choice <= |Menu|
  }

  /** The loop as written lets 0 and negative numbers through, which the
      menu rule rejects. */
  lemma NonPositiveAcceptedAsWritten(choice: int)
    requires choice < 1
    ensures AcceptedAsWritten(choice)
    ensures MenuSelection(Some(choice)) == OutOfRange
  {
  }

  /** Why a service choice is refused: it is not among the offered names
      (the session asks again), or it has no catalog price (`KeyError`). */
  datatype SelectionError = NotOffered(choice: string) | NotInCatalog(choice: string)

  /** Invoice `inv` is filed under its own number `k`, which was built from a
      counter value below `next`, on a date of the strftime shape. */
  ghost predicate Filed(k: string, inv: Invoice, next: nat) {
    && inv.invoiceNumber == k
    && inv.Valid()
    && inv.serial < next
    && IsStrftimeDate(inv.date)
  }

  /** The point-of-sale session. `counter` is the invoice counter shared by
      every invoice the session creates. */
  class Pos {
    const serviceLookup: map<string, int>
    const counter: InvoiceCounter
    var allInvoices: map<string, Invoice>

    /** Every invoice is filed under its own number, was numbered from a
        counter value already handed out, and carries a date of the shape
        `datetime.now().strftime("%a %b %d %Y")` produces. */
    ghost predicate Valid()
      reads this, counter
    {
      && counter.Valid()
      && forall k :: k in allInvoices ==> Filed(k, allInvoices[k], counter.next)
    }

    /** `__init__`, with the catalog already loaded. */
    constructor (catalog: map<string, int>, counter: InvoiceCounter)
      requires counter.Valid()
      ensures Valid()
      ensures serviceLookup == catalog && this.counter == counter
      ensures allInvoices == map[]
    {
      serviceLookup := catalog;
      this.counter := counter;
      allInvoices := map[];
    }

    /** `_addInvoice`: file `inv` under its number, replacing nothing else. */
    method AddInvoice(inv: Invoice)
      modifies this
      ensures allInvoices == old(allInvoices)[inv.invoiceNumber := inv]
    {
      allInvoices := allInvoices[inv.invoiceNumber := inv];
    }

    /** `_listUnpaidInvoices`: the entries of `allInvoices` whose invoice is unpaid. */
    method ListUnpaidInvoices() returns (unpaid: map<string, Invoice>)
      ensures forall k :: k in unpaid <==> k in allInvoices && !allInvoices[k].paid
      ensures forall k :: k in unpaid ==> unpaid[k] == allInvoices[k]
    {
      unpaid := map[];
      var rest := allInvoices.Keys;
      while rest != {}
        invariant rest <= allInvoices.Keys
        invariant forall k :: k in unpaid <==> k in allInvoices && k !in rest && !allInvoices[k].paid
        invariant forall k :: k in unpaid ==> unpaid[k] == allInvoices[k]
        decreases rest
      {
        var key :| key in rest;
        var inv := allInvoices[key];
        if !inv.Paid() {
          unpaid := unpaid[key := inv];
        }
        rest := rest - {key};
      }
    }

    /** The rule `getService` enforces: the choice must be one of the offered
        names, and its price is then read from the catalog. */
    function GetService(choice: string, offered: map<string, int>): (r: Result<(string, int), SelectionError>)
      ensures r.Success? <==> choice in offered && choice in serviceLookup
      ensures r.Success? ==> r.value == (choice, serviceLookup[choice])
      ensures r == Failure(NotOffered(choice)) <==> choice !in offered
    {
      if choice !in offered then Failure(NotOffered(choice))
      else if choice !in serviceLookup then Failure(NotInCatalog(choice))
      else Success((choice, serviceLookup[choice]))
    }

    /** The rule `confirmInvoice` enforces: the choice must be the number of
        an unpaid invoice, and that invoice is the answer. */
    method ConfirmInvoice(choice: string) returns (r: Option<Invoice>)
      ensures r.Some? <==> choice in allInvoices && !allInvoices[choice].paid
      ensures r.Some? ==> r.value == allInvoices[choice] && !r.value.Paid()
    {
      var unpaid := ListUnpaidInvoices();
      if choice in unpaid {
        r := Some(unpaid[choice]);
      } else {
        r := None;
      }
    }

    /** Menu item 1: create an invoice dated `date` and file it. Its number
        is new, so no invoice already filed is replaced. */
    method CreateInvoice(date: string) returns (inv: Invoice)
      requires Valid() && IsStrftimeDate(date)
      modifies this, counter
      ensures Valid() && fresh(inv)
      ensures inv.serial == old(counter.next) && counter.next == old(counter.next) + 1
      ensures inv.date == date && inv.Valid()
      ensures inv.invoiceNumber == InvoiceNumberOf(inv.serial, date)
      ensures inv.services == map[] && !inv.paid
      ensures inv.invoiceNumber !in old(allInvoices)
      ensures allInvoices == old(allInvoices)[inv.invoiceNumber := inv]
    {
      ghost var before := allInvoices;
      inv := new Invoice(date, counter);
      forall k | k in before
        ensures k != inv.invoiceNumber
      {
        StrftimeNumbersDistinct(before[k].serial, inv.serial, before[k].date, date);
      }
      AddInvoice(inv);
    }
  }

  /** A session from start to payment: create an invoice, add Cleaning and
      Consultation at their catalog prices, total it, and mark it paid. */
  method TwoServiceSession() returns (number: string, total: int, paid: bool)
    ensures number == InvoiceNumberOf(FirstInvoiceId, "Tue Oct 14 2026")
    ensures total == 115 && paid
  {
    var counter := new InvoiceCounter();
    var pos := new Pos(map["Cleaning" := 40, "Consultation" := 75], counter);
    var inv := pos.CreateInvoice("Tue Oct 14 2026");
    var cleaning := pos.GetService("Cleaning", pos.serviceLookup);
    var consultation := pos.GetService("Consultation", pos.serviceLookup);
    inv.AddService(cleaning.value.0, cleaning.value.1);
    inv.AddService(consultation.value.0, consultation.value.1);
    total := inv.Total();
    TwoServiceTotal();
    inv.MarkPaid();
    number, paid := inv.InvoiceNumber(), inv.Paid();
  }
}
