/** The `Invoice` class of Invoicing.py: the class-wide invoice counter, the
    invoice entity with its service map and paid flag, and the sum that
    `total` computes. */
module Invoicing {
  import opened Wrappers
  import opened InvoiceNumbering

  /** The values `lo, lo + 1, ..., hi - 1`, in the order a counter starting at
      `lo` hands them out. */
  ghost function Span(lo: nat, hi: nat): seq<nat>
    decreases hi
  {
    if hi <= lo then [] else Span(lo, hi - 1) + [hi - 1]
  }

  /** Position `i` of a span holds `lo + i`: the values are strictly
      increasing and none repeats. */
  lemma {:induction false} SpanValues(lo: nat, hi: nat)
    ensures |Span(lo, hi)| == if hi <= lo then 0 else hi - lo
    ensures forall i :: 0 <= i < |Span(lo, hi)| ==> Span(lo, hi)[i] == lo + i
    decreases hi
  {
    if hi > lo {
      SpanValues(lo, hi - 1);
    }
  }

  /** The class attribute `Invoice._invoiceIds`, made an explicit object.
      `issued` records every value handed out so far, in order. */
  class InvoiceCounter {
    var next: nat
    ghost var issued: seq<nat>

    ghost predicate Valid()
      reads this
    {
      FirstInvoiceId <= next && issued == Span(FirstInvoiceId, next)
    }

    constructor ()
      ensures Valid() && next == FirstInvoiceId && issued == []
    {
      next := FirstInvoiceId;
      issued := [];
    }

    /** `_nextInvoiceNumber`: hand out the current value, then advance by one.
        The value is larger than every value handed out before. */
    method NextInvoiceNumber() returns (num: nat)
      requires Valid()
      modifies this
      ensures Valid()
      ensures num == old(next) && next == old(next) + 1
      ensures issued == old(issued) + [num]
      ensures forall i :: 0 <= i < |old(issued)| ==> old(issued)[i] < num
    {
      SpanValues(FirstInvoiceId, next);
      num := next;
      next := next + 1;
      issued := issued + [num];
    }
  }

  /** The error `dict.pop` raises for an absent key. */
  datatype InvoiceError = KeyError(key: string)

  /** A key of a non-empty map, chosen once and for all. */
  ghost function PickKey(m: map<string, int>): (k: string)
    requires m != map[]
    ensures k in m
  {
    var k :| k in m; k
  }

  /** The sum of all the values (prices) of a map. */
  ghost function SumValues(m: map<string, int>): int
    decreases |m|
  {
    if m == map[] then 0 else
      var k := PickKey(m);
      m[k] + SumValues(m - {k})
  }

  /** The sum may be taken starting from any key. */
  lemma {:induction false} SumValuesRemove(m: map<string, int>, k: string)
    requires k in m
    ensures SumValues(m) == m[k] + SumValues(m - {k})
    decreases |m|
  {
    var j := PickKey(m);
    if j != k {
      assert m - {j} - {k} == m - {k} - {j};
      SumValuesRemove(m - {j}, k);
      SumValuesRemove(m - {k}, j);
    }
  }

  /** Setting the price of `k` replaces its old price in the sum, or adds to
      the sum when `k` was absent. */
  lemma SumValuesUpdate(m: map<string, int>, k: string, p: int)
    ensures SumValues(m[k := p]) == SumValues(m) - (if k in m then m[k] else 0) + p
  {
    var m' := m[k := p];
    SumValuesRemove(m', k);
    assert m' - {k} == m - {k};
    if k in m {
      SumValuesRemove(m, k);
    } else {
      assert m - {k} == m;
    }
  }

  /** Adding a service that is not on the invoice and then removing it gives
      back the previous service map, and the total rises by its price in between. */
  lemma AddThenRemoveRestores(m: map<string, int>, s: string, p: int)
    requires s !in m
    ensures m[s := p] - {s} == m
    ensures SumValues(m[s := p]) == SumValues(m) + p
  {
    SumValuesUpdate(m, s, p);
  }

  /** The total of the two-service example invoice: 40 + 75. */
  lemma TwoServiceTotal()
    ensures SumValues(map["Cleaning" := 40, "Consultation" := 75]) == 115
  {
    var m := map["Cleaning" := 40, "Consultation" := 75];
    SumValuesRemove(m, "Cleaning");
    assert m - {"Cleaning"} == map["Consultation" := 75];
    SumValuesRemove(map["Consultation" := 75], "Consultation");
    assert map["Consultation" := 75] - {"Consultation"} == map[];
  }

  /** One bill. The number and the date never change after construction;
      `serial` keeps the counter value that the number was built from. */
  class Invoice {
    const date: string
    const serial: nat
    const invoiceNumber: string
    var services: map<string, int>
    var paid: bool

    /** The number was built from `serial` and `date`; nothing changes it later. */
    ghost predicate Valid() {
      invoiceNumber == InvoiceNumberOf(serial, date)
    }

    /** `__init__`: take the date, allocate one counter value for the
        number, start with no services and unpaid. */
    constructor (date: string, counter: InvoiceCounter)
      requires counter.Valid()
      modifies counter
      ensures counter.Valid()
      ensures counter.next == old(counter.next) + 1
      ensures counter.issued == old(counter.issued) + [old(counter.next)]
      ensures this.date == date && serial == old(counter.next)
      ensures Valid() && invoiceNumber == InvoiceNumberOf(serial, date)
      ensures services == map[] && !paid
    {
      this.date := date;
      this.serial := counter.next;
      var number := GetInvoiceNumber(date, counter);
      this.invoiceNumber := number;
      this.services := map[];
      this.paid := false;
    }

    /** `_getInvoiceNumber`: the date suffix after the next counter value. */
    static method GetInvoiceNumber(date: string, counter: InvoiceCounter) returns (number: string)
      requires counter.Valid()
      modifies counter
      ensures counter.Valid()
      ensures counter.next == old(counter.next) + 1
      ensures counter.issued == old(counter.issued) + [old(counter.next)]
      ensures number == InvoiceNumberOf(old(counter.next), date)
    {
      var suffix := RemoveSpaces(LastChars(date, DateTailLength));
      var num := counter.NextInvoiceNumber();
      number := DecimalString(num) + suffix;
    }

    /** `invoiceNumber`: the number, whose digits before the date suffix
        read back as the counter value it was allocated from. */
    function InvoiceNumber(): (r: string)
      requires Valid()
      ensures var k := |DateSuffix(date)|;
        && |r| > k && AllDigits(r[..|r| - k])
        && DecimalValue(r[..|r| - k]) == serial
        && r[|r| - k..] == DateSuffix(date)
    {
      InvoiceNumberDecodes(serial, date);
      invoiceNumber
    }

    /** `services`: the current price of every service on the invoice. The
        source hands out the dictionary itself; the model hands out its value. */
    function Services(): (r: map<string, int>)
      reads this
      ensures r.Keys == services.Keys
      ensures forall s :: s in r ==> r[s] == services[s]
    {
      services
    }

    /** `paid`: whether the invoice has been marked paid. */
    function Paid(): (r: bool)
      reads this
      ensures r <==> paid
    {
      paid
    }

    /** `markPaid`. The source line assigns the name `true`, which Python does
        not define (its constant is `True`), so the call raises NameError and
        the flag stays false. This models the evidently intended assignment.
        The new state does not depend on the old flag, so a second call
        changes nothing. */
    method MarkPaid()
      modifies this
      ensures paid && services == old(services)
    {
      paid := true;
    }

    /** `addService`: insert the service, or overwrite its price. */
    method AddService(service: string, price: int)
      modifies this
      ensures services == old(services)[service := price]
      ensures paid == old(paid)
    {
      services := services[service := price];
    }

    /** `removeService`: `pop` the service; an absent name raises KeyError
        and leaves the invoice as it was. */
    method RemoveService(service: string) returns (r: Outcome<InvoiceError>)
      modifies this
      ensures r == if service in old(services) then Pass else Fail(KeyError(service))
      ensures services == old(services) - {service}
      ensures paid == old(paid)
    {
      if service in services {
        services := services - {service};
        r := Pass;
      } else {
        r := Fail(KeyError(service));
      }
    }

    /** `total`: add up the prices with an accumulator. */
    method Total() returns (t: int)
      ensures t == SumValues(services)
    {
      t := 0;
      var rest := services;
      while rest != map[]
        invariant t + SumValues(rest) == SumValues(services)
        decreases |rest|
      {
        var k :| k in rest;
        SumValuesRemove(rest, k);
        t := t + rest[k];
        rest := rest - {k};
      }
    }
  }
}
