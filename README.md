# Invoicing: invoice numbering and point-of-sale bookkeeping

A Dafny model of the in-memory core of a single-operator point-of-sale tool
(Invoicing.py). Two classes carry the state:

- `Invoice` is one bill. It has a creation date, an invoice number, a map
  from service name to integer price, and a paid flag. Numbers come from a
  counter shared by all invoices. The counter starts at 90001 and advances
  by one per invoice. A number is the counter value in decimal followed by
  the last seven characters of the date with the spaces removed.
- `POS` is the session. It holds the catalog of service prices and the map
  from invoice number to invoice. It filters that map to the unpaid
  invoices. It also applies the rules a menu, service or invoice choice
  must meet before anything is changed.

Modules:

- `Wrappers` (wrappers.dfy): `Option`, `Result`, `Outcome`.
- `InvoiceNumbering` (numbering.dfy): the pure numbering scheme. It covers
  Python's `str(n)`, `s[-7:]` and `s.replace(" ", "")`, the number itself,
  and the proofs that a number decodes back to its counter value and that
  distinct counter values give distinct numbers when the two date suffixes
  have the same length, as they do for every date the clock produces.
- `Invoicing` (invoice.dfy): the counter as an explicit `InvoiceCounter`
  object, the `Invoice` class, and the sum of a price map with its lemmas.
- `PointOfSale` (pos.dfy): the `Pos` class and the selection rules.

The class-wide counter `Invoice._invoiceIds` is an `InvoiceCounter` object.
It is passed to the `Invoice` constructor and held by the session. Its ghost
field `issued` lists every value handed out, and `Valid()` ties that list to
`90001, ..., next - 1`. The creation date, which the code reads from the
clock, is a parameter. Session operations that rely on the date's format
require a date of the shape `strftime("%a %b %d %Y")` produces, such as
"Tue Oct 14 2026". For such a date the suffix is the day followed by the
year ("142026"). The code takes the day and the year here, not the day and
the month. Catalog prices are integers, because the code parses them with
`int(...)`. Each `Invoice` keeps the counter value its number was built
from in a constant field `serial`. The code drops that value once the
number is built. The model keeps it so that the session invariant can say
every filed number came from an earlier counter value.

## Model

| member | source | states |
|---|---|---|
| `InvoiceNumbering.DecimalString` | Invoicing.py:20 | `str(n)` gives at least one character, all of them decimal digits, and it starts with `0` exactly when `n` is 0 (no leading zeros) |
| `InvoiceNumbering.DecimalRoundTrip` | Invoicing.py:20 | reading back the digits of `str(n)` gives `n` |
| `InvoiceNumbering.DecimalStringInjective` | Invoicing.py:20 | two counter values with the same decimal string are equal |
| `InvoiceNumbering.LastChars` | Invoicing.py:19 | `date[-7:]` has length `min(7, len(date))` and is the tail of `date` of that length |
| `InvoiceNumbering.RemoveSpaces` | Invoicing.py:19 | `replace(" ", "")` leaves no space, never lengthens the string, keeps every other character as often as it occurs, and returns a space-free string unchanged |
| `InvoiceNumbering.RemoveSpacesAppend` | Invoicing.py:19 | removing spaces from a concatenation is the concatenation of the two results |
| `InvoiceNumbering.DateSuffix` | Invoicing.py:19 | the date part of an invoice number has at most 7 characters and no space |
| `InvoiceNumbering.InvoiceNumberDecodes` | Invoicing.py:18-20 | an invoice number splits into a digit prefix whose value is the allocated counter value, followed by exactly `date[-7:]` with spaces removed |
| `InvoiceNumbering.InvoiceNumbersDistinct` | Invoicing.py:18-20 | distinct counter values give distinct numbers whenever the two date suffixes have the same length |
| `InvoiceNumbering.StrftimeDateSuffix` | Invoicing.py:8-19 | for a date formatted `%a %b %d %Y` the suffix is the two day digits followed by the four year digits |
| `InvoiceNumbering.StrftimeNumbersDistinct` | Invoicing.py:8-20 | invoices numbered from distinct counter values on such dates never share a number |
| `Invoicing.SpanValues` | Invoicing.py:23-26 | the values a counter starting at `lo` has handed out before reaching `hi` are `lo, lo + 1, ...`: strictly increasing, none repeated |
| `Invoicing.InvoiceCounter.constructor` | Invoicing.py:5 | the counter starts at 90001 with nothing handed out |
| `Invoicing.InvoiceCounter.NextInvoiceNumber` | Invoicing.py:23-26 | returns the current value, leaves the counter exactly one larger, and the value is larger than every value handed out before |
| `Invoicing.SumValuesRemove` | Invoicing.py:46-51 | the sum of the prices is one price plus the sum of the rest, whichever key is taken first (the visiting order does not matter) |
| `Invoicing.SumValuesUpdate` | Invoicing.py:40-41 | setting a price replaces the service's old price in the total, or adds to the total when the service was absent |
| `Invoicing.AddThenRemoveRestores` | Invoicing.py:40-44 | adding a new service and then removing it restores the previous service map; the total rises by its price in between and so returns to its prior value |
| `Invoicing.TwoServiceTotal` | Invoicing.py:46-51 | an invoice holding Cleaning at 40 and Consultation at 75 totals 115 |
| `Invoicing.Invoice.constructor` | Invoicing.py:7-14 | a new invoice keeps the given date, consumes exactly one counter value, is numbered from that value and that date, has no services and is unpaid |
| `Invoicing.Invoice.InvoiceNumber` | Invoicing.py:28-29 | the number's digits before the date suffix read back as the counter value it was allocated from, and the rest is the date suffix |
| `Invoicing.Invoice.Services` | Invoicing.py:31-32 | returns the invoice's current services with their prices |
| `Invoicing.Invoice.Paid` | Invoicing.py:34-35 | returns whether the invoice has been marked paid |
| `Invoicing.Invoice.GetInvoiceNumber` | Invoicing.py:17-20 | allocates the next counter value and returns the number built from it and the date |
| `Invoicing.Invoice.MarkPaid` | Invoicing.py:37-38 | the invoice is paid afterwards whatever it was before, so a second call changes nothing; the services are unchanged |
| `Invoicing.Invoice.AddService` | Invoicing.py:40-41 | the service now has the given price (an existing price is overwritten); every other service and the paid flag are unchanged |
| `Invoicing.Invoice.RemoveService` | Invoicing.py:43-44 | a present service is deleted and nothing else changes; an absent one fails with `KeyError` and leaves the invoice unchanged |
| `Invoicing.Invoice.Total` | Invoicing.py:46-51 | the accumulator loop returns the sum of all prices on the invoice (0 when there are none) |
| `PointOfSale.MenuSelection` | Invoicing.py:120-130 | a menu entry is a selection exactly when it is a number from 1 to the menu length, and then it selects that number; a non-number is reported as such |
| `PointOfSale.NonPositiveAcceptedAsWritten` | Invoicing.py:124 | the retry loop as written accepts 0 and negative numbers, which the menu rule rejects |
| `PointOfSale.Pos.constructor` | Invoicing.py:80-84 | a new session holds the given catalog and no invoices |
| `PointOfSale.Pos.AddInvoice` | Invoicing.py:101-102 | the invoice is filed under its number and every other entry is unchanged |
| `PointOfSale.Pos.ListUnpaidInvoices` | Invoicing.py:105-110 | the result holds exactly the entries of the session's map whose invoice is unpaid, each with the same invoice, so it is a sub-map |
| `PointOfSale.Pos.GetService` | Invoicing.py:146-150 | a service choice succeeds exactly when it is among the offered names and has a catalog price, and then yields the name with its catalog price; a name not offered is refused |
| `PointOfSale.Pos.ConfirmInvoice` | Invoicing.py:152-162 | an invoice choice succeeds exactly when it is the number of an unpaid invoice, and the invoice returned is that one and is unpaid |
| `PointOfSale.Pos.CreateInvoice` | Invoicing.py:183-185 | menu item 1 creates an unpaid invoice with no services, dated `date` and numbered from the next counter value, files it under a number no filed invoice has, and keeps the session invariant |
| `PointOfSale.TwoServiceSession` | Invoicing.py:183-192 | a fresh session creates invoice 90001 dated "Tue Oct 14 2026", adds Cleaning (40) and Consultation (75) at their catalog prices, totals 115, and is paid after `MarkPaid` |

## Left out

- Console I/O is not modelled: `printMenu`, `printServices`, `close`, `printInvoice`, `confirmInvoiceCreated`, the `input`/`print` prompts and the `main` command loop beyond its first menu item (Invoicing.py:112-211). The re-prompt loops are modelled as the predicates they test. A refused choice is a `Failure`, `None` or `OutOfRange` value instead of another prompt.
- Menu items 2 to 5 of `main` are not modelled. Item 3 builds a fresh `Invoice()` instead of selecting one, which also uses up a counter value. Item 4 calls `markPaid` on the session, which has no such method. The model keeps the operations these items were meant to combine (`ConfirmInvoice`, `GetService`, `AddService`, `RemoveService`, `MarkPaid`).
- `datetime.datetime.now()` is not modelled (Invoicing.py:8). The date string is a parameter.
- Loading the catalog from CSV in `_getServiceList` is not modelled (Invoicing.py:89-98). It is file I/O, and `int(...)` parses text. The catalog is a given map from name to integer price.
- `__str__` receipt rendering is not modelled (Invoicing.py:53-68). It is fixed-width formatting with floats. Because of this, the insertion order of the service map, which only the receipt shows, is not modelled either.
- `_costDue` is set to 0 in `__init__` and never read (Invoicing.py:9), so it has no counterpart.
- `Invoicing.Invoice.Services`: the code returns the dictionary itself, which callers could then change. The model returns a value, so this aliasing is not modelled.
- `PointOfSale.MenuSelection`: its input is the entry after integer parsing, with the parse failure as `None`. Python's `int` syntax (signs, surrounding whitespace, underscores) is not modelled. Unlike the code, it also rejects choices below 1 (see Findings). The code returns `None` after a non-number. The model names that case `NotANumber`.
- `Invoicing.Invoice.MarkPaid`: this follows the evident intent to set the flag to true. As written, the line assigns the undefined name `true` (Python spells it `True`), so the call raises `NameError` and the flag stays false.
- `PointOfSale.Pos.CreateInvoice`: it requires a date in the `%a %b %d %Y` shape the clock produces. For arbitrary date strings, uniqueness is proved only when the suffixes have equal length (`InvoiceNumbersDistinct`).

## Findings

| source | as written | input that shows it | evidently intended | confidence | as-written member | corrected member |
|---|---|---|---|---|---|---|
| Invoicing.py:124 | the retry loop only re-prompts while `int(choice) > len(self._menu)` | entering `0` (or any negative number) is returned as a selection | a selection is a number from 1 to 6 | medium, not executed (`main` then matches no item and shows the menu again) | `PointOfSale.NonPositiveAcceptedAsWritten` | `PointOfSale.MenuSelection` |
