/** The CSV export of invoices: a fixed header line, then one row per invoice. The service
    provider and payer columns join names with `;`. */
module Csv {
  import opened Wrappers
  import opened Entities
  import opened ServiceRequests
  import opened Invoices

  const Header: string := "Name, Status, Amount, Tip, Invoice Date, Paid Date, Service Providers, Payers\r\n"
  const RowSeparator: string := "\r\n"
  const NameSeparator: string := ";"

  /** `Array.prototype.join`: the parts with `sep` between each two neighbours. */
  function Join(parts: seq<string>, sep: string): string
    decreases |parts|
  {
    if parts == [] then ""
    else if |parts| == 1 then parts[0]
    else Join(parts[..|parts| - 1], sep) + sep + parts[|parts| - 1]
  }

  function TotalLength(parts: seq<string>): nat
    decreases |parts|
  {
    if parts == [] then 0 else TotalLength(parts[..|parts| - 1]) + |parts[|parts| - 1]|
  }

  /** A joined string is as long as its parts together plus one separator between each
      two neighbours. */
  lemma {:induction false} JoinLength(parts: seq<string>, sep: string)
    requires parts != []
    ensures |Join(parts, sep)| == TotalLength(parts) + (|parts| - 1) * |sep|
    decreases |parts|
  {
    var init := parts[..|parts| - 1];
    var last := parts[|parts| - 1];
    assert TotalLength(parts) == TotalLength(init) + |last|;
    if |parts| > 1 {
      JoinLength(init, sep);
      assert |Join(parts, sep)| == |Join(init, sep)| + |sep| + |last|;
      assert (|parts| - 1) * |sep| == (|init| - 1) * |sep| + |sep|;
    }
  }

  /** Each part sits in the joined string at the offset of the parts before it and their
      separators, so the join loses and reorders nothing. */
  lemma {:induction false} JoinPart(parts: seq<string>, sep: string, k: nat)
    requires k < |parts|
    ensures var offset := TotalLength(parts[..k]) + k * |sep|;
            offset + |parts[k]| <= |Join(parts, sep)|
            && Join(parts, sep)[offset..offset + |parts[k]|] == parts[k]
    decreases |parts|
  {
    var offset := TotalLength(parts[..k]) + k * |sep|;
    var init := parts[..|parts| - 1];
    var last := parts[|parts| - 1];
    if k == |parts| - 1 {
      assert parts[..k] == init;
      if k == 0 {
        assert Join(parts, sep) == last;
      } else {
        JoinLength(init, sep);
        assert k * |sep| == (k - 1) * |sep| + |sep|;
        SliceOfSuffix(Join(init, sep) + sep, last);
      }
    } else {
      assert init[..k] == parts[..k];
      JoinPart(init, sep, k);
      SliceOfPrefix(Join(init, sep), sep + last, offset, offset + |parts[k]|);
      assert Join(parts, sep) == Join(init, sep) + (sep + last);
    }
  }

  lemma SliceOfPrefix(a: string, b: string, i: nat, j: nat)
    requires i <= j <= |a|
    ensures (a + b)[i..j] == a[i..j]
  {
  }

  lemma SliceOfSuffix(a: string, b: string)
    ensures (a + b)[|a|..|a| + |b|] == b
  {
  }

  /** The names of the hydrated service providers of the requests, in request order. */
  function ProviderNames(requests: seq<ServiceRequest>): seq<string>
    decreases |requests|
  {
    if requests == [] then []
    else
      var rest := ProviderNames(requests[..|requests| - 1]);
      var r := requests[|requests| - 1];
      if r.serviceProvider.Some? then rest + [r.serviceProvider.value.name] else rest
  }

  /** The names of the payers, in payer order. */
  function PayerNames(payers: seq<HorseManager>): seq<string>
    decreases |payers|
  {
    if payers == [] then [] else PayerNames(payers[..|payers| - 1]) + [payers[|payers| - 1].name]
  }

  /** One provider name per request that has a hydrated provider: the names of two lists of
      requests are the names of each in turn, and a request without a provider adds none. */
  lemma {:induction false} ProviderNamesConcat(a: seq<ServiceRequest>, b: seq<ServiceRequest>)
    ensures ProviderNames(a + b) == ProviderNames(a) + ProviderNames(b)
    decreases |b|
  {
    if b != [] {
      var init := b[..|b| - 1];
      assert (a + b)[..|a + b| - 1] == a + init;
      var r := b[|b| - 1];
      assert (a + b)[|a + b| - 1] == r;
      ProviderNamesConcat(a, init);
      if r.serviceProvider.Some? {
        var name := [r.serviceProvider.value.name];
        assert ProviderNames(a + b) == (ProviderNames(a) + ProviderNames(init)) + name;
        assert ProviderNames(b) == ProviderNames(init) + name;
      }
    } else {
      assert a + b == a;
    }
  }

  /** A name is listed exactly when some request's hydrated provider has that name. */
  lemma {:induction false} ProviderNamesMembers(requests: seq<ServiceRequest>, name: string)
    ensures name in ProviderNames(requests) <==>
            exists i :: 0 <= i < |requests| && requests[i].serviceProvider.Some?
                                             && requests[i].serviceProvider.value.name == name
    decreases |requests|
  {
    if requests != [] {
      var init := requests[..|requests| - 1];
      ProviderNamesMembers(init, name);
      forall i | 0 <= i < |init| ensures init[i] == requests[i] { }
    }
  }

  /** The payer column lists every payer's name, one per payer, in payer order. */
  lemma {:induction false} PayerNamesInOrder(payers: seq<HorseManager>)
    ensures |PayerNames(payers)| == |payers|
    ensures forall k :: 0 <= k < |payers| ==> PayerNames(payers)[k] == payers[k].name
    decreases |payers|
  {
    if payers != [] {
      PayerNamesInOrder(payers[..|payers| - 1]);
    }
  }

  /** `getServiceProviders`: a request without a hydrated provider is skipped. */
  method GetServiceProviders(inv: Invoice) returns (s: string)
    ensures s == Join(ProviderNames(inv.requests), NameSeparator)
  {
    var names: seq<string> := [];
    for i := 0 to |inv.requests|
      invariant names == ProviderNames(inv.requests[..i])
    {
      assert inv.requests[..i + 1][..i] == inv.requests[..i];
      var r := inv.requests[i];
      if r.serviceProvider.None? {
        continue;
      }
      names := names + [r.serviceProvider.value.name];
    }
    assert inv.requests[..|inv.requests|] == inv.requests;
    s := Join(names, NameSeparator);
  }

  /** `getPayers`. */
  method GetPayers(inv: Invoice) returns (s: string)
    ensures s == Join(PayerNames(inv.payers), NameSeparator)
  {
    var names: seq<string> := [];
    for i := 0 to |inv.payers|
      invariant names == PayerNames(inv.payers[..i])
    {
      assert inv.payers[..i + 1][..i] == inv.payers[..i];
      names := names + [inv.payers[i].name];
    }
    assert inv.payers[..|inv.payers|] == inv.payers;
    s := Join(names, NameSeparator);
  }

  /** The renderings the row takes from libraries: the upper-cased status, an amount with
      two decimals, and a date as `mmm dS, yyyy`. */
  datatype Formatter = Formatter(status: InvoiceStatus -> string, money: real -> string, date: int -> string)

  /** The eight cells of an invoice's row, given its provider and payer columns; an
      unpaid invoice shows `Not Paid Yet`. */
  function Cells(fmt: Formatter, inv: Invoice, providers: string, payers: string): (cells: seq<string>)
    ensures |cells| == 8
  {
    [inv.name,
     fmt.status(inv.status),
     "$" + fmt.money(inv.amount),
     "$" + fmt.money(inv.tip),
     fmt.date(inv.createdAt),
     if inv.paidAt.Some? then fmt.date(inv.paidAt.value) else "Not Paid Yet",
     providers,
     payers]
  }

  /** The row as the template literal lays it out: the first four cells end in a comma,
      a space and a line break, the next three in a comma and a line break, and every
      cell after the first is indented by eight spaces. */
  function Layout(c: seq<string>): string
    requires |c| == 8
  {
    var wide := ", \n        ";
    var narrow := ",\n        ";
    c[0] + wide + c[1] + wide + c[2] + wide + c[3] + wide + c[4] + narrow + c[5] + narrow + c[6] + narrow + c[7]
  }

  function Row(fmt: Formatter, inv: Invoice): string
  {
    Layout(Cells(fmt, inv, Join(ProviderNames(inv.requests), NameSeparator), Join(PayerNames(inv.payers), NameSeparator)))
  }

  function Rows(fmt: Formatter, invoices: seq<Invoice>): (rows: seq<string>)
    ensures |rows| == |invoices|
    decreases |invoices|
  {
    if invoices == [] then [] else Rows(fmt, invoices[..|invoices| - 1]) + [Row(fmt, invoices[|invoices| - 1])]
  }

  /** The whole CSV: the header, then the rows joined by CRLF when there is at least one. */
  function CsvOf(fmt: Formatter, invoices: seq<Invoice>): string
  {
    var rows := Rows(fmt, invoices);
    Header + if 0 < |rows| then Join(rows, RowSeparator) else ""
  }

  /** The model of `makeCSVStringWithInvoices`. */
  method MakeCsvStringWithInvoices(fmt: Formatter, invoices: seq<Invoice>) returns (csv: string)
    ensures csv == CsvOf(fmt, invoices)
  {
    csv := Header;
    var rows: seq<string> := [];
    for i := 0 to |invoices|
      invariant rows == Rows(fmt, invoices[..i])
    {
      assert invoices[..i + 1][..i] == invoices[..i];
      var inv := invoices[i];
      var providers := GetServiceProviders(inv);
      var payers := GetPayers(inv);
      var row := Layout(Cells(fmt, inv, providers, payers));
      rows := rows + [row];
    }
    assert invoices[..|invoices|] == invoices;
    if 0 < |rows| {
      csv := csv + Join(rows, RowSeparator);
    }
  }

  /** Every export starts with the header line, whatever the invoices. */
  lemma CsvStartsWithHeader(fmt: Formatter, invoices: seq<Invoice>)
    ensures Header <= CsvOf(fmt, invoices)
    ensures invoices == [] ==> CsvOf(fmt, invoices) == Header
  {
    var rest := if 0 < |Rows(fmt, invoices)| then Join(Rows(fmt, invoices), RowSeparator) else "";
    assert CsvOf(fmt, invoices) == Header + rest;
    assert (Header + rest)[..|Header|] == Header;
  }

  /** Exporting one more invoice appends a CRLF and that invoice's row; the first row
      follows the header directly. */
  lemma CsvSnoc(fmt: Formatter, invoices: seq<Invoice>, inv: Invoice)
    ensures invoices == [] ==> CsvOf(fmt, [inv]) == Header + Row(fmt, inv)
    ensures invoices != [] ==> CsvOf(fmt, invoices + [inv]) == CsvOf(fmt, invoices) + RowSeparator + Row(fmt, inv)
  {
    RowsSnoc(fmt, invoices, inv);
    var rows := Rows(fmt, invoices);
    if invoices != [] {
      JoinSnoc(rows, Row(fmt, inv), RowSeparator);
      ConcatAssoc(Header, Join(rows, RowSeparator), RowSeparator, Row(fmt, inv));
    } else {
      assert Join([Row(fmt, inv)], RowSeparator) == Row(fmt, inv);
    }
  }

  lemma RowsSnoc(fmt: Formatter, invoices: seq<Invoice>, inv: Invoice)
    ensures Rows(fmt, invoices + [inv]) == Rows(fmt, invoices) + [Row(fmt, inv)]
  {
    assert (invoices + [inv])[..|invoices|] == invoices;
  }

  lemma JoinSnoc(parts: seq<string>, part: string, sep: string)
    requires parts != []
    ensures Join(parts + [part], sep) == Join(parts, sep) + sep + part
  {
    assert (parts + [part])[..|parts|] == parts;
  }

  lemma ConcatAssoc(a: string, b: string, c: string, d: string)
    ensures a + (b + c + d) == a + b + c + d
  {
  }
}
