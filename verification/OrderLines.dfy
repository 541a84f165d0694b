/** What an order asks for: its total, and the lines sent to the services. */
module OrderLines {
  import opened Base
  import opened StockLedger
  import opened AllOrNothing

  datatype OrderLine = OrderLine(sku: string, warehouse: string, quantity: Int32, price: int)

  /** quantity * unit_price summed in Go's wrapping int64. */
  function Total(lines: seq<OrderLine>): int {
    if lines == [] then 0
    else
      var l := lines[|lines| - 1];
      Wrap64(Total(lines[..|lines| - 1]) + Wrap64(l.quantity * l.price))
  }

  method OrderTotal(lines: seq<OrderLine>) returns (total: int)
    ensures total == Total(lines)
  {
    total := 0;
    for i := 0 to |lines|
      invariant total == Total(lines[..i])
    {
      assert lines[..i + 1][..i] == lines[..i];
      total := Wrap64(total + Wrap64(lines[i].quantity * lines[i].price));
    }
    assert lines[..|lines|] == lines;
  }

  function StockLine(l: OrderLine): Line {
    Line(l.sku, l.warehouse, l.quantity)
  }

  function StockLines(lines: seq<OrderLine>): (r: seq<Line>)
    ensures |r| == |lines|
  {
    if lines == [] then [] else StockLines(lines[..|lines| - 1]) + [StockLine(lines[|lines| - 1])]
  }

  /** reserveItems and stockLines: both drop the price and keep the order. */
  method ToStockLines(lines: seq<OrderLine>) returns (r: seq<Line>)
    ensures r == StockLines(lines)
  {
    r := [];
    for i := 0 to |lines|
      invariant r == StockLines(lines[..i])
    {
      assert lines[..i + 1][..i] == lines[..i];
      r := r + [StockLine(lines[i])];
    }
    assert lines[..|lines|] == lines;
  }

  // ----- order independence -----

  /** The same sum without wrapping. */
  function Exact(lines: seq<OrderLine>): int {
    if lines == [] then 0
    else Exact(lines[..|lines| - 1]) + lines[|lines| - 1].quantity * lines[|lines| - 1].price
  }

  lemma WrapsTogether(a: int, b: int)
    ensures Wrap64(Wrap64(a) + Wrap64(b)) == Wrap64(a + b)
  {
    Wraps(Wrap64(a) + Wrap64(b), a + b);
  }

  lemma Wraps(x: int, y: int)
    requires (x - y) % 0x1_0000_0000_0000_0000 == 0
    ensures Wrap64(x) == Wrap64(y)
  {
  }

  /** Wrapping at every step is wrapping the exact sum once. */
  lemma {:induction false} TotalIsExactWrapped(lines: seq<OrderLine>)
    ensures Total(lines) == Wrap64(Exact(lines))
  {
    if lines != [] {
      var front, l := lines[..|lines| - 1], lines[|lines| - 1];
      TotalIsExactWrapped(front);
      WrapsTogether(Exact(front), l.quantity * l.price);
    } else {
      Wraps(0, 0);
    }
  }

  lemma {:induction false} ExactSkips(lines: seq<OrderLine>, i: nat)
    requires i < |lines|
    ensures Exact(lines) == Exact(lines[..i] + lines[i + 1..]) + lines[i].quantity * lines[i].price
    decreases |lines|
  {
    var n := |lines| - 1;
    if i == n {
      assert lines[..i] + lines[i + 1..] == lines[..n];
    } else {
      var rest := lines[..i] + lines[i + 1..];
      ExactSkips(lines[..n], i);
      assert rest[..n - 1] == lines[..n][..i] + lines[..n][i + 1..];
      assert rest[n - 1] == lines[n];
    }
  }

  lemma {:induction false} ExactIgnoresOrder(a: seq<OrderLine>, b: seq<OrderLine>)
    requires multiset(a) == multiset(b)
    ensures Exact(a) == Exact(b)
    decreases |a|
  {
    if a == [] {
      assert |multiset(b)| == 0;
    } else {
      var i := Counterpart(a, b);
      ExactIgnoresOrder(a[..|a| - 1], b[..i] + b[i + 1..]);
      ExactSkips(b, i);
    }
  }

  lemma {:induction false} StockLinesAt(lines: seq<OrderLine>, k: nat)
    requires k < |lines|
    ensures StockLines(lines)[k] == StockLine(lines[k])
  {
    if k < |lines| - 1 { StockLinesAt(lines[..|lines| - 1], k); }
  }

  lemma StockLinesSkip(lines: seq<OrderLine>, i: nat)
    requires i < |lines|
    ensures StockLines(lines[..i] + lines[i + 1..]) == StockLines(lines)[..i] + StockLines(lines)[i + 1..]
  {
    var rest, all := lines[..i] + lines[i + 1..], StockLines(lines);
    forall k | 0 <= k < |rest| ensures StockLines(rest)[k] == (all[..i] + all[i + 1..])[k] {
      StockLinesAt(rest, k);
      StockLinesAt(lines, if k < i then k else k + 1);
    }
  }

  lemma {:induction false} StockLinesKeepMultiset(a: seq<OrderLine>, b: seq<OrderLine>)
    requires multiset(a) == multiset(b)
    ensures multiset(StockLines(a)) == multiset(StockLines(b))
    decreases |a|
  {
    if a == [] {
      assert |multiset(b)| == 0;
    } else {
      var i := Counterpart(a, b);
      var all := StockLines(b);
      StockLinesKeepMultiset(a[..|a| - 1], b[..i] + b[i + 1..]);
      StockLinesSkip(b, i);
      StockLinesAt(b, i);
      assert all == all[..i] + [all[i]] + all[i + 1..];
    }
  }

  /** Lines reloaded in another order are charged the same amount, wrapping included, and hold and confirm the
      same quantity at every location. */
  lemma ResumeSendsTheSameWork(sent: seq<OrderLine>, stored: seq<OrderLine>, tenant: string, loc: Location)
    requires multiset(sent) == multiset(stored)
    ensures Total(stored) == Total(sent) == Wrap64(Exact(sent))
    ensures multiset(StockLines(stored)) == multiset(StockLines(sent))
    ensures SumAt(tenant, StockLines(stored), loc) == SumAt(tenant, StockLines(sent), loc)
  {
    TotalIsExactWrapped(sent);
    TotalIsExactWrapped(stored);
    ExactIgnoresOrder(sent, stored);
    StockLinesKeepMultiset(sent, stored);
    SumsIgnoreOrder(tenant, StockLines(stored), StockLines(sent), loc);
  }
}
