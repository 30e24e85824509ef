/** The monthly spending report (Centsible/screens/reports.js): the transactions of
    the bank statement that are spendings (negative amount) in the selected month are
    grouped by category into totals, one pie-chart entry per category, and per-category
    detail rows.

    The statement is a parameter, amounts are integer cents and each transaction
    carries its month (1 to 12) already computed from its date. A JavaScript object
    used as a dictionary is a `map` together with the sequence of its keys in
    insertion order, the order `Object.keys` and `Object.values` report. */
module Reports {

  datatype BankTransaction = BankTransaction(
    category: string,
    description: string,
    amount: int,
    date: string,
    month: int)

  datatype ChartEntry = ChartEntry(
    name: string,
    population: int,
    color: string,
    legendFontColor: string,
    legendFontSize: int)

  datatype Detail = Detail(description: string, amount: int, date: string)

  const Colors: seq<string> :=
    ["#f39c12", "#3498db", "#e74c3c", "#9b59b6", "#1abc9c", "#2ecc71", "#e67e22", "#d35400"]
  const LegendFontColor: string := "#000"
  const LegendFontSize: int := 12

  /** `getColor`: the palette is used cyclically. */
  function GetColor(index: nat): (color: string)
    ensures color in Colors
  {
    Colors[index % |Colors|]
  }

  lemma GetColorCycles(index: nat)
    ensures GetColor(index + |Colors|) == GetColor(index)
    ensures index < |Colors| ==> GetColor(index) == Colors[index]
  {
    var q, r := index / 8, index % 8;
    assert index + 8 == 8 * (q + 1) + r;
    assert (index + 8) % 8 == r;
  }

  /** `Math.abs`. */
  function Abs(x: int): (r: nat)
    ensures r == x || r == -x
  {
    if x < 0 then -x else x
  }

  /** Whether a transaction is a spending of the selected month. */
  predicate Counts(t: BankTransaction, month: int)
  {
    t.amount < 0 && t.month == month
  }

  function Last(s: seq<BankTransaction>): BankTransaction
    requires s != []
  {
    s[|s| - 1]
  }

  function Init(s: seq<BankTransaction>): seq<BankTransaction>
    requires s != []
  {
    s[..|s| - 1]
  }

  // ---------------------------------------------------------------------------
  // Specification of the grouping, over the transactions in statement order

  /** What one transaction adds to the total of category `c`. */
  function Share(t: BankTransaction, month: int, c: string): nat
  {
    if Counts(t, month) && t.category == c then Abs(t.amount) else 0
  }

  /** What one transaction adds to the total spending. */
  function Spent(t: BankTransaction, month: int): nat
  {
    if Counts(t, month) then Abs(t.amount) else 0
  }

  /** The detail rows one transaction adds to category `c`. */
  function Rows(t: BankTransaction, month: int, c: string): seq<Detail>
  {
    if Counts(t, month) && t.category == c then [Detail(t.description, Abs(t.amount), t.date)] else []
  }

  /** The sum of `|amount|` over the counted transactions of category `c`. */
  function CategoryTotal(s: seq<BankTransaction>, month: int, c: string): nat
  {
    if s == [] then 0 else CategoryTotal(Init(s), month, c) + Share(Last(s), month, c)
  }

  /** The sum of `|amount|` over all counted transactions. */
  function Spending(s: seq<BankTransaction>, month: int): nat
  {
    if s == [] then 0 else Spending(Init(s), month) + Spent(Last(s), month)
  }

  /** The categories of the counted transactions, each once, in order of first occurrence. */
  function Categories(s: seq<BankTransaction>, month: int): (cats: seq<string>)
    ensures forall i, j :: 0 <= i < j < |cats| ==> cats[i] != cats[j]
    ensures forall c :: c in cats <==>
      exists i :: 0 <= i < |s| && Counts(s[i], month) && s[i].category == c
  {
    if s == [] then [] else
      var prior := Categories(Init(s), month);
      assert forall i :: 0 <= i < |Init(s)| ==> Init(s)[i] == s[i];
      if Counts(Last(s), month) && Last(s).category !in prior then prior + [Last(s).category]
      else prior
  }

  /** The detail rows of category `c`, in statement order. */
  function DetailsOf(s: seq<BankTransaction>, month: int, c: string): seq<Detail>
  {
    if s == [] then [] else DetailsOf(Init(s), month, c) + Rows(Last(s), month, c)
  }

  function SumAmounts(ds: seq<Detail>): int
  {
    if ds == [] then 0 else SumAmounts(ds[..|ds| - 1]) + ds[|ds| - 1].amount
  }

  /** `Object.values(totals).reduce((sum, value) => sum + value, 0)`. */
  function SumValues(order: seq<string>, totals: map<string, int>): int
    requires forall c :: c in order ==> c in totals
  {
    if order == [] then 0
    else SumValues(order[..|order| - 1], totals) + totals[order[|order| - 1]]
  }

  /** The sum of the category totals over `cats`. */
  function SumOfTotals(cats: seq<string>, s: seq<BankTransaction>, month: int): int
  {
    if cats == [] then 0
    else SumOfTotals(cats[..|cats| - 1], s, month) + CategoryTotal(s, month, cats[|cats| - 1])
  }

  /** `Object.keys(totals).map(...)`: one entry per key, coloured by its position. */
  function ChartEntries(order: seq<string>, totals: map<string, int>): seq<ChartEntry>
    requires forall c :: c in order ==> c in totals
  {
    seq(|order|, i requires 0 <= i < |order| =>
      ChartEntry(order[i], totals[order[i]], GetColor(i), LegendFontColor, LegendFontSize))
  }

  // ---------------------------------------------------------------------------
  // Properties of the grouping

  /** A category has a positive total exactly when it is one of the counted categories. */
  lemma {:induction false} TotalPositive(s: seq<BankTransaction>, month: int, c: string)
    ensures c in Categories(s, month) ==> CategoryTotal(s, month, c) > 0
    ensures c !in Categories(s, month) ==> CategoryTotal(s, month, c) == 0
  {
    if s != [] {
      TotalPositive(Init(s), month, c);
    }
  }

  /** The detail rows of a category add up to its total. */
  lemma {:induction false} DetailsMatchTotal(s: seq<BankTransaction>, month: int, c: string)
    ensures SumAmounts(DetailsOf(s, month, c)) == CategoryTotal(s, month, c)
  {
    if s != [] {
      DetailsMatchTotal(Init(s), month, c);
      var prior, rows := DetailsOf(Init(s), month, c), Rows(Last(s), month, c);
      var all := prior + rows;
      if rows == [] {
        assert all == prior;
      } else {
        assert all[..|all| - 1] == prior;
        assert all[|all| - 1].amount == Share(Last(s), month, c);
      }
    }
  }

  /** A category has detail rows exactly when it is one of the counted categories. */
  lemma {:induction false} DetailsNonEmpty(s: seq<BankTransaction>, month: int, c: string)
    ensures DetailsOf(s, month, c) != [] <==> c in Categories(s, month)
  {
    if s != [] {
      DetailsNonEmpty(Init(s), month, c);
    }
  }

  lemma {:induction false} SumOfTotalsStep(cats: seq<string>, s: seq<BankTransaction>, month: int)
    requires s != []
    requires forall i, j :: 0 <= i < j < |cats| ==> cats[i] != cats[j]
    ensures SumOfTotals(cats, s, month) == SumOfTotals(cats, Init(s), month)
      + (if Counts(Last(s), month) && Last(s).category in cats then Abs(Last(s).amount) else 0)
  {
    if cats != [] {
      var front := cats[..|cats| - 1];
      assert forall c :: c in cats <==> c in front || c == cats[|cats| - 1] by {
        assert cats == front + [cats[|cats| - 1]];
      }
      assert cats[|cats| - 1] !in front;
      SumOfTotalsStep(front, s, month);
    }
  }

  /** The total spending is the sum of the category totals. */
  lemma {:induction false} SpendingIsSumOfTotals(s: seq<BankTransaction>, month: int)
    ensures SumOfTotals(Categories(s, month), s, month) == Spending(s, month)
  {
    if s != [] {
      var prior := Categories(Init(s), month);
      SpendingIsSumOfTotals(Init(s), month);
      SumOfTotalsStep(prior, s, month);
      if Counts(Last(s), month) && Last(s).category !in prior {
        var c := Last(s).category;
        assert (prior + [c])[..|prior|] == prior;
        TotalPositive(Init(s), month, c);
      }
    }
  }

  lemma {:induction false} SumValuesOfTotals(order: seq<string>, totals: map<string, int>,
                                             s: seq<BankTransaction>, month: int)
    requires forall c :: c in order ==> c in totals && totals[c] == CategoryTotal(s, month, c)
    ensures SumValues(order, totals) == SumOfTotals(order, s, month)
  {
    if order != [] {
      SumValuesOfTotals(order[..|order| - 1], totals, s, month);
    }
  }

  // ---------------------------------------------------------------------------
  // The two loops of the screen

  /** `processData`: fills the per-category totals in one pass, then sums them and
      maps them to chart entries. */
  method ProcessData(transactions: seq<BankTransaction>, selectedMonth: int)
    returns (chartData: seq<ChartEntry>, totalSpending: int)
    ensures |chartData| == |Categories(transactions, selectedMonth)|
    ensures forall i :: 0 <= i < |chartData| ==>
      var c := Categories(transactions, selectedMonth)[i];
      chartData[i] == ChartEntry(c, CategoryTotal(transactions, selectedMonth, c), GetColor(i),
                                 LegendFontColor, LegendFontSize)
    ensures forall i :: 0 <= i < |chartData| ==> chartData[i].population > 0
    ensures totalSpending == Spending(transactions, selectedMonth)
  {
    var totals: map<string, int> := map[];
    var order: seq<string> := [];
    for i := 0 to |transactions|
      invariant order == Categories(transactions[..i], selectedMonth)
      invariant forall c :: c in totals <==> c in order
      invariant forall c :: c in totals ==> totals[c] == CategoryTotal(transactions[..i], selectedMonth, c)
    {
      var t := transactions[i];
      assert Init(transactions[..i + 1]) == transactions[..i];
      assert Last(transactions[..i + 1]) == t;
      if t.amount < 0 && t.month == selectedMonth {
        // `!categoryTotals[category]`: a stored total is never 0, so this is "not yet a key"
        if t.category !in totals {
          TotalPositive(transactions[..i], selectedMonth, t.category);
          totals := totals[t.category := 0];
          order := order + [t.category];
        }
        totals := totals[t.category := totals[t.category] + Abs(t.amount)];
      }
    }
    assert transactions[..|transactions|] == transactions;
    totalSpending := SumValues(order, totals);
    SumValuesOfTotals(order, totals, transactions, selectedMonth);
    SpendingIsSumOfTotals(transactions, selectedMonth);
    chartData := ChartEntries(order, totals);
    forall i | 0 <= i < |chartData| ensures chartData[i].population > 0 {
      TotalPositive(transactions, selectedMonth, order[i]);
    }
  }

  /** The details pass of the report's effect: the counted transactions of each
      category, with absolute amounts, in statement order. */
  method CategoryDetails(transactions: seq<BankTransaction>, selectedMonth: int)
    returns (details: map<string, seq<Detail>>)
    ensures forall c :: c in details <==> c in Categories(transactions, selectedMonth)
    ensures forall c :: c in details ==> details[c] == DetailsOf(transactions, selectedMonth, c)
  {
    details := map[];
    for i := 0 to |transactions|
      invariant forall c :: c in details <==> c in Categories(transactions[..i], selectedMonth)
      invariant forall c :: c in details ==> details[c] == DetailsOf(transactions[..i], selectedMonth, c)
    {
      var t := transactions[i];
      assert Init(transactions[..i + 1]) == transactions[..i];
      assert Last(transactions[..i + 1]) == t;
      if t.amount < 0 && t.month == selectedMonth {
        if t.category !in details {
          details := details[t.category := []];
          DetailsNonEmpty(transactions[..i], selectedMonth, t.category);
        }
        details := details[t.category := details[t.category] + [Detail(t.description, Abs(t.amount), t.date)]];
      }
    }
    assert transactions[..|transactions|] == transactions;
  }

  /** The two passes agree: the chart has an entry for a category exactly when the
      details have rows for it, and those rows add up to the entry's population. */
  lemma ReportConsistent(s: seq<BankTransaction>, month: int, c: string)
    ensures c in Categories(s, month) <==> DetailsOf(s, month, c) != []
    ensures SumAmounts(DetailsOf(s, month, c)) == CategoryTotal(s, month, c)
  {
    DetailsNonEmpty(s, month, c);
    DetailsMatchTotal(s, month, c);
  }
}
