/** The record-level logic of the transaction screen (screens/transaction.js): how a
    fetched record gets its category label and list key, the newest-first date order
    of the ledger, the removal of a key, and the running balance.

    Amounts are integer cents and dates integer timestamps; the category-name lookup
    and the server's answers are inputs, never behaviour of the model. */
module Transactions {
  import opened Wrappers
  import Decimal

  const IncomeType: string := "Income"
  const ExpenseType: string := "Expense"
  const IncomeLabel: string := "Income"
  const UnknownCategory: string := "Unknown Category"
  /** The single user the screen works for. */
  const UserId: int := 1

  /** A transaction record as the server stores it. The type is the server's free
      string, compared with `===` against "Income" and "Expense". */
  datatype Record = Record(
    id: Option<int>,
    userId: int,
    amount: int,
    transactionType: string,
    budgetCategoryId: Option<int>,
    description: string,
    date: int)

  /** A list key of the screen. Keys are compared with `===`, so a number never
      equals a string, and an absent id gives a key that equals no number or string. */
  datatype Key = NumberKey(n: int) | StringKey(s: string) | NoKey

  /** A record of the ledger: the server's fields spread in, plus the derived label and key. */
  datatype Entry = Entry(record: Record, category: string, key: Key)

  /** What one category-name request gave: the name, a non-ok response, or an exception. */
  datatype Lookup = Found(name: string) | NotOk | Threw

  function Date(e: Entry): int { e.record.date }

  /** JavaScript truthiness of an id: `null`, `undefined` and 0 are falsy. */
  predicate Truthy(id: Option<int>) { id.Some? && id.value != 0 }

  /** `key: transaction.id`. */
  function IdKey(id: Option<int>): Key
  {
    match id
    case Some(n) => NumberKey(n)
    case None => NoKey
  }

  /** `key: transaction.id || index.toString()`. */
  function FallbackKey(id: Option<int>, index: nat): Key
  {
    if Truthy(id) then NumberKey(id.value) else StringKey(Decimal.NatToDecimal(index))
  }

  // ---------------------------------------------------------------------------
  // Reconciling the fetched list

  /** The label and key given to the record at position `index` of the fetched list,
      `lookup` being the outcome of that record's category-name request (consulted for
      an Expense only). */
  function Reconcile(r: Record, index: nat, lookup: Lookup): (e: Entry)
    ensures e.record == r
  {
    if r.transactionType == IncomeType then
      Entry(r, IncomeLabel, IdKey(r.id))
    else if r.transactionType == ExpenseType then
      match lookup
      case Found(name) => Entry(r, name, IdKey(r.id))
      case _ => Entry(r, UnknownCategory, FallbackKey(r.id, index))
    else
      Entry(r, UnknownCategory, FallbackKey(r.id, index))
  }

  /** The positional map over the fetched list (`Promise.all(data.map(...))`):
      `lookups[i]` is the outcome of record i's category-name request. */
  function ReconcileAll(records: seq<Record>, lookups: seq<Lookup>): (entries: seq<Entry>)
    requires |lookups| == |records|
    ensures |entries| == |records|
    ensures forall i :: 0 <= i < |records| ==> entries[i].record == records[i]
  {
    seq(|records|, i requires 0 <= i < |records| => Reconcile(records[i], i, lookups[i]))
  }

  /** The label rule and the key rule for every fetched record. */
  lemma ReconcileRules(records: seq<Record>, lookups: seq<Lookup>, i: nat)
    requires |lookups| == |records| && i < |records|
    ensures var e, r := ReconcileAll(records, lookups)[i], records[i];
      && (r.transactionType == IncomeType ==> e.category == IncomeLabel && e.key == IdKey(r.id))
      && (r.transactionType == ExpenseType && lookups[i].Found? ==>
            e.category == lookups[i].name && e.key == IdKey(r.id))
      && (r.transactionType == ExpenseType && !lookups[i].Found? ==>
            e.category == UnknownCategory && e.key == FallbackKey(r.id, i))
      && (r.transactionType != IncomeType && r.transactionType != ExpenseType ==>
            e.category == UnknownCategory && e.key == FallbackKey(r.id, i))
  {
  }

  /** Two fetched records that both fall back to their index as key, because neither
      has a truthy id, never share that key. */
  lemma FallbackKeysDistinct(id1: Option<int>, id2: Option<int>, i: nat, j: nat)
    requires !Truthy(id1) && !Truthy(id2) && i != j
    ensures FallbackKey(id1, i) != FallbackKey(id2, j)
  {
    if Decimal.NatToDecimal(i) == Decimal.NatToDecimal(j) {
      Decimal.NatToDecimalInjective(i, j);
    }
  }

  // ---------------------------------------------------------------------------
  // Newest-first date order

  predicate SortedDesc(s: seq<Entry>)
  {
    forall i, j :: 0 <= i < j < |s| ==> Date(s[i]) >= Date(s[j])
  }

  /** Places `e` in front of the first entry that is not strictly newer than it. */
  function Insert(e: Entry, s: seq<Entry>): (r: seq<Entry>)
    ensures |r| == |s| + 1
    ensures multiset(r) == multiset(s) + multiset{e}
  {
    if s == [] || Date(e) >= Date(s[0]) then
      [e] + s
    else
      assert s == [s[0]] + s[1..];
      [s[0]] + Insert(e, s[1..])
  }

  lemma {:induction false} InsertSorted(e: Entry, s: seq<Entry>)
    requires SortedDesc(s)
    ensures SortedDesc(Insert(e, s))
  {
    if s != [] && Date(e) < Date(s[0]) {
      InsertSorted(e, s[1..]);
      var rest := Insert(e, s[1..]);
      forall j | 0 <= j < |rest| ensures Date(s[0]) >= Date(rest[j]) {
        assert rest[j] in multiset(rest);
        if rest[j] != e {
          assert rest[j] in multiset(s[1..]);
          var m :| 0 <= m < |s[1..]| && s[1..][m] == rest[j];
          assert s[m + 1] == rest[j];
        }
      }
      assert Insert(e, s) == [s[0]] + rest;
    }
  }

  /** The stable newest-first sort of `list.sort((a, b) => b.date - a.date)`. */
  function SortByDate(s: seq<Entry>): (r: seq<Entry>)
    ensures |r| == |s|
    ensures multiset(r) == multiset(s)
    ensures SortedDesc(r)
  {
    if s == [] then []
    else
      assert s == [s[0]] + s[1..];
      InsertSorted(s[0], SortByDate(s[1..]));
      Insert(s[0], SortByDate(s[1..]))
  }

  /** The entries with date `d`, in list order. */
  function SameDate(s: seq<Entry>, d: int): seq<Entry>
  {
    if s == [] then [] else (if Date(s[0]) == d then [s[0]] else []) + SameDate(s[1..], d)
  }

  lemma {:induction false} InsertStable(e: Entry, s: seq<Entry>, d: int)
    ensures SameDate(Insert(e, s), d) == SameDate([e] + s, d)
  {
    assert ([e] + s)[1..] == s;
    if s != [] && Date(e) < Date(s[0]) {
      InsertStable(e, s[1..], d);
      assert ([e] + s[1..])[1..] == s[1..];
      assert ([s[0]] + Insert(e, s[1..]))[1..] == Insert(e, s[1..]);
    }
  }

  /** Stability: for every date, the entries of that date keep their relative order. */
  lemma {:induction false} SortStable(s: seq<Entry>, d: int)
    ensures SameDate(SortByDate(s), d) == SameDate(s, d)
  {
    if s != [] {
      SortStable(s[1..], d);
      InsertStable(s[0], SortByDate(s[1..]), d);
      assert ([s[0]] + SortByDate(s[1..]))[1..] == SortByDate(s[1..]);
    }
  }

  /** A list already newest-first is left as it is by the sort. */
  lemma {:induction false} SortSorted(s: seq<Entry>)
    requires SortedDesc(s)
    ensures SortByDate(s) == s
  {
    if s != [] {
      SortSorted(s[1..]);
      assert s == [s[0]] + s[1..];
    }
  }

  /** Prepending to a newest-first list and sorting inserts at the sorted position. */
  lemma PrependThenSort(e: Entry, s: seq<Entry>)
    requires SortedDesc(s)
    ensures SortByDate([e] + s) == Insert(e, s)
  {
    assert ([e] + s)[1..] == s;
    SortSorted(s);
  }

  /** Where `Insert` puts the new entry: right after the entries strictly newer than
      it, so before every entry of the same date. */
  lemma {:induction false} InsertPosition(e: Entry, s: seq<Entry>, k: nat)
    requires k <= |s|
    requires forall i :: 0 <= i < k ==> Date(s[i]) > Date(e)
    requires forall i :: k <= i < |s| ==> Date(s[i]) <= Date(e)
    ensures Insert(e, s) == s[..k] + [e] + s[k..]
  {
    if k == 0 {
      assert s[..0] + [e] + s[0..] == [e] + s;
    } else {
      assert Date(s[0]) > Date(e);
      ShiftSplit(e, s, k);
      InsertPosition(e, s[1..], k - 1);
      SplitAfterHead(s, k, e);
    }
  }

  /** The split conditions of `InsertPosition` carry over from `s` at `k` to its tail at `k - 1`. */
  lemma ShiftSplit(e: Entry, s: seq<Entry>, k: nat)
    requires 0 < k <= |s|
    requires forall i :: 0 <= i < k ==> Date(s[i]) > Date(e)
    requires forall i :: k <= i < |s| ==> Date(s[i]) <= Date(e)
    ensures forall i :: 0 <= i < k - 1 ==> Date(s[1..][i]) > Date(e)
    ensures forall i :: k - 1 <= i < |s[1..]| ==> Date(s[1..][i]) <= Date(e)
  {
    forall i | 0 <= i < k - 1 ensures Date(s[1..][i]) > Date(e) {
      assert s[1..][i] == s[i + 1];
    }
    forall i | k - 1 <= i < |s[1..]| ensures Date(s[1..][i]) <= Date(e) {
      assert s[1..][i] == s[i + 1];
    }
  }

  lemma SplitAfterHead(s: seq<Entry>, k: nat, e: Entry)
    requires 0 < k <= |s|
    ensures [s[0]] + (s[1..][..k - 1] + [e] + s[1..][k - 1..]) == s[..k] + [e] + s[k..]
  {
    assert s[..k] == [s[0]] + s[1..][..k - 1];
    assert s[k..] == s[1..][k - 1..];
  }

  /** Every record of the fetched list appears in the loaded ledger, and nothing else. */
  lemma LoadKeepsEveryRecord(records: seq<Record>, lookups: seq<Lookup>, i: nat)
    requires |lookups| == |records| && i < |records|
    ensures |SortByDate(ReconcileAll(records, lookups))| == |records|
    ensures exists j :: 0 <= j < |records| && SortByDate(ReconcileAll(records, lookups))[j].record == records[i]
  {
    var entries := ReconcileAll(records, lookups);
    var sorted := SortByDate(entries);
    assert entries[i] in multiset(sorted);
    var j :| 0 <= j < |sorted| && sorted[j] == entries[i];
  }

  // ---------------------------------------------------------------------------
  // Finding and removing a key

  /** `list.find(item => item.key === key)`, as the index of the first match. */
  function FindByKey(s: seq<Entry>, key: Key): (r: Option<nat>)
    ensures r.Some? ==> (r.value < |s| && s[r.value].key == key
      && forall j :: 0 <= j < r.value ==> s[j].key != key)
    ensures r.None? ==> forall j :: 0 <= j < |s| ==> s[j].key != key
  {
    if s == [] then None
    else if s[0].key == key then Some(0)
    else match FindByKey(s[1..], key)
      case Some(i) => Some(i + 1)
      case None => None
  }

  /** `list.filter(item => item.key !== key)`. */
  function WithoutKey(s: seq<Entry>, key: Key): (r: seq<Entry>)
    ensures |r| <= |s|
    ensures forall e :: e in r <==> e in s && e.key != key
  {
    if s == [] then [] else (if s[0].key == key then [] else [s[0]]) + WithoutKey(s[1..], key)
  }

  /** The entries that carry `key`, in list order. */
  function WithKey(s: seq<Entry>, key: Key): (r: seq<Entry>)
    ensures forall e :: e in r <==> e in s && e.key == key
  {
    if s == [] then [] else (if s[0].key == key then [s[0]] else []) + WithKey(s[1..], key)
  }

  /** Removal keeps the survivors in order: it distributes over concatenation. */
  lemma {:induction false} WithoutKeyAppend(a: seq<Entry>, b: seq<Entry>, key: Key)
    ensures WithoutKey(a + b, key) == WithoutKey(a, key) + WithoutKey(b, key)
  {
    if a == [] {
      assert a + b == b;
    } else {
      assert (a + b)[1..] == a[1..] + b;
      WithoutKeyAppend(a[1..], b, key);
    }
  }

  /** The survivors of a removal and the removed entries together are the whole list. */
  lemma {:induction false} WithoutKeySplit(s: seq<Entry>, key: Key)
    ensures |WithoutKey(s, key)| + |WithKey(s, key)| == |s|
    ensures multiset(WithoutKey(s, key)) + multiset(WithKey(s, key)) == multiset(s)
  {
    if s != [] {
      WithoutKeySplit(s[1..], key);
      assert s == [s[0]] + s[1..];
    }
  }

  /** When no entry has the key, removal changes nothing. */
  lemma {:induction false} WithoutAbsentKey(s: seq<Entry>, key: Key)
    requires FindByKey(s, key).None?
    ensures WithoutKey(s, key) == s
  {
    if s != [] {
      WithoutAbsentKey(s[1..], key);
      assert s == [s[0]] + s[1..];
    }
  }

  /** Removal keeps a newest-first list newest-first. */
  lemma {:induction false} WithoutKeySorted(s: seq<Entry>, key: Key)
    requires SortedDesc(s)
    ensures SortedDesc(WithoutKey(s, key))
  {
    if s != [] {
      WithoutKeySorted(s[1..], key);
      if s[0].key != key {
        TailNotNewer(s);
        ConsSorted(s[0], WithoutKey(s[1..], key));
      }
    }
  }

  lemma TailNotNewer(s: seq<Entry>)
    requires s != [] && SortedDesc(s)
    ensures forall x :: x in s[1..] ==> Date(x) <= Date(s[0])
  {
    forall x | x in s[1..] ensures Date(x) <= Date(s[0]) {
      var j :| 0 <= j < |s[1..]| && s[1..][j] == x;
      assert s[j + 1] == x;
    }
  }

  lemma ConsSorted(x: Entry, r: seq<Entry>)
    requires SortedDesc(r)
    requires forall y :: y in r ==> Date(y) <= Date(x)
    ensures SortedDesc([x] + r)
  {
    forall i, j | 0 <= i < j < |[x] + r| ensures Date(([x] + r)[i]) >= Date(([x] + r)[j]) {
      assert ([x] + r)[j] == r[j - 1];
      assert r[j - 1] in r;
      if i > 0 {
        assert ([x] + r)[i] == r[i - 1];
      }
    }
  }

  // ---------------------------------------------------------------------------
  // Balance

  function IncomeAmount(e: Entry): int
  {
    if e.record.transactionType == IncomeType then e.record.amount else 0
  }

  function ExpenseAmount(e: Entry): int
  {
    if e.record.transactionType == ExpenseType then e.record.amount else 0
  }

  /** Sum of the amounts of the Income records. */
  function IncomeTotal(s: seq<Entry>): int
  {
    if s == [] then 0
    else IncomeAmount(s[0]) + IncomeTotal(s[1..])
  }

  /** Sum of the amounts of the Expense records. */
  function ExpenseTotal(s: seq<Entry>): int
  {
    if s == [] then 0
    else ExpenseAmount(s[0]) + ExpenseTotal(s[1..])
  }

  /** What one entry adds to the balance: + for Income, - for Expense, 0 for any other type. */
  function Contribution(e: Entry): int
  {
    if e.record.transactionType == IncomeType then e.record.amount
    else if e.record.transactionType == ExpenseType then -e.record.amount
    else 0
  }

  function Balance(s: seq<Entry>): int { IncomeTotal(s) - ExpenseTotal(s) }

  lemma {:induction false} BalanceAppend(s: seq<Entry>, e: Entry)
    ensures Balance(s + [e]) == Balance(s) + Contribution(e)
  {
    if s != [] {
      assert (s + [e])[1..] == s[1..] + [e];
      BalanceAppend(s[1..], e);
    } else {
      assert ([] + [e])[1..] == [];
    }
  }

  lemma {:induction false} BalanceConcat(a: seq<Entry>, b: seq<Entry>)
    ensures Balance(a + b) == Balance(a) + Balance(b)
  {
    if a == [] {
      assert a + b == b;
    } else {
      assert (a + b)[1..] == a[1..] + b;
      BalanceConcat(a[1..], b);
    }
  }

  lemma {:induction false} BalanceInsert(e: Entry, s: seq<Entry>)
    ensures Balance(Insert(e, s)) == Contribution(e) + Balance(s)
  {
    assert ([e] + s)[1..] == s;
    if s != [] && Date(e) < Date(s[0]) {
      BalanceInsert(e, s[1..]);
      assert ([s[0]] + Insert(e, s[1..]))[1..] == Insert(e, s[1..]);
    }
  }

  /** Sorting never changes the balance. */
  lemma {:induction false} BalanceSort(s: seq<Entry>)
    ensures Balance(SortByDate(s)) == Balance(s)
  {
    if s != [] {
      BalanceSort(s[1..]);
      BalanceInsert(s[0], SortByDate(s[1..]));
    }
  }

  /** Adding a record moves the balance by exactly that record's contribution. */
  lemma BalanceAfterAdd(e: Entry, s: seq<Entry>)
    ensures Balance(SortByDate([e] + s)) == Balance(s) + Contribution(e)
  {
    assert ([e] + s)[1..] == s;
    BalanceSort(s);
    BalanceInsert(e, SortByDate(s));
  }

  /** Removing a key takes away exactly the contributions of the removed entries. */
  lemma {:induction false} BalanceAfterRemove(s: seq<Entry>, key: Key)
    ensures Balance(WithoutKey(s, key)) == Balance(s) - Balance(WithKey(s, key))
  {
    if s != [] {
      BalanceAfterRemove(s[1..], key);
      var head := if s[0].key == key then [] else [s[0]];
      BalanceConcat(head, WithoutKey(s[1..], key));
      var taken := if s[0].key == key then [s[0]] else [];
      BalanceConcat(taken, WithKey(s[1..], key));
      BalanceConcat([s[0]], s[1..]);
      assert s == [s[0]] + s[1..];
    }
  }

  /** `calculateBalance`: the `forEach` loop that adds Income amounts and subtracts
      Expense amounts. */
  method CalculateBalance(transactions: seq<Entry>) returns (balance: int)
    ensures balance == IncomeTotal(transactions) - ExpenseTotal(transactions)
  {
    balance := 0;
    for i := 0 to |transactions|
      invariant balance == Balance(transactions[..i])
    {
      var t := transactions[i];
      BalanceAppend(transactions[..i], t);
      assert transactions[..i + 1] == transactions[..i] + [t];
      if t.record.transactionType == IncomeType {
        balance := balance + t.record.amount;
      } else if t.record.transactionType == ExpenseType {
        balance := balance - t.record.amount;
      }
    }
    assert transactions[..|transactions|] == transactions;
  }

  // ---------------------------------------------------------------------------
  // Adding a transaction

  /** The two types the form's segmented control can select. */
  datatype FormType = ExpenseForm | IncomeForm

  function FormTypeName(t: FormType): string
  {
    match t
    case ExpenseForm => ExpenseType
    case IncomeForm => IncomeType
  }

  /** The fields of the add-transaction form, the category id being the form's
      selected category (`null` until one is picked). */
  datatype Form = Form(amount: int, date: int, kind: FormType, categoryId: Option<int>, description: string)

  /** The body of the create request. */
  datatype CreateRequest = CreateRequest(
    userId: int,
    amount: int,
    transactionType: string,
    budgetCategoryId: Option<int>,
    description: string,
    date: int)

  /** The create request built from the form: an Income carries no category id. */
  function NewTransactionRequest(form: Form): (req: CreateRequest)
    ensures req.transactionType == IncomeType <==> form.kind == IncomeForm
    ensures req.transactionType == ExpenseType <==> form.kind == ExpenseForm
    ensures req.budgetCategoryId == if form.kind == IncomeForm then None else form.categoryId
    ensures req.userId == UserId && req.amount == form.amount && req.date == form.date
    ensures req.description == form.description
  {
    var budgetCategoryId := if form.kind == IncomeForm then None else form.categoryId;
    CreateRequest(UserId, form.amount, FormTypeName(form.kind), budgetCategoryId, form.description, form.date)
  }

  /** Whether adding issues a category-name request at all. */
  predicate AddLooksUpCategory(form: Form)
  {
    Truthy(form.categoryId) && form.kind != IncomeForm
  }

  /** The label an added record gets, from the form's type and category id and the
      outcome of the category-name request (used only when one is issued). */
  function AddedLabel(form: Form, lookup: Lookup): (text: string)
    ensures form.kind == IncomeForm ==> text == IncomeLabel
    ensures AddLooksUpCategory(form) && lookup.Found? ==> text == lookup.name
    ensures !AddLooksUpCategory(form) && form.kind != IncomeForm ==> text == UnknownCategory
    ensures AddLooksUpCategory(form) && !lookup.Found? ==> text == UnknownCategory
  {
    if AddLooksUpCategory(form) then
      match lookup
      case Found(name) => name
      case _ => UnknownCategory
    else if form.kind == IncomeForm then IncomeLabel
    else UnknownCategory
  }

  /** The entry made from the server's created record: `data.id.toString()` as key,
      or nothing when the record has no id (`toString` of `undefined` throws). */
  function AddedEntry(form: Form, created: Record, lookup: Lookup): (r: Option<Entry>)
    ensures r.Some? <==> created.id.Some?
    ensures r.Some? ==> (r.value.record == created && r.value.category == AddedLabel(form, lookup)
      && r.value.key == StringKey(Decimal.IntToDecimal(created.id.value)))
  {
    match created.id
    case Some(id) => Some(Entry(created, AddedLabel(form, lookup), StringKey(Decimal.IntToDecimal(id))))
    case None => None
  }

  /** An added record is labelled as a reload would label it, whenever the reload's
      request mirrors the add's: an Income, or an Expense with a selected category
      whose name request has the same outcome. */
  lemma AddLabelMatchesReload(form: Form, created: Record, index: nat, lookup: Lookup)
    requires created.transactionType == FormTypeName(form.kind)
    requires form.kind == IncomeForm || Truthy(form.categoryId)
    ensures Reconcile(created, index, lookup).category == AddedLabel(form, lookup)
  {
  }

  /** An added record's key never equals `IdKey(r.id)`, the key a load gives an
      Income or an Expense whose category-name request succeeded: the one is a
      string, the other a number or no key. */
  lemma AddedKeyNeverNumber(form: Form, created: Record, lookup: Lookup, r: Record)
    requires AddedEntry(form, created, lookup).Some?
    ensures AddedEntry(form, created, lookup).value.key != IdKey(r.id)
  {
  }

  /** Whether a load keys the record by `index.toString()`: an Expense whose
      category-name request did not succeed, or a record of any other type, with a
      falsy id. */
  predicate KeyedByIndex(r: Record, lookup: Lookup)
  {
    r.transactionType != IncomeType
    && (r.transactionType == ExpenseType ==> !lookup.Found?)
    && !Truthy(r.id)
  }

  /** An added record's key `id.toString()` equals the key a load gives the record at
      position `index` exactly when that record is keyed by its index and the created
      id is that same number; the two rows then share a key. */
  lemma AddedKeyMatchesFallback(form: Form, created: Record, lookup: Lookup,
                                r: Record, index: nat, loaded: Lookup)
    requires AddedEntry(form, created, lookup).Some?
    ensures AddedEntry(form, created, lookup).value.key == Reconcile(r, index, loaded).key
      <==> KeyedByIndex(r, loaded) && created.id.value == index
  {
    var id := created.id.value;
    if AddedEntry(form, created, lookup).value.key == Reconcile(r, index, loaded).key {
      assert KeyedByIndex(r, loaded);
      assert Decimal.IntToDecimal(id) == Decimal.NatToDecimal(index);
      assert id >= 0 by {
        assert '0' <= Decimal.NatToDecimal(index)[0] <= '9';
      }
      Decimal.NatToDecimalInjective(id, index);
    }
  }
}
