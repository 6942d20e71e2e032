/** The analytics page (app/analytics/page.js): totals recomputed from each
    snapshot of the receipts and expenses collections, and the expense form
    that appends to the expenses collection. */
module Analytics {
  import opened Wrappers
  import opened Decimal
  import opened Store
  import opened Receipts

  const ReceiptsLoadFailed := "Failed to load receipts data"
  const ExpensesLoadFailed := "Failed to load expenses data"
  const InvalidExpense := "Please enter a valid expense amount"
  const ExpenseWriteFailed := "Failed to update expenses"

  /** data.price || 0: a missing price counts as 0, a present one as itself. */
  function PriceOrZero(r: Receipt): (p: real)
    ensures r.price.None? ==> p == 0.0
    ensures r.price.Some? ==> p == r.price.value
  {
    match r.price
    case Some(p) => p
    case None => 0.0
  }

  /** data.amount || 0: a missing amount counts as 0, a present one as itself. */
  function AmountOrZero(e: Expense): (a: real)
    ensures e.amount.None? ==> a == 0.0
    ensures e.amount.Some? ==> a == e.amount.value
  {
    match e.amount
    case Some(a) => a
    case None => 0.0
  }

  /** The sum of the prices of a list of receipts, in list order; never
      negative when no price is (the capture modal only writes positive ones). */
  function Revenue(docs: seq<ReceiptDoc>): (r: real)
    ensures (forall k :: 0 <= k < |docs| ==> PriceOrZero(docs[k].data) >= 0.0) ==> r >= 0.0
    decreases |docs|
  {
    if |docs| == 0 then 0.0
    else
      var init := docs[..|docs| - 1];
      assert forall k :: 0 <= k < |init| ==> init[k] == docs[k];
      Revenue(init) + PriceOrZero(docs[|docs| - 1].data)
  }

  /** The sum of the amounts of a list of expenses, in list order; never
      negative when no amount is (the form only appends positive ones). */
  function ExpenseTotal(docs: seq<Expense>): (r: real)
    ensures (forall k :: 0 <= k < |docs| ==> AmountOrZero(docs[k]) >= 0.0) ==> r >= 0.0
    decreases |docs|
  {
    if |docs| == 0 then 0.0
    else
      var init := docs[..|docs| - 1];
      assert forall k :: 0 <= k < |init| ==> init[k] == docs[k];
      ExpenseTotal(init) + AmountOrZero(docs[|docs| - 1])
  }

  /** Revenue is additive over concatenation. */
  lemma {:induction false} RevenueAppend(xs: seq<ReceiptDoc>, ys: seq<ReceiptDoc>)
    ensures Revenue(xs + ys) == Revenue(xs) + Revenue(ys)
    decreases |ys|
  {
    if |ys| == 0 {
      assert xs + ys == xs;
    } else {
      RevenueAppend(xs, ys[..|ys| - 1]);
      assert (xs + ys)[..|xs + ys| - 1] == xs + ys[..|ys| - 1];
    }
  }

  /** Total expenses are additive over concatenation. */
  lemma {:induction false} ExpenseTotalAppend(xs: seq<Expense>, ys: seq<Expense>)
    ensures ExpenseTotal(xs + ys) == ExpenseTotal(xs) + ExpenseTotal(ys)
    decreases |ys|
  {
    if |ys| == 0 {
      assert xs + ys == xs;
    } else {
      ExpenseTotalAppend(xs, ys[..|ys| - 1]);
      assert (xs + ys)[..|xs + ys| - 1] == xs + ys[..|ys| - 1];
    }
  }

  /** Revenue does not depend on the order of the receipts: a delete lowers it
      by exactly the prices of the deleted entries. */
  lemma {:induction false} RevenueAfterDelete(xs: seq<ReceiptDoc>, id: string)
    ensures Revenue(WithoutId(xs, id)) + Revenue(WithId(xs, id)) == Revenue(xs)
    decreases |xs|
  {
    if |xs| > 0 {
      var init := xs[..|xs| - 1];
      RevenueAfterDelete(init, id);
      var last := xs[|xs| - 1];
      if last.id == id {
        RevenueAppend(WithId(init, id), [last]);
      } else {
        RevenueAppend(WithoutId(init, id), [last]);
      }
    }
  }

  /** With non-negative prices (the capture modal only writes positive ones),
      deleting a receipt never raises the revenue. */
  lemma DeleteNeverRaisesRevenue(xs: seq<ReceiptDoc>, id: string)
    requires forall k :: 0 <= k < |xs| ==> PriceOrZero(xs[k].data) >= 0.0
    ensures Revenue(WithoutId(xs, id)) <= Revenue(xs)
  {
    RevenueAfterDelete(xs, id);
    WithIdFrom(xs, id);
    var w := WithId(xs, id);
    forall k | 0 <= k < |w| ensures PriceOrZero(w[k].data) >= 0.0 {
      assert w[k] in xs;
      var j :| 0 <= j < |xs| && xs[j] == w[k];
    }
  }

  lemma {:induction false} WithIdFrom(xs: seq<ReceiptDoc>, id: string)
    ensures forall e :: e in WithId(xs, id) ==> e in xs
    decreases |xs|
  {
    if |xs| > 0 {
      WithIdFrom(xs[..|xs| - 1], id);
      assert xs == xs[..|xs| - 1] + [xs[|xs| - 1]];
    }
  }

  /** The receipts listener's loop over the snapshot: the revenue and the list
      of entries it builds. */
  method SumReceipts(snapshot: seq<ReceiptDoc>) returns (revenue: real, receipts: seq<ReceiptDoc>)
    ensures revenue == Revenue(snapshot)
    ensures receipts == snapshot
  {
    revenue := 0.0;
    receipts := [];
    var i := 0;
    while i < |snapshot|
      invariant 0 <= i <= |snapshot|
      invariant revenue == Revenue(snapshot[..i])
      invariant receipts == snapshot[..i]
    {
      var data := snapshot[i].data;
      revenue := revenue + PriceOrZero(data);
      receipts := receipts + [ReceiptDoc(snapshot[i].id, data)];
      assert snapshot[..i + 1][..i] == snapshot[..i];
      i := i + 1;
    }
    assert snapshot[..|snapshot|] == snapshot;
  }

  /** The expenses listener's loop over the snapshot. */
  method SumExpenses(snapshot: seq<Expense>) returns (expenses: real)
    ensures expenses == ExpenseTotal(snapshot)
  {
    expenses := 0.0;
    var i := 0;
    while i < |snapshot|
      invariant 0 <= i <= |snapshot|
      invariant expenses == ExpenseTotal(snapshot[..i])
    {
      expenses := expenses + AmountOrZero(snapshot[i]);
      assert snapshot[..i + 1][..i] == snapshot[..i];
      i := i + 1;
    }
    assert snapshot[..|snapshot|] == snapshot;
  }

  /** receipts.slice(0, 2) */
  function Recent(receipts: seq<ReceiptDoc>): (r: seq<ReceiptDoc>)
    ensures |r| == if |receipts| < 2 then |receipts| else 2
    ensures r <= receipts
  {
    if |receipts| < 2 then receipts else receipts[..2]
  }

  /** The expense form's check: the value of an <input type="number"> is empty
      or a valid floating-point number; empty, NaN and amounts <= 0 are refused. */
  function ExpenseAmount(input: string): (r: Option<real>)
    ensures r.Some? ==> r.value > 0.0 && ParseInputNumber(input) == Some(r.value)
    ensures r.None? ==> input == "" || ParseInputNumber(input).None? || ParseInputNumber(input).value <= 0.0
  {
    if input == "" then None
    else match ParseInputNumber(input)
      case None => None
      case Some(v) => if v <= 0.0 then None else Some(v)
  }

  /** Whole numbers written into the form are accepted exactly when positive. */
  lemma ExpenseAmountOfNat(n: nat)
    ensures ExpenseAmount(NatToString(n)) == if n == 0 then None else Some(n as real)
  {
    ParseInputNumberOfNat(n);
  }

  /** A negative amount is always refused. */
  lemma ExpenseAmountRefusesMinus(input: string)
    requires |input| > 0 && input[0] == '-'
    ensures ExpenseAmount(input).None?
  {
  }

  /** The "expenses" collection: addDoc appends a document. */
  class ExpenseCollection {
    var docs: seq<Expense>

    constructor(initial: seq<Expense>)
      ensures docs == initial
    {
      docs := initial;
    }

    method Add(e: Expense)
      modifies this
      ensures docs == old(docs) + [e]
    {
      docs := docs + [e];
    }
  }

  class AnalyticsPage {
    var totalRevenue: real
    var totalTransactions: nat
    var totalExpenses: real
    var totalProfit: real
    var recentReceipts: seq<ReceiptDoc>
    var loading: bool
    var error: Option<string>
    var newExpense: string
    var isSubmitting: bool

    constructor()
      ensures totalRevenue == 0.0 && totalTransactions == 0 && totalExpenses == 0.0 && totalProfit == 0.0
      ensures recentReceipts == [] && loading && error.None? && newExpense == "" && !isSubmitting
    {
      totalRevenue := 0.0;
      totalTransactions := 0;
      totalExpenses := 0.0;
      totalProfit := 0.0;
      recentReceipts := [];
      loading := true;
      error := None;
      newExpense := "";
      isSubmitting := false;
    }

    /** The effect body before the listeners are attached. */
    method Subscribe()
      modifies this
      ensures loading && error.None?
      ensures totalRevenue == old(totalRevenue) && totalTransactions == old(totalTransactions)
      ensures totalExpenses == old(totalExpenses) && totalProfit == old(totalProfit)
      ensures recentReceipts == old(recentReceipts) && newExpense == old(newExpense) && isSubmitting == old(isSubmitting)
    {
      loading := true;
      error := None;
    }

    /** The receipts listener: everything is recomputed from the snapshot. */
    method OnReceipts(snapshot: seq<ReceiptDoc>)
      modifies this
      ensures totalRevenue == Revenue(snapshot)
      ensures totalTransactions == |snapshot|
      ensures recentReceipts == Recent(snapshot)
      ensures !loading
      ensures error == old(error) && totalExpenses == old(totalExpenses) && totalProfit == old(totalProfit)
      ensures newExpense == old(newExpense) && isSubmitting == old(isSubmitting)
    {
      var revenue, receipts := SumReceipts(snapshot);
      totalRevenue := revenue;
      totalTransactions := |receipts|;
      recentReceipts := Recent(receipts);
      loading := false;
    }

    method OnReceiptsError()
      modifies this
      ensures error == Some(ReceiptsLoadFailed) && !loading
      ensures totalRevenue == old(totalRevenue) && totalTransactions == old(totalTransactions)
      ensures totalExpenses == old(totalExpenses) && totalProfit == old(totalProfit)
      ensures recentReceipts == old(recentReceipts) && newExpense == old(newExpense) && isSubmitting == old(isSubmitting)
    {
      error := Some(ReceiptsLoadFailed);
      loading := false;
    }

    /** The expenses listener: the total from the snapshot, and the profit
        against the revenue total the page holds. */
    method OnExpenses(snapshot: seq<Expense>)
      modifies this
      ensures totalExpenses == ExpenseTotal(snapshot)
      ensures totalProfit == old(totalRevenue) - ExpenseTotal(snapshot)
      ensures totalRevenue == old(totalRevenue) && totalTransactions == old(totalTransactions)
      ensures recentReceipts == old(recentReceipts) && loading == old(loading) && error == old(error)
      ensures newExpense == old(newExpense) && isSubmitting == old(isSubmitting)
    {
      var expenses := SumExpenses(snapshot);
      totalExpenses := expenses;
      totalProfit := totalRevenue - expenses;
    }

    method OnExpensesError()
      modifies this
      ensures error == Some(ExpensesLoadFailed)
      ensures totalRevenue == old(totalRevenue) && totalTransactions == old(totalTransactions)
      ensures totalExpenses == old(totalExpenses) && totalProfit == old(totalProfit)
      ensures recentReceipts == old(recentReceipts) && loading == old(loading)
      ensures newExpense == old(newExpense) && isSubmitting == old(isSubmitting)
    {
      error := Some(ExpensesLoadFailed);
    }

    /** The onChange of the expense field. */
    method EditExpense(value: string)
      modifies this
      ensures newExpense == value
      ensures totalRevenue == old(totalRevenue) && totalTransactions == old(totalTransactions)
      ensures totalExpenses == old(totalExpenses) && totalProfit == old(totalProfit)
      ensures recentReceipts == old(recentReceipts) && loading == old(loading) && error == old(error)
      ensures isSubmitting == old(isSubmitting)
    {
      newExpense := value;
    }

    /** handleExpenseSubmit: an invalid amount only sets the error; a valid
        one is appended to the collection as {amount, type: "total"}. The
        field is cleared only when the write succeeds (failed is false). */
    method HandleExpenseSubmit(store: ExpenseCollection, failed: bool)
      modifies this, store
      ensures ExpenseAmount(old(newExpense)).None? ==>
        store.docs == old(store.docs) && error == Some(InvalidExpense) && newExpense == old(newExpense)
      ensures ExpenseAmount(old(newExpense)).Some? && failed ==>
        store.docs == old(store.docs) && error == Some(ExpenseWriteFailed) && newExpense == old(newExpense)
      ensures ExpenseAmount(old(newExpense)).Some? && !failed ==>
        store.docs == old(store.docs) + [Expense(ExpenseAmount(old(newExpense)), "total")] &&
        error.None? && newExpense == ""
      ensures ExpenseAmount(old(newExpense)).None? ==> isSubmitting == old(isSubmitting)
      ensures ExpenseAmount(old(newExpense)).Some? ==> !isSubmitting
      ensures totalRevenue == old(totalRevenue) && totalTransactions == old(totalTransactions)
      ensures totalExpenses == old(totalExpenses) && totalProfit == old(totalProfit)
      ensures recentReceipts == old(recentReceipts) && loading == old(loading)
    {
      var amount := ExpenseAmount(newExpense);
      if amount.None? {
        error := Some(InvalidExpense);
        return;
      }
      isSubmitting := true;
      error := None;
      if failed {
        error := Some(ExpenseWriteFailed);
      } else {
        store.Add(Expense(Some(amount.value), "total"));
        newExpense := "";
      }
      isSubmitting := false;
    }
  }

  /** Two accepted submissions raise the expenses total by the sum of the two
      amounts: each submission appends, none replaces. */
  lemma TwoSubmissionsAdd(docs: seq<Expense>, a: real, b: real)
    ensures ExpenseTotal(docs + [Expense(Some(a), "total")] + [Expense(Some(b), "total")]) == ExpenseTotal(docs) + a + b
  {
    ExpenseTotalAppend(docs, [Expense(Some(a), "total")]);
    ExpenseTotalAppend(docs + [Expense(Some(a), "total")], [Expense(Some(b), "total")]);
  }

  /** The page's worked example: a receipt of 10 arrives, an expense of 4 is
      typed and submitted, then one of 1. Each expenses snapshot is the whole
      collection, so the second submission adds to the first. */
  method ProfitScenario() returns (revenue: real, expenses1: real, profit1: real, expenses2: real, profit2: real)
    ensures revenue == 10.0
    ensures expenses1 == 4.0 && profit1 == 6.0
    ensures expenses2 == 5.0 && profit2 == 5.0
  {
    var page := new AnalyticsPage();
    var store := new ExpenseCollection([]);
    page.OnReceipts([ReceiptDoc("r1", Receipt("", Some(10.0), None, ""))]);
    revenue := page.totalRevenue;
    ExpenseAmountOfNat(4);
    page.EditExpense(NatToString(4));
    page.HandleExpenseSubmit(store, false);
    page.OnExpenses(store.docs);
    expenses1, profit1 := page.totalExpenses, page.totalProfit;
    ExpenseAmountOfNat(1);
    page.EditExpense(NatToString(1));
    page.HandleExpenseSubmit(store, false);
    page.OnExpenses(store.docs);
    expenses2, profit2 := page.totalExpenses, page.totalProfit;
  }
}
