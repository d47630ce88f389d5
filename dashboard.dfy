/**
 * The dashboard page's state and handlers (app/dashboard/page.tsx): the
 * transaction list, the add form, the active tab and the summary cards.
 * The list and chart computations themselves are in the Ledger module.
 */
module Dashboard {
  import opened Ledger
  import opened Storage

  /** The add form; `amount` is the text typed into the amount field. */
  datatype Form = Form(description: string, amount: string, category: string, kind: TxnType)

  /** A cleared form whose type is the given tab. */
  function ClearedForm(tab: TxnType): (f: Form)
    ensures f.description == "" && f.amount == "" && f.category == "" && f.kind == tab
  {
    Form("", "", "", tab)
  }

  /** The add guard: `!form.description || !form.amount || !form.category`. */
  predicate Incomplete(f: Form): (missing: bool)
    ensures !missing <==> |f.description| > 0 && |f.amount| > 0 && |f.category| > 0
  {
    f.description == "" || f.amount == "" || f.category == ""
  }

  /** A cleared form cannot be submitted again until it is filled in. */
  lemma ClearedFormIncomplete(tab: TxnType)
    ensures Incomplete(ClearedForm(tab))
  {
  }

  /** The transaction the form describes, with the id, clock and parsed amount supplied. */
  function FromForm(f: Form, id: string, now: Date, parsedAmount: real): (t: Transaction)
    ensures t.id == id && t.date == now && t.amount == parsedAmount
    ensures t.description == f.description && t.category == f.category && t.kind == f.kind
  {
    Transaction(id, now, f.description, parsedAmount, f.category, f.kind)
  }

  class DashboardPage {
    const store: LocalStore
    var transactions: seq<Transaction>
    var form: Form
    var activeTab: TxnType
    var summaryData: Summary

    constructor (store: LocalStore)
      ensures this.store == store
      ensures transactions == [] && form == ClearedForm(Expense) && activeTab == Expense
      ensures summaryData == Summary(0.0, 0.0, 0.0, 0.0)
    {
      this.store := store;
      transactions := [];
      form := ClearedForm(Expense);
      activeTab := Expense;
      summaryData := Summary(0.0, 0.0, 0.0, 0.0);
    }

    /** The mount effect: seed the store, then load and summarise its transactions. */
    method Mount()
      modifies this, store
      ensures store.entries == Seeded(store.isBrowser, old(store.entries))
      ensures transactions == store.Transactions()
      ensures summaryData == Summarize(transactions)
      ensures form == old(form) && activeTab == old(activeTab)
    {
      store.InitializeDefaultData();
      transactions := store.Transactions();
      summaryData := CalculateSummary(transactions);
    }

    /** `handleTabChange` */
    method HandleTabChange(value: TxnType)
      modifies this
      ensures activeTab == value
      ensures form == old(form).(kind := value, category := "")
      ensures transactions == old(transactions) && summaryData == old(summaryData)
    {
      activeTab := value;
      form := form.(kind := value, category := "");
    }

    /**
     * `handleAddTransaction`, with `crypto.randomUUID()`, `new Date()` and
     * `Number.parseFloat(form.amount)` supplied as id, now and parsedAmount.
     */
    method HandleAddTransaction(id: string, now: Date, parsedAmount: real)
      modifies this, store
      ensures old(Incomplete(form)) ==>
                store.entries == old(store.entries) && transactions == old(transactions)
                && form == old(form) && summaryData == old(summaryData)
      ensures !old(Incomplete(form)) ==>
                && transactions == old(store.Transactions()) + [FromForm(old(form), id, now, parsedAmount)]
                && store.entries == SetToStorage(store.isBrowser, old(store.entries), TransactionsKey, TxnList(transactions))
                && summaryData == Summarize(transactions)
                && form == ClearedForm(activeTab)
      ensures activeTab == old(activeTab)
    {
      if Incomplete(form) {
        return;
      }
      var newTransaction := FromForm(form, id, now, parsedAmount);
      var updated := store.AddTransaction(newTransaction);
      transactions := updated;
      summaryData := CalculateSummary(updated);
      form := ClearedForm(activeTab);
    }

    /** `handleDelete` */
    method HandleDelete(id: string)
      modifies this, store
      ensures transactions == Filter(old(store.Transactions()), IdOtherThan(id))
      ensures store.entries == SetToStorage(store.isBrowser, old(store.entries), TransactionsKey, TxnList(transactions))
      ensures summaryData == Summarize(transactions)
      ensures form == old(form) && activeTab == old(activeTab)
    {
      var updated := store.DeleteTransaction(id);
      transactions := updated;
      summaryData := CalculateSummary(updated);
    }
  }

  /**
   * After an add the summary is the old stored list's summary credited with
   * the new transaction, so exactly one of its type totals grows.
   */
  lemma AddCreditsSummary(stored: seq<Transaction>, t: Transaction)
    ensures Summarize(stored + [t]) == Credit(Summarize(stored), t)
    ensures t.kind == Income ==> Summarize(stored + [t]).income == Summarize(stored).income + t.amount
                                 && Summarize(stored + [t]).expenses == Summarize(stored).expenses
                                 && Summarize(stored + [t]).savings == Summarize(stored).savings
    ensures t.kind == Expense ==> Summarize(stored + [t]).expenses == Summarize(stored).expenses + t.amount
                                  && Summarize(stored + [t]).income == Summarize(stored).income
                                  && Summarize(stored + [t]).savings == Summarize(stored).savings
    ensures t.kind == Savings ==> Summarize(stored + [t]).savings == Summarize(stored).savings + t.amount
                                  && Summarize(stored + [t]).income == Summarize(stored).income
                                  && Summarize(stored + [t]).expenses == Summarize(stored).expenses
  {
    SummarizeAppend(stored, t);
  }
}
