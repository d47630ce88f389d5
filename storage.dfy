/**
 * The browser key-value store and the typed collections kept in it
 * (lib/storage.ts). A stored value is modelled after parsing: serialisation
 * is the identity, the empty string is `EmptyText`, and any other text that
 * does not parse is the one `Malformed` value.
 */
module Storage {
  import opened Common
  import opened Ledger

  const TransactionsKey: string := "finova_transactions"
  const BudgetCategoriesKey: string := "finova_budget_categories"
  const DebtsKey: string := "finova_debts"
  const SavingsGoalsKey: string := "finova_savings_goals"
  const UserProfileKey: string := "finova_user_profile"

  datatype BudgetCategory = BudgetCategory(id: string, name: string, budget: real, spent: real, color: Option<string>)

  datatype DebtItem = DebtItem(
    id: string, name: string, amount: real, interestRate: real, minimumPayment: real, color: Option<string>)

  datatype SavingsGoal = SavingsGoal(
    id: string, name: string, targetAmount: real, currentAmount: real, targetDate: Date)

  /** The `{name, email}` record of a user profile and of the signed-in user. */
  datatype Person = Person(name: string, email: string)

  /**
   * A stored value as `JSON.parse` gives it back. `EmptyText` is the empty
   * string, which is falsy and so never reaches `JSON.parse`.
   */
  datatype Entry =
    | EmptyText
    | Malformed
    | TxnList(txns: seq<Transaction>)
    | BudgetList(budgets: seq<BudgetCategory>)
    | DebtList(debts: seq<DebtItem>)
    | GoalList(goals: seq<SavingsGoal>)
    | PersonRecord(person: Person)

  function AsTransactions(e: Entry): Option<seq<Transaction>>
  {
    if e.TxnList? then Some(e.txns) else None
  }

  function AsBudgetCategories(e: Entry): Option<seq<BudgetCategory>>
  {
    if e.BudgetList? then Some(e.budgets) else None
  }

  function AsDebts(e: Entry): Option<seq<DebtItem>>
  {
    if e.DebtList? then Some(e.debts) else None
  }

  function AsSavingsGoals(e: Entry): Option<seq<SavingsGoal>>
  {
    if e.GoalList? then Some(e.goals) else None
  }

  function AsPerson(e: Entry): Option<Person>
  {
    if e.PersonRecord? then Some(e.person) else None
  }

  /**
   * `getFromStorage`: the default outside a browser, for a missing key and
   * for a value that does not parse as the expected collection; the stored
   * value otherwise.
   */
  function GetFromStorage<T>(isBrowser: bool, entries: map<string, Entry>, key: string, default: T,
                             decode: Entry -> Option<T>): (r: T)
    ensures !isBrowser || key !in entries || decode(entries[key]).None? ==> r == default
    ensures isBrowser && key in entries && decode(entries[key]).Some? ==> r == decode(entries[key]).value
  {
    if !isBrowser || key !in entries then default
    else match decode(entries[key])
      case Some(v) => v
      case None => default
  }

  /** `setToStorage`: writes the key in a browser, does nothing elsewhere. */
  function SetToStorage(isBrowser: bool, entries: map<string, Entry>, key: string, value: Entry): (r: map<string, Entry>)
    ensures isBrowser ==> key in r && r[key] == value
    ensures forall k :: k in r && (k != key || !isBrowser) ==> k in entries && r[k] == entries[k]
    ensures forall k :: k in entries && (k != key || !isBrowser) ==> k in r
  {
    if isBrowser then entries[key := value] else entries
  }

  /** What was written under a key is what a read of that key returns. */
  lemma ReadAfterWrite<T>(entries: map<string, Entry>, key: string, value: Entry, v: T, default: T,
                          decode: Entry -> Option<T>)
    requires decode(value) == Some(v)
    ensures GetFromStorage(true, SetToStorage(true, entries, key, value), key, default, decode) == v
  {
  }

  /** A write leaves every other key's reading as it was. */
  lemma ReadOtherKey<T>(isBrowser: bool, entries: map<string, Entry>, key: string, other: string, value: Entry,
                        default: T, decode: Entry -> Option<T>)
    requires key != other
    ensures GetFromStorage(isBrowser, SetToStorage(isBrowser, entries, key, value), other, default, decode)
            == GetFromStorage(isBrowser, entries, other, default, decode)
  {
  }

  /** Outside a browser every read gives its default and every write is a no-op. */
  lemma OutsideBrowser<T>(entries: map<string, Entry>, key: string, value: Entry, default: T,
                          decode: Entry -> Option<T>)
    ensures GetFromStorage(false, entries, key, default, decode) == default
    ensures SetToStorage(false, entries, key, value) == entries
  {
  }

  /** Text that is empty or does not parse reads as the default of every typed getter. */
  lemma UnreadableGivesDefault(isBrowser: bool, entries: map<string, Entry>, key: string)
    requires key in entries && (entries[key] == EmptyText || entries[key] == Malformed)
    ensures GetFromStorage(isBrowser, entries, key, [], AsTransactions) == []
    ensures GetFromStorage(isBrowser, entries, key, [], AsBudgetCategories) == []
    ensures GetFromStorage(isBrowser, entries, key, [], AsDebts) == []
    ensures GetFromStorage(isBrowser, entries, key, [], AsSavingsGoals) == []
    ensures GetFromStorage(isBrowser, entries, key, DefaultUserProfile, AsPerson) == DefaultUserProfile
  {
  }

  const DefaultTransactions: seq<Transaction> := [
    Transaction("t1", Date(2023, 4, 15, 0), "Grocery Store", 120.45, "Food", Expense),
    Transaction("t2", Date(2023, 4, 14, 0), "Salary Deposit", 2500.0, "Income", Income)
  ]

  const DefaultBudgetCategories: seq<BudgetCategory> := [
    BudgetCategory("b1", "Housing", 1500.0, 1000.0, Some("#0ea5e9")),
    BudgetCategory("b2", "Food", 600.0, 400.0, Some("#f97316"))
  ]

  const DefaultDebts: seq<DebtItem> := [
    DebtItem("d1", "Credit Card", 5000.0, 15.5, 150.0, Some("#f97316"))
  ]

  const DefaultSavingsGoals: seq<SavingsGoal> := [
    SavingsGoal("s1", "Emergency Fund", 10000.0, 2000.0, Date(2024, 5, 30, 0))
  ]

  const DefaultUserProfile: Person := Person("Jane Doe", "jane@example.com")

  /** The four collection readings of a store. */
  function TransactionsIn(isBrowser: bool, entries: map<string, Entry>): seq<Transaction>
  {
    GetFromStorage(isBrowser, entries, TransactionsKey, [], AsTransactions)
  }

  function BudgetCategoriesIn(isBrowser: bool, entries: map<string, Entry>): seq<BudgetCategory>
  {
    GetFromStorage(isBrowser, entries, BudgetCategoriesKey, [], AsBudgetCategories)
  }

  function DebtsIn(isBrowser: bool, entries: map<string, Entry>): seq<DebtItem>
  {
    GetFromStorage(isBrowser, entries, DebtsKey, [], AsDebts)
  }

  function SavingsGoalsIn(isBrowser: bool, entries: map<string, Entry>): seq<SavingsGoal>
  {
    GetFromStorage(isBrowser, entries, SavingsGoalsKey, [], AsSavingsGoals)
  }

  /** The four collection keys. */
  predicate IsCollectionKey(key: string)
  {
    key == TransactionsKey || key == BudgetCategoriesKey || key == DebtsKey || key == SavingsGoalsKey
  }

  /** The store after `initializeDefaultData`: each empty collection gets its demo data. */
  function Seeded(isBrowser: bool, entries: map<string, Entry>): (r: map<string, Entry>)
    ensures !isBrowser ==> r == entries
    ensures r.Keys <= entries.Keys + {TransactionsKey, BudgetCategoriesKey, DebtsKey, SavingsGoalsKey}
    ensures entries.Keys <= r.Keys
  {
    if !isBrowser then entries
    else
      var e1 := if TransactionsIn(true, entries) == [] then entries[TransactionsKey := TxnList(DefaultTransactions)]
                else entries;
      var e2 := if BudgetCategoriesIn(true, e1) == [] then e1[BudgetCategoriesKey := BudgetList(DefaultBudgetCategories)]
                else e1;
      var e3 := if DebtsIn(true, e2) == [] then e2[DebtsKey := DebtList(DefaultDebts)]
                else e2;
      if SavingsGoalsIn(true, e3) == [] then e3[SavingsGoalsKey := GoalList(DefaultSavingsGoals)]
      else e3
  }

  /** After seeding in a browser every collection is non-empty. */
  lemma SeededNonEmpty(entries: map<string, Entry>)
    ensures TransactionsIn(true, Seeded(true, entries)) != []
    ensures BudgetCategoriesIn(true, Seeded(true, entries)) != []
    ensures DebtsIn(true, Seeded(true, entries)) != []
    ensures SavingsGoalsIn(true, Seeded(true, entries)) != []
  {
  }

  /** Seeding writes nothing but the four collection keys, and rewrites only empty collections. */
  lemma SeededFrame(isBrowser: bool, entries: map<string, Entry>)
    ensures forall k :: !IsCollectionKey(k) ==>
              (k in Seeded(isBrowser, entries) <==> k in entries) &&
              (k in entries ==> Seeded(isBrowser, entries)[k] == entries[k])
    ensures TransactionsIn(isBrowser, entries) != [] ==> Seeded(isBrowser, entries)[TransactionsKey] == entries[TransactionsKey]
    ensures BudgetCategoriesIn(isBrowser, entries) != [] ==>
              Seeded(isBrowser, entries)[BudgetCategoriesKey] == entries[BudgetCategoriesKey]
    ensures DebtsIn(isBrowser, entries) != [] ==> Seeded(isBrowser, entries)[DebtsKey] == entries[DebtsKey]
    ensures SavingsGoalsIn(isBrowser, entries) != [] ==>
              Seeded(isBrowser, entries)[SavingsGoalsKey] == entries[SavingsGoalsKey]
  {
  }

  /** Seeding twice is seeding once. */
  lemma SeededIdempotent(isBrowser: bool, entries: map<string, Entry>)
    ensures Seeded(isBrowser, Seeded(isBrowser, entries)) == Seeded(isBrowser, entries)
  {
    if isBrowser {
      SeededNonEmpty(entries);
    }
  }

  /** The browser's local storage, and whether the code runs in a browser at all. */
  class LocalStore {
    const isBrowser: bool
    var entries: map<string, Entry>

    constructor (isBrowser: bool, entries: map<string, Entry>)
      ensures this.isBrowser == isBrowser && this.entries == entries
    {
      this.isBrowser := isBrowser;
      this.entries := entries;
    }

    /** `getTransactions` */
    function Transactions(): (r: seq<Transaction>)
      reads this
      ensures isBrowser && TransactionsKey in entries && entries[TransactionsKey].TxnList? ==> r == entries[TransactionsKey].txns
      ensures !(isBrowser && TransactionsKey in entries && entries[TransactionsKey].TxnList?) ==> r == []
    {
      TransactionsIn(isBrowser, entries)
    }

    /** `getBudgetCategories` */
    function BudgetCategories(): (r: seq<BudgetCategory>)
      reads this
      ensures isBrowser && BudgetCategoriesKey in entries && entries[BudgetCategoriesKey].BudgetList? ==> r == entries[BudgetCategoriesKey].budgets
      ensures !(isBrowser && BudgetCategoriesKey in entries && entries[BudgetCategoriesKey].BudgetList?) ==> r == []
    {
      BudgetCategoriesIn(isBrowser, entries)
    }

    /** `getDebts` */
    function Debts(): (r: seq<DebtItem>)
      reads this
      ensures isBrowser && DebtsKey in entries && entries[DebtsKey].DebtList? ==> r == entries[DebtsKey].debts
      ensures !(isBrowser && DebtsKey in entries && entries[DebtsKey].DebtList?) ==> r == []
    {
      DebtsIn(isBrowser, entries)
    }

    /** `getSavingsGoals` */
    function SavingsGoals(): (r: seq<SavingsGoal>)
      reads this
      ensures isBrowser && SavingsGoalsKey in entries && entries[SavingsGoalsKey].GoalList? ==> r == entries[SavingsGoalsKey].goals
      ensures !(isBrowser && SavingsGoalsKey in entries && entries[SavingsGoalsKey].GoalList?) ==> r == []
    {
      SavingsGoalsIn(isBrowser, entries)
    }

    /** `getUserProfile` */
    function UserProfile(): (r: Person)
      reads this
      ensures isBrowser && UserProfileKey in entries && entries[UserProfileKey].PersonRecord? ==>
                r == entries[UserProfileKey].person
      ensures !(isBrowser && UserProfileKey in entries && entries[UserProfileKey].PersonRecord?) ==>
                r == DefaultUserProfile
    {
      GetFromStorage(isBrowser, entries, UserProfileKey, DefaultUserProfile, AsPerson)
    }

    /** `saveTransactions` */
    method SaveTransactions(txns: seq<Transaction>)
      modifies this
      ensures entries == SetToStorage(isBrowser, old(entries), TransactionsKey, TxnList(txns))
      ensures isBrowser ==> Transactions() == txns
    {
      entries := SetToStorage(isBrowser, entries, TransactionsKey, TxnList(txns));
    }

    /** `saveBudgetCategories` */
    method SaveBudgetCategories(data: seq<BudgetCategory>)
      modifies this
      ensures entries == SetToStorage(isBrowser, old(entries), BudgetCategoriesKey, BudgetList(data))
      ensures isBrowser ==> BudgetCategories() == data
    {
      entries := SetToStorage(isBrowser, entries, BudgetCategoriesKey, BudgetList(data));
    }

    /** `saveDebts` */
    method SaveDebts(debts: seq<DebtItem>)
      modifies this
      ensures entries == SetToStorage(isBrowser, old(entries), DebtsKey, DebtList(debts))
      ensures isBrowser ==> Debts() == debts
    {
      entries := SetToStorage(isBrowser, entries, DebtsKey, DebtList(debts));
    }

    /** `saveSavingsGoals` */
    method SaveSavingsGoals(goals: seq<SavingsGoal>)
      modifies this
      ensures entries == SetToStorage(isBrowser, old(entries), SavingsGoalsKey, GoalList(goals))
      ensures isBrowser ==> SavingsGoals() == goals
    {
      entries := SetToStorage(isBrowser, entries, SavingsGoalsKey, GoalList(goals));
    }

    /** `saveUserProfile` */
    method SaveUserProfile(profile: Person)
      modifies this
      ensures entries == SetToStorage(isBrowser, old(entries), UserProfileKey, PersonRecord(profile))
      ensures isBrowser ==> UserProfile() == profile
    {
      entries := SetToStorage(isBrowser, entries, UserProfileKey, PersonRecord(profile));
    }

    /** `addTransaction`: the stored list with txn appended, written back and returned. */
    method AddTransaction(txn: Transaction) returns (updated: seq<Transaction>)
      modifies this
      ensures updated == old(Transactions()) + [txn]
      ensures entries == SetToStorage(isBrowser, old(entries), TransactionsKey, TxnList(updated))
      ensures isBrowser ==> Transactions() == updated
    {
      var txns := Transactions();
      updated := txns + [txn];
      SaveTransactions(updated);
    }

    /** `deleteTransaction`: the stored list without the given id, written back and returned. */
    method DeleteTransaction(id: string) returns (txns: seq<Transaction>)
      modifies this
      ensures txns == Filter(old(Transactions()), IdOtherThan(id))
      ensures entries == SetToStorage(isBrowser, old(entries), TransactionsKey, TxnList(txns))
      ensures isBrowser ==> Transactions() == txns
    {
      txns := Filter(Transactions(), IdOtherThan(id));
      SaveTransactions(txns);
    }

    /** `initializeDefaultData` */
    method InitializeDefaultData()
      modifies this
      ensures entries == Seeded(isBrowser, old(entries))
      ensures isBrowser ==> Transactions() != [] && BudgetCategories() != [] && Debts() != [] && SavingsGoals() != []
    {
      if !isBrowser {
        return;
      }
      if |Transactions()| == 0 {
        SaveTransactions(DefaultTransactions);
      }
      if |BudgetCategories()| == 0 {
        SaveBudgetCategories(DefaultBudgetCategories);
      }
      if |Debts()| == 0 {
        SaveDebts(DefaultDebts);
      }
      if |SavingsGoals()| == 0 {
        SaveSavingsGoals(DefaultSavingsGoals);
      }
      SeededNonEmpty(old(entries));
    }
  }

  /** Deleting an id that no stored transaction has leaves the list as it was. */
  lemma DeleteAbsentId(txns: seq<Transaction>, id: string)
    requires forall t :: t in txns ==> t.id != id
    ensures Filter(txns, IdOtherThan(id)) == txns
  {
    FilterKeepsAll(txns, IdOtherThan(id));
  }

  /** Deleting the same id twice is deleting it once. */
  lemma DeleteTwice(txns: seq<Transaction>, id: string)
    ensures Filter(Filter(txns, IdOtherThan(id)), IdOtherThan(id)) == Filter(txns, IdOtherThan(id))
  {
    FilterIdempotent(txns, IdOtherThan(id));
  }

  /** After a delete no transaction with that id remains, and every other one does, in order. */
  lemma DeleteRemovesExactly(txns: seq<Transaction>, id: string, t: Transaction)
    ensures t in Filter(txns, IdOtherThan(id)) <==> t in txns && t.id != id
    ensures SubsequenceOf(Filter(txns, IdOtherThan(id)), txns)
  {
    FilterMembers(txns, IdOtherThan(id), t);
    FilterSubsequence(txns, IdOtherThan(id));
  }
}
