/**
 * The financial data entry form: its state (sections of fields, some of which
 * are lists of entries), the three updaters that replace that state, the
 * remove controls shown only on lists of two or more entries, and the select
 * options it offers compared with what the document schema accepts.
 */
module FinancialForm {
  import opened Wrappers
  import opened Records
  import opened FinancialSchema

  /** One list entry: field name to the text typed into it. */
  type Entry = map<string, string>

  /** A form field: plain text, or a list of entries. */
  datatype Field = Text(text: string) | Items(items: seq<Entry>)

  /** The whole form: section name to its fields. */
  type FormData = map<string, map<string, Field>>

  /** An entry with every one of `keys` empty. */
  function BlankEntry(keys: set<string>): (e: Entry)
    ensures e.Keys == keys
    ensures forall k :: k in e ==> e[k] == ""
  {
    map k | k in keys :: ""
  }

  const SourceKeys: set<string> := {"name", "amount", "type"}
  const CategoryKeys: set<string> := {"name", "amount", "type"}
  const BankKeys: set<string> := {"name", "balance", "type"}
  const InvestmentKeys: set<string> := {"name", "type", "value", "returnRate", "duration", "risk"}
  const PropertyKeys: set<string> := {"name", "balance", "type", "location", "rentalIncome"}
  const LoanKeys: set<string> := {"type", "balance", "interestRate", "tenure", "emi", "startDate"}
  const CardKeys: set<string> := {"issuer", "limit", "outstanding", "dueDate", "interestRate"}

  /** The seven list fields, as (section, field, keys of an entry). */
  const Lists: seq<(string, string, set<string>)> := [
    ("income", "sources", SourceKeys),
    ("expenses", "categories", CategoryKeys),
    ("assets", "bankAccounts", BankKeys),
    ("assets", "investments", InvestmentKeys),
    ("assets", "realEstate", PropertyKeys),
    ("liabilities", "loans", LoanKeys),
    ("liabilities", "creditCards", CardKeys)
  ]

  /** The form's first state: empty text everywhere and one blank entry in each list. */
  function InitialFormData(): FormData {
    map[
      "income" := map["monthly" := Text(""), "yearly" := Text(""), "sources" := Items([BlankEntry(SourceKeys)])],
      "expenses" := map["monthly" := Text(""), "categories" := Items([BlankEntry(CategoryKeys)])],
      "assets" := map[
        "bankAccounts" := Items([BlankEntry(BankKeys)]),
        "investments" := Items([BlankEntry(InvestmentKeys)]),
        "realEstate" := Items([BlankEntry(PropertyKeys)])],
      "liabilities" := map["loans" := Items([BlankEntry(LoanKeys)]), "creditCards" := Items([BlankEntry(CardKeys)])],
      "creditScore" := map["value" := Text(""), "lastUpdated" := Text("")]
    ]
  }

  /** `data[section][field]` exists and is a list. */
  predicate IsList(data: FormData, section: string, field: string) {
    section in data && field in data[section] && data[section][field].Items?
  }

  /** Every one of the seven lists exists and holds at least one entry. */
  predicate ListsNonEmpty(data: FormData) {
    forall i :: 0 <= i < |Lists| ==>
      IsList(data, Lists[i].0, Lists[i].1) && |data[Lists[i].0][Lists[i].1].items| > 0
  }

  /** The first state holds exactly one blank entry in each of the seven lists. */
  lemma InitialListsHoldOneBlankEntry()
    ensures forall i :: 0 <= i < |Lists| ==>
      IsList(InitialFormData(), Lists[i].0, Lists[i].1)
      && InitialFormData()[Lists[i].0][Lists[i].1].items == [BlankEntry(Lists[i].2)]
    ensures ListsNonEmpty(InitialFormData())
  {
    var d: FormData := InitialFormData();
    assert d["income"]["sources"].items == [BlankEntry(SourceKeys)];
    assert d["expenses"]["categories"].items == [BlankEntry(CategoryKeys)];
    assert d["assets"]["bankAccounts"].items == [BlankEntry(BankKeys)];
    assert d["assets"]["investments"].items == [BlankEntry(InvestmentKeys)];
    assert d["assets"]["realEstate"].items == [BlankEntry(PropertyKeys)];
    assert d["liabilities"]["loans"].items == [BlankEntry(LoanKeys)];
    assert d["liabilities"]["creditCards"].items == [BlankEntry(CardKeys)];
  }

  /** `{ ...item, ...patch }`: the patch's keys overwrite, every other key is kept. */
  function Merge(item: Entry, patch: Entry): (m: Entry)
    ensures m.Keys == item.Keys + patch.Keys
    ensures forall k :: k in patch ==> m[k] == patch[k]
    ensures forall k :: k in item && k !in patch ==> m[k] == item[k]
  {
    item + patch
  }

  /** `items.map((item, i) => i === index ? { ...item, ...patch } : item)`. */
  function UpdateAt(items: seq<Entry>, index: int, patch: Entry): (r: seq<Entry>)
    ensures |r| == |items|
    ensures forall i :: 0 <= i < |items| && i != index ==> r[i] == items[i]
    ensures 0 <= index < |items| ==> r[index] == Merge(items[index], patch)
    ensures !(0 <= index < |items|) ==> r == items
  {
    seq(|items|, i requires 0 <= i < |items| => if i == index then Merge(items[i], patch) else items[i])
  }

  /** `items.filter((_, i) => i !== index)`. */
  function RemoveAt(items: seq<Entry>, index: int): (r: seq<Entry>)
    ensures 0 <= index < |items| ==> |r| == |items| - 1 && multiset(r) == multiset(items) - multiset{items[index]}
    ensures 0 <= index < |items| ==> forall i :: 0 <= i < |r| ==> r[i] == items[if i < index then i else i + 1]
    ensures !(0 <= index < |items|) ==> r == items
  {
    if 0 <= index < |items| then
      assert items == items[..index] + [items[index]] + items[index + 1..];
      items[..index] + items[index + 1..]
    else items
  }

  /** Adding an entry and then removing the entry at the old length gives back the list. */
  lemma AddThenRemove(items: seq<Entry>, template: Entry)
    ensures RemoveAt(items + [template], |items|) == items
  {
    assert (items + [template])[..|items|] == items;
  }

  /** The form state, replaced as a whole by each updater. */
  class Form {
    var data: FormData

    constructor ()
      ensures data == InitialFormData()
      ensures ListsNonEmpty(data)
    {
      data := InitialFormData();
      InitialListsHoldOneBlankEntry();
    }

    /**
     * `handleChange(section, field, patch, index)`: entry `index` of the list
     * becomes that entry merged with the patch; the list keeps its length and
     * nothing else changes.
     */
    method HandleChangeAt(section: string, field: string, patch: Entry, index: int)
      requires IsList(data, section, field)
      modifies this
      ensures data == old(data)[section := old(data)[section][field := Items(UpdateAt(old(data)[section][field].items, index, patch))]]
      ensures IsList(data, section, field) && |data[section][field].items| == |old(data)[section][field].items|
      ensures forall s :: s in old(data) && s != section ==> s in data && data[s] == old(data)[s]
      ensures ListsNonEmpty(old(data)) ==> ListsNonEmpty(data)
    {
      var items := data[section][field].items;
      data := data[section := data[section][field := Items(UpdateAt(items, index, patch))]];
    }

    /**
     * `handleChange(section, field, value)`: sets one field, creating the
     * section when it is missing; every other field and section is unchanged.
     */
    method HandleChange(section: string, field: string, value: Field)
      modifies this
      ensures data == old(data)[section := (if section in old(data) then old(data)[section] else map[])[field := value]]
      ensures data[section].Keys == (if section in old(data) then old(data)[section].Keys else {}) + {field}
      ensures section in data && field in data[section] && data[section][field] == value
      ensures forall f :: section in old(data) && f in old(data)[section] && f != field ==>
        f in data[section] && data[section][f] == old(data)[section][f]
      ensures forall s :: s in old(data) && s != section ==> s in data && data[s] == old(data)[s]
      ensures data.Keys == old(data).Keys + {section}
    {
      var fields := if section in data then data[section] else map[];
      data := data[section := fields[field := value]];
    }

    /** `addItem(section, field, template)`: the template goes at the end; nothing else changes. */
    method AddItem(section: string, field: string, template: Entry)
      requires IsList(data, section, field)
      modifies this
      ensures data == old(data)[section := old(data)[section][field := Items(old(data)[section][field].items + [template])]]
      ensures ListsNonEmpty(old(data)) ==> ListsNonEmpty(data)
    {
      var items := data[section][field].items;
      data := data[section := data[section][field := Items(items + [template])]];
    }

    /** `removeItem(section, field, index)`: drops entry `index` (if there is one); nothing else changes. */
    method RemoveItem(section: string, field: string, index: int)
      requires IsList(data, section, field)
      modifies this
      ensures data == old(data)[section := old(data)[section][field := Items(RemoveAt(old(data)[section][field].items, index))]]
    {
      var items := data[section][field].items;
      data := data[section := data[section][field := Items(RemoveAt(items, index))]];
    }

    /**
     * A click on an entry's remove control. The control is rendered only
     * while the list has more than one entry, so through the form no list
     * ever becomes empty.
     */
    method ClickRemove(section: string, field: string, index: int)
      requires IsList(data, section, field) && 0 <= index < |data[section][field].items|
      modifies this
      ensures |old(data)[section][field].items| > 1 ==>
        data == old(data)[section := old(data)[section][field := Items(RemoveAt(old(data)[section][field].items, index))]]
      ensures |old(data)[section][field].items| <= 1 ==> data == old(data)
      ensures ListsNonEmpty(old(data)) ==> ListsNonEmpty(data)
    {
      if |data[section][field].items| > 1 {
        RemoveItem(section, field, index);
      }
    }
  }

  /** The select options the form offers for each typed list. */
  const IncomeOptions: set<string> := {"", "salary", "business", "freelance", "investment", "other"}
  const ExpenseOptions: set<string> := {"", "housing", "food", "transport", "utilities", "entertainment", "debt", "other"}
  const BankOptions: set<string> := {"", "savings", "current", "fixed deposit", "other"}
  const InvestmentOptions: set<string> := {"", "MF", "Stocks", "Bonds", "FD", "PPF", "other"}
  const PropertyOptions: set<string> := {"", "residential", "commercial", "land", "other"}
  const LoanOptions: set<string> := {"", "home", "auto", "personal", "education", "other"}

  /** The options the form offers but the schema's enumerations do not list (besides the empty placeholder). */
  lemma FormOffersRejectedValues()
    ensures IncomeOptions - IncomeTypes == {"", "freelance", "investment"}
    ensures ExpenseOptions - ExpenseTypes == {""}
    ensures BankOptions - BankTypes == {"", "other"}
    ensures InvestmentOptions - InvestmentTypes == {"", "Stocks", "other"}
    ensures PropertyOptions - PropertyTypes == {"", "other"}
    ensures LoanOptions - LoanTypes == {"", "other"}
  {
  }

  /** A document with an income source typed 'freelance' or 'investment' fails validation. */
  lemma RejectedIncomeOption(r: FinancialRecord, s: IncomeSource)
    requires r.income.Some? && s in OrEmpty(r.income.value.sources)
    requires s.kind == Given("freelance") || s.kind == Given("investment")
    ensures !ValidRecord(r)
  {
    assert !ValidSource(s);
  }

  /** A document with a bank account typed 'other' fails validation. */
  lemma RejectedBankOption(r: FinancialRecord, a: BankAccount)
    requires r.assets.Some? && a in OrEmpty(r.assets.value.bankAccounts) && a.kind == Given("other")
    ensures !ValidRecord(r)
  {
    assert !ValidBankAccount(a);
  }

  /** A document with an investment typed 'Stocks' or 'other' fails validation. */
  lemma RejectedInvestmentOption(r: FinancialRecord, i: Investment)
    requires r.assets.Some? && i in OrEmpty(r.assets.value.investments)
    requires i.kind == Given("Stocks") || i.kind == Given("other")
    ensures !ValidRecord(r)
  {
    assert !ValidInvestment(i);
  }

  /** A document with a property typed 'other' fails validation. */
  lemma RejectedPropertyOption(r: FinancialRecord, p: Property)
    requires r.assets.Some? && p in OrEmpty(r.assets.value.realEstate) && p.kind == Given("other")
    ensures !ValidRecord(r)
  {
    assert !ValidProperty(p);
  }

  /** A document with a loan typed 'other' fails validation. */
  lemma RejectedLoanOption(r: FinancialRecord, l: Loan)
    requires r.liabilities.Some? && l in OrEmpty(r.liabilities.value.loans) && l.kind == Given("other")
    ensures !ValidRecord(r)
  {
    assert !ValidLoan(l);
  }
}
