/**
 * The income/expense ledger: entries are validated, stored with amounts in
 * whole cents, listed newest first or within a period, and summed into a
 * balance.
 */
module Ledger {
  import opened Wrappers
  import opened Text
  import opened Money

  /** An entry's type, stored as `"entrada"` (income) or `"saida"` (expense). */
  datatype Kind = Income | Expense

  function KindName(k: Kind): string {
    match k
    case Income => "entrada"
    case Expense => "saida"
  }

  /** The caller's type text, stripped and lower-cased, read as a kind. */
  function ParseKind(text: string): (k: Option<Kind>)
    ensures k.Some? <==> Normalize(text) == "entrada" || Normalize(text) == "saida"
    ensures k.Some? ==> KindName(k.value) == Normalize(text)
  {
    var t := Normalize(text);
    if t == "entrada" then Some(Income) else if t == "saida" then Some(Expense) else None
  }

  datatype Entry = Entry(id: nat, kind: Kind, description: string, cents: int, date: string, category: string)

  /**
   * `InvalidType` and `NegativeAmount` are the two `ValueError`s; `QuantizeOverflow`
   * is the `decimal.InvalidOperation` of an amount too large for the decimal
   * context; `IntegerOverflow` is the `OverflowError` of a cents value that
   * does not fit SQLite's 64-bit integer.
   */
  datatype LedgerError = InvalidType | NegativeAmount | QuantizeOverflow | IntegerOverflow

  /**
   * The default decimal context holds 28 significant digits, and `quantize`
   * refuses a result whose coefficient needs more: at two decimal places the
   * coefficient is the amount in cents.
   */
  const CoefficientLimit: int := 10_000_000_000_000_000_000_000_000_000

  /** The largest value a SQLite INTEGER (a signed 64-bit integer) holds. */
  const MaxStoredInteger: int := 0x7FFF_FFFF_FFFF_FFFF

  /**
   * The checks made before anything is stored, in their order: a type other
   * than entrada/saida fails first, whatever the amount; otherwise a negative
   * amount fails; otherwise the amount is rounded to cents, which fails when
   * the rounded coefficient has more than 28 digits.
   */
  function Validate(kind: string, amount: Dec): (r: Result<(Kind, int), LedgerError>)
    ensures r == Err(InvalidType) <==> ParseKind(kind).None?
    ensures r == Err(NegativeAmount) <==> ParseKind(kind).Some? && IsNegative(amount)
    ensures r == Err(QuantizeOverflow) <==>
      ParseKind(kind).Some? && !IsNegative(amount) && ToCents(amount) >= CoefficientLimit
    ensures r.Ok? ==> Some(r.value.0) == ParseKind(kind) && r.value.1 == ToCents(amount)
    ensures r.Ok? ==> 0 <= r.value.1 < CoefficientLimit
  {
    match ParseKind(kind)
    case None => Err(InvalidType)
    case Some(k) =>
      if IsNegative(amount) then Err(NegativeAmount)
      else if ToCents(amount) >= CoefficientLimit then Err(QuantizeOverflow)
      else Ok((k, ToCents(amount)))
  }

  /** `(date, id)` order, the date compared as text. */
  predicate KeyLe(a: Entry, b: Entry) {
    Lt(a.date, b.date) || (a.date == b.date && a.id <= b.id)
  }

  /** `a` may stand before `b` in `(date, id)` order, ascending or descending. */
  predicate Precedes(a: Entry, b: Entry, descending: bool) {
    if descending then KeyLe(b, a) else KeyLe(a, b)
  }

  predicate SortedBy(s: seq<Entry>, descending: bool) {
    forall i, j :: 0 <= i < j < |s| ==> Precedes(s[i], s[j], descending)
  }

  lemma PrecedesTotal(a: Entry, b: Entry, descending: bool)
    ensures Precedes(a, b, descending) || Precedes(b, a, descending)
  {
    LeTotal(a.date, b.date);
  }

  lemma PrecedesTransitive(a: Entry, b: Entry, c: Entry, descending: bool)
    requires Precedes(a, b, descending) && Precedes(b, c, descending)
    ensures Precedes(a, c, descending)
  {
    if descending {
      if Le(c.date, b.date) && Le(b.date, a.date) {
        LeTransitive(c.date, b.date, a.date);
        if c.date == a.date { LeAntisymmetric(c.date, b.date); }
      }
    } else {
      if Le(a.date, b.date) && Le(b.date, c.date) {
        LeTransitive(a.date, b.date, c.date);
        if a.date == c.date { LeAntisymmetric(a.date, b.date); }
      }
    }
  }

  lemma HeadPrecedesAll(s: seq<Entry>, descending: bool)
    requires SortedBy(s, descending) && s != []
    ensures forall y :: y in multiset(s) ==> Precedes(s[0], y, descending)
  {
    forall y | y in multiset(s) ensures Precedes(s[0], y, descending) {
      var j :| 0 <= j < |s| && s[j] == y;
      LeReflexive(y.date);
    }
  }

  lemma PrependSorted(x: Entry, s: seq<Entry>, descending: bool)
    requires SortedBy(s, descending)
    requires forall y :: y in multiset(s) ==> Precedes(x, y, descending)
    ensures SortedBy([x] + s, descending)
  {
    var r := [x] + s;
    forall i, j | 0 <= i < j < |r| ensures Precedes(r[i], r[j], descending) {
      assert r[j] == s[j - 1];
      if i == 0 {
        assert s[j - 1] in multiset(s);
      } else {
        assert r[i] == s[i - 1];
      }
    }
  }

  function Insert(e: Entry, s: seq<Entry>, descending: bool): (r: seq<Entry>)
    requires SortedBy(s, descending)
    ensures |r| == |s| + 1
    ensures SortedBy(r, descending)
    ensures multiset(r) == multiset(s) + multiset{e}
  {
    if s == [] then [e]
    else if Precedes(e, s[0], descending) then
      HeadPrecedesAll(s, descending);
      assert forall y :: y in multiset(s) ==> Precedes(e, y, descending) by {
        forall y | y in multiset(s) ensures Precedes(e, y, descending) {
          PrecedesTransitive(e, s[0], y, descending);
        }
      }
      PrependSorted(e, s, descending);
      [e] + s
    else
      PrecedesTotal(e, s[0], descending);
      assert s == [s[0]] + s[1..];
      var rest := Insert(e, s[1..], descending);
      HeadPrecedesAll(s, descending);
      assert forall y :: y in multiset(rest) ==> Precedes(s[0], y, descending) by {
        forall y | y in multiset(rest) ensures Precedes(s[0], y, descending) {
          if y != e { assert y in multiset(s); }
        }
      }
      PrependSorted(s[0], rest, descending);
      [s[0]] + rest
  }

  /** Insertion sort into `(date, id)` order. */
  function Sort(s: seq<Entry>, descending: bool): (r: seq<Entry>)
    ensures |r| == |s|
    ensures SortedBy(r, descending)
    ensures multiset(r) == multiset(s)
  {
    if s == [] then []
    else
      assert s == [s[0]] + s[1..];
      Insert(s[0], Sort(s[1..], descending), descending)
  }

  /** A listed row: the stored entry plus its amount decoded from cents (`valor`). */
  datatype Row = Row(entry: Entry, amount: Dec)

  function EntriesOf(rows: seq<Row>): seq<Entry> {
    seq(|rows|, i requires 0 <= i < |rows| => rows[i].entry)
  }

  function RowsOf(s: seq<Entry>): (rows: seq<Row>)
    ensures EntriesOf(rows) == s
    ensures |rows| == |s| && forall i :: 0 <= i < |rows| ==> rows[i].entry == s[i]
    ensures forall i :: 0 <= i < |rows| ==> rows[i].amount == FromCents(rows[i].entry.cents)
  {
    seq(|s|, i requires 0 <= i < |s| => Row(s[i], FromCents(s[i].cents)))
  }

  /**
   * `listar_lancamentos`: every entry exactly once, newest date first and,
   * within a date, highest id first; each row carries `cents / 100`.
   */
  function Listing(entries: seq<Entry>): (r: seq<Row>)
    ensures |r| == |entries|
    ensures multiset(EntriesOf(r)) == multiset(entries)
    ensures forall i, j :: 0 <= i < j < |r| ==> KeyLe(r[j].entry, r[i].entry)
    ensures forall i :: 0 <= i < |r| ==> r[i].amount == FromCents(r[i].entry.cents)
  {
    var sorted := Sort(entries, true);
    RowsOf(sorted)
  }

  predicate InPeriod(e: Entry, start: string, end: string) {
    Le(start, e.date) && Le(e.date, end)
  }

  /** `data BETWEEN start AND end`, keeping the stored order. */
  function Between(s: seq<Entry>, start: string, end: string): (r: seq<Entry>)
    ensures forall e :: multiset(r)[e] == if InPeriod(e, start, end) then multiset(s)[e] else 0
  {
    if s == [] then []
    else
      assert s == [s[0]] + s[1..];
      (if InPeriod(s[0], start, end) then [s[0]] else []) + Between(s[1..], start, end)
  }

  /**
   * `listar_por_periodo`: exactly the entries whose date lies between the
   * stripped bounds, both included, in text order, ascending by date and then
   * by id.
   */
  function PeriodListing(entries: seq<Entry>, start: string, end: string): (r: seq<Row>)
    ensures forall e :: multiset(EntriesOf(r))[e]
                        == if InPeriod(e, Strip(start), Strip(end)) then multiset(entries)[e] else 0
    ensures forall i, j :: 0 <= i < j < |r| ==> KeyLe(r[i].entry, r[j].entry)
    ensures forall i :: 0 <= i < |r| ==> r[i].amount == FromCents(r[i].entry.cents)
  {
    var sorted := Sort(Between(entries, Strip(start), Strip(end)), false);
    RowsOf(sorted)
  }

  /** `SUM(CASE WHEN tipo = k THEN valor_centavos ELSE 0 END)`, 0 for no rows. */
  function Total(s: seq<Entry>, k: Kind): int {
    if s == [] then 0 else (if s[0].kind == k then s[0].cents else 0) + Total(s[1..], k)
  }

  /** `calcular_saldo`, in cents: incomes minus expenses. */
  function BalanceCents(s: seq<Entry>): int {
    Total(s, Income) - Total(s, Expense)
  }

  lemma {:induction false} TotalAppend(s: seq<Entry>, t: seq<Entry>, k: Kind)
    ensures Total(s + t, k) == Total(s, k) + Total(t, k)
  {
    if s == [] {
      assert s + t == t;
    } else {
      assert (s + t)[1..] == s[1..] + t;
      TotalAppend(s[1..], t, k);
    }
  }

  lemma {:induction false} TotalNonNegative(s: seq<Entry>, k: Kind)
    requires forall e :: e in s ==> e.cents >= 0
    ensures Total(s, k) >= 0
  {
    if s != [] {
      assert forall e :: e in s[1..] ==> e in s;
      TotalNonNegative(s[1..], k);
    }
  }

  /** Removing position `j` takes exactly that entry out of the multiset of entries. */
  lemma MultisetRemove<T>(t: seq<T>, j: nat)
    requires j < |t|
    ensures multiset(t[..j] + t[j + 1..]) == multiset(t) - multiset{t[j]}
  {
    assert t == t[..j] + [t[j]] + t[j + 1..];
  }

  /** Removing position `j` takes exactly that entry's contribution out of the sum. */
  lemma TotalRemove(t: seq<Entry>, j: nat, k: Kind)
    requires j < |t|
    ensures Total(t, k) == (if t[j].kind == k then t[j].cents else 0) + Total(t[..j] + t[j + 1..], k)
  {
    var x := t[j];
    TotalAppend(t[..j], [x] + t[j + 1..], k);
    TotalAppend(t[..j], t[j + 1..], k);
    assert ([x] + t[j + 1..])[1..] == t[j + 1..];
    assert t[..j] + ([x] + t[j + 1..]) == t;
  }

  /** Two orderings of the same entries still agree once their first entry is taken out of both. */
  lemma TailMatches<T>(s: seq<T>, t: seq<T>, j: nat)
    requires s != [] && multiset(s) == multiset(t)
    requires j < |t| && t[j] == s[0]
    ensures multiset(s[1..]) == multiset(t[..j] + t[j + 1..])
  {
    MultisetRemove(t, j);
    assert s == [s[0]] + s[1..];
    assert multiset(s) == multiset{s[0]} + multiset(s[1..]);
  }

  /** Sums do not depend on the order of the rows. */
  lemma {:induction false} TotalPermutation(s: seq<Entry>, t: seq<Entry>, k: Kind)
    requires multiset(s) == multiset(t)
    ensures Total(s, k) == Total(t, k)
  {
    if s != [] {
      assert s[0] in multiset(t);
      var j :| 0 <= j < |t| && t[j] == s[0];
      TailMatches(s, t, j);
      TotalPermutation(s[1..], t[..j] + t[j + 1..], k);
      TotalRemove(t, j, k);
    }
  }

  /** Appending an entry moves the balance by its amount: up for income, down for expense. */
  lemma BalanceAppend(s: seq<Entry>, e: Entry)
    ensures BalanceCents(s + [e]) == BalanceCents(s) + (if e.kind == Income then e.cents else -e.cents)
  {
    TotalAppend(s, [e], Income);
    TotalAppend(s, [e], Expense);
  }

  /** The balance of the empty ledger is 0, and a ledger of expenses only has a negative balance. */
  lemma BalanceSign(s: seq<Entry>)
    requires forall e :: e in s ==> e.cents >= 0
    ensures s == [] ==> BalanceCents(s) == 0
    ensures (forall e :: e in s ==> e.kind == Expense) ==> BalanceCents(s) == -Total(s, Expense) <= 0
  {
    TotalNonNegative(s, Expense);
    if forall e :: e in s ==> e.kind == Expense {
      NoIncome(s);
    }
  }

  lemma {:induction false} NoIncome(s: seq<Entry>)
    requires forall e :: e in s ==> e.kind == Expense
    ensures Total(s, Income) == 0
  {
    if s != [] {
      assert forall e :: e in s[1..] ==> e in s;
      NoIncome(s[1..]);
    }
  }

  /**
   * SQLite's integer `SUM` fails once its running total, taken row by row,
   * passes a 64-bit integer; the running total of kind `k` after `i` rows is
   * `Total(s[..i], k)`.
   */
  ghost predicate SumOverflows(s: seq<Entry>, k: Kind) {
    exists i :: 0 <= i <= |s| && Total(s[..i], k) > MaxStoredInteger
  }

  /** With non-negative amounts a running total never exceeds the full total. */
  lemma PrefixTotalBounded(s: seq<Entry>, k: Kind, i: nat)
    requires forall e :: e in s ==> e.cents >= 0
    requires i <= |s|
    ensures Total(s[..i], k) <= Total(s, k)
  {
    assert s == s[..i] + s[i..];
    TotalAppend(s[..i], s[i..], k);
    assert forall e :: e in s[i..] ==> e in s;
    TotalNonNegative(s[i..], k);
  }

  /**
   * With non-negative amounts the sum overflows, in whatever row order
   * SQLite reads the table, exactly when the full total passes the bound.
   */
  lemma SumOverflowsIffTotal(s: seq<Entry>, k: Kind)
    requires forall e :: e in s ==> e.cents >= 0
    ensures SumOverflows(s, k) <==> Total(s, k) > MaxStoredInteger
  {
    if SumOverflows(s, k) {
      var i :| 0 <= i <= |s| && Total(s[..i], k) > MaxStoredInteger;
      PrefixTotalBounded(s, k, i);
    }
    if Total(s, k) > MaxStoredInteger {
      assert s[..|s|] == s;
    }
  }

  /** The balance is the same whichever way the entries are ordered, e.g. as listed. */
  lemma BalanceOfListing(s: seq<Entry>)
    ensures BalanceCents(EntriesOf(Listing(s))) == BalanceCents(s)
  {
    TotalPermutation(EntriesOf(Listing(s)), s, Income);
    TotalPermutation(EntriesOf(Listing(s)), s, Expense);
  }

  /**
   * What the table holds: ids ascend in insertion order and stay below the
   * next id to hand out, and every amount is a non-negative 64-bit integer.
   */
  predicate Stored(entries: seq<Entry>, nextId: nat) {
    && nextId >= 1
    && (forall i :: 0 <= i < |entries| ==> 1 <= entries[i].id < nextId)
    && (forall i :: 0 <= i < |entries| ==> 0 <= entries[i].cents <= MaxStoredInteger)
    && (forall i, j :: 0 <= i < j < |entries| ==> entries[i].id < entries[j].id)
  }

  /** Appending an entry that takes the next id and storable cents keeps the table well formed. */
  lemma StoredSnoc(entries: seq<Entry>, nextId: nat, e: Entry)
    requires Stored(entries, nextId)
    requires e.id == nextId && 0 <= e.cents <= MaxStoredInteger
    ensures Stored(entries + [e], nextId + 1)
    ensures forall x :: x in entries ==> x.id < e.id
  {
    var t := entries + [e];
    forall i | 0 <= i < |t| ensures 1 <= t[i].id < nextId + 1 && 0 <= t[i].cents <= MaxStoredInteger {
      if i < |entries| { assert t[i] == entries[i]; }
    }
    forall i, j | 0 <= i < j < |t| ensures t[i].id < t[j].id {
      assert t[i] == entries[i];
      if j < |entries| { assert t[j] == entries[j]; }
    }
  }

  /**
   * The stored table `lancamentos`. Ids come from an auto-increment counter:
   * each new entry gets `nextId`, larger than every id stored before.
   */
  class Ledger {
    var entries: seq<Entry>
    var nextId: nat

    ghost predicate Valid()
      reads this
    {
      Stored(entries, nextId)
    }

    constructor ()
      ensures Valid() && entries == [] && nextId == 1
    {
      entries := [];
      nextId := 1;
    }

    /**
     * `adicionar_lancamento`: on a bad type, a negative amount or an amount
     * the decimal context cannot quantize nothing is stored; cents beyond a
     * 64-bit integer make the insert fail and the transaction roll back, so
     * nothing is stored either; otherwise exactly one entry is appended, with
     * the normalised type, the stripped texts and the rounded cents, and its
     * new id returned.
     */
    method Add(kind: string, description: string, amount: Dec, date: string, category: string)
      returns (r: Result<nat, LedgerError>)
      requires Valid()
      modifies this
      ensures Valid()
      ensures match Validate(kind, amount)
        case Err(e) => r == Err(e) && entries == old(entries) && nextId == old(nextId)
        case Ok(v) =>
          if v.1 > MaxStoredInteger then
            r == Err(IntegerOverflow) && entries == old(entries) && nextId == old(nextId)
          else
            && r == Ok(old(nextId)) && nextId == old(nextId) + 1
            && entries == old(entries) + [Entry(old(nextId), v.0, Strip(description), v.1, Strip(date), Strip(category))]
      ensures r.Ok? ==> forall e :: e in old(entries) ==> e.id < r.value
    {
      var checked := Validate(kind, amount);
      if checked.Err? {
        return Err(checked.error);
      }
      var (k, cents) := checked.value;
      if cents > MaxStoredInteger {
        return Err(IntegerOverflow);
      }
      var id := nextId;
      var e := Entry(id, k, Strip(description), cents, Strip(date), Strip(category));
      StoredSnoc(entries, nextId, e);
      entries := entries + [e];
      nextId := nextId + 1;
      r := Ok(id);
    }

    method List() returns (r: seq<Row>)
      ensures r == Listing(entries)
    {
      r := Listing(entries);
    }

    method ListPeriod(start: string, end: string) returns (r: seq<Row>)
      ensures r == PeriodListing(entries, start, end)
    {
      r := PeriodListing(entries, start, end);
    }

    /**
     * `calcular_saldo`: the balance decoded from cents, or SQLite's integer
     * overflow error exactly when either per-kind `SUM`, added row by row,
     * passes a 64-bit integer; since stored amounts are non-negative, that is
     * when the per-kind total does.
     */
    method Balance() returns (b: Result<Dec, LedgerError>)
      requires Valid()
      ensures b.Err? <==> SumOverflows(entries, Income) || SumOverflows(entries, Expense)
      ensures b == if Total(entries, Income) > MaxStoredInteger || Total(entries, Expense) > MaxStoredInteger
                   then Err(IntegerOverflow)
                   else Ok(FromCents(BalanceCents(entries)))
    {
      SumOverflowsIffTotal(entries, Income);
      SumOverflowsIffTotal(entries, Expense);
      if Total(entries, Income) > MaxStoredInteger || Total(entries, Expense) > MaxStoredInteger {
        return Err(IntegerOverflow);
      }
      b := Ok(FromCents(BalanceCents(entries)));
    }
  }

  lemma LowerEntrada()
    ensures Lower("ENTRADA") == "entrada"
  {
    assert "ENTRADA" == ['E', 'N', 'T', 'R', 'A', 'D', 'A'];
    assert LowerChar('E') == 'e' && LowerChar('N') == 'n' && LowerChar('T') == 't' && LowerChar('R') == 'r';
    assert LowerChar('A') == 'a' && LowerChar('D') == 'd';
  }

  lemma LowerSaida()
    ensures Lower("saida") == "saida"
  {
    assert "saida" == ['s', 'a', 'i', 'd', 'a'];
    assert LowerChar('s') == 's' && LowerChar('a') == 'a' && LowerChar('i') == 'i' && LowerChar('d') == 'd';
  }

  lemma NormalizeEntrada()
    ensures Normalize("ENTRADA") == "entrada"
  {
    StripUnpadded("ENTRADA");
    LowerEntrada();
  }

  lemma NormalizeSaida()
    ensures Normalize("saida") == "saida"
  {
    StripUnpadded("saida");
    LowerSaida();
  }

  lemma ScenarioIncome()
    ensures Validate("ENTRADA", Dec(10000, 2)) == Ok((Income, 10000))
  {
    NormalizeEntrada();
    assert ParseKind("ENTRADA") == Some(Income);
    assert ToCents(Dec(10000, 2)) == 10000;
  }

  lemma ScenarioExpense()
    ensures Validate("saida", Dec(3000, 2)) == Ok((Expense, 3000))
  {
    NormalizeSaida();
    assert ParseKind("saida") == Some(Expense);
    assert ToCents(Dec(3000, 2)) == 3000;
  }

  lemma NormalizeInvalid()
    ensures |Normalize("invalid")| == 7 && Normalize("invalid")[0] == 'i'
  {
    StripUnpadded("invalid");
    assert Lower("invalid")[0] == LowerChar('i') == 'i';
  }

  lemma ScenarioUnknown()
    ensures Validate("invalid", Dec(100, 2)) == Err(InvalidType)
  {
    NormalizeInvalid();
    assert ParseKind("invalid") == None;
  }

  /** An amount of 10^26 rounds to a 29-digit coefficient, which `quantize` refuses. */
  lemma ScenarioQuantizeOverflow()
    ensures Validate("saida", Dec(100_000_000_000_000_000_000_000_000, 0)) == Err(QuantizeOverflow)
  {
    NormalizeSaida();
    assert ParseKind("saida") == Some(Expense);
    assert ToCents(Dec(100_000_000_000_000_000_000_000_000, 0)) == CoefficientLimit;
  }

  /** An amount of 10^17 passes validation, but its cents exceed a 64-bit integer. */
  lemma ScenarioBeyondStorage()
    ensures Validate("saida", Dec(100_000_000_000_000_000, 0)) == Ok((Expense, 10_000_000_000_000_000_000))
    ensures 10_000_000_000_000_000_000 > MaxStoredInteger
  {
    NormalizeSaida();
    assert ParseKind("saida") == Some(Expense);
    assert ToCents(Dec(100_000_000_000_000_000, 0)) == 10_000_000_000_000_000_000;
  }

  /** An income of 10000 cents followed by an expense of 3000 cents balance to 7000 cents. */
  lemma ScenarioBalance(s: seq<Entry>)
    requires |s| == 2
    requires s[0].kind == Income && s[0].cents == 10000
    requires s[1].kind == Expense && s[1].cents == 3000
    ensures Total(s, Income) == 10000 && Total(s, Expense) == 3000
    ensures BalanceCents(s) == 7000
  {
    assert s == [s[0]] + [s[1]];
    TotalAppend([s[0]], [s[1]], Income);
    TotalAppend([s[0]], [s[1]], Expense);
  }

  /**
   * Two incomes of 5 * 10^18 cents each fit a 64-bit column, but their sum
   * does not, so the balance query fails.
   */
  lemma ScenarioSumOverflow(s: seq<Entry>)
    requires |s| == 2
    requires s[0].kind == Income && s[0].cents == 5_000_000_000_000_000_000
    requires s[1].kind == Income && s[1].cents == 5_000_000_000_000_000_000
    ensures s[0].cents <= MaxStoredInteger && s[1].cents <= MaxStoredInteger
    ensures Total(s, Income) > MaxStoredInteger
  {
    assert s == [s[0]] + [s[1]];
    TotalAppend([s[0]], [s[1]], Income);
  }

  /** The first step of `BalanceScenario`: an income of 100.00 into an empty ledger. */
  method AddIncomeStep(ledger: Ledger, description: string, date: string, category: string)
    requires ledger.Valid() && ledger.entries == []
    modifies ledger
    ensures ledger.Valid() && |ledger.entries| == 1
    ensures ledger.entries[0].kind == Income && ledger.entries[0].cents == 10000
  {
    ScenarioIncome();
    var income := ledger.Add("ENTRADA", description, Dec(10000, 2), date, category);
  }

  /** The second step of `BalanceScenario`: an expense of 30.00 after that income. */
  method AddExpenseStep(ledger: Ledger, description: string, date: string, category: string)
    requires ledger.Valid() && |ledger.entries| == 1
    modifies ledger
    ensures ledger.Valid() && |ledger.entries| == 2
    ensures ledger.entries[0] == old(ledger.entries[0])
    ensures ledger.entries[1].kind == Expense && ledger.entries[1].cents == 3000
  {
    ScenarioExpense();
    var expense := ledger.Add("saida", description, Dec(3000, 2), date, category);
  }

  /**
   * An income of 100.00 followed by an expense of 30.00 leaves a balance of
   * 70.00 (the type text is matched after lower-casing); an unknown type is
   * refused and stores nothing. Descriptions, dates and categories play no
   * part, so they are left to the caller.
   */
  method BalanceScenario(description: string, date: string, category: string)
    returns (balance: Result<Dec, LedgerError>, refused: Result<nat, LedgerError>)
    ensures balance == Ok(FromCents(7000))
    ensures refused == Err(InvalidType)
  {
    var ledger := new Ledger();
    AddIncomeStep(ledger, description, date, category);
    AddExpenseStep(ledger, description, date, category);
    ghost var before := ledger.entries;
    ScenarioUnknown();
    refused := ledger.Add("invalid", description, Dec(100, 2), date, category);
    ghost var stored := ledger.entries;
    assert stored == before;
    ScenarioBalance(stored);
    assert Total(stored, Income) <= MaxStoredInteger && Total(stored, Expense) <= MaxStoredInteger;
    balance := ledger.Balance();
  }

  /**
   * Amounts too large for the decimal context or for a 64-bit column are
   * refused, and the ledger stays empty.
   */
  method OverflowScenario(description: string, date: string, category: string)
    returns (tooLarge: Result<nat, LedgerError>, unstorable: Result<nat, LedgerError>, balance: Result<Dec, LedgerError>)
    ensures tooLarge == Err(QuantizeOverflow)
    ensures unstorable == Err(IntegerOverflow)
    ensures balance == Ok(FromCents(0))
  {
    ScenarioQuantizeOverflow();
    ScenarioBeyondStorage();
    var ledger := new Ledger();
    tooLarge := ledger.Add("saida", description, Dec(100_000_000_000_000_000_000_000_000, 0), date, category);
    unstorable := ledger.Add("saida", description, Dec(100_000_000_000_000_000, 0), date, category);
    ghost var stored := ledger.entries;
    assert stored == [];
    assert Total(stored, Income) == 0 && Total(stored, Expense) == 0 && BalanceCents(stored) == 0;
    balance := ledger.Balance();
  }
}
