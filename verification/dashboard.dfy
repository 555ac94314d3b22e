/**
 * The business overview (components/Dashboard.tsx): revenue totals for all time, the
 * current month and the current week, a per-client tally and the five busiest clients.
 * The calendar is outside the model: the clock and date parsing are parameters.
 */
module Dashboard {
  import opened Wrappers
  import opened Text
  import opened Seqs
  import opened Types

  /** A parsed date: `Invalid` is JavaScript's invalid date, which compares false with everything. */
  datatype Moment = Invalid | Valid(year: int, month: int, instant: int)

  /** The current year and month, and the first instant of the current week. */
  datatype Clock = Clock(year: int, month: int, weekStart: int)

  /** `new Date(invoiceDate || createdAt)`. */
  function InvoiceMoment(inv: ArchivedInvoice, parseDate: string -> Moment, fromInstant: nat -> Moment): Moment {
    if inv.data.invoiceDate != "" then parseDate(inv.data.invoiceDate) else fromInstant(inv.createdAt)
  }

  predicate InMonth(m: Moment, clock: Clock) {
    m.Valid? && m.month == clock.month && m.year == clock.year
  }

  predicate InWeek(m: Moment, clock: Clock) {
    m.Valid? && m.instant >= clock.weekStart
  }

  /** The amount an invoice contributes. */
  function Amount(inv: ArchivedInvoice): real {
    inv.data.totalAmount
  }

  function InMonthTest(clock: Clock, parseDate: string -> Moment, fromInstant: nat -> Moment): ArchivedInvoice -> bool {
    inv => InMonth(InvoiceMoment(inv, parseDate, fromInstant), clock)
  }

  function InWeekTest(clock: Clock, parseDate: string -> Moment, fromInstant: nat -> Moment): ArchivedInvoice -> bool {
    inv => InWeek(InvoiceMoment(inv, parseDate, fromInstant), clock)
  }

  /** The amount counted towards a period: the amount inside it, zero outside. */
  function Share(inPeriod: ArchivedInvoice -> bool): ArchivedInvoice -> real {
    inv => if inPeriod(inv) then Amount(inv) else 0.0
  }

  const UnknownClient := "Unknown Client"

  /** `clientName?.trim() || 'Unknown Client'`. */
  function ClientKey(inv: ArchivedInvoice): (k: string)
    ensures k != ""
    ensures Trim(inv.data.clientName) != "" ==> k == Trim(inv.data.clientName)
    ensures Trim(inv.data.clientName) == "" ==> k == UnknownClient
  {
    var name := Trim(inv.data.clientName);
    if name != "" then name else UnknownClient
  }

  /** One entry of `clientCounts`. */
  datatype ClientTally = ClientTally(name: string, count: nat, revenue: real)

  function Count(t: ClientTally): int {
    t.count
  }

  function CountReal(t: ClientTally): real {
    t.count as real
  }

  function Revenue(t: ClientTally): real {
    t.revenue
  }

  /** Where the tally for `name` sits, if there is one. */
  function FindTally(tallies: seq<ClientTally>, name: string): (r: Option<nat>)
    ensures r.Some? ==> r.value < |tallies| && tallies[r.value].name == name
    ensures r.None? ==> forall j | 0 <= j < |tallies| :: tallies[j].name != name
  {
    if |tallies| == 0 then None
    else if tallies[0].name == name then Some(0)
    else match FindTally(tallies[1..], name)
      case Some(j) => Some(j + 1)
      case None => None
  }

  /**
   * The property names every plain object inherits from `Object.prototype`. Looking one of
   * them up in `clientCounts` finds the inherited value, which is truthy, so no own entry is
   * ever made for a client of that name.
   */
  const InheritedKeys: set<string> := {
    "constructor", "hasOwnProperty", "isPrototypeOf", "propertyIsEnumerable",
    "toLocaleString", "toString", "valueOf", "__proto__",
    "__defineGetter__", "__defineSetter__", "__lookupGetter__", "__lookupSetter__"
  }

  predicate Inherited(name: string) {
    name in InheritedKeys
  }

  /** Counts one more invoice of `amount` for `name`: bumps its tally, or starts one at the end. */
  function Bump(tallies: seq<ClientTally>, name: string, amount: real): (r: seq<ClientTally>)
    ensures FindTally(tallies, name).Some? ==>
      var i := FindTally(tallies, name).value;
      r == tallies[i := ClientTally(name, tallies[i].count + 1, tallies[i].revenue + amount)]
    ensures FindTally(tallies, name).None? ==> r == tallies + [ClientTally(name, 1, amount)]
  {
    match FindTally(tallies, name)
    case Some(i) => tallies[i := ClientTally(name, tallies[i].count + 1, tallies[i].revenue + amount)]
    case None => tallies + [ClientTally(name, 1, amount)]
  }

  /**
   * One step of the grouping: a client whose name is an inherited property leaves the tally
   * as it was (the `+= 1` lands on the inherited value, not on an own entry); any other
   * client is counted.
   */
  function AddToTally(tallies: seq<ClientTally>, name: string, amount: real): (r: seq<ClientTally>)
    ensures Inherited(name) ==> r == tallies
    ensures !Inherited(name) ==> r == Bump(tallies, name, amount)
  {
    if Inherited(name) then tallies else Bump(tallies, name, amount)
  }

  /** What the grouping sees of an invoice: its client key and its amount. */
  datatype Entry = Entry(key: string, amount: real)

  function EntryOf(inv: ArchivedInvoice): Entry {
    Entry(ClientKey(inv), Amount(inv))
  }

  function EntryAmount(e: Entry): real {
    e.amount
  }

  function Entries(invoices: seq<ArchivedInvoice>): (r: seq<Entry>)
    ensures |r| == |invoices|
    ensures forall i | 0 <= i < |r| :: r[i] == EntryOf(invoices[i])
  {
    seq(|invoices|, i requires 0 <= i < |invoices| => EntryOf(invoices[i]))
  }

  /** `clientCounts`, in the order keys are first seen. */
  function Tallies(entries: seq<Entry>): seq<ClientTally> {
    if |entries| == 0 then []
    else
      var last := entries[|entries| - 1];
      AddToTally(Tallies(entries[..|entries| - 1]), last.key, last.amount)
  }

  /** The tally of the invoices' clients. */
  function ClientTallies(invoices: seq<ArchivedInvoice>): seq<ClientTally> {
    Tallies(Entries(invoices))
  }

  /** Reference count: how many entries have the key `name`. */
  function CountWithKey(entries: seq<Entry>, name: string): nat {
    if |entries| == 0 then 0
    else CountWithKey(entries[..|entries| - 1], name) + if entries[|entries| - 1].key == name then 1 else 0
  }

  /** Reference revenue: the amounts of the entries with the key `name`. */
  function RevenueWithKey(entries: seq<Entry>, name: string): real {
    if |entries| == 0 then 0.0
    else RevenueWithKey(entries[..|entries| - 1], name) + if entries[|entries| - 1].key == name then entries[|entries| - 1].amount else 0.0
  }

  predicate DistinctNames(tallies: seq<ClientTally>) {
    forall i, j | 0 <= i < j < |tallies| :: tallies[i].name != tallies[j].name
  }

  /**
   * The tally holds one entry per distinct key that is not an inherited property name, and
   * each tally's count and revenue are exactly the number and the total amount of the
   * entries with that key.
   */
  lemma {:induction false} TalliesExact(entries: seq<Entry>)
    ensures var t := Tallies(entries);
      && DistinctNames(t)
      && (forall j | 0 <= j < |t| :: !Inherited(t[j].name))
      && (forall j | 0 <= j < |t| ::
            t[j].count == CountWithKey(entries, t[j].name) && t[j].revenue == RevenueWithKey(entries, t[j].name))
      && (forall name | FindTally(t, name).None? && !Inherited(name) ::
            CountWithKey(entries, name) == 0 && RevenueWithKey(entries, name) == 0.0)
    decreases |entries|
  {
    if |entries| > 0 {
      var front := entries[..|entries| - 1];
      var last := entries[|entries| - 1];
      var k := last.key;
      var old_ := Tallies(front);
      var t := Tallies(entries);
      TalliesExact(front);
      assert t == AddToTally(old_, k, last.amount);
      if Inherited(k) {
        assert t == old_;
        forall j | 0 <= j < |t|
          ensures t[j].count == CountWithKey(entries, t[j].name) && t[j].revenue == RevenueWithKey(entries, t[j].name)
        {
          assert t[j].name != k;
        }
      } else {
        BumpExact(entries);
      }
    }
  }

  /** The step of `TalliesExact` for a last entry that is counted. */
  lemma BumpExact(entries: seq<Entry>)
    requires |entries| > 0
    requires !Inherited(entries[|entries| - 1].key)
    requires var t := Tallies(entries[..|entries| - 1]);
      && DistinctNames(t)
      && (forall j | 0 <= j < |t| :: !Inherited(t[j].name))
      && (forall j | 0 <= j < |t| ::
            t[j].count == CountWithKey(entries[..|entries| - 1], t[j].name)
            && t[j].revenue == RevenueWithKey(entries[..|entries| - 1], t[j].name))
      && (forall name | FindTally(t, name).None? && !Inherited(name) ::
            CountWithKey(entries[..|entries| - 1], name) == 0 && RevenueWithKey(entries[..|entries| - 1], name) == 0.0)
    ensures var t := Tallies(entries);
      && DistinctNames(t)
      && (forall j | 0 <= j < |t| :: !Inherited(t[j].name))
      && (forall j | 0 <= j < |t| ::
            t[j].count == CountWithKey(entries, t[j].name) && t[j].revenue == RevenueWithKey(entries, t[j].name))
      && (forall name | FindTally(t, name).None? && !Inherited(name) ::
            CountWithKey(entries, name) == 0 && RevenueWithKey(entries, name) == 0.0)
  {
    var front := entries[..|entries| - 1];
    var last := entries[|entries| - 1];
    var k := last.key;
    var old_ := Tallies(front);
    var t := Tallies(entries);
    assert t == Bump(old_, k, last.amount);
    match FindTally(old_, k)
    case Some(i) =>
      assert |t| == |old_|;
      forall j | 0 <= j < |t|
        ensures t[j].count == CountWithKey(entries, t[j].name) && t[j].revenue == RevenueWithKey(entries, t[j].name)
      {
        if j != i {
          assert t[j] == old_[j];
          assert old_[j].name != k;
        }
      }
      forall name | FindTally(t, name).None? && !Inherited(name)
        ensures CountWithKey(entries, name) == 0 && RevenueWithKey(entries, name) == 0.0
      {
        assert forall j | 0 <= j < |old_| :: old_[j].name == t[j].name;
        assert name != k by {
          assert t[i].name == k;
        }
      }
    case None =>
      assert |t| == |old_| + 1;
      forall j | 0 <= j < |t|
        ensures t[j].count == CountWithKey(entries, t[j].name) && t[j].revenue == RevenueWithKey(entries, t[j].name)
      {
        if j < |old_| {
          assert t[j] == old_[j];
          assert old_[j].name != k;
        }
      }
      forall name | FindTally(t, name).None? && !Inherited(name)
        ensures CountWithKey(entries, name) == 0 && RevenueWithKey(entries, name) == 0.0
      {
        assert forall j | 0 <= j < |old_| :: old_[j] == t[j];
        assert name != k by {
          assert t[|old_|].name == k;
        }
      }
  }

  /** Whether an entry gets a tally of its own, as a count of 1 or 0. */
  function OwnCount(e: Entry): real {
    if Inherited(e.key) then 0.0 else 1.0
  }

  /** The amount an entry adds to the tallies: nothing when its key is an inherited name. */
  function OwnAmount(e: Entry): real {
    if Inherited(e.key) then 0.0 else e.amount
  }

  /**
   * The tally counts add up to the number of entries with a key of their own and its
   * revenues to the total amount of those entries.
   */
  lemma {:induction false} TalliesAddUp(entries: seq<Entry>)
    ensures Sum(Tallies(entries), CountReal) == Sum(entries, OwnCount)
    ensures Sum(Tallies(entries), Revenue) == Sum(entries, OwnAmount)
    decreases |entries|
  {
    if |entries| > 0 {
      var front := entries[..|entries| - 1];
      var last := entries[|entries| - 1];
      var k := last.key;
      var old_ := Tallies(front);
      var t := Tallies(entries);
      TalliesAddUp(front);
      assert t == AddToTally(old_, k, last.amount);
      if !Inherited(k) {
        assert t == Bump(old_, k, last.amount);
        match FindTally(old_, k)
        case Some(i) =>
          var bumped := ClientTally(k, old_[i].count + 1, old_[i].revenue + last.amount);
          assert t == old_[i := bumped];
          SumUpdate(old_, i, bumped, CountReal);
          SumUpdate(old_, i, bumped, Revenue);
        case None =>
          var started := ClientTally(k, 1, last.amount);
          assert t == old_ + [started];
          assert t[..|old_|] == old_;
      }
    }
  }

  /** Every tally counts at least one entry. */
  lemma {:induction false} TalliesPositive(entries: seq<Entry>)
    ensures forall j | 0 <= j < |Tallies(entries)| :: Tallies(entries)[j].count > 0
    decreases |entries|
  {
    if |entries| > 0 {
      var front := entries[..|entries| - 1];
      var last := entries[|entries| - 1];
      var old_ := Tallies(front);
      TalliesPositive(front);
      var t := Tallies(entries);
      assert t == AddToTally(old_, last.key, last.amount);
      if !Inherited(last.key) {
        assert t == Bump(old_, last.key, last.amount);
        forall j | 0 <= j < |t| ensures t[j].count > 0 {
          if j < |old_| && (FindTally(old_, last.key).None? || FindTally(old_, last.key).value != j) {
            assert t[j] == old_[j];
          }
        }
      }
    }
  }

  lemma {:induction false} CountWithKeyPositive(entries: seq<Entry>, i: nat)
    requires i < |entries|
    ensures CountWithKey(entries, entries[i].key) > 0
    decreases |entries|
  {
    if i < |entries| - 1 {
      CountWithKeyPositive(entries[..|entries| - 1], i);
    }
  }

  lemma {:induction false} CountWithKeyWitness(entries: seq<Entry>, name: string)
    requires CountWithKey(entries, name) > 0
    ensures exists i | 0 <= i < |entries| :: entries[i].key == name
    decreases |entries|
  {
    var front := entries[..|entries| - 1];
    if entries[|entries| - 1].key != name {
      CountWithKeyWitness(front, name);
      var i :| 0 <= i < |front| && front[i].key == name;
      assert entries[i] == front[i];
    }
  }

  /** Whether an invoice's client gets a tally: its key is not an inherited property name. */
  predicate Listed(inv: ArchivedInvoice) {
    !Inherited(ClientKey(inv))
  }

  function ListedCount(inv: ArchivedInvoice): real {
    if Listed(inv) then 1.0 else 0.0
  }

  function ListedAmount(inv: ArchivedInvoice): real {
    if Listed(inv) then Amount(inv) else 0.0
  }

  function One(inv: ArchivedInvoice): real {
    1.0
  }

  /**
   * Each client's tally counts exactly that client's invoices and revenue, once per client,
   * and no tally is named after an inherited property.
   */
  lemma ClientTalliesExact(invoices: seq<ArchivedInvoice>)
    ensures var t := ClientTallies(invoices);
      && DistinctNames(t)
      && (forall j | 0 <= j < |t| :: !Inherited(t[j].name))
      && (forall j | 0 <= j < |t| ::
            t[j].count == CountWithKey(Entries(invoices), t[j].name)
            && t[j].revenue == RevenueWithKey(Entries(invoices), t[j].name))
  {
    TalliesExact(Entries(invoices));
  }

  /**
   * Every listed invoice's client has a tally, no other client has one, and every tally
   * belongs to some invoice's client.
   */
  lemma ClientTalliesCover(invoices: seq<ArchivedInvoice>)
    ensures var t := ClientTallies(invoices);
      && (forall i | 0 <= i < |invoices| :: FindTally(t, ClientKey(invoices[i])).Some? <==> Listed(invoices[i]))
      && (forall j | 0 <= j < |t| :: exists i | 0 <= i < |invoices| :: ClientKey(invoices[i]) == t[j].name)
  {
    var es := Entries(invoices);
    var t := Tallies(es);
    TalliesExact(es);
    TalliesPositive(es);
    forall i | 0 <= i < |invoices| ensures FindTally(t, ClientKey(invoices[i])).Some? <==> Listed(invoices[i]) {
      CountWithKeyPositive(es, i);
      if FindTally(t, ClientKey(invoices[i])).Some? {
        assert t[FindTally(t, ClientKey(invoices[i])).value].name == ClientKey(invoices[i]);
      }
    }
    forall j | 0 <= j < |t| ensures exists i | 0 <= i < |invoices| :: ClientKey(invoices[i]) == t[j].name {
      CountWithKeyWitness(es, t[j].name);
      var i :| 0 <= i < |es| && es[i].key == t[j].name;
      assert ClientKey(invoices[i]) == t[j].name;
    }
  }

  /**
   * The per-client counts add up to the number of listed invoices, the revenues to their
   * total; when no client is named after an inherited property, that is every invoice.
   */
  lemma ClientTalliesAddUp(invoices: seq<ArchivedInvoice>)
    ensures Sum(ClientTallies(invoices), CountReal) == |Filter(invoices, Listed)| as real
    ensures Sum(ClientTallies(invoices), Revenue) == Sum(Filter(invoices, Listed), Amount)
    ensures (forall i | 0 <= i < |invoices| :: Listed(invoices[i])) ==>
      Sum(ClientTallies(invoices), CountReal) == |invoices| as real
      && Sum(ClientTallies(invoices), Revenue) == Sum(invoices, Amount)
  {
    var es := Entries(invoices);
    TalliesAddUp(es);
    SumCongruent(es, OwnCount, invoices, ListedCount);
    SumCongruent(es, OwnAmount, invoices, ListedAmount);
    SumMasked(invoices, Listed, One, ListedCount);
    SumMasked(invoices, Listed, Amount, ListedAmount);
    SumOnes(Filter(invoices, Listed), One);
    if forall i | 0 <= i < |invoices| :: Listed(invoices[i]) {
      FilterAll(invoices, Listed);
    }
  }

  /** A client named after an inherited property never shows up in the tally. */
  lemma InheritedClientUnlisted(invoices: seq<ArchivedInvoice>, i: nat)
    requires i < |invoices| && Inherited(ClientKey(invoices[i]))
    ensures FindTally(ClientTallies(invoices), ClientKey(invoices[i])).None?
  {
    ClientTalliesCover(invoices);
  }

  function Min(a: int, b: int): int {
    if a <= b then a else b
  }

  const TopCount := 5

  /** `topClients`: the tallies ordered by count, busiest first, cut to five. */
  function TopClients(tallies: seq<ClientTally>): (r: seq<ClientTally>)
    ensures |r| == Min(TopCount, |tallies|)
    ensures SortedDesc(r, Count)
    ensures multiset(r) <= multiset(tallies)
    ensures forall t | t in tallies && t !in r :: forall i | 0 <= i < |r| :: t.count <= r[i].count
  {
    TopBy(tallies, TopCount, Count)
  }

  /** Every ranked tally is one of the tallies ranked. */
  lemma TopClientsFrom(tallies: seq<ClientTally>)
    ensures forall j | 0 <= j < |TopClients(tallies)| :: TopClients(tallies)[j] in tallies
  {
    var r := TopClients(tallies);
    forall j | 0 <= j < |r| ensures r[j] in tallies {
      assert r[j] in multiset(r);
    }
  }

  /** What the overview shows. */
  datatype Stats = Stats(
    totalInvoices: nat,
    totalRevenue: real,
    monthRevenue: real,
    weekRevenue: real,
    topClients: seq<ClientTally>)

  /** The figures gathered so far by the pass over the invoices. */
  datatype Running = Running(total: real, month: real, week: real, tallies: seq<ClientTally>)

  const NothingYet := Running(0.0, 0.0, 0.0, [])

  /** The body of the pass: what one invoice adds to each figure. */
  function Accumulate(acc: Running, inv: ArchivedInvoice, inMonth: ArchivedInvoice -> bool, inWeek: ArchivedInvoice -> bool)
    : (r: Running)
    ensures r.total == acc.total + Amount(inv)
    ensures r.month == acc.month + (if inMonth(inv) then Amount(inv) else 0.0)
    ensures r.week == acc.week + (if inWeek(inv) then Amount(inv) else 0.0)
  {
    Running(
      acc.total + Amount(inv),
      if inMonth(inv) then acc.month + Amount(inv) else acc.month,
      if inWeek(inv) then acc.week + Amount(inv) else acc.week,
      AddToTally(acc.tallies, ClientKey(inv), Amount(inv)))
  }

  /** The pass over a sequence of invoices, in order. */
  function RunningOf(invoices: seq<ArchivedInvoice>, inMonth: ArchivedInvoice -> bool, inWeek: ArchivedInvoice -> bool)
    : Running
  {
    if |invoices| == 0 then NothingYet
    else Accumulate(RunningOf(invoices[..|invoices| - 1], inMonth, inWeek), invoices[|invoices| - 1], inMonth, inWeek)
  }

  /** The pass computes the total and the in-period shares. */
  lemma {:induction false} RunningOfSums(invoices: seq<ArchivedInvoice>, inMonth: ArchivedInvoice -> bool, inWeek: ArchivedInvoice -> bool)
    ensures var r := RunningOf(invoices, inMonth, inWeek);
      && r.total == Sum(invoices, Amount)
      && r.month == Sum(invoices, Share(inMonth))
      && r.week == Sum(invoices, Share(inWeek))
    decreases |invoices|
  {
    if |invoices| > 0 {
      var k := |invoices| - 1;
      RunningOfSums(invoices[..k], inMonth, inWeek);
    }
  }

  /** The pass builds the client tally. */
  lemma {:induction false} RunningOfTallies(invoices: seq<ArchivedInvoice>, inMonth: ArchivedInvoice -> bool, inWeek: ArchivedInvoice -> bool)
    ensures RunningOf(invoices, inMonth, inWeek).tallies == ClientTallies(invoices)
    decreases |invoices|
  {
    if |invoices| > 0 {
      var k := |invoices| - 1;
      RunningOfTallies(invoices[..k], inMonth, inWeek);
      var es := Entries(invoices);
      assert es[..k] == Entries(invoices[..k]);
      assert es[k] == EntryOf(invoices[k]);
      assert RunningOf(invoices, inMonth, inWeek).tallies
        == AddToTally(RunningOf(invoices[..k], inMonth, inWeek).tallies, ClientKey(invoices[k]), Amount(invoices[k]));
    }
  }

  /** Adding the in-period shares is summing the amounts of the invoices in the period. */
  lemma PeriodRevenue(invoices: seq<ArchivedInvoice>, inPeriod: ArchivedInvoice -> bool)
    ensures Sum(invoices, Share(inPeriod)) == Sum(Filter(invoices, inPeriod), Amount)
  {
    SumMasked(invoices, inPeriod, Amount, Share(inPeriod));
  }

  /** The `stats` computation: one pass over the invoices, then the ranking. */
  method ComputeStats(invoices: seq<ArchivedInvoice>, clock: Clock, parseDate: string -> Moment, fromInstant: nat -> Moment)
    returns (s: Stats)
    ensures s.totalInvoices == |invoices|
    ensures s.totalRevenue == Sum(invoices, Amount)
    ensures s.monthRevenue == Sum(Filter(invoices, InMonthTest(clock, parseDate, fromInstant)), Amount)
    ensures s.weekRevenue == Sum(Filter(invoices, InWeekTest(clock, parseDate, fromInstant)), Amount)
    ensures s.topClients == TopClients(ClientTallies(invoices))
    ensures forall j | 0 <= j < |s.topClients| :: !Inherited(s.topClients[j].name)
  {
    var inMonth := InMonthTest(clock, parseDate, fromInstant);
    var inWeek := InWeekTest(clock, parseDate, fromInstant);
    var acc := NothingYet;
    var k := 0;
    while k < |invoices|
      invariant 0 <= k <= |invoices|
      invariant acc == RunningOf(invoices[..k], inMonth, inWeek)
    {
      assert invoices[..k + 1][..k] == invoices[..k];
      acc := Accumulate(acc, invoices[k], inMonth, inWeek);
      k := k + 1;
    }
    assert invoices[..k] == invoices;
    RunningOfSums(invoices, inMonth, inWeek);
    RunningOfTallies(invoices, inMonth, inWeek);
    PeriodRevenue(invoices, inMonth);
    PeriodRevenue(invoices, inWeek);
    ClientTalliesExact(invoices);
    TopClientsFrom(ClientTallies(invoices));
    s := Stats(|invoices|, acc.total, acc.month, acc.week, TopClients(acc.tallies));
  }

}
