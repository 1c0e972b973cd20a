/** The ranking shared by the employee-of-the-week and employee-of-the-month
    statistics: the fetched present-day rows are grouped by employee in a
    dictionary (`employeeAttendance`), the entries are sorted by present days
    and then by realised amount, both descending, and the head of the sorted
    list is the winner, its first five entries the top employees. */
module PresenceRanking {
  import opened Wrappers
  import opened Seqs
  import opened Records
  import opened Grouping
  import opened Sorting

  /** One entry of `employeeAttendance`. */
  datatype Attendance = Attendance(
    employeId: Id,
    employe: Option<EmployeeRef>,
    presentDays: int,
    totalAmount: int)

  datatype Ranking = Ranking(
    winner: Option<Attendance>,
    top: seq<Attendance>,
    totalEmployees: int,
    totalPresentDays: int,
    averagePresentDays: real)

  /** The entry of employee `id` once every row is counted: the employee
      embedded in their first row, one present day per row, and the sum of
      the realised amounts. */
  function EntrySpec(rows: seq<JoinedPointage>, id: Id): Attendance
  {
    var f := Filter(rows, InGroup(RowKey(), id));
    Attendance(id, if f == [] then None else f[0].employe, |f|, SumOf(f, RowAmount()))
  }

  /** `id => employeeAttendance[id]` */
  function EntryOf(rows: seq<JoinedPointage>): Id -> Attendance
  {
    id => EntrySpec(rows, id)
  }

  /** The increments of one row. */
  function Bump(a: Attendance, p: JoinedPointage): Attendance
  {
    a.(presentDays := a.presentDays + 1, totalAmount := a.totalAmount + Amount(p.row))
  }

  /** One more row changes its own employee's entry only. */
  lemma EntrySpecSnoc(rows: seq<JoinedPointage>, p: JoinedPointage, id: Id)
    ensures EntrySpec(rows + [p], id) ==
      if p.row.employeId != id then EntrySpec(rows, id)
      else if EntrySpec(rows, id).presentDays == 0 then Bump(Attendance(id, p.employe, 0, 0), p)
      else Bump(EntrySpec(rows, id), p)
  {
    var f := Filter(rows, InGroup(RowKey(), id));
    assert (rows + [p])[..|rows|] == rows;
    if p.row.employeId == id {
      assert Filter(rows + [p], InGroup(RowKey(), id)) == f + [p];
      SumOfSnoc(f, p, RowAmount());
    } else {
      assert Filter(rows + [p], InGroup(RowKey(), id)) == f;
    }
  }

  /** A JavaScript object used as a dictionary: its keys in insertion order
      and the value of each. */
  datatype Dict = Dict(keys: seq<Id>, entries: map<Id, Attendance>)

  /** `employeeAttendance` after the `forEach` over `rows`: a row of an
      employee not seen yet creates their entry, with the employee embedded
      in that row, at the end of the key order; then the row's increments
      are applied. */
  function Tally(rows: seq<JoinedPointage>): Dict
  {
    if rows == [] then Dict([], map[])
    else
      var d := Tally(rows[..|rows| - 1]);
      var p := rows[|rows| - 1];
      var id := p.row.employeId;
      if id in d.entries then Dict(d.keys, d.entries[id := Bump(d.entries[id], p)])
      else Dict(d.keys + [id], d.entries[id := Bump(Attendance(id, p.employe, 0, 0), p)])
  }

  /** Every key has an entry and every entry a key. */
  lemma {:induction false} TallyDomain(rows: seq<JoinedPointage>)
    ensures forall k :: k in Tally(rows).entries <==> k in Tally(rows).keys
    decreases |rows|
  {
    if rows != [] {
      TallyDomain(rows[..|rows| - 1]);
    }
  }

  /** The keys were added in order of the employees' first appearance;
      `OwnKeys` gives the order in which they are enumerated. */
  lemma {:induction false} TallyKeys(rows: seq<JoinedPointage>)
    ensures Tally(rows).keys == GroupKeys(rows, RowKey())
    decreases |rows|
  {
    if rows != [] {
      var rows' := rows[..|rows| - 1];
      var p := rows[|rows| - 1];
      TallyKeys(rows');
      TallyDomain(rows');
      var d := Tally(rows');
      assert Tally(rows).keys
          == if p.row.employeId in d.entries then d.keys else d.keys + [p.row.employeId];
      assert rows == rows' + [p];
      GroupKeysSnoc(rows', p, RowKey());
    }
  }

  /** An employee has an entry exactly when they have a row, and their
      entry is their `EntrySpec`. */
  lemma {:induction false} TallyAt(rows: seq<JoinedPointage>, k: Id)
    ensures k in Tally(rows).entries <==> EntrySpec(rows, k).presentDays > 0
    ensures k in Tally(rows).entries ==> Tally(rows).entries[k] == EntrySpec(rows, k)
    decreases |rows|
  {
    if rows != [] {
      var rows' := rows[..|rows| - 1];
      var p := rows[|rows| - 1];
      TallyAt(rows', k);
      assert rows == rows' + [p];
      EntrySpecSnoc(rows', p, k);
    }
  }

  /** The `forEach` that fills `employeeAttendance`. */
  method TallyAttendance(rows: seq<JoinedPointage>) returns (d: Dict)
    ensures d == Tally(rows)
  {
    var keys: seq<Id>, entries: map<Id, Attendance> := [], map[];
    var i := 0;
    while i < |rows|
      invariant 0 <= i <= |rows|
      invariant Dict(keys, entries) == Tally(rows[..i])
    {
      var p := rows[i];
      var id := p.row.employeId;
      assert rows[..i + 1][..i] == rows[..i];
      if id !in entries {
        entries := entries[id := Attendance(id, p.employe, 0, 0)];
        keys := keys + [id];
      }
      var a := entries[id];
      a := a.(presentDays := a.presentDays + 1);
      a := a.(totalAmount := a.totalAmount + Amount(p.row));
      entries := entries[id := a];
      i := i + 1;
    }
    assert rows[..i] == rows;
    d := Dict(keys, entries);
  }

  /** The comparator: more present days first, then the larger amount. */
  function ByPresence(): Attendance -> Rank
  {
    (a: Attendance) => Rank(-a.presentDays, -a.totalAmount)
  }

  /** The largest array index, 2^32 - 2. */
  const MaxArrayIndex := 0xFFFF_FFFE

  /** An id whose property key JavaScript treats as an array index. */
  predicate IsArrayIndex(k: Id)
  {
    0 <= k <= MaxArrayIndex
  }

  /** The order in which an object enumerates its own keys: the array
      indices first, in ascending numeric order, then the other keys in the
      order they were added. */
  function KeyOrder(): Id -> Rank
  {
    (k: Id) => if IsArrayIndex(k) then Rank(0, k) else Rank(1, 0)
  }

  /** `Object.keys` of an object whose keys were added in the order `keys`. */
  function OwnKeys(keys: seq<Id>): (r: seq<Id>)
    ensures |r| == |keys| && multiset(r) == multiset(keys)
  {
    SortByRank(keys, KeyOrder())
  }

  /** In a list without repeats sorted by `KeyOrder`, an array index comes
      after array indices only, and after smaller ones. */
  lemma IndicesAscend(r: seq<Id>)
    requires Distinct(r) && SortedByRank(r, KeyOrder())
    ensures forall i, j :: 0 <= i < j < |r| && IsArrayIndex(r[j]) ==> IsArrayIndex(r[i]) && r[i] < r[j]
  {
    forall i, j | 0 <= i < j < |r| && IsArrayIndex(r[j])
      ensures IsArrayIndex(r[i]) && r[i] < r[j]
    {
      assert RankLe(KeyOrder()(r[i]), KeyOrder()(r[j]));
      assert KeyOrder()(r[j]) == Rank(0, r[j]);
    }
  }

  /** The enumeration order: every key once; an array index comes after
      array indices only, and after smaller ones; the other keys keep their
      insertion order. */
  lemma OwnKeysOrder(keys: seq<Id>)
    requires Distinct(keys)
    ensures Distinct(OwnKeys(keys))
    ensures forall i, j :: 0 <= i < j < |OwnKeys(keys)| && IsArrayIndex(OwnKeys(keys)[j]) ==>
      IsArrayIndex(OwnKeys(keys)[i]) && OwnKeys(keys)[i] < OwnKeys(keys)[j]
    ensures WithRank(OwnKeys(keys), KeyOrder(), Rank(1, 0)) == WithRank(keys, KeyOrder(), Rank(1, 0))
  {
    var r := OwnKeys(keys);
    DistinctPermutation(keys, r);
    SortIsStable(keys, KeyOrder(), Rank(1, 0));
    IndicesAscend(r);
  }

  /** Employee 5 seen before employee 2 is enumerated after it. */
  lemma SmallerIdFirst()
    ensures OwnKeys([5, 2]) == [2, 5]
  {
    assert [5, 2][1..] == [2];
    assert SortByRank([2], KeyOrder()) == [2];
  }

  /** `Object.values(employeeAttendance)` */
  function Entries(rows: seq<JoinedPointage>): seq<Attendance>
  {
    Map(OwnKeys(GroupKeys(rows, RowKey())), EntryOf(rows))
  }

  /** An entry's place in the enumeration order: that of its id. */
  function IdOrder(): Attendance -> Rank
  {
    (a: Attendance) => KeyOrder()(a.employeId)
  }

  /** The entries come in the enumeration order of their ids, one per
      employee. */
  lemma EntriesInKeyOrder(rows: seq<JoinedPointage>)
    ensures SortedByRank(Entries(rows), IdOrder())
    ensures Distinct(Entries(rows))
  {
    var ks := OwnKeys(GroupKeys(rows, RowKey()));
    var e := Entries(rows);
    OwnKeysOrder(GroupKeys(rows, RowKey()));
    assert forall i :: 0 <= i < |e| ==> e[i].employeId == ks[i];
    forall i, j | 0 <= i < j < |e|
      ensures RankLe(IdOrder()(e[i]), IdOrder()(e[j])) && e[i] != e[j]
    {
      assert RankLe(KeyOrder()(ks[i]), KeyOrder()(ks[j]));
    }
  }

  /** `sortedEmployees` */
  function SortedEntries(rows: seq<JoinedPointage>): seq<Attendance>
  {
    SortByRank(Entries(rows), ByPresence())
  }

  /** `emp => emp.presentDays` */
  function PresentDaysOf(): Attendance -> int
  {
    (a: Attendance) => a.presentDays
  }

  /** The present days of the entries add up to the number of rows. */
  lemma TotalPresentDays(rows: seq<JoinedPointage>)
    ensures SumOf(Entries(rows), PresentDaysOf()) == |rows|
  {
    var keys := GroupKeys(rows, RowKey());
    var ks := OwnKeys(keys);
    forall i | 0 <= i < |ks|
      ensures PresentDaysOf()(Entries(rows)[i]) == GroupSum(rows, RowKey(), One())(ks[i])
    {
      CountIsSumOfOnes(Filter(rows, InGroup(RowKey(), ks[i])));
    }
    SumOfPointwise(Entries(rows), PresentDaysOf(), ks, GroupSum(rows, RowKey(), One()));
    SumOfPermutation(ks, keys, GroupSum(rows, RowKey(), One()));
    SumOfGroups(rows, RowKey(), One());
    CountIsSumOfOnes(rows);
  }

  /** `Object.values(employeeAttendance)`: the entries in the enumeration
      order of their keys. */
  function Values(d: Dict): (r: seq<Attendance>)
    requires forall k :: k in d.keys ==> k in d.entries
    ensures |r| == |d.keys|
  {
    var ks := OwnKeys(d.keys);
    seq(|ks|, i requires 0 <= i < |ks| =>
      var k := ks[i]; assert k in multiset(ks); assert k in d.keys; d.entries[k])
  }

  /** The values of the tally are the entries. */
  lemma ValuesAreEntries(rows: seq<JoinedPointage>)
    ensures forall k :: k in Tally(rows).keys ==> k in Tally(rows).entries
    ensures Values(Tally(rows)) == Entries(rows)
  {
    var d := Tally(rows);
    TallyDomain(rows);
    TallyKeys(rows);
    var ks := OwnKeys(d.keys);
    forall i | 0 <= i < |ks|
      ensures Values(d)[i] == EntrySpec(rows, ks[i])
    {
      assert ks[i] in multiset(d.keys);
      TallyAt(rows, ks[i]);
    }
  }

  /** The statistics part of the route: the sorted entries' head and first
      five, the number of employees, and their present days in total and on
      average (0 with no employee). */
  method RankAttendance(rows: seq<JoinedPointage>) returns (r: Ranking)
    ensures r.winner == if SortedEntries(rows) == [] then None else Some(SortedEntries(rows)[0])
    ensures r.top == Take(SortedEntries(rows), 5)
    ensures r.totalEmployees == |GroupKeys(rows, RowKey())|
    ensures r.totalPresentDays == |rows|
    ensures r.averagePresentDays ==
      if r.totalEmployees > 0 then (|rows| as real) / (r.totalEmployees as real) else 0.0
  {
    var d := TallyAttendance(rows);
    TallyDomain(rows);
    var values := Values(d);
    ValuesAreEntries(rows);
    var sorted := SortByRank(values, ByPresence());
    var winner := if |sorted| > 0 then Some(sorted[0]) else None;
    var totalEmployees := |d.keys|;
    var totalPresentDays := SumOf(values, PresentDaysOf());
    TotalPresentDays(rows);
    var average := if totalEmployees > 0 then (totalPresentDays as real) / (totalEmployees as real) else 0.0;
    r := Ranking(winner, Take(sorted, 5), totalEmployees, totalPresentDays, average);
  }

  /** Each employee's entry is in the sorted list. */
  lemma EntriesAreSorted(rows: seq<JoinedPointage>, id: Id)
    requires id in GroupKeys(rows, RowKey())
    ensures EntrySpec(rows, id) in SortedEntries(rows)
  {
    var keys := OwnKeys(GroupKeys(rows, RowKey()));
    assert id in multiset(keys);
    var i :| 0 <= i < |keys| && keys[i] == id;
    assert Entries(rows)[i] in multiset(Entries(rows));
    assert EntrySpec(rows, id) in multiset(SortedEntries(rows));
  }

  /** Each sorted entry is the entry of one of the employees. */
  lemma SortedAreEntries(rows: seq<JoinedPointage>, i: int)
    requires 0 <= i < |SortedEntries(rows)|
    ensures var a := SortedEntries(rows)[i];
      a.employeId in GroupKeys(rows, RowKey()) && a == EntrySpec(rows, a.employeId)
  {
    var e := Entries(rows);
    var keys := OwnKeys(GroupKeys(rows, RowKey()));
    var a := SortedEntries(rows)[i];
    assert a in e by {
      assert a in multiset(SortedEntries(rows));
    }
    var j :| 0 <= j < |e| && e[j] == a;
    assert a == EntrySpec(rows, keys[j]);
    assert keys[j] in multiset(GroupKeys(rows, RowKey()));
  }

  /** There is a winner exactly when some row was fetched, and no employee
      outranks it: none has more present days, and none with as many has a
      larger amount. */
  lemma WinnerOutranksAll(rows: seq<JoinedPointage>)
    ensures SortedEntries(rows) != [] <==> rows != []
    ensures SortedEntries(rows) != [] ==>
      var w := SortedEntries(rows)[0];
      forall id :: id in GroupKeys(rows, RowKey()) ==>
        EntrySpec(rows, id).presentDays < w.presentDays ||
        (EntrySpec(rows, id).presentDays == w.presentDays && EntrySpec(rows, id).totalAmount <= w.totalAmount)
  {
    var s := SortedEntries(rows);
    var keys := GroupKeys(rows, RowKey());
    if rows != [] {
      assert rows[0].row.employeId in keys;
    }
    if s != [] {
      forall id | id in keys
        ensures RankLe(ByPresence()(s[0]), ByPresence()(EntrySpec(rows, id)))
      {
        EntriesAreSorted(rows, id);
        HeadRanksFirst(s, ByPresence(), EntrySpec(rows, id));
      }
    }
  }

  /** An employee left out of the top five ranks no higher than the last of
      them. */
  lemma TopFiveOutrankTheRest(rows: seq<JoinedPointage>)
    ensures var top := Take(SortedEntries(rows), 5);
      forall id :: id in GroupKeys(rows, RowKey()) && EntrySpec(rows, id) !in top ==>
        |top| == 5 && RankLe(ByPresence()(top[4]), ByPresence()(EntrySpec(rows, id)))
  {
    var s := SortedEntries(rows);
    var top := Take(s, 5);
    forall id | id in GroupKeys(rows, RowKey()) && EntrySpec(rows, id) !in top
      ensures |top| == 5 && RankLe(ByPresence()(top[4]), ByPresence()(EntrySpec(rows, id)))
    {
      EntriesAreSorted(rows, id);
      OutsidePrefixRanksAfter(s, ByPresence(), 5, EntrySpec(rows, id));
    }
  }

  /** Entries tied on both keys keep the enumeration order of their ids
      (the sort is stable). */
  lemma TiesKeepKeyOrder(rows: seq<JoinedPointage>, k: Rank)
    ensures WithRank(SortedEntries(rows), ByPresence(), k) == WithRank(Entries(rows), ByPresence(), k)
  {
    SortIsStable(Entries(rows), ByPresence(), k);
  }

  /** No two sorted entries share an id. */
  lemma SortedIdsDistinct(rows: seq<JoinedPointage>)
    ensures var s := SortedEntries(rows);
      forall i, j :: 0 <= i < j < |s| ==> s[i].employeId != s[j].employeId
  {
    var s := SortedEntries(rows);
    EntriesInKeyOrder(rows);
    DistinctPermutation(Entries(rows), s);
    forall i, j | 0 <= i < j < |s|
      ensures s[i].employeId != s[j].employeId
    {
      SortedAreEntries(rows, i);
      SortedAreEntries(rows, j);
    }
  }

  /** With ties in id order and no id twice, tied array-index ids ascend. */
  lemma TiedIdsAscend(s: seq<Attendance>)
    requires TiesInOrder(s, ByPresence(), IdOrder())
    requires forall i, j :: 0 <= i < j < |s| ==> s[i].employeId != s[j].employeId
    ensures forall i, j :: 0 <= i < j < |s| && ByPresence()(s[i]) == ByPresence()(s[j]) && IsArrayIndex(s[j].employeId) ==>
      IsArrayIndex(s[i].employeId) && s[i].employeId < s[j].employeId
  {
    forall i, j | 0 <= i < j < |s| && ByPresence()(s[i]) == ByPresence()(s[j]) && IsArrayIndex(s[j].employeId)
      ensures IsArrayIndex(s[i].employeId) && s[i].employeId < s[j].employeId
    {
      assert IdOrder()(s[i]) == KeyOrder()(s[i].employeId);
      assert IdOrder()(s[j]) == KeyOrder()(s[j].employeId) == Rank(0, s[j].employeId);
      assert RankLe(IdOrder()(s[i]), IdOrder()(s[j]));
    }
  }

  /** Of two employees with as many present days and as large an amount,
      the one with the smaller id ranks first, whatever the order of their
      rows. */
  lemma TiesByAscendingId(rows: seq<JoinedPointage>)
    ensures var s := SortedEntries(rows);
      forall i, j :: 0 <= i < j < |s| && ByPresence()(s[i]) == ByPresence()(s[j]) && IsArrayIndex(s[j].employeId) ==>
        IsArrayIndex(s[i].employeId) && s[i].employeId < s[j].employeId
  {
    EntriesInKeyOrder(rows);
    SortKeepsTieOrder(Entries(rows), ByPresence(), IdOrder());
    SortedIdsDistinct(rows);
    TiedIdsAscend(SortedEntries(rows));
  }
}
