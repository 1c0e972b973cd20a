/** The daily attendance page: whether the selected day is locked, and the
    card each employee gets for it. Days are day numbers; `today` is the
    clock's day. */
module PointageManager {
  import opened Seqs
  import opened Records

  /** `isBefore(selected, startOfDay(today))` on day numbers. */
  predicate IsBefore(selected: int, today: int)
  {
    selected < today
  }

  /** `isToday(selected)` */
  predicate IsToday(selected: int, today: int)
  {
    selected == today
  }

  /** `isDateLocked()` */
  predicate IsDateLocked(selected: int, today: int)
  {
    IsBefore(selected, today) && !IsToday(selected, today)
  }

  /** Exactly the past is locked: never today, never a future day. */
  lemma LockedIffPast(selected: int, today: int)
    ensures IsDateLocked(selected, today) <==> selected < today
    ensures !IsDateLocked(today, today)
    ensures selected > today ==> !IsDateLocked(selected, today)
  {
  }

  /** The props of one `PointageCard`. */
  datatype Card = Card(employee: Employee, selectedDate: int, isLocked: bool)

  /** `employees.map(employee => <PointageCard … />)` */
  function Cards(employees: seq<Employee>, selected: int, today: int): (r: seq<Card>)
    ensures |r| == |employees|
    ensures forall i :: 0 <= i < |r| ==> r[i].employee == employees[i] && r[i].selectedDate == selected
    ensures forall i :: 0 <= i < |r| ==> (r[i].isLocked <==> selected < today)
  {
    Map(employees, (e: Employee) => Card(e, selected, IsDateLocked(selected, today)))
  }

  /** All cards of one page carry the same lock flag. */
  lemma OneFlagForAll(employees: seq<Employee>, selected: int, today: int)
    ensures forall i, j :: 0 <= i < j < |employees| ==>
      Cards(employees, selected, today)[i].isLocked == Cards(employees, selected, today)[j].isLocked
  {
  }
}
