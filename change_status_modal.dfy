/** The status-change dialog: its form state, the `updateData` its submit
    handler builds (the exit-date rule) and the reset after a successful
    change. The dialog's `employee` is the row it was opened with. */
module ChangeStatusModal {
  import opened Wrappers
  import opened Records
  import opened EmployeeStore

  /** `formData`; an empty exit-date field is `None`. */
  datatype StatusForm = StatusForm(statut: string, dateSortie: Option<int>, raison: string)

  /** What `handleChange(field, value)` sets. */
  datatype FieldValue = StatutValue(statut: string) | DateSortieValue(date: Option<int>) | RaisonValue(raison: string)

  /** `{ statut: employee.statut, date_sortie: employee.date_sortie || '', raison: '' }` */
  function InitialForm(e: Employee): StatusForm
  {
    StatusForm(e.statut, e.dateSortie, "")
  }

  /** `setFormData(prev => ({ ...prev, [field]: value }))` */
  function Changed(f: StatusForm, v: FieldValue): (r: StatusForm)
    ensures v.StatutValue? ==> r.statut == v.statut && r.dateSortie == f.dateSortie && r.raison == f.raison
    ensures v.DateSortieValue? ==> r.dateSortie == v.date && r.statut == f.statut && r.raison == f.raison
    ensures v.RaisonValue? ==> r.raison == v.raison && r.statut == f.statut && r.dateSortie == f.dateSortie
  {
    match v
    case StatutValue(s) => f.(statut := s)
    case DateSortieValue(d) => f.(dateSortie := d)
    case RaisonValue(s) => f.(raison := s)
  }

  /** `updateData` for employee `e`, form `f` and the day `today`: the chosen
      status and reason always; for `'Renvoyé'` the entered exit date or
      today; for another status a `null` exit date when the employee has
      one, and no exit-date key otherwise. */
  function UpdateData(e: Employee, f: StatusForm, today: int): (c: StatusChange)
    ensures c.statut == f.statut && c.raison == Some(f.raison)
    ensures f.statut == Dismissed ==> c.dateSortie == Some(Some(f.dateSortie.GetOr(today)))
    ensures f.statut != Dismissed && e.dateSortie.Some? ==> c.dateSortie == Some(None)
    ensures f.statut != Dismissed && e.dateSortie.None? ==> c.dateSortie.None?
  {
    var exit :=
      if f.statut == Dismissed then Some(Some(f.dateSortie.GetOr(today)))
      else if e.dateSortie.Some? then Some(None)
      else None;
    StatusChange(f.statut, exit, Some(f.raison))
  }

  /** After a change made through the dialog, a dismissed employee has an
      exit date (the one entered, or today) and any other has none; the
      history records the reason typed, or the default one when it was left
      empty. */
  lemma ExitDateRule(e: Employee, f: StatusForm, today: int, employees: seq<Employee>, readFails: bool)
    ensures var c := UpdateData(e, f, today);
      Updated(e, c).statut == f.statut
      && Updated(e, c).dateSortie == (if f.statut == Dismissed then Some(f.dateSortie.GetOr(today)) else None)
      && ChangeRow(employees, e.id, c, readFails).raison == (if f.raison == "" then DefaultReason else f.raison)
  {
  }

  class StatusDialog {
    const employee: Employee
    var form: StatusForm

    constructor (employee: Employee)
      ensures this.employee == employee && form == InitialForm(employee)
    {
      this.employee := employee;
      form := InitialForm(employee);
    }

    /** `handleChange(field, value)` */
    method HandleChange(v: FieldValue)
      modifies this
      ensures form == Changed(old(form), v)
    {
      form := Changed(form, v);
    }

    /** `handleSubmit`: send `updateData` to `changeEmployeeStatus`; on
        success reset the form to the employee's status and exit date with
        an empty reason, on failure keep it. The action succeeds exactly
        when its update succeeds on a row that exists, and then appends the
        history row unless that insert fails; advances and ids never
        change. */
    method HandleSubmit(store: Store, today: int, readFails: bool, updateFails: bool, historyFails: bool)
      returns (ok: bool)
      requires store.Valid()
      modifies this, store
      ensures store.Valid()
      ensures ok <==> !updateFails && exists i :: 0 <= i < |old(store.employees)| && old(store.employees)[i].id == employee.id
      ensures store.advances == old(store.advances) && store.nextId == old(store.nextId)
      ensures ok ==>
        var c := UpdateData(employee, old(form), today);
        form == InitialForm(employee) &&
        store.employees == UpdateEmployee(old(store.employees), employee.id, c) &&
        store.history == old(store.history) +
          (if historyFails then [] else [ChangeRow(old(store.employees), employee.id, c, readFails)])
      ensures !ok ==> form == old(form) && store.employees == old(store.employees) && store.history == old(store.history)
    {
      var c := UpdateData(employee, form, today);
      var r := store.ChangeEmployeeStatus(employee.id, c, readFails, updateFails, historyFails);
      ok := r.Succeeded?;
      if ok {
        form := InitialForm(employee);
      }
    }
  }
}
