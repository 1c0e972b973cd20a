/** The salary-advance dialog of one employee: the list of that employee's
    advances, the total of the granted ones, the form that adds a new
    advance with its submit guard and reset, and the badge colour of each
    status. */
module SalaryAdvanceModal {
  import opened Wrappers
  import opened Seqs
  import opened Records
  import opened EmployeeStore

  /** `totalAdvances`: the amounts of the `Approuvée` and `Payée` advances. */
  function TotalAdvances(advances: seq<Advance>): int
  {
    SumOf(Filter(advances, Settled()), AdvanceAmount)
  }

  /** The granted total is the whole total less the advances still pending
      or refused (or with any other status). */
  lemma TotalIsGrantedPart(advances: seq<Advance>)
    ensures TotalAdvances(advances)
         == SumOf(advances, AdvanceAmount) - SumOf(Filter(advances, Negate(Settled())), AdvanceAmount)
  {
    SumOfSplit(advances, Settled(), AdvanceAmount);
  }

  /** An advance that is not granted never changes the total; a granted one
      adds its amount. */
  lemma TotalOfOneMore(advances: seq<Advance>, a: Advance)
    ensures TotalAdvances(advances + [a]) == TotalAdvances(advances) + (if IsSettled(a) then a.montant else 0)
  {
    assert (advances + [a])[..|advances|] == advances;
    var f := Filter(advances, Settled());
    if IsSettled(a) {
      assert Filter(advances + [a], Settled()) == f + [a];
      SumOfSnoc(f, a, AdvanceAmount);
    } else {
      assert Filter(advances + [a], Settled()) == f;
    }
  }

  /** `getStatusColor(status)` */
  function StatusColor(status: string): string
  {
    if status == Pending then "bg-yellow-100 text-yellow-800"
    else if status == Approved then "bg-green-100 text-green-800"
    else if status == Refused then "bg-red-100 text-red-800"
    else if status == Paid then "bg-blue-100 text-blue-800"
    else Grey
  }

  const Grey := "bg-gray-100 text-gray-800"

  /** The four statuses have four different colours, none of them grey, and
      every other status is grey. */
  lemma StatusColorsDistinct(status: string)
    ensures Distinct([StatusColor(Pending), StatusColor(Approved), StatusColor(Refused), StatusColor(Paid), Grey])
    ensures status != Pending && status != Approved && status != Refused && status != Paid
        <==> StatusColor(status) == Grey
  {
    var y, g, r, b := StatusColor(Pending), StatusColor(Approved), StatusColor(Refused), StatusColor(Paid);
    assert y[3] == 'y' && g[3] == 'g' && r[3] == 'r' && b[3] == 'b' && Grey[3] == 'g';
    assert g[5] == 'e' && Grey[5] == 'a';
    assert y != Grey && g != Grey && r != Grey && b != Grey;
  }

  /** `formData`; an empty field is `None`. */
  datatype AdvanceForm = AdvanceForm(montant: Option<int>, dateAvance: Option<int>, description: string)

  /** `{ montant: '', date_avance: today, description: '' }` */
  function EmptyForm(today: int): AdvanceForm
  {
    AdvanceForm(None, Some(today), "")
  }

  class AdvanceDialog {
    const employeeId: Id
    var form: AdvanceForm
    var advances: seq<Advance>

    constructor (employeeId: Id, today: int)
      ensures this.employeeId == employeeId && form == EmptyForm(today) && advances == []
    {
      this.employeeId := employeeId;
      form := EmptyForm(today);
      advances := [];
    }

    /** `fetchAdvances`: the employee's advances, when the read succeeds. */
    method FetchAdvances(store: Store, fails: bool)
      modifies this
      ensures form == old(form)
      ensures advances == if fails then old(advances) else AdvancesOf(store.advances, employeeId)
    {
      var r := store.GetSalaryAdvances(employeeId, fails);
      if r.Succeeded? {
        advances := r.data;
      }
    }

    /** `handleSubmit`: nothing without an amount or a date; otherwise add
        the advance and, when that succeeds, empty the form (the date back to
        today) and reload the list. A failed add keeps the form and the list.
        Employees, the status history and the id counter never change. */
    method HandleSubmit(store: Store, today: int, addFails: bool, fetchFails: bool)
      returns (added: bool)
      requires store.Valid()
      modifies this, store
      ensures store.Valid()
      ensures store.employees == old(store.employees) && store.history == old(store.history)
        && store.nextId == old(store.nextId)
      ensures added <==> old(form.montant.Some? && form.dateAvance.Some?) && !addFails
      ensures added ==> (form == EmptyForm(today)
        && store.advances == old(store.advances)
          + [Advance(employeeId, old(form.montant.value), old(form.dateAvance.value), old(form.description), Pending)]
        && advances == if fetchFails then old(advances) else AdvancesOf(store.advances, employeeId))
      ensures !added ==> form == old(form) && advances == old(advances) && store.advances == old(store.advances)
    {
      if form.montant.None? || form.dateAvance.None? {
        return false;
      }
      var r := store.AddSalaryAdvance(employeeId, form.montant.value, form.dateAvance.value, form.description, addFails);
      added := r.Succeeded?;
      if added {
        form := EmptyForm(today);
        FetchAdvances(store, fetchFails);
      }
    }
  }
}
