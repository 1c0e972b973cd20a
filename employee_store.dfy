/** The server actions on employees: the `employes` table, its append-only
    status history `historique_statuts`, and the `avances_salaires` table,
    held by one store updated in place. The database assigns employee ids
    (here a counter); each failure the code checks is a parameter, and the
    history insert, whose error the code never looks at, has its own. */
module EmployeeStore {
  import opened Wrappers
  import opened Seqs
  import opened Records
  import opened Sorting

  /** The columns of a new employee, without its id. */
  datatype EmployeeData = EmployeeData(
    prenom: string,
    nom: string,
    statut: string,
    salaireJour: Option<int>,
    dateSortie: Option<int>)

  /** A row of `historique_statuts`. */
  datatype HistoryRow = HistoryRow(employeId: Id, ancienStatut: Option<string>, nouveauStatut: string, raison: string)

  /** The argument of `changeEmployeeStatus`: `dateSortie` is `None` when the
      key is absent (`undefined`) and `Some(None)` when it is `null`. */
  datatype StatusChange = StatusChange(statut: string, dateSortie: Option<Option<int>>, raison: Option<string>)

  /** `{ success: true, data }` or `{ success: false, error }`. */
  datatype Outcome<T> = Succeeded(data: T) | Failed(error: string)

  const CreatedReason := "Employé créé"
  const DefaultReason := "Changement de statut"
  const CreateError := "Erreur lors de la création de l'employé"
  const StatusError := "Erreur lors du changement de statut"
  const DeleteError := "Erreur lors de la suppression de l'employé"
  const AdvanceError := "Erreur lors de l'ajout de l'avance"
  const AdvancesError := "Erreur lors de la récupération des avances"

  /** No two employees share an id. */
  predicate UniqueIds(employees: seq<Employee>)
  {
    forall i, j :: 0 <= i < j < |employees| ==> employees[i].id != employees[j].id
  }

  /** `updateData`: the status, and the exit date only when the caller sent
      that key. */
  function Updated(e: Employee, c: StatusChange): (r: Employee)
    ensures r.id == e.id && r.statut == c.statut
    ensures r.dateSortie == if c.dateSortie.Some? then c.dateSortie.value else e.dateSortie
    ensures r.prenom == e.prenom && r.nom == e.nom && r.salaireJour == e.salaireJour
  {
    e.(statut := c.statut, dateSortie := c.dateSortie.GetOr(e.dateSortie))
  }

  /** `update(updateData).eq('id', id)` over the table. */
  function UpdateEmployee(employees: seq<Employee>, id: Id, c: StatusChange): seq<Employee>
  {
    Map(employees, (e: Employee) => if e.id == id then Updated(e, c) else e)
  }

  /** An update changes no id, so ids stay unique and below the counter. */
  lemma UpdateKeepsIds(employees: seq<Employee>, id: Id, c: StatusChange, nextId: Id)
    requires UniqueIds(employees) && forall i :: 0 <= i < |employees| ==> employees[i].id < nextId
    ensures var r := UpdateEmployee(employees, id, c);
      |r| == |employees| && (forall i :: 0 <= i < |r| ==> r[i].id == employees[i].id)
      && UniqueIds(r) && forall i :: 0 <= i < |r| ==> r[i].id < nextId
  {
    var r := UpdateEmployee(employees, id, c);
    assert forall i :: 0 <= i < |r| ==> r[i].id == employees[i].id;
  }

  /** `currentEmployee?.statut || null`: the status read before the update;
      `null` for an unknown employee or an empty status. */
  function OldStatus(employees: seq<Employee>, id: Id): (r: Option<string>)
    ensures r.Some? ==> r.value != "" && exists i :: 0 <= i < |employees| && employees[i].id == id && employees[i].statut == r.value
    ensures (forall i :: 0 <= i < |employees| ==> employees[i].id != id) ==> r.None?
  {
    if employees == [] then None
    else if employees[0].id == id then (if employees[0].statut == "" then None else Some(employees[0].statut))
    else
      var r := OldStatus(employees[1..], id);
      assert r.Some? ==> exists i :: 0 <= i < |employees| && employees[i].id == id && employees[i].statut == r.value by {
        if r.Some? {
          var i :| 0 <= i < |employees[1..]| && employees[1..][i].id == id && employees[1..][i].statut == r.value;
          assert employees[i + 1] == employees[1..][i];
        }
      }
      r
  }

  /** The history row a status change appends. The first read of the old
      status has its error ignored: when it fails the old status is `null`. */
  function ChangeRow(employees: seq<Employee>, id: Id, c: StatusChange, readFails: bool): (h: HistoryRow)
    ensures h.employeId == id && h.nouveauStatut == c.statut
    ensures readFails ==> h.ancienStatut.None?
    ensures Missing(c.raison) ==> h.raison == DefaultReason
    ensures !Missing(c.raison) ==> h.raison == c.raison.value
  {
    HistoryRow(id, if readFails then None else OldStatus(employees, id), c.statut, TextParam(c.raison, DefaultReason))
  }

  /** `a.employe_id === employeeId` */
  function AdvanceOfEmployee(id: Id): Advance -> bool
  {
    (a: Advance) => a.employeId == id
  }

  /** `order('date_avance', { ascending: false })`. The database leaves the
      order of rows with the same date unspecified; the model keeps them in
      table order, which is one of the orders it may give, and
      `AdvancesOfEmployee` states nothing about that order. */
  function ByDateDesc(): Advance -> Rank
  {
    (a: Advance) => Rank(-a.dateAvance, 0)
  }

  /** The answer of `getSalaryAdvances`. */
  function AdvancesOf(advances: seq<Advance>, id: Id): seq<Advance>
  {
    SortByRank(Filter(advances, AdvanceOfEmployee(id)), ByDateDesc())
  }

  /** The advances returned are exactly that employee's, newest first. */
  lemma AdvancesOfEmployee(advances: seq<Advance>, id: Id)
    ensures var r := AdvancesOf(advances, id);
      multiset(r) == multiset(Filter(advances, AdvanceOfEmployee(id)))
      && (forall i :: 0 <= i < |r| ==> r[i].employeId == id)
      && (forall i :: 0 <= i < |advances| && advances[i].employeId == id ==> advances[i] in r)
      && forall i, j :: 0 <= i < j < |r| ==> r[i].dateAvance >= r[j].dateAvance
  {
    var f := Filter(advances, AdvanceOfEmployee(id));
    var r := AdvancesOf(advances, id);
    forall i | 0 <= i < |r|
      ensures r[i].employeId == id
    {
      assert r[i] in multiset(f);
    }
    forall i | 0 <= i < |advances| && advances[i].employeId == id
      ensures advances[i] in r
    {
      assert advances[i] in multiset(f);
    }
    forall i, j | 0 <= i < j < |r|
      ensures r[i].dateAvance >= r[j].dateAvance
    {
      assert RankLe(ByDateDesc()(r[i]), ByDateDesc()(r[j]));
    }
  }

  class Store {
    var employees: seq<Employee>
    var history: seq<HistoryRow>
    var advances: seq<Advance>
    /** The id the database gives the next employee. */
    var nextId: Id

    predicate Valid()
      reads this
    {
      UniqueIds(employees) && forall i :: 0 <= i < |employees| ==> employees[i].id < nextId
    }

    constructor ()
      ensures Valid() && employees == [] && history == [] && advances == []
    {
      employees, history, advances, nextId := [], [], [], 0;
    }

    /** `createEmployee(data)`: the employee row, then a history row with no
        old status and the reason `'Employé créé'`. */
    method CreateEmployee(data: EmployeeData, insertFails: bool, historyFails: bool)
      returns (r: Outcome<Employee>)
      requires Valid()
      modifies this
      ensures Valid()
      ensures advances == old(advances)
      ensures insertFails ==> (r == Failed(CreateError) && employees == old(employees) && history == old(history))
      ensures !insertFails ==>
        var e := Employee(old(nextId), data.prenom, data.nom, data.statut, data.salaireJour, data.dateSortie);
        r == Succeeded(e) && employees == old(employees) + [e]
        && history == old(history) + (if historyFails then [] else [HistoryRow(e.id, None, data.statut, CreatedReason)])
    {
      if insertFails {
        return Failed(CreateError);
      }
      var e := Employee(nextId, data.prenom, data.nom, data.statut, data.salaireJour, data.dateSortie);
      employees := employees + [e];
      nextId := nextId + 1;
      if !historyFails {
        history := history + [HistoryRow(e.id, None, data.statut, CreatedReason)];
      }
      r := Succeeded(e);
    }

    /** `changeEmployeeStatus(id, c)`: read the old status, update the row,
        append the history row. An unknown id makes `.single()` fail, like an
        update error, and then nothing is written. A failure of the first
        read (`readFails`) is not checked: the change goes on with no old
        status. */
    method ChangeEmployeeStatus(id: Id, c: StatusChange, readFails: bool, updateFails: bool, historyFails: bool)
      returns (r: Outcome<Employee>)
      requires Valid()
      modifies this
      ensures Valid()
      ensures advances == old(advances) && nextId == old(nextId)
      ensures r.Failed? <==> updateFails || forall i :: 0 <= i < |old(employees)| ==> old(employees)[i].id != id
      ensures r.Failed? ==> r.error == StatusError && employees == old(employees) && history == old(history)
      ensures r.Succeeded? ==>
        employees == UpdateEmployee(old(employees), id, c)
        && r.data.id == id && r.data in employees
        && history == old(history) + (if historyFails then [] else [ChangeRow(old(employees), id, c, readFails)])
    {
      var previous := if readFails then None else OldStatus(employees, id);
      var i := 0;
      while i < |employees| && employees[i].id != id
        invariant 0 <= i <= |employees|
        invariant forall j :: 0 <= j < i ==> employees[j].id != id
      {
        i := i + 1;
      }
      if updateFails || i == |employees| {
        return Failed(StatusError);
      }
      var updated := UpdateEmployee(employees, id, c);
      UpdateKeepsIds(employees, id, c, nextId);
      assert updated[i] == Updated(employees[i], c);
      employees := updated;
      if !historyFails {
        history := history + [HistoryRow(id, previous, c.statut, TextParam(c.raison, DefaultReason))];
      }
      r := Succeeded(employees[i]);
    }

    /** `deleteEmployee(id)`: removes the row with that id, if any. */
    method DeleteEmployee(id: Id, fails: bool) returns (r: Outcome<()>)
      requires Valid()
      modifies this
      ensures Valid()
      ensures history == old(history) && advances == old(advances) && nextId == old(nextId)
      ensures fails ==> r == Failed(DeleteError) && employees == old(employees)
      ensures !fails ==> r == Succeeded(()) && employees == Filter(old(employees), OtherThan(id))
    {
      if fails {
        return Failed(DeleteError);
      }
      employees := Filter(employees, OtherThan(id));
      FilterKeepsUniqueIds(old(employees), id, nextId);
      r := Succeeded(());
    }

    /** `addSalaryAdvance(employeeId, amount, date, description)`: a new
        advance, always pending. */
    method AddSalaryAdvance(employeeId: Id, amount: int, date: int, description: string, fails: bool)
      returns (r: Outcome<()>)
      requires Valid()
      modifies this
      ensures Valid()
      ensures employees == old(employees) && history == old(history) && nextId == old(nextId)
      ensures fails ==> r == Failed(AdvanceError) && advances == old(advances)
      ensures !fails ==> r == Succeeded(()) && advances == old(advances) + [Advance(employeeId, amount, date, description, Pending)]
    {
      if fails {
        return Failed(AdvanceError);
      }
      advances := advances + [Advance(employeeId, amount, date, description, Pending)];
      r := Succeeded(());
    }

    /** `getSalaryAdvances(employeeId)`. */
    method GetSalaryAdvances(employeeId: Id, fails: bool) returns (r: Outcome<seq<Advance>>)
      ensures fails ==> r == Failed(AdvancesError)
      ensures !fails ==> r == Succeeded(AdvancesOf(advances, employeeId))
    {
      if fails {
        return Failed(AdvancesError);
      }
      r := Succeeded(AdvancesOf(advances, employeeId));
    }
  }

  /** `e => e.id !== id`: the rows `delete().eq('id', id)` keeps. */
  function OtherThan(id: Id): Employee -> bool
  {
    (e: Employee) => e.id != id
  }

  /** Removing rows keeps ids unique and below the counter; the removed id is
      gone and every other row is kept. */
  lemma FilterKeepsUniqueIds(employees: seq<Employee>, id: Id, nextId: Id)
    requires UniqueIds(employees) && forall i :: 0 <= i < |employees| ==> employees[i].id < nextId
    ensures var r := Filter(employees, OtherThan(id));
      UniqueIds(r) && (forall i :: 0 <= i < |r| ==> r[i].id < nextId && r[i].id != id)
      && forall i :: 0 <= i < |employees| && employees[i].id != id ==> employees[i] in r
  {
    var r := Filter(employees, OtherThan(id));
    FilterKeepsUnique(employees, OtherThan(id));
    forall i | 0 <= i < |r|
      ensures r[i].id < nextId
    {
      var j :| 0 <= j < |employees| && employees[j] == r[i];
    }
  }

  /** Any filter of rows with unique ids has unique ids. */
  lemma {:induction false} FilterKeepsUnique(employees: seq<Employee>, p: Employee -> bool)
    requires UniqueIds(employees)
    ensures UniqueIds(Filter(employees, p))
    decreases |employees|
  {
    if employees != [] {
      var s' := employees[..|employees| - 1];
      var x := employees[|employees| - 1];
      FilterKeepsUnique(s', p);
      var r' := Filter(s', p);
      forall i | 0 <= i < |r'|
        ensures r'[i].id != x.id
      {
        var j :| 0 <= j < |s'| && s'[j] == r'[i];
        assert s'[j] == employees[j];
      }
      assert Filter(employees, p) == r' + (if p(x) then [x] else []);
    }
  }
}
