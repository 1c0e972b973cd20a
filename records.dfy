/** The rows of the four tables the dashboard reads and writes — `employes`,
    `pointages` (one attendance record per employee and day),
    `avances_salaires` (salary advances) and `revenus` (daily revenue) — and
    the status values the code compares them with. Amounts are integers
    (millimes), dates are day numbers (see `Calendar`), ids are
    integers, and a nullable column is an `Option`. */
module Records {
  import opened Wrappers

  type Id = int

  // Day statuses of an attendance row (`statut_jour`).
  const Present := "Présent"
  const Absent := "Absent"
  const Rest := "Repos"

  // Statuses of a salary advance (`statut`).
  const Pending := "En attente"
  const Approved := "Approuvée"
  const Refused := "Refusée"
  const Paid := "Payée"

  // Statuses of an employee (`statut`).
  const Active := "Actif"
  const Dismissed := "Renvoyé"

  datatype Employee = Employee(
    id: Id,
    prenom: string,
    nom: string,
    statut: string,
    salaireJour: Option<int>,
    dateSortie: Option<int>)

  datatype Pointage = Pointage(
    employeId: Id,
    date: int,
    statutJour: string,
    service: string,
    montantRealise: Option<int>,
    paye: bool,
    datePaiement: Option<int>)

  /** The `employes (…)` resource embedded in a joined attendance row; `None`
      when no employee row is joined. */
  datatype EmployeeRef = EmployeeRef(prenom: string, nom: string, salaireJour: Option<int>)

  /** An attendance row selected with its employee embedded. */
  datatype JoinedPointage = JoinedPointage(row: Pointage, employe: Option<EmployeeRef>)

  datatype Advance = Advance(
    employeId: Id,
    montant: int,
    dateAvance: int,
    description: string,
    statut: string)

  datatype Revenue = Revenue(date: int, montantJour: int)

  /** The JSON answer of an API route: the body, or an HTTP error status
      with its message. */
  datatype ApiResult<T> = Ok(body: T) | Fail(status: int, error: string)

  /** What one query of a route gives: its data, or an error, which the
      route throws into its `catch` and answers with 500. A `.single()`
      lookup that finds no row is an error as well. */
  datatype Query<T> = Answered(value: T) | QueryFailed

  /** A date parameter as `new Date(str)` reads it: absent or empty, so that
      `!str` holds (`NoDate`); a day (`OnDay`); or a string it cannot read,
      which gives an Invalid Date on which date-fns `format` throws
      (`BadDate`). */
  datatype DateParam = NoDate | OnDay(day: int) | BadDate

  /** `!param` for a query parameter: absent or empty. */
  predicate Missing(param: Option<string>)
  {
    param.None? || param.value == ""
  }

  /** `montant_realise || 0` */
  function Amount(p: Pointage): int
  {
    OrZero(p.montantRealise)
  }

  /** `a.montant` */
  function AdvanceAmount(a: Advance): int
  {
    a.montant
  }

  /** An advance that has been granted: `Approuvée` or `Payée`. */
  predicate IsSettled(a: Advance)
  {
    a.statut == Approved || a.statut == Paid
  }

  /** `p => p.statut_jour === st` */
  function DayStatusIs(st: string): Pointage -> bool
  {
    (p: Pointage) => p.statutJour == st
  }

  /** `p => p.employe_id === id` */
  function RowOf(id: Id): Pointage -> bool
  {
    (p: Pointage) => p.employeId == id
  }

  /** `a => a.employe_id === id` */
  function AdvanceOf(id: Id): Advance -> bool
  {
    (a: Advance) => a.employeId == id
  }

  /** `a => a.statut === st` */
  function AdvanceStatusIs(st: string): Advance -> bool
  {
    (a: Advance) => a.statut == st
  }

  /** `a => a.statut === 'Approuvée' || a.statut === 'Payée'` */
  function Settled(): Advance -> bool
  {
    (a: Advance) => IsSettled(a)
  }

  /** `p => p.employe_id` on a joined row */
  function RowKey(): JoinedPointage -> Id
  {
    (p: JoinedPointage) => p.row.employeId
  }

  /** `p => p.montant_realise || 0` on a joined row */
  function RowAmount(): JoinedPointage -> int
  {
    (p: JoinedPointage) => Amount(p.row)
  }

  /** `p => p.employes?.salaire_jour || 0`: the daily wage of the joined
      employee, 0 when there is none or it is not set. */
  function RowWage(): JoinedPointage -> int
  {
    (p: JoinedPointage) => if p.employe.Some? then OrZero(p.employe.value.salaireJour) else 0
  }

  /** `searchParams.get(name) || fallback` */
  function TextParam(param: Option<string>, fallback: string): (r: string)
    ensures Missing(param) ==> r == fallback
    ensures !Missing(param) ==> r == param.value
  {
    if Missing(param) then fallback else param.value
  }
}
