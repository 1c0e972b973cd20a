/** The `pointages` table as a store updated in place by its two writers:
    the mark-paid route, which sets the paid flag on a week of rows of the
    chosen employees, and the `savePointage` action, an upsert keyed on the
    pair (`employe_id`, `date`). A database failure is a parameter: when it
    is set the table is left as it was and the error answer is returned. */
module PointageStore {
  import opened Wrappers
  import opened Seqs
  import opened Records
  import opened Calendar

  // ---------------------------------------------------------------- mark paid

  /** The `employeeIds` field of the request body: an array, or any other
      value (absent, `null`, a string, an object). */
  datatype IdsField = IdArray(ids: seq<Id>) | NotAnArray

  /** The answer of the route: the success message, or an HTTP error. */
  datatype MarkPaidResponse = MarkedPaid(message: string) | MarkPaidError(status: int, error: string)

  const MarkedMessage := "Semaine marquée comme payée avec succès"
  const InvalidParams := "Paramètres manquants ou invalides"
  const MarkFailed := "Erreur lors du marquage de la semaine comme payée"

  /** The rows the update selects: one of the employees, dated from
      `weekStart` to the Sunday of its week, both included. */
  predicate InPaidWeek(p: Pointage, ids: seq<Id>, weekStart: int)
  {
    p.employeId in ids && weekStart <= p.date <= WeekEnd(weekStart)
  }

  /** `update({ paye: true, date_paiement: now })` on one row. */
  function MarkRow(ids: seq<Id>, weekStart: int, now: int): Pointage -> Pointage
  {
    (p: Pointage) =>
      if InPaidWeek(p, ids, weekStart) then p.(paye := true, datePaiement := Some(now)) else p
  }

  /** The table after the update. */
  function MarkWeek(rows: seq<Pointage>, ids: seq<Id>, weekStart: int, now: int): seq<Pointage>
  {
    Map(rows, MarkRow(ids, weekStart, now))
  }

  /** A selected row is paid at `now`, with every other column kept; any
      other row is unchanged. */
  lemma MarkWeekEffect(rows: seq<Pointage>, ids: seq<Id>, weekStart: int, now: int, i: int)
    requires 0 <= i < |rows|
    ensures |MarkWeek(rows, ids, weekStart, now)| == |rows|
    ensures var r := MarkWeek(rows, ids, weekStart, now)[i];
      r.employeId == rows[i].employeId && r.date == rows[i].date && r.statutJour == rows[i].statutJour
      && r.service == rows[i].service && r.montantRealise == rows[i].montantRealise
    ensures InPaidWeek(rows[i], ids, weekStart)
        ==> MarkWeek(rows, ids, weekStart, now)[i].paye && MarkWeek(rows, ids, weekStart, now)[i].datePaiement == Some(now)
    ensures !InPaidWeek(rows[i], ids, weekStart) ==> MarkWeek(rows, ids, weekStart, now)[i] == rows[i]
  {
  }

  /** With no employee selected nothing changes. */
  lemma MarkNobody(rows: seq<Pointage>, weekStart: int, now: int)
    ensures MarkWeek(rows, [], weekStart, now) == rows
  {
  }

  function Paye(): Pointage -> bool
  {
    (p: Pointage) => p.paye
  }

  /** Marking the same week again leaves every paid flag as the first call
      set it; only the payment date moves to the later call's time. */
  lemma MarkTwice(rows: seq<Pointage>, ids: seq<Id>, weekStart: int, now1: int, now2: int)
    ensures var once := MarkWeek(rows, ids, weekStart, now1);
      Map(MarkWeek(once, ids, weekStart, now2), Paye()) == Map(once, Paye())
      && MarkWeek(once, ids, weekStart, now2) == MarkWeek(rows, ids, weekStart, now2)
  {
    var once := MarkWeek(rows, ids, weekStart, now1);
    assert MarkWeek(once, ids, weekStart, now2) == MarkWeek(rows, ids, weekStart, now2);
  }

  // ---------------------------------------------------------------- upsert

  /** The object `PointageCard` sends: the key and the form's columns. */
  datatype PointageInput = PointageInput(
    employeId: Id,
    date: int,
    statutJour: string,
    service: string,
    montantRealise: Option<int>)

  /** The answer of `savePointage`. */
  datatype SaveResult = Saved(data: Pointage) | SaveFailed(error: string)

  const SaveError := "Erreur lors de la sauvegarde du pointage"

  predicate HasKey(p: Pointage, employeId: Id, date: int)
  {
    p.employeId == employeId && p.date == date
  }

  /** The `onConflict: 'employe_id,date'` constraint: no two rows share a key. */
  predicate UniqueKeys(rows: seq<Pointage>)
  {
    forall i, j :: 0 <= i < j < |rows| ==> !HasKey(rows[j], rows[i].employeId, rows[i].date)
  }

  /** The first row holding a key. */
  function KeyIndex(rows: seq<Pointage>, employeId: Id, date: int): (r: Option<nat>)
    ensures r.Some? ==> r.value < |rows| && HasKey(rows[r.value], employeId, date)
    ensures r.None? ==> forall j :: 0 <= j < |rows| ==> !HasKey(rows[j], employeId, date)
  {
    if rows == [] then None
    else if HasKey(rows[0], employeId, date) then Some(0)
    else match KeyIndex(rows[1..], employeId, date)
      case None => None
      case Some(j) => Some(j + 1)
  }

  /** The row an upsert writes: the payload's columns over the row it
      replaces, which keeps its paid flag and payment date; a new row is not
      paid and has no payment date. */
  function Written(x: PointageInput, existing: Option<Pointage>): (r: Pointage)
    ensures HasKey(r, x.employeId, x.date)
  {
    var paid := if existing.Some? then existing.value.paye else false;
    var paidOn := if existing.Some? then existing.value.datePaiement else None;
    Pointage(x.employeId, x.date, x.statutJour, x.service, x.montantRealise, paid, paidOn)
  }

  /** The table after `upsert([x], { onConflict: 'employe_id,date' })`. */
  function Upsert(rows: seq<Pointage>, x: PointageInput): seq<Pointage>
  {
    match KeyIndex(rows, x.employeId, x.date)
    case Some(i) => rows[i := Written(x, Some(rows[i]))]
    case None => rows + [Written(x, None)]
  }

  /** Saving an existing key replaces its row in place; a new key is
      appended. Every other row stays where it was, unchanged. */
  lemma UpsertEffect(rows: seq<Pointage>, x: PointageInput)
    ensures KeyIndex(rows, x.employeId, x.date).Some? ==>
      var i := KeyIndex(rows, x.employeId, x.date).value;
      |Upsert(rows, x)| == |rows| && Upsert(rows, x)[i] == Written(x, Some(rows[i]))
    ensures KeyIndex(rows, x.employeId, x.date).None? ==>
      Upsert(rows, x) == rows + [Written(x, None)]
    ensures forall j :: 0 <= j < |rows| && !HasKey(rows[j], x.employeId, x.date) ==> Upsert(rows, x)[j] == rows[j]
  {
  }

  /** Keys stay unique, and the saved key is held by exactly one row. */
  lemma UpsertKeepsKeysUnique(rows: seq<Pointage>, x: PointageInput)
    requires UniqueKeys(rows)
    ensures UniqueKeys(Upsert(rows, x))
    ensures exists i :: 0 <= i < |Upsert(rows, x)| && HasKey(Upsert(rows, x)[i], x.employeId, x.date)
  {
    var r := Upsert(rows, x);
    match KeyIndex(rows, x.employeId, x.date)
    case Some(k) =>
      forall i, j | 0 <= i < j < |r|
        ensures !HasKey(r[j], r[i].employeId, r[i].date)
      {
        if i != k && j != k {
          assert r[i] == rows[i] && r[j] == rows[j];
        }
      }
      assert HasKey(r[k], x.employeId, x.date);
    case None =>
      assert HasKey(r[|rows|], x.employeId, x.date);
  }

  /** The table. `Valid` is the key constraint the database enforces. */
  class PointageTable {
    var rows: seq<Pointage>

    predicate Valid()
      reads this
    {
      UniqueKeys(rows)
    }

    constructor (rows0: seq<Pointage>)
      requires UniqueKeys(rows0)
      ensures Valid() && rows == rows0
    {
      rows := rows0;
    }

    /** `POST /api/pointages/mark-paid` with body `{ weekStart, employeeIds }`;
        `now` is the time of the call and `fails` an update error. A
        `weekStart` that does not parse makes `format` throw before the
        update, which answers 500 as well. */
    method MarkPaid(weekStart: DateParam, employeeIds: IdsField, now: int, fails: bool)
      returns (r: MarkPaidResponse)
      requires Valid()
      modifies this
      ensures Valid()
      ensures weekStart.NoDate? || employeeIds.NotAnArray? ==>
        r == MarkPaidError(400, InvalidParams) && rows == old(rows)
      ensures !weekStart.NoDate? && employeeIds.IdArray? && (weekStart.BadDate? || fails) ==>
        r == MarkPaidError(500, MarkFailed) && rows == old(rows)
      ensures weekStart.OnDay? && employeeIds.IdArray? && !fails ==>
        r == MarkedPaid(MarkedMessage) && rows == MarkWeek(old(rows), employeeIds.ids, weekStart.day, now)
    {
      if weekStart.NoDate? || employeeIds.NotAnArray? {
        return MarkPaidError(400, InvalidParams);
      }
      if weekStart.BadDate? || fails {
        return MarkPaidError(500, MarkFailed);
      }
      var ids := employeeIds.ids;
      var start := weekStart.day;
      var i := 0;
      while i < |rows|
        invariant 0 <= i <= |rows| == |old(rows)|
        invariant forall j :: 0 <= j < i ==> rows[j] == MarkRow(ids, start, now)(old(rows)[j])
        invariant forall j :: i <= j < |rows| ==> rows[j] == old(rows)[j]
      {
        if InPaidWeek(rows[i], ids, start) {
          rows := rows[i := rows[i].(paye := true, datePaiement := Some(now))];
        }
        i := i + 1;
      }
      assert rows == MarkWeek(old(rows), ids, start, now);
      r := MarkedPaid(MarkedMessage);
    }

    /** `savePointage(x)`; `fails` is a database error. */
    method SavePointage(x: PointageInput, fails: bool) returns (r: SaveResult)
      requires Valid()
      modifies this
      ensures Valid()
      ensures fails ==> r == SaveFailed(SaveError) && rows == old(rows)
      ensures !fails ==> rows == Upsert(old(rows), x)
      ensures !fails ==> r.Saved? && r.data in rows && HasKey(r.data, x.employeId, x.date)
    {
      if fails {
        return SaveFailed(SaveError);
      }
      UpsertKeepsKeysUnique(rows, x);
      var i := 0;
      while i < |rows| && !HasKey(rows[i], x.employeId, x.date)
        invariant 0 <= i <= |rows|
        invariant forall j :: 0 <= j < i ==> !HasKey(rows[j], x.employeId, x.date)
      {
        i := i + 1;
      }
      var row: Pointage;
      if i < |rows| {
        assert KeyIndex(rows, x.employeId, x.date) == Some(i) by { KeyIndexFirst(rows, x.employeId, x.date, i); }
        row := Written(x, Some(rows[i]));
        rows := rows[i := row];
      } else {
        row := Written(x, None);
        rows := rows + [row];
      }
      r := Saved(row);
    }
  }

  /** The first index holding a key is the one `KeyIndex` finds. */
  lemma {:induction false} KeyIndexFirst(rows: seq<Pointage>, employeId: Id, date: int, i: nat)
    requires i < |rows| && HasKey(rows[i], employeId, date)
    requires forall j :: 0 <= j < i ==> !HasKey(rows[j], employeId, date)
    ensures KeyIndex(rows, employeId, date) == Some(i)
  {
    if i > 0 {
      KeyIndexFirst(rows[1..], employeId, date, i - 1);
    }
  }
}
