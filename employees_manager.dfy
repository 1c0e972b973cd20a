/** The employee list's search box: an employee is shown when the lowercased
    "first-name last-name" contains the lowercased search term. */
module EmployeesManager {
  import opened Seqs
  import opened Strings
  import opened Records

  /** `` `${employee.prenom} ${employee.nom}` `` */
  function FullName(e: Employee): string
  {
    e.prenom + " " + e.nom
  }

  /** The search test for one employee. */
  function Matches(term: string): Employee -> bool
  {
    (e: Employee) => Contains(ToLower(FullName(e)), ToLower(term))
  }

  /** `filteredEmployees` */
  function FilteredEmployees(employees: seq<Employee>, term: string): seq<Employee>
  {
    Filter(employees, Matches(term))
  }

  /** The employees shown are the matching ones, in the list's order. */
  lemma FilteredIsMatchingSublist(employees: seq<Employee>, term: string)
    ensures SubsequenceOf(FilteredEmployees(employees, term), employees)
    ensures forall e :: e in FilteredEmployees(employees, term) <==> e in employees && Matches(term)(e)
  {
    FilterIsSubsequence(employees, Matches(term));
    var r := FilteredEmployees(employees, term);
    forall e | e in r
      ensures e in employees && Matches(term)(e)
    {
      var i :| 0 <= i < |r| && r[i] == e;
    }
    forall e | e in employees && Matches(term)(e)
      ensures e in r
    {
      var i :| 0 <= i < |employees| && employees[i] == e;
    }
  }

  /** Every string contains the empty string. */
  lemma ContainsEmpty(s: string)
    ensures Contains(s, "")
  {
    assert OccursAt(s, "", 0);
    ContainsIffOccurs(s, "");
  }

  /** An empty search box shows everyone. */
  lemma EmptyTermKeepsAll(employees: seq<Employee>)
    ensures FilteredEmployees(employees, "") == employees
  {
    forall i | 0 <= i < |employees|
      ensures Matches("")(employees[i])
    {
      ContainsEmpty(ToLower(FullName(employees[i])));
    }
    FilterAll(employees, Matches(""));
  }

  /** A term may run across the space between the two names, and its case
      does not matter: "ALI B" finds Ali Ben. */
  lemma SpanningTerm(e: Employee)
    requires e.prenom == "Ali" && e.nom == "Ben"
    ensures Matches("ALI B")(e)
  {
    var name := ToLower(FullName(e));
    assert FullName(e) == "Ali Ben";
    assert ToLower("ALI B") == "ali b";
    assert name == "ali ben";
    assert OccursAt(name, "ali b", 0);
    ContainsIffOccurs(name, "ali b");
  }
}
