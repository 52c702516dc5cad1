/** The rule-based intent detector of the chat endpoint
    (`detect_intent_and_entities`): a first-match chain of case-sensitive
    containment tests on the raw query. */
module Intents {
  import opened Wrappers
  import opened Text

  /** The four intents the detector can report. */
  datatype Intent = ManagerQuery | SalaryQuery | EmployeeQuery | EmployeeDetailsQuery

  /** The label the application passes around for each intent. */
  function Label(i: Intent): string {
    match i
    case ManagerQuery => "manager_query"
    case SalaryQuery => "salary_query"
    case EmployeeQuery => "employee_query"
    case EmployeeDetailsQuery => "employee_details_query"
  }

  /** Reads a label back; any other text names no intent. */
  function KnownIntent(name: string): (r: Option<Intent>)
    ensures r.Some? ==> Label(r.value) == name
    ensures r.None? ==> forall i :: Label(i) != name
  {
    if name == "manager_query" then Some(ManagerQuery)
    else if name == "salary_query" then Some(SalaryQuery)
    else if name == "employee_query" then Some(EmployeeQuery)
    else if name == "employee_details_query" then Some(EmployeeDetailsQuery)
    else None
  }

  /** The rule chain. `has(k)` is Python's `k in query`, so the same chain
      runs on a string query (substring test) and on any other container the
      request body may hold. The first rule that fires wins. */
  function Classify(has: string -> bool): Option<Intent> {
    if has("manager") then Some(ManagerQuery)
    else if has("salary") || has("total salary") then Some(SalaryQuery)
    else if has("employee") || has("employees") then Some(EmployeeQuery)
    else if has("details") || has("information") then Some(EmployeeDetailsQuery)
    else None
  }

  /** What the detector returns: an intent (or none) and an entity map. */
  datatype Detection = Detection(intent: Option<Intent>, entities: map<string, string>)

  /** Detection on a text query. No entity is ever extracted. */
  function DetectIntentAndEntities(query: string): (d: Detection)
    ensures d.entities == map[]
    ensures d.intent.Some? ==> Mentions(query, d.intent.value)
  {
    Detection(Classify(k => Contains(query, k)), map[])
  }

  // ---------------------------------------------------------------------
  // The same decision stated as a table: each intent with its keywords, in
  // order of precedence; an intent is reported when one of its keywords
  // occurs and no keyword of an earlier intent does.

  function Keywords(i: Intent): seq<string> {
    match i
    case ManagerQuery => ["manager"]
    case SalaryQuery => ["salary", "total salary"]
    case EmployeeQuery => ["employee", "employees"]
    case EmployeeDetailsQuery => ["details", "information"]
  }

  /** Position in the precedence order: lower wins. */
  function Rank(i: Intent): nat {
    match i
    case ManagerQuery => 0
    case SalaryQuery => 1
    case EmployeeQuery => 2
    case EmployeeDetailsQuery => 3
  }

  predicate Mentions(query: string, i: Intent) {
    exists k :: k in Keywords(i) && Contains(query, k)
  }

  /** `i` is the first intent in precedence order that `query` mentions. */
  predicate FirstMentioned(query: string, i: Intent) {
    Mentions(query, i) && forall j :: Rank(j) < Rank(i) ==> !Mentions(query, j)
  }

  /** The rank of a detection result; no intent ranks after every intent. */
  function DetectedRank(r: Option<Intent>): nat {
    if r.Some? then Rank(r.value) else 4
  }

  lemma MentionsByKeyword(query: string)
    ensures Mentions(query, ManagerQuery) <==> Contains(query, "manager")
    ensures Mentions(query, SalaryQuery) <==> Contains(query, "salary") || Contains(query, "total salary")
    ensures Mentions(query, EmployeeQuery) <==> Contains(query, "employee") || Contains(query, "employees")
    ensures Mentions(query, EmployeeDetailsQuery) <==> Contains(query, "details") || Contains(query, "information")
  {
    assert "manager" in Keywords(ManagerQuery);
    assert "salary" in Keywords(SalaryQuery) && "total salary" in Keywords(SalaryQuery);
    assert "employee" in Keywords(EmployeeQuery) && "employees" in Keywords(EmployeeQuery);
    assert "details" in Keywords(EmployeeDetailsQuery) && "information" in Keywords(EmployeeDetailsQuery);
  }

  /** The chain reports exactly the first mentioned intent... */
  lemma {:induction false} DetectsFirstMentioned(query: string, i: Intent)
    ensures DetectIntentAndEntities(query).intent == Some(i) <==> FirstMentioned(query, i)
  {
    MentionsByKeyword(query);
  }

  /** ...and reports nothing exactly when no intent is mentioned. */
  lemma {:induction false} DetectsNothing(query: string)
    ensures DetectIntentAndEntities(query).intent == None <==> forall i :: !Mentions(query, i)
  {
    MentionsByKeyword(query);
  }

  // ---------------------------------------------------------------------
  // Consequences of the precedence order.

  /** "manager" anywhere in the query wins, whatever else it says. */
  lemma {:induction false} ManagerAnywhere(before: string, after: string)
    ensures DetectIntentAndEntities(before + "manager" + after).intent == Some(ManagerQuery)
  {
    ContainsInfix(before, "manager", after);
  }

  /** The "total salary" test never decides anything: it implies "salary". */
  lemma {:induction false} TotalSalaryImpliesSalary(query: string)
    requires Contains(query, "total salary")
    ensures Contains(query, "salary")
  {
    assert OccursAt("total salary", "salary", 6);
    ContainsTransitive(query, "total salary", "salary");
  }

  /** Likewise the "employees" test is subsumed by "employee". */
  lemma {:induction false} EmployeesImpliesEmployee(query: string)
    requires Contains(query, "employees")
    ensures Contains(query, "employee")
  {
    assert OccursAt("employees", "employee", 0);
    ContainsTransitive(query, "employees", "employee");
  }

  /** Salary is reported exactly when "salary" occurs and "manager" does not. */
  lemma {:induction false} SalaryExactly(query: string)
    ensures DetectIntentAndEntities(query).intent == Some(SalaryQuery)
        <==> !Contains(query, "manager") && Contains(query, "salary")
  {
    if Contains(query, "total salary") {
      TotalSalaryImpliesSalary(query);
    }
  }

  /** Employee is reported exactly when "employee" occurs and neither
      "manager" nor "salary" does. */
  lemma {:induction false} EmployeeExactly(query: string)
    ensures DetectIntentAndEntities(query).intent == Some(EmployeeQuery)
        <==> !Contains(query, "manager") && !Contains(query, "salary") && Contains(query, "employee")
  {
    if Contains(query, "total salary") {
      TotalSalaryImpliesSalary(query);
    }
    if Contains(query, "employees") {
      EmployeesImpliesEmployee(query);
    }
  }

  /** Details are reported only when no earlier keyword occurs, so a query
      about "employee details" is an employee query. */
  lemma {:induction false} DetailsExactly(query: string)
    ensures DetectIntentAndEntities(query).intent == Some(EmployeeDetailsQuery)
        <==> !Contains(query, "manager") && !Contains(query, "salary") && !Contains(query, "employee")
             && (Contains(query, "details") || Contains(query, "information"))
  {
    if Contains(query, "total salary") {
      TotalSalaryImpliesSalary(query);
    }
    if Contains(query, "employees") {
      EmployeesImpliesEmployee(query);
    }
  }

  /** Adding text to a query can only move its intent up the precedence
      order, never down: whatever a query mentions, a longer query that
      contains it mentions too. */
  lemma {:induction false} ExtendingNeverDemotes(query: string, longer: string)
    requires Contains(longer, query)
    ensures DetectedRank(DetectIntentAndEntities(longer).intent) <= DetectedRank(DetectIntentAndEntities(query).intent)
  {
    forall k | Contains(query, k)
      ensures Contains(longer, k)
    {
      ContainsTransitive(longer, query, k);
    }
  }

  /** Worked cases of the precedence and of the case-sensitive test. */
  lemma {:induction false} EmployeeDetailsIsEmployee()
    ensures DetectIntentAndEntities("employee details").intent == Some(EmployeeQuery)
  {
    var query := "employee details";
    assert !Contains(query, "manager") by { MissingCharacter(query, "manager", 'g'); }
    assert !Contains(query, "salary") by { MissingCharacter(query, "salary", 'r'); }
    assert !Contains(query, "total salary") by { MissingCharacter(query, "total salary", 'r'); }
    assert Contains(query, "employee") by { assert OccursAt(query, "employee", 0); }
  }

  /** A query holding none of the seven keywords is not classified. */
  lemma {:induction false} NoKeywordNoIntent(query: string)
    requires !Contains(query, "manager") && !Contains(query, "salary") && !Contains(query, "total salary")
    requires !Contains(query, "employee") && !Contains(query, "employees")
    requires !Contains(query, "details") && !Contains(query, "information")
    ensures DetectIntentAndEntities(query).intent == None
  {
  }

  lemma {:induction false} CapitalisedManagerIsNotMatched()
    ensures DetectIntentAndEntities("Who is the Manager").intent == None
  {
    var query := "Who is the Manager";
    NoKeywordFacts(query);
    NoKeywordNoIntent(query);
  }

  /** The keyword tests on the capitalised question, one character each. */
  lemma {:induction false} NoKeywordFacts(query: string)
    requires query == "Who is the Manager"
    ensures !Contains(query, "manager") && !Contains(query, "salary") && !Contains(query, "total salary")
    ensures !Contains(query, "employee") && !Contains(query, "employees")
    ensures !Contains(query, "details") && !Contains(query, "information")
  {
    forall c | c in "mypdf"
      ensures c !in query
    {
    }
    MissingCharacter(query, "manager", 'm');
    MissingCharacter(query, "salary", 'y');
    MissingCharacter(query, "total salary", 'y');
    MissingCharacter(query, "employee", 'p');
    MissingCharacter(query, "employees", 'p');
    MissingCharacter(query, "details", 'd');
    MissingCharacter(query, "information", 'f');
  }

  lemma {:induction false} PluralManagerIsMatched()
    ensures DetectIntentAndEntities("managers").intent == Some(ManagerQuery)
  {
    var query := "managers";
    assert Contains(query, "manager") by { assert OccursAt(query, "manager", 0); }
  }

  lemma {:induction false} TotalSalaryQuestion()
    ensures DetectIntentAndEntities("What is the total salary in Marketing").intent == Some(SalaryQuery)
  {
    var query := "What is the total salary in Marketing";
    assert !Contains(query, "manager") by { MissingCharacter(query, "manager", 'm'); }
    assert Contains(query, "salary") by { assert OccursAt(query, "salary", 18); }
  }
}
