/** `process_data`: the message a query result produces for an intent.
    Messages are kept abstract; each constructor stands for one of the HTML
    fragments the application returns. */
module Formatting {
  import opened Wrappers
  import opened Intents
  import opened Results

  /** One piece of the detail list: `<ul>`, one `<li><b>key:</b> value</li>`
      per item, `</ul>`. */
  datatype Markup = ListOpen | ListItem(key: string, value: Cell) | ListClose

  datatype Message =
    | NoResults                                          // "No results found."
    | DatabaseError(detail: string)                      // "Database Error: <detail>"
    | TotalSalary(total: int)                            // "Total Salary: <total>"
    | EmployeeDetails(html: seq<Markup>)                 // the first row as a list
    | EmployeeTable(columns: seq<string>, rows: seq<Row>) // every row as an HTML table
    | ManagerIs(manager: seq<Cell>)                      // "The manager is: <manager>"
    | NoSalaryData                                       // "No salary data found ..."
    | NoEmployeeDetails                                  // "No employee details found ..."
    | NoEmployees                                        // "No employees found ..."
    | NoManager                                          // "No manager found ..."
    | InvalidIntent                                      // "Invalid intent or no formatting defined."
    | ProcessingError                                    // "An error occurred while processing the data."

  /** The detail list of a row read back as a dictionary. */
  function DetailsMarkup(items: seq<Item>): (html: seq<Markup>)
    ensures |html| == |items| + 2 && html[0] == ListOpen && html[|items| + 1] == ListClose
    ensures forall k :: 0 <= k < |items| ==> html[k + 1] == ListItem(items[k].0, items[k].1)
  {
    [ListOpen] + seq(|items|, k requires 0 <= k < |items| => ListItem(items[k].0, items[k].1)) + [ListClose]
  }

  /** The salary branch: the `Salary` column must exist exactly once (a
      missing one is a KeyError, a repeated one makes the coercion reject a
      frame); its coerced cells are summed. */
  function SalaryMessage(rows: seq<Row>, columns: seq<string>): Message
    requires Rectangular(rows, columns)
  {
    var ks := IndicesOf(columns, "Salary");
    if |ks| != 1 then ProcessingError else TotalSalary(SalaryTotal(Column(rows, ks[0])))
  }

  /** The manager branch: the first row's value(s) under `Manager`; a missing
      column is a KeyError. */
  function ManagerMessage(rows: seq<Row>, columns: seq<string>): Message
    requires Rectangular(rows, columns) && |rows| > 0
  {
    var ks := IndicesOf(columns, "Manager");
    if ks == [] then ProcessingError
    else ManagerIs(seq(|ks|, j requires 0 <= j < |ks| => rows[0][ks[j]]))
  }

  /** The specification of `process_data`. The per-intent "no ... found"
      branches are kept as the code has them, after the emptiness test that
      makes them dead. */
  function Format(result: QueryResult, intent: string): Message {
    match result
    case NoResult => NoResults
    case DbError(e) => DatabaseError(e)
    case Rows(rows, columns) =>
      if !Rectangular(rows, columns) then ProcessingError
      else if EmptyFrame(rows, columns) then NoResults
      else if intent == Label(SalaryQuery) then
        (if !EmptyFrame(rows, columns) then SalaryMessage(rows, columns) else NoSalaryData)
      else if intent == Label(EmployeeDetailsQuery) then
        (if !EmptyFrame(rows, columns) then EmployeeDetails(DetailsMarkup(ToDict(Zip(columns, rows[0]))))
         else NoEmployeeDetails)
      else if intent == Label(EmployeeQuery) then
        (if !EmptyFrame(rows, columns) then EmployeeTable(columns, rows) else NoEmployees)
      else if intent == Label(ManagerQuery) then
        (if !EmptyFrame(rows, columns) then ManagerMessage(rows, columns) else NoManager)
      else InvalidIntent
  }

  /** `process_data` as the code runs it, building the detail list item by
      item. */
  method ProcessData(result: QueryResult, intent: string) returns (m: Message)
    ensures m == Format(result, intent)
  {
    if result.NoResult? {
      return NoResults;
    }
    if result.DbError? {
      return DatabaseError(result.message);
    }
    var rows, columns := result.rows, result.columns;
    if !Rectangular(rows, columns) {
      return ProcessingError;
    }
    if EmptyFrame(rows, columns) {
      return NoResults;
    }
    if intent == Label(SalaryQuery) {
      m := SalaryMessage(rows, columns);
    } else if intent == Label(EmployeeDetailsQuery) {
      var items := ToDict(Zip(columns, rows[0]));
      var html := [ListOpen];
      for i := 0 to |items|
        invariant html == [ListOpen] + seq(i, k requires 0 <= k < i => ListItem(items[k].0, items[k].1))
      {
        html := html + [ListItem(items[i].0, items[i].1)];
      }
      html := html + [ListClose];
      m := EmployeeDetails(html);
    } else if intent == Label(EmployeeQuery) {
      m := EmployeeTable(columns, rows);
    } else if intent == Label(ManagerQuery) {
      m := ManagerMessage(rows, columns);
    } else {
      m := InvalidIntent;
    }
  }

  // ---------------------------------------------------------------------
  // What the formatter promises.

  /** No result and an empty row set give "No results found." for any intent. */
  lemma NothingToFormat(columns: seq<string>, intent: string)
    ensures Format(NoResult, intent) == NoResults
    ensures Format(Rows([], columns), intent) == NoResults
  {
  }

  /** A database error is reported with its own text, for any intent. */
  lemma DatabaseErrorShown(e: string, intent: string)
    ensures Format(DbError(e), intent) == DatabaseError(e)
  {
  }

  /** The per-intent "no ... found for the given criteria" messages never
      appear: emptiness is handled before the intent is looked at. */
  lemma PerIntentEmptyMessagesUnreachable(result: QueryResult, intent: string)
    ensures Format(result, intent) !in {NoSalaryData, NoEmployeeDetails, NoEmployees, NoManager}
  {
  }

  /** "Invalid intent" is the answer exactly for a well-shaped, non-empty
      result and a label that names none of the four intents. */
  lemma {:induction false} InvalidIntentExactly(rows: seq<Row>, columns: seq<string>, intent: string)
    ensures Format(Rows(rows, columns), intent) == InvalidIntent
        <==> Rectangular(rows, columns) && !EmptyFrame(rows, columns) && KnownIntent(intent) == None
  {
  }

  /** The intents the detector produces always have a formatting. */
  lemma {:induction false} DetectedIntentsAreFormatted(result: QueryResult, i: Intent)
    ensures Format(result, Label(i)) != InvalidIntent
  {
  }

  /** With one `Salary` column, the salary message reports the total of its
      cells that coerce to numbers. */
  lemma {:induction false} SalaryTotalReported(rows: seq<Row>, columns: seq<string>, k: nat)
    requires Rectangular(rows, columns) && |rows| > 0 && OnlyAt(columns, "Salary", k)
    ensures Format(Rows(rows, columns), Label(SalaryQuery)) == TotalSalary(SalaryTotal(Column(rows, k)))
  {
    IndicesOfUnique(columns, "Salary", k);
  }

  /** Without a `Salary` column, or with two, the salary query ends in the
      generic processing error. */
  lemma {:induction false} SalaryColumnRequired(rows: seq<Row>, columns: seq<string>)
    requires Rectangular(rows, columns) && |rows| > 0 && |columns| > 0
    requires !exists k :: OnlyAt(columns, "Salary", k)
    ensures Format(Rows(rows, columns), Label(SalaryQuery)) == ProcessingError
  {
    IndicesOfSingle(columns, "Salary");
  }

  /** With one `Manager` column, the manager message reports the first row's
      value in it; without one, the generic processing error. */
  lemma {:induction false} ManagerOfFirstRow(rows: seq<Row>, columns: seq<string>, k: nat)
    requires Rectangular(rows, columns) && |rows| > 0 && OnlyAt(columns, "Manager", k)
    ensures Format(Rows(rows, columns), Label(ManagerQuery)) == ManagerIs([rows[0][k]])
  {
    IndicesOfUnique(columns, "Manager", k);
  }

  lemma {:induction false} ManagerColumnRequired(rows: seq<Row>, columns: seq<string>)
    requires Rectangular(rows, columns) && |rows| > 0 && |columns| > 0 && "Manager" !in columns
    ensures Format(Rows(rows, columns), Label(ManagerQuery)) == ProcessingError
  {
    IndicesOfAbsent(columns, "Manager");
  }

  /** With distinct column names, the detail list shows every (column,
      value) pair of the first row, in column order, and nothing else. */
  lemma {:induction false} DetailsOfFirstRow(rows: seq<Row>, columns: seq<string>)
    requires Rectangular(rows, columns) && |rows| > 0 && |columns| > 0 && Distinct(columns)
    ensures var m := Format(Rows(rows, columns), Label(EmployeeDetailsQuery));
      && m.EmployeeDetails?
      && |m.html| == |columns| + 2 && m.html[0] == ListOpen && m.html[|columns| + 1] == ListClose
      && forall k :: 0 <= k < |columns| ==> m.html[k + 1] == ListItem(columns[k], rows[0][k])
  {
    ToDictOfDistinct(Zip(columns, rows[0]));
  }

  /** Each item of the detail list of a dictionary with distinct keys is
      the entry lookup finds for its key. */
  lemma {:induction false} DetailsItemsAreEntries(items: seq<Item>)
    requires Distinct(Keys(items))
    ensures var html := DetailsMarkup(items);
      forall j :: 0 < j < |html| - 1 ==> html[j].ListItem? && Get(items, html[j].key) == Some(html[j].value)
  {
    var html := DetailsMarkup(items);
    forall j | 0 < j < |html| - 1
      ensures html[j].ListItem? && Get(items, html[j].key) == Some(html[j].value)
    {
      GetAt(items, j - 1);
    }
  }

  /** The detail list of a dictionary whose keys come in the order `names`
      lists them shows each name once, in that order. */
  lemma {:induction false} DetailsKeyOrder(items: seq<Item>, names: seq<string>)
    requires Keys(items) == names && Distinct(names)
    ensures var html := DetailsMarkup(items);
      && |html| == |names| + 2
      && (forall j :: 0 < j < |html| - 1 ==> html[j].ListItem? && html[j].key == names[j - 1])
      && (forall j, j' :: 0 < j < j' < |html| - 1 ==> html[j].key != html[j'].key)
      && (forall c :: c in names ==> exists j :: 0 < j < |html| - 1 && html[j].key == c)
  {
    var html := DetailsMarkup(items);
    forall c | c in names
      ensures exists j :: 0 < j < |html| - 1 && html[j].key == c
    {
      var i :| 0 <= i < |names| && names[i] == c;
      assert html[i + 1].key == c;
    }
  }

  /** The detail list of any (column, value) pairs shows each name once, in
      order of first appearance, with the value last paired with it. */
  lemma {:induction false} DetailsOfPairs(pairs: seq<Item>)
    ensures var html := DetailsMarkup(ToDict(pairs));
      && |html| == |FirstKeys(Keys(pairs))| + 2
      && (forall j :: 0 < j < |html| - 1 ==>
            html[j].ListItem? && html[j].key == FirstKeys(Keys(pairs))[j - 1]
            && LastValue(pairs, html[j].key) == Some(html[j].value))
      && (forall j, j' :: 0 < j < j' < |html| - 1 ==> html[j].key != html[j'].key)
      && (forall c :: c in Keys(pairs) ==> exists j :: 0 < j < |html| - 1 && html[j].key == c)
  {
    var items := ToDict(pairs);
    ToDictShape(pairs);
    DetailsItemsAreEntries(items);
    DetailsKeyOrder(items, Keys(items));
  }

  /** Whatever the column names, the detail list shows each name once, in
      order of first appearance, with the value of the last column so named. */
  lemma {:induction false} DetailsWithRepeatedColumns(rows: seq<Row>, columns: seq<string>)
    requires Rectangular(rows, columns) && |rows| > 0 && |columns| > 0
    ensures var m := Format(Rows(rows, columns), Label(EmployeeDetailsQuery));
      && m.EmployeeDetails?
      && |m.html| == |FirstKeys(columns)| + 2 && m.html[0] == ListOpen && m.html[|m.html| - 1] == ListClose
      && (forall j :: 0 < j < |m.html| - 1 ==>
            m.html[j].ListItem? && m.html[j].key == FirstKeys(columns)[j - 1]
            && LastValue(Zip(columns, rows[0]), m.html[j].key) == Some(m.html[j].value))
      && (forall j, j' :: 0 < j < j' < |m.html| - 1 ==> m.html[j].key != m.html[j'].key)
      && (forall c :: c in columns ==> exists j :: 0 < j < |m.html| - 1 && m.html[j].key == c)
  {
    var pairs := Zip(columns, rows[0]);
    assert Format(Rows(rows, columns), Label(EmployeeDetailsQuery)) == EmployeeDetails(DetailsMarkup(ToDict(pairs)));
    DetailsOfPairs(pairs);
  }

  /** Every row is shown for an employee query. */
  lemma EmployeeTableOfAllRows(rows: seq<Row>, columns: seq<string>)
    requires Rectangular(rows, columns) && !EmptyFrame(rows, columns)
    ensures Format(Rows(rows, columns), Label(EmployeeQuery)) == EmployeeTable(columns, rows)
  {
  }

  /** The generic processing error arises exactly from a result the frame
      constructor rejects, or from a salary or manager query whose column is
      missing (or, for salary, repeated). */
  lemma {:induction false} ProcessingErrorExactly(rows: seq<Row>, columns: seq<string>, intent: string)
    ensures Format(Rows(rows, columns), intent) == ProcessingError
        <==> !Rectangular(rows, columns)
             || (!EmptyFrame(rows, columns)
                 && ((intent == Label(SalaryQuery) && !exists k :: OnlyAt(columns, "Salary", k))
                     || (intent == Label(ManagerQuery) && "Manager" !in columns)))
  {
    if Rectangular(rows, columns) && !EmptyFrame(rows, columns) {
      if intent == Label(SalaryQuery) {
        IndicesOfSingle(columns, "Salary");
        if k :| OnlyAt(columns, "Salary", k) {
          IndicesOfUnique(columns, "Salary", k);
        }
      } else if intent == Label(ManagerQuery) {
        var ks := IndicesOf(columns, "Manager");
        if "Manager" in columns {
          var k :| 0 <= k < |columns| && columns[k] == "Manager";
          assert k in ks;
        } else {
          IndicesOfAbsent(columns, "Manager");
        }
      }
    }
  }
}
