# Employee-database chat endpoint: a Dafny model

The application answers `POST /api/v1/chat` requests of the form
`{"query": "<question>"}` about an employee database. It classifies the question
with a chain of keyword tests (`detect_intent_and_entities`), has a
text-to-SQL model write a query, runs it against SQLite, and turns the rows into
an HTML fragment chosen by the intent (`process_data`). The status code and the
response text depend on what the request body holds and on which stage fails.

This project models those three pieces and proves what they promise.

- `text.dfy` (module `Text`) defines Python's `in` on two strings as
  case-sensitive substring containment. It also defines the integer text that
  `pandas.to_numeric` reads back: an optional sign and decimal digits.
- `intents.dfy` (module `Intents`) is the rule chain. It also gives a
  declarative reading of the chain, with keywords per intent in order of
  precedence, and proves the chain equal to it.
- `results.dfy` (module `Results`) covers query results and the pandas
  operations the formatter uses:
  - the shape the DataFrame constructor accepts, and `df.empty`;
  - column lookup by name, including repeated names;
  - numeric coercion with a sum that skips NaN;
  - `Series.to_dict()` on the first row, as an insertion-ordered dictionary.
- `formatting.dfy` (module `Formatting`) specifies `process_data` as the
  function `Format`. The method `ProcessData` builds the detail list item by
  item, as the code's loop does, and is proved equal to `Format`.
- `chat.dfy` (module `Chat`) is the handler. The body is any JSON value. SQL
  generation and SQL execution are function parameters that either return or
  raise. The module models Python truthiness, `in` and indexing on whatever the
  body holds.

What the code does, and the model with it:
- The detector extracts no entity: the entity map is always empty.
- There is no greeting intent and no department requirement.
- `manager` wins over every other keyword.
- An unclassified query is answered with status 400.
- "No results" and database errors are answered with status 200.
- The generated SQL carries no parameters.

## Model

| member | source | states |
|---|---|---|
| Intents.DetectIntentAndEntities | app.py:105-115 | the entity map is always empty, and a reported intent is one whose keyword occurs in the query |
| Intents.KnownIntent | app.py:107-113 | reads back the four labels the detector returns, and reads no other text as an intent |
| Intents.DetectsFirstMentioned | app.py:105-115 | the chain reports intent `i` exactly when `i` is the first intent, in precedence order, whose keyword occurs in the query |
| Intents.DetectsNothing | app.py:114-115 | no intent is reported exactly when no keyword of any intent occurs |
| Intents.ManagerAnywhere | app.py:106-107 | "manager" anywhere in a query makes it a manager query, whatever else the query says |
| Intents.TotalSalaryImpliesSalary | app.py:108 | a query containing "total salary" contains "salary", so the second test of that rule never decides anything |
| Intents.EmployeesImpliesEmployee | app.py:110 | a query containing "employees" contains "employee", so the second test of that rule never decides anything |
| Intents.SalaryExactly | app.py:106-109 | salary is reported exactly when "salary" occurs and "manager" does not |
| Intents.EmployeeExactly | app.py:106-111 | employee is reported exactly when "employee" occurs and neither "manager" nor "salary" does |
| Intents.DetailsExactly | app.py:106-113 | details are reported exactly when "details" or "information" occurs and no earlier keyword does |
| Intents.ExtendingNeverDemotes | app.py:105-115 | a query that contains another query is classified at the same or a higher precedence |
| Intents.EmployeeDetailsIsEmployee | app.py:110-113 | "employee details" is an employee query, not a details query |
| Intents.CapitalisedManagerIsNotMatched | app.py:106 | the match is case-sensitive: "Who is the Manager" is not classified |
| Intents.PluralManagerIsMatched | app.py:106 | "managers" is a manager query, because the test is for a substring |
| Intents.TotalSalaryQuestion | app.py:108-109 | "What is the total salary in Marketing" is a salary query |
| Text.ContainsTransitive | app.py:106 | a substring of a substring of a query is a substring of the query |
| Text.MissingCharacter | app.py:106 | a query that lacks one character of a keyword does not contain the keyword |
| Text.ParseShowInt | app.py:70 | the integer text the coercion reads back gives the integer it spells, for every integer |
| Results.IndicesOf | app.py:70 | the positions found for a column name are exactly the columns with that name, in increasing order |
| Results.IndicesOfUnique | app.py:70 | a name that labels one column is found at that column only |
| Results.IndicesOfSingle | app.py:70 | a name found at exactly one position labels that column and no other |
| Results.IndicesOfAbsent | app.py:93 | a name that labels no column is not found |
| Results.SalaryTotalAppend | app.py:71 | the salary total of two stacked row sets is the sum of their totals |
| Results.SalaryTotalOneCell | app.py:70-71 | each cell adds its numeric value to the total, and a cell that does not coerce adds nothing instead of failing |
| Results.SalaryTotalOfIntegers | app.py:70-71 | on a column of integer cells the total is the ordinary sum |
| Results.TextSalaryCounts | app.py:70 | a salary stored as the text of an integer counts as that integer |
| Results.Zip | app.py:78 | the (column, value) pairs of a row have the column names as keys, in column order |
| Results.PutKeys | app.py:78 | assigning to a dictionary keeps its keys distinct, and adds the key if it was new |
| Results.GetPut | app.py:78 | after an assignment, the key holds the new value and every other key keeps its value |
| Results.GetAt | app.py:80 | in a dictionary with distinct keys, each listed entry is what lookup finds for its key |
| Results.KeysPut | app.py:78 | assigning to an existing key keeps the key order, and a new key goes last |
| Results.ToDictShape | app.py:78 | the dictionary of a row has each column name once, its keys are exactly the names in order of first appearance, and each holds the value of the last column with that name |
| Results.ToDictOfDistinct | app.py:78 | with distinct column names, the dictionary is the row's (column, value) pairs unchanged |
| Formatting.ProcessData | app.py:52-102 | the loop that builds the detail list, and every other branch, yield the message `Format` specifies |
| Formatting.NothingToFormat | app.py:53-55 | no result, or no rows, gives "No results found." for any intent |
| Formatting.DatabaseErrorShown | app.py:57-59 | a database error is shown with its own text, for any intent |
| Formatting.PerIntentEmptyMessagesUnreachable | app.py:65-96 | the per-intent "no ... found" messages never occur, because emptiness is tested before the intent |
| Formatting.InvalidIntentExactly | app.py:97-98 | "Invalid intent" is produced exactly for a well-shaped, non-empty result and a label that names none of the four intents |
| Formatting.DetectedIntentsAreFormatted | app.py:68-96 | every intent the detector can report has a formatting |
| Formatting.SalaryTotalReported | app.py:68-73 | with one `Salary` column, the salary message reports the total of its cells that coerce to numbers |
| Formatting.SalaryColumnRequired | app.py:68-102 | with no `Salary` column, or with two, the salary query ends in the generic processing error |
| Formatting.ManagerOfFirstRow | app.py:91-94 | with one `Manager` column, the manager message reports the first row's value in it |
| Formatting.ManagerColumnRequired | app.py:91-102 | without a `Manager` column, the manager query ends in the generic processing error |
| Formatting.DetailsOfFirstRow | app.py:76-83 | with distinct column names, the detail list shows every (column, value) pair of the first row, in column order, and nothing else |
| Formatting.DetailsOfPairs | app.py:78-82 | the detail list of any (name, value) pairs shows each name once, the names in order of first appearance, each with the value last paired with it |
| Formatting.DetailsWithRepeatedColumns | app.py:76-83 | with any column names, the detail list's keys are the column names in order of first appearance, each once, with the value of the last column so named |
| Formatting.EmployeeTableOfAllRows | app.py:86-88 | an employee query on a non-empty result shows all rows under the result's columns |
| Formatting.ProcessingErrorExactly | app.py:60-102 | the generic processing error arises exactly when the rows do not fit the columns, or when a salary or manager query on a non-empty result lacks its column (or, for salary, has it twice) |
| Chat.In | app.py:124 | `in` raises exactly on a body that is not a string, a list or an object, and tests keys on an object |
| Chat.Index | app.py:127 | indexing answers exactly on an object that holds the key |
| Chat.DetectOn | app.py:130 | a text query is classified by the detector, and detection raises exactly where `in` raises |
| Chat.AsResult | app.py:20-30 | the executor's answer is never "no result": it is rows with their columns, or an error text |
| Chat.HandleChat | app.py:119-151 | the status is 200, 400 or 500; 200 exactly when a formatted result is returned; 500 exactly for the internal-error reply |
| Chat.MissingQueryRejected | app.py:124-125 | a `null` body, or an object without "query", is answered 400 with a request for the field |
| Chat.RejectionIgnoresPipeline | app.py:122-151 | every 400 is decided before SQL is generated: the reply does not depend on the generator or the executor |
| Chat.AcceptedBodiesAreQueries | app.py:124-127 | only an object with a "query" key gets a 200 or a 500 |
| Chat.UnknownIntentRejected | app.py:130-132 | a text query the detector cannot classify is answered 400 |
| Chat.ClassifiedQueryOutcome | app.py:134-146 | for a classified text query, a raising generator or executor gives 500, and otherwise the reply is 200 with the formatted result for that intent |
| Chat.NonTextQueryFails | app.py:130-146 | a classified query that is a list or an object fails in generation and is answered 500 |
| Chat.ScalarQueryRejected | app.py:127-151 | a query that is a number, a boolean or null makes detection raise and is answered 400 |
| Chat.AnswersAreMeaningful | app.py:140-142 | a 200 reply never carries "Invalid intent" nor a per-intent "no ... found" message |
| Chat.DatabaseErrorAnswered | app.py:134-142 | a classified text query whose SQL fails in the database is answered 200 with the database's error text |
| Chat.TotalSalaryEndToEnd | app.py:119-151 | "What is the total salary in Marketing", over rows with one `Salary` column, is answered 200 with the total of that column |

## Left out

- `generate_sql_query` (app.py:33-49) is a text-to-SQL language model. It is a parameter of `Chat.HandleChat` that returns SQL text or raises; the tokenizer, the device choice and the `SQL:` clean-up are not modelled.
- `execute_query` (app.py:20-30) is SQLite I/O. It is a parameter that returns rows with column names, returns an error text, or raises. The database, its schema and the connection are not modelled.
- Cell values are integers, text or NULL. SQLite REAL values, floats, NaN rendering, and pandas dtype inference are left out.
- Results.Numeric: reads text as an optional sign followed by decimal digits. It does not model the other forms `to_numeric` accepts (surrounding whitespace, fractions, exponents, "inf", "nan").
- Results.SalaryTotal: is an unbounded integer sum. It does not model int64 overflow of pandas' sum, nor the float total printed when a NaN was skipped.
- Formatting.Format: the salary branch's in-place overwrite of the `Salary` column is modelled as a value, since nothing reads the frame afterwards.
- Formatting.Format: the table HTML of `df.to_html` (app.py:88) is left abstract as `EmployeeTable(columns, rows)`. The text of each message is left abstract as one constructor per message.
- Formatting.ManagerMessage: with a repeated `Manager` column, pandas returns a Series, which is modelled as the sequence of the first row's values in those columns. The Series' printed form is not modelled.
- A row whose width differs from the number of columns is modelled as the constructor's error. Pandas' exact rules for ragged rows and for an empty column list are not modelled.
- Flask's JSON parsing (app.py:121) is not modelled: a body that is not JSON, or has the wrong content type, is rejected by Flask before the handler's own checks. Numbers in a body are integers.
- Logging (app.py:16-17 and the calls throughout) is left out; it does not affect any reply.
- The `index` route, model loading (app.py:1-14) and the `MAX_INPUT_LENGTH` constant (app.py:15) are left out. The constant is never used.
