# Precondition container policy and changed-table change generator

A Dafny model of two pieces of Liquibase's core.

**The precondition container** (`PreconditionContainer`) is the root of every precondition tree attached to a change set or change log. It holds three policy options and two optional message overrides:

- `onFail` ∈ HALT, CONTINUE, MARK_RAN, WARN;
- `onError` ∈ the same four values;
- `onSqlOutput` ∈ IGNORE, TEST, FAIL;
- `onFailMessage` and `onErrorMessage`.

The model covers how the options are parsed from strings (case-insensitively, with a default for null and an error listing every key for unknown values), the setters, and `load`, which parses the five attributes in a fixed order. It also covers `check`, which decides three things:

- whether the children are evaluated in the current execution mode (updating the database, or only emitting SQL);
- whether the outcome passes or is rethrown, and with which message and list;
- which warnings, log lines and listener notifications are emitted.

**The changed-table change generator** (`ChangedTableChangeGenerator`) claims the `Table` object type and its subtypes. It has no ordering constraints. It maps a difference set that contains a "remarks" entry to exactly one set-table-remarks change, built from the compared table.

Modules:

- `Wrappers` (wrappers.dfy): `Option` (a nullable Java reference) and `Result`.
- `PreconditionOptions`, `PreconditionOptionLemmas` (options.dfy): the option enums and their keys, case-insensitive matching, parsing, and the round-trip lemmas.
- `PreconditionContainerState`, `PreconditionContainerLemmas` (container.dfy): the container's fields, the setters, setter sequences and `load`.
- `PreconditionCheck`, `PreconditionCheckLemmas` (check.dfy): `check` as a pure function.
  - Inputs: the container, the `updatesDatabase` mode, the change log and change set labels, whether a listener is present, and the outcome of the children's AND.
  - Output: what is thrown (if anything), the emitted events, and whether the children were evaluated.
- `ChangedTableChangeGenerator`, `ChangedTableChangeGeneratorLemmas` (changed_table.dfy): `getPriority`, `runAfterTypes`/`runBeforeTypes` and `fixChanged`.

Modelling choices:

- **One datatype for both policies.** `FailOption` and `ErrorOption` have the same keys in the same order, so one datatype `Policy` serves both. The two names are kept as type synonyms.
- **Policy fields can be null.** The three policy fields are `Option`s because the Java fields are references. The enum setters `setOnFail(FailOption)` and `setOnError(ErrorOption)` store null as given. `setOnSqlOutput(OnSqlOutputOption)` replaces null with IGNORE. `check` dereferences the fields, and reading a null one is the `NullPointer` outcome.
- **Case-insensitive matching.** `String.equalsIgnoreCase` is modelled by `FoldChar`. It maps ASCII lower case to upper case. It also maps the four non-ASCII letters whose Java case mapping lands on an ASCII letter: U+0130 and U+0131 to I, U+017F to S, and U+212A to K. The model is exact whenever one side consists of ASCII upper-case letters and `_`. Every key is of that form, and keys are the only thing it is compared against.
- **Collaborators are parameters.** In `fixChanged`, the two databases and the generator chain are type parameters. So the generator can neither consult nor change them. All inputs are values, so nothing is mutated.

In SQL-output mode the FAIL exception is thrown inside the `try` block (PreconditionContainer.java:206). So the `onFail` handler receives it, and `onFail = WARN` swallows it (`SqlFailSwallowedByWarn`).

## Model

| member | source | states |
|---|---|---|
| `PreconditionOptions.PolicyKeys` | liquibase-core/src/main/java/liquibase/precondition/core/PreconditionContainer.java:26-60 | the keys in declaration order are exactly "HALT", "CONTINUE", "MARK_RAN", "WARN" |
| `PreconditionOptions.SqlOutputKeys` | liquibase-core/src/main/java/liquibase/precondition/core/PreconditionContainer.java:63-78 | the keys in declaration order are exactly "IGNORE", "TEST", "FAIL" |
| `PreconditionOptions.FirstMatch` | liquibase-core/src/main/java/liquibase/precondition/core/PreconditionContainer.java:94-99 | the index of the first key in declaration order that equals the value ignoring case; none is found exactly when no key matches |
| `PreconditionOptions.ParsePolicy` | liquibase-core/src/main/java/liquibase/precondition/core/PreconditionContainer.java:90-131 | null gives HALT; a success is an option whose key equals the string ignoring case; it fails exactly when no key matches; the error names the attribute and the value, and lists all four keys in order |
| `PreconditionOptions.ParseSqlOutput` | liquibase-core/src/main/java/liquibase/precondition/core/PreconditionContainer.java:142-159 | null gives IGNORE; a success is an option whose key equals the string ignoring case; it fails exactly when no key matches; the error names `onSqlOutput` and lists the three keys |
| `PreconditionOptionLemmas.ParsePolicyRoundTrip` | liquibase-core/src/main/java/liquibase/precondition/core/PreconditionContainer.java:94-99 | a string parses to policy p if and only if it equals p's key ignoring case, in any casing |
| `PreconditionOptionLemmas.ParseSqlOutputRoundTrip` | liquibase-core/src/main/java/liquibase/precondition/core/PreconditionContainer.java:148-153 | a string parses to sql-output option o if and only if it equals o's key ignoring case |
| `PreconditionOptionLemmas.PolicyToStringParses` | liquibase-core/src/main/java/liquibase/precondition/core/PreconditionContainer.java:38-41 | parsing a policy's `toString()` gives that policy back |
| `PreconditionOptionLemmas.SqlOutputToStringParses` | liquibase-core/src/main/java/liquibase/precondition/core/PreconditionContainer.java:74-77 | parsing a sql-output option's `toString()` gives that option back |
| `PreconditionOptionLemmas.PolicyPossibleValuesText` | liquibase-core/src/main/java/liquibase/precondition/core/PreconditionContainer.java:100-104 | the listed possible values read "HALT, CONTINUE, MARK_RAN, WARN" |
| `PreconditionOptionLemmas.SqlOutputPossibleValuesText` | liquibase-core/src/main/java/liquibase/precondition/core/PreconditionContainer.java:154-158 | the listed possible values read "IGNORE, TEST, FAIL" |
| `PreconditionContainerState.Fresh` | liquibase-core/src/main/java/liquibase/precondition/core/PreconditionContainer.java:80-84 | a new container has onFail HALT, onError HALT, onSqlOutput IGNORE and no message overrides |
| `PreconditionContainerState.SetOnFailText` | liquibase-core/src/main/java/liquibase/precondition/core/PreconditionContainer.java:90-106 | null stores HALT; a non-null string is accepted exactly when it equals some key ignoring case, and then stores an option whose key it equals; otherwise the error names onFail and the value and lists the four keys, and the container is unchanged; no other field changes |
| `PreconditionContainerState.SetOnErrorText` | liquibase-core/src/main/java/liquibase/precondition/core/PreconditionContainer.java:116-132 | the same for `onError`: null stores HALT, a string is accepted exactly when it matches a key, and the error names onError and the value and lists the four keys |
| `PreconditionContainerState.SetOnSqlOutputValue` | liquibase-core/src/main/java/liquibase/precondition/core/PreconditionContainer.java:161-167 | null stores IGNORE, and any other option is stored as given; the field is never left null |
| `PreconditionContainerState.SetOnSqlOutputText` | liquibase-core/src/main/java/liquibase/precondition/core/PreconditionContainer.java:142-159 | null stores IGNORE; a non-null string is accepted exactly when it equals some key ignoring case, and then stores an option whose key it equals; otherwise the error names onSqlOutput and the value and lists the three keys, and the container is unchanged |
| `PreconditionContainerState.Apply` | liquibase-core/src/main/java/liquibase/precondition/core/PreconditionContainer.java:108-183 | the enum setters for onFail and onError and the two message setters store their argument as given, null included, and never throw; the onSqlOutput enum setter stores the option or IGNORE for null; only the string setters can throw; each setter writes only its own field |
| `PreconditionContainerState.Load` | liquibase-core/src/main/java/liquibase/precondition/core/PreconditionContainer.java:272-280 | load succeeds exactly when all three option strings parse, and the resulting state depends only on the node; a bad onError aborts before any field is written; a bad onFail aborts after onError and onErrorMessage are written; a bad onSqlOutput aborts after the four other fields are written and leaves onSqlOutput as it was |
| `PreconditionContainerLemmas.LoadIsSetterSequence` | liquibase-core/src/main/java/liquibase/precondition/core/PreconditionContainer.java:273-277 | load is its five setter calls made in order, stopping at the first that throws |
| `PreconditionContainerLemmas.SetterSequenceKeepsSqlOutput` | liquibase-core/src/main/java/liquibase/precondition/core/PreconditionContainer.java:142-167 | no sequence of setter calls leaves onSqlOutput null |
| `PreconditionContainerLemmas.SetterSequenceKeepsPolicies` | liquibase-core/src/main/java/liquibase/precondition/core/PreconditionContainer.java:90-136 | onFail and onError stay non-null through any setter sequence that never hands their enum setters null |
| `PreconditionContainerLemmas.NullFailOptionIsStored` | liquibase-core/src/main/java/liquibase/precondition/core/PreconditionContainer.java:108-110 | the enum setter for onFail stores null as given |
| `PreconditionContainerLemmas.LoadEmptyNodeIsFresh` | liquibase-core/src/main/java/liquibase/precondition/core/PreconditionContainer.java:272-277 | loading a node with none of the attributes resets any container to the fresh state |
| `PreconditionContainerLemmas.LoadMixedCaseExample` | liquibase-core/src/main/java/liquibase/precondition/core/PreconditionContainer.java:273-277 | loading onFail "warn", onError "Halt", onSqlOutput "test" gives WARN, HALT, TEST |
| `PreconditionContainerLemmas.LoadBogusFailExample` | liquibase-core/src/main/java/liquibase/precondition/core/PreconditionContainer.java:275 | loading onFail "bogus" fails with the message "Unknown onFail attribute value 'bogus'.  Possible values: HALT, CONTINUE, MARK_RAN, WARN" and leaves a fresh container unchanged |
| `PreconditionCheck.SqlModeFailure` | liquibase-core/src/main/java/liquibase/precondition/core/PreconditionContainer.java:206 | the SQL-mode failure's message is "Unexpected precondition in updateSQL mode with onUpdateSQL value: FAIL", and it carries exactly one failed precondition with that message |
| `PreconditionCheck.RanOn` | liquibase-core/src/main/java/liquibase/precondition/core/PreconditionContainer.java:188-191 | ranOn is the change set when there is one, otherwise `String.valueOf` of the change log, which is "null" for a null change log |
| `PreconditionCheck.OnFailed` | liquibase-core/src/main/java/liquibase/precondition/core/PreconditionContainer.java:215-239 | only WARN swallows the failure. WARN emits a UI warning and a log warning naming ranOn, then notifies a listener if present. The warning's summary is the onFailMessage if set, else the failed-list size. Other policies emit nothing and rethrow the original, or a failure carrying onFailMessage. A null onFail is a null dereference |
| `PreconditionCheck.OnErrored` | liquibase-core/src/main/java/liquibase/precondition/core/PreconditionContainer.java:240-263 | only WARN swallows the error. CONTINUE logs at info level and rethrows the original, ignoring onErrorMessage. WARN logs a warning and notifies a listener if present. HALT and MARK_RAN rethrow the original, or an error carrying onErrorMessage. Every rethrown error keeps the same errored list |
| `PreconditionCheck.Check` | liquibase-core/src/main/java/liquibase/precondition/core/PreconditionContainer.java:186-264 | children are evaluated exactly when the database is updated or onSqlOutput is TEST. Under IGNORE in SQL mode the check passes silently. Under FAIL in SQL mode it goes through the failed-outcome handler. Failed and errored children go to their handlers. A failure is thrown only from the failed path, an error only from the errored path. A settled container never dereferences null |
| `PreconditionCheckLemmas.CheckPassesExactly` | liquibase-core/src/main/java/liquibase/precondition/core/PreconditionContainer.java:194-263 | the check passes if and only if children are skipped under IGNORE, children hold, or WARN absorbs the outcome that was reached |
| `PreconditionCheckLemmas.UnevaluatedChildrenAreIrrelevant` | liquibase-core/src/main/java/liquibase/precondition/core/PreconditionContainer.java:199-214 | when children are not evaluated, their outcome cannot change the result |
| `PreconditionCheckLemmas.UpdateModeIgnoresSqlOutput` | liquibase-core/src/main/java/liquibase/precondition/core/PreconditionContainer.java:200-201 | in database-updating mode, onSqlOutput has no effect |
| `PreconditionCheckLemmas.SqlTestModeIsUpdateMode` | liquibase-core/src/main/java/liquibase/precondition/core/PreconditionContainer.java:203-204 | under TEST, SQL-output mode checks exactly as database-updating mode |
| `PreconditionCheckLemmas.ListenerOnlyOnWarn` | liquibase-core/src/main/java/liquibase/precondition/core/PreconditionContainer.java:226-255 | the listener is notified only on a WARN path, only with WARN, and only when a listener is present |
| `PreconditionCheckLemmas.ErrorContinueIgnoresMessage` | liquibase-core/src/main/java/liquibase/precondition/core/PreconditionContainer.java:248-250 | with onError CONTINUE, the original error is rethrown whatever onErrorMessage holds |
| `PreconditionCheckLemmas.SqlFailSwallowedByWarn` | liquibase-core/src/main/java/liquibase/precondition/core/PreconditionContainer.java:199-232 | SQL-mode FAIL with onFail WARN passes without evaluating the children, warning on ranOn with a count of one |
| `ChangedTableChangeGenerator.GetPriority` | liquibase-core/src/main/java/liquibase/diff/output/changelog/core/ChangedTableChangeGenerator.java:17-22 | DEFAULT exactly when the table class is among the object type's class and its superclasses, NONE otherwise |
| `ChangedTableChangeGenerator.TableTypeIffAncestor` | liquibase-core/src/main/java/liquibase/diff/output/changelog/core/ChangedTableChangeGenerator.java:18 | `isAssignableFrom` on the table class holds exactly when the table class is in the superclass chain |
| `ChangedTableChangeGenerator.RunAfterTypes` | liquibase-core/src/main/java/liquibase/diff/output/changelog/core/ChangedTableChangeGenerator.java:25-27 | no run-after constraint (null) |
| `ChangedTableChangeGenerator.RunBeforeTypes` | liquibase-core/src/main/java/liquibase/diff/output/changelog/core/ChangedTableChangeGenerator.java:30-32 | no run-before constraint (null) |
| `ChangedTableChangeGenerator.FixChanged` | liquibase-core/src/main/java/liquibase/diff/output/changelog/core/ChangedTableChangeGenerator.java:35-57 | null exactly when there is no "remarks" difference. Otherwise exactly one change, carrying the table's own remarks. Schema and table names are never set. The catalog name is the schema's catalog exactly when output control includes catalogs, and unset otherwise. A missing schema when the catalog is asked for is a null dereference |
| `ChangedTableChangeGeneratorLemmas.OnlyRemarksPresenceMatters` | liquibase-core/src/main/java/liquibase/diff/output/changelog/core/ChangedTableChangeGenerator.java:38-39 | two difference sets that agree on whether "remarks" is present give the same result, so the values in the Difference record are never used |
| `ChangedTableChangeGeneratorLemmas.IncludeSchemaIgnored` | liquibase-core/src/main/java/liquibase/diff/output/changelog/core/ChangedTableChangeGenerator.java:44-48 | the include-schema flag has no effect on the result |
| `ChangedTableChangeGeneratorLemmas.PriorityExamples` | liquibase-core/src/main/java/liquibase/diff/output/changelog/core/ChangedTableChangeGenerator.java:17-22 | a subclass of the table class gets DEFAULT; an unrelated class gets NONE |

## Left out

- The executor lookup through the scope and executor service (PreconditionContainer.java:193) is I/O. It is replaced by the boolean `updatesDatabase` input.
- The AND-evaluation of the children (`super.check`) and child loading (`super.load`) come from `AndPrecondition`, which is not part of this model. The children's outcome is an input. Nothing is claimed about short-circuiting or about how the failed and errored lists are collected.
- The UI and log sinks, and the exact warning text with its line separators and per-precondition lines, are I/O formatting. They are modelled as events that carry `ranOn` and either the list size or the override text.
- The error-path log lines name the container's own `toString`, which is defined outside these files. The events leave that text out.
- `PreconditionFailedException`, `PreconditionErrorException`, `FailedPrecondition` and `ErrorPrecondition` are not part of this model. A failed precondition keeps only its message. The change log and precondition references that the exception constructor attaches are dropped.
- The `ParsedNode` and `ResourceAccessor` plumbing is modelled as a map from attribute name to string. The `ParsedNodeException` that `getChildValue` may throw is not modelled.
- `getName` and `getSerializedObjectNamespace` are constant strings with no behaviour.
- `Join` stands for `StringUtil.join`, which is not part of this model. It is given the usual separator-between-elements meaning.
- The generator chain's registry, priority sorting, before/after ordering and delegation to the next generator are not in these files.
- The numeric values of the priority constants come from the generator interface, which is not part of this model. Priorities are the two named levels.
- `fixChanged` casts `changedObject` to `Table`, which can throw a `ClassCastException`. The model's parameter is already a table; the cast's failure is not modelled because `getPriority` admits only table types.
- `PreconditionOptions.EqualsIgnoreCase`: agrees with `String.equalsIgnoreCase` only when one side consists of ASCII upper-case letters and `_`, because full Unicode case mapping is not modelled; the keys are always one side.
