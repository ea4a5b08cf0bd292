# psqlextra schema editor, modelled in Dafny

This project models `PostgresSchemaEditor` from `psqlextra/backend/schema.py`.
That class is django-postgres-extra's schema editor. It adds three things to
Django's PostgreSQL schema editor:

- **PostgreSQL declarative partitioning.**
  - `create_partitioned_model` takes the `CREATE TABLE` that Django would run and rewrites it. Every ` PRIMARY KEY` is removed, the last character is dropped, and a composite primary key and a `PARTITION BY` clause are appended.
  - `add_range_partition`, `add_list_partition` and `add_default_partition` create `CREATE TABLE ... PARTITION OF ...` children.
  - Every one of these first validates the model's `partitioning_method` and `partitioning_key` (`_partitioning_properties_for_model`).
- **A side-effect pipeline.** The six overrides (`create_model`, `delete_model`, `alter_db_table`, `add_field`, `remove_field`, `alter_field`) call Django's base operation and the hook of every side effect, in list order.
  - `delete_model` and `remove_field` call the hooks first.
  - The other four call the base operation first.
  - `__init__` hands each side effect the editor's `execute` and `quote_name`.
- **Statement interception.** `_extract_sql` temporarily replaces the editor's `execute` with a closure that records the arguments of every call.

The model has six modules:

- `Python` (`python.dfy`): the Python values that cross the editor's boundary, and their truthiness.
- `Text` (`text.dfy`): the string operations the builders use.
  - `str.join` is defined directly and serves as the reference for the others.
  - `str.replace` is proved equal to joining the pieces of a left-to-right `split`. The pieces are proved to join back to the original text.
  - `s[:-1]` is proved to drop exactly the last character.
  - ASCII `upper` is proved to map each lower-case letter to its upper-case letter and to keep every other character.
  - `%`-formatting with `%s` holes is proved to put each value into its hole, in order.
- `Partitioning` (`partitioning.dfy`): the validation.
  - `Validate` is a function.
  - `PartitioningPropertiesForModel` is a method with the source's lookup loop, proved equal to `Validate`.
- `SqlTemplates` and `PartitionSql` (`partition_sql.dfy`): the class's statement templates and the four statement builders.
- `EditorSpec` (`editor_spec.dfy`): the editor's state as a value and what every operation does to it, as functions. The state has three parts:
  - where `execute` currently points: the real `execute`, or the interceptor of a given recorder;
  - every recorder list created so far;
  - a log of statements that reached the database, base-operation calls and hook calls.

  The lemmas in this module state the ordering, capture and routing properties.
- `Editor` (`schema_editor.dfy`): class `SchemaEditor`.
  - Its fields are `execute`, `recorders`, `log` and `sideEffects`. Its methods update those fields as the source's methods do.
  - Each method is proved to produce exactly the state that the matching `EditorSpec` function describes.

Inputs that the code takes from outside are parameters of the model:

- Django's base operations and the side effects' hooks are an `Engine`. For each operation (or each side effect and operation), it gives the `execute` calls made and whether a raise follows them.
- `quote_name` is a function `q`.
- The members of `PostgresPartitioningMethod` are a set of strings.
- A Django model is reduced to its name, table, primary-key field name, field names and the two partitioning attributes.

Three behaviours of the code that a caller might not expect are modelled as written:

- **Duplicate key columns.** The composite primary key lists the primary-key column and then every key column. A primary key that is also a key column is therefore listed twice (`PartitionSql.CompositeKeyRepeatsKeyedPk`).
- **No restore on a raise.** `_extract_sql` restores `execute` only on a normal return (psqlextra/backend/schema.py:226-230). `EditorSpec.RaiseInsideExtractSwallowsLaterStatements` shows the consequence: after a raise, statements sent through the editor's own `execute` never reach the database.
- **Hooks execute for real.** The side effects hold the real `execute`, bound in `__init__`. Hooks called during interception therefore execute for real, and only the base operation's statements are captured (`EditorSpec.ExtractSqlCapturesBaseStatements`).

## Model

| member | source | states |
|---|---|---|
| `Partitioning.Validate` | psqlextra/backend/schema.py:245-289 | Succeeds exactly when all of these hold: the method is a non-empty member of the enumeration; the key is a non-empty list; every key entry names a field of the model. On success it hands back the method and key unchanged. |
| `Partitioning.ValidateReportsFirstViolation` | psqlextra/backend/schema.py:248-287 | The checks do not accumulate. The error reported is the first failing check in source order: not configured, unknown method, key not a list, unknown field. Validation succeeds exactly when no check fails. |
| `Partitioning.PartitioningPropertiesForModel` | psqlextra/backend/schema.py:276-289 | The lookup loop stops at the first key entry that is not a field, and its result equals `Validate`. |
| `PartitionSql.TemplateHoles` | psqlextra/backend/schema.py:23-30 | The templates have 2 (`PARTITION BY`), 2 (default), 4 (range) and 3 (list) `%s` holes. The composite-key template at line 71 has 2. So every `%` in the source is given as many values as it needs. |
| `PartitionSql.PartitionedTableSqlShape` | psqlextra/backend/schema.py:65-81 | The parent statement is built in four steps. (1) Cut the intercepted SQL at every ` PRIMARY KEY` and join the pieces. (2) Drop the last character. (3) Append `, PRIMARY KEY (` followed by the quoted primary key and the quoted key fields in declared order, joined by `, `, then `))`. (4) Append ` PARTITION BY `, the upper-cased method, ` (`, the same quoted list and `)`. |
| `PartitionSql.CompositePrimaryKeyClause` | psqlextra/backend/schema.py:71-74 | The composite-key template puts the quoted primary key first and the key list after it. |
| `PartitionSql.PartitionByClause` | psqlextra/backend/schema.py:78-81 | The `PARTITION BY` template puts the method first and the key list in parentheses. |
| `PartitionSql.CompositeKeyRepeatsKeyedPk` | psqlextra/backend/schema.py:69-74 | When the primary key is also a key field, its quoted name appears twice in the composite key: duplicates are not removed. |
| `PartitionSql.RangePartitionSqlShape` | psqlextra/backend/schema.py:111-116 | The statement is `CREATE TABLE q(name) PARTITION OF q(table) FOR VALUES FROM (%s) TO (%s)`. When the quoted names hold no `%`, it has exactly two holes left for the bounds. |
| `PartitionSql.ListPartitionSqlShape` | psqlextra/backend/schema.py:140-144 | The statement is `CREATE TABLE q(name) PARTITION OF q(table) FOR VALUES IN (...)`. Inside `IN (...)` there is one `%s` per value, joined by `,` with no blank. When the quoted names hold no `%`, the holes number exactly the values. |
| `PartitionSql.DefaultPartitionSqlShape` | psqlextra/backend/schema.py:156-159 | The statement is `CREATE TABLE q(name) PARTITION OF q(table) DEFAULT`. When the quoted names hold no `%`, it has no hole. |
| `Text.ReplaceJoinsPieces` | psqlextra/backend/schema.py:70 | `str.replace` equals splitting at the non-overlapping occurrences, left to right, and joining with the replacement. |
| `Text.SplitJoinRoundTrip` | psqlextra/backend/schema.py:70 | Joining the split pieces with the pattern gives back the original text. |
| `Text.SplitPiecesAvoidPattern` | psqlextra/backend/schema.py:70 | No piece between removed occurrences contains ` PRIMARY KEY`. |
| `Text.DropLast` | psqlextra/backend/schema.py:71 | `s[:-1]` is `s` without its last character, and it is empty for an empty string. |
| `Text.UpperMapsLetters` | psqlextra/backend/schema.py:79 | `partitioning_method.upper()` keeps the length. Each ASCII `a`-`z` becomes the letter at the same place in `A`-`Z`; every other character is kept. |
| `Text.UpperIdempotent` | psqlextra/backend/schema.py:79 | The upper-cased method holds no ASCII lower-case letter, and upper-casing it again changes nothing. |
| `Text.FormatFillsHoles` | psqlextra/backend/schema.py:111-116 | `%` applied to text with `%s` holes between literal pieces puts each value into its hole, in order. The template has exactly as many holes as there are values. |
| `Text.PlaceholderListCount` | psqlextra/backend/schema.py:143 | `",".join(["%s"] * n)` holds exactly `n` holes and no blank. |
| `EditorSpec.RunStmtsEffect` | psqlextra/backend/schema.py:223-226 | A series of `execute` calls either reaches the database (each call is logged, in order) or is intercepted. Intercepted calls extend the recorder with their arguments in call order and reach nothing. |
| `EditorSpec.BaseRoutesThroughExecute` | psqlextra/backend/schema.py:49 | The base operation's call is logged. Its statements go through the editor's current `execute`. |
| `EditorSpec.HooksInvokedInOrder` | psqlextra/backend/schema.py:51-52 | Side effects run in list order up to and including the first that raises. Each hook's call and statements are logged. The raise is reported as that side effect's. |
| `EditorSpec.DispatchEffect` | psqlextra/backend/schema.py:46-52 | A dispatch appends the base call and the hook calls in their order. It leaves `execute` unchanged. The recorder in use gains the base operation's arguments only when the base operation ran. |
| `EditorSpec.DispatchOrder` | psqlextra/backend/schema.py:163-209 | `create_model`, `alter_db_table`, `add_field` and `alter_field` call the base operation and then the hooks in list order. `delete_model` and `remove_field` call the hooks first and the base operation last. A raise stops every call after it, including the base call in `delete_model` and `remove_field`. |
| `EditorSpec.ExecutionsWhileIntercepted` | psqlextra/backend/schema.py:40-42 | While the editor's `execute` is intercepted, the database receives exactly the statements of the hooks that run, in order, because the side effects hold the real `execute`. It receives none of the base operation's statements. |
| `EditorSpec.ExtractSqlCapturesBaseStatements` | psqlextra/backend/schema.py:211-231 | The result is exactly the base operation's `execute` arguments, concatenated in call order, and `execute` is restored after a normal return. After a raise the interceptor stays installed, and a later `execute` reaches no database. Earlier recorders are untouched. The hooks' statements, not the base operation's, reach the database. |
| `EditorSpec.ExtractOneStatement` | psqlextra/backend/schema.py:219-231 | When the base operation makes one `execute` call and nothing raises, `_extract_sql` returns that call's arguments and leaves the real `execute` in place. |
| `EditorSpec.CreatePartitionedOutcome` | psqlextra/backend/schema.py:57-83 | A misconfigured model raises before anything runs. A raise in the intercepted `create_model` propagates and leaves the interceptor installed. Otherwise success happens exactly when the capture is a two-element list whose first element is text; any other capture length raises when unpacked. On success the database receives the hooks' statements and then the rewritten statement, once, with the captured parameters. |
| `EditorSpec.CreatePartitionedExecutesOnce` | psqlextra/backend/schema.py:63-83 | When the base operation issues one `execute(sql, params)`, the log is: the base call, the hooks' calls and statements, then the one rewritten statement with `params` unchanged. The original statement only ends up in the recorder. |
| `EditorSpec.RaiseInsideExtractSwallowsLaterStatements` | psqlextra/backend/schema.py:226-230 | Suppose `create_partitioned_model` raises inside the interception. A range partition added afterwards on the same editor then reports success, but no statement reaches the database; it is appended to the abandoned recorder. |
| `EditorSpec.AddRangePartitionStatement` | psqlextra/backend/schema.py:109-118 | A misconfigured model raises and the editor is left unchanged. Otherwise exactly one statement is executed: the range partition, with the bounds as the pair `(from_values, to_values)`. |
| `EditorSpec.AddListPartitionStatement` | psqlextra/backend/schema.py:138-146 | A misconfigured model raises and the editor is left unchanged. Otherwise exactly one statement is executed, with one hole per value and the values list, in order, as its parameters. |
| `EditorSpec.AddDefaultPartitionStatement` | psqlextra/backend/schema.py:154-161 | A misconfigured model raises and the editor is left unchanged. Otherwise exactly one statement is executed, with no parameters. |
| `Editor.SchemaEditor.constructor` | psqlextra/backend/schema.py:37-44 | Each side effect, in order, holds the real `execute` and the editor's `quote_name`. Nothing is intercepted yet. |
| `Editor.SchemaEditor.RunSideEffects` | psqlextra/backend/schema.py:51-52 | The loop over the side effects produces exactly `HooksSpec`'s state and outcome. The editor's invariant (every side effect bound to the real `execute`, an installed interceptor has its recorder) is kept. |
| `Editor.SchemaEditor.CreateModel` | psqlextra/backend/schema.py:46-52 | Its new state and outcome are `DispatchSpec` for `create_model`: base operation first. The editor's invariant (every side effect bound to the real `execute`, an installed interceptor has its recorder) is kept. |
| `Editor.SchemaEditor.DeleteModel` | psqlextra/backend/schema.py:163-169 | Its new state and outcome are `DispatchSpec` for `delete_model`: hooks first. The editor's invariant (every side effect bound to the real `execute`, an installed interceptor has its recorder) is kept. |
| `Editor.SchemaEditor.AlterDbTable` | psqlextra/backend/schema.py:171-179 | Its new state and outcome are `DispatchSpec` for `alter_db_table`: base operation first. The editor's invariant (every side effect bound to the real `execute`, an installed interceptor has its recorder) is kept. |
| `Editor.SchemaEditor.AddField` | psqlextra/backend/schema.py:181-187 | Its new state and outcome are `DispatchSpec` for `add_field`: base operation first. The editor's invariant (every side effect bound to the real `execute`, an installed interceptor has its recorder) is kept. |
| `Editor.SchemaEditor.RemoveField` | psqlextra/backend/schema.py:189-195 | Its new state and outcome are `DispatchSpec` for `remove_field`: hooks first. The editor's invariant (every side effect bound to the real `execute`, an installed interceptor has its recorder) is kept. |
| `Editor.SchemaEditor.AlterField` | psqlextra/backend/schema.py:197-209 | Its new state and outcome are `DispatchSpec` for `alter_field`: base operation first. The editor's invariant (every side effect bound to the real `execute`, an installed interceptor has its recorder) is kept. |
| `Editor.SchemaEditor.ExtractSql` | psqlextra/backend/schema.py:211-231 | Saves `execute`, installs an interceptor over a fresh recorder and runs the operation. It restores `execute` only on a normal return. The result is `ExtractSpec`'s, and the editor's invariant holds on both paths. |
| `Editor.SchemaEditor.CreatePartitionedModel` | psqlextra/backend/schema.py:54-83 | Validate, extract, unpack, rewrite, execute once. The result is `CreatePartitionedSpec`'s. |
| `Editor.SchemaEditor.AddRangePartition` | psqlextra/backend/schema.py:85-118 | Validate, then execute once. The result is `AddRangeSpec`'s. |
| `Editor.SchemaEditor.AddListPartition` | psqlextra/backend/schema.py:120-146 | Validate, then execute once. The result is `AddListSpec`'s. |
| `Editor.SchemaEditor.AddDefaultPartition` | psqlextra/backend/schema.py:148-161 | Validate, then execute once with no parameters. The result is `AddDefaultSpec`'s. |

## Left out

- Django's base schema editor is left out; it is foreign code. Each base operation is modelled as a fixed list of `execute` calls, optionally followed by a raise.
  - Its statements cannot depend on the editor's state.
  - A base operation that calls back into the editor's own overridden methods is not modelled.
- A hook's behaviour is looked up by the side-effect value (its name and the `execute` and `quote_name` it holds). Two side effects equal as values therefore behave alike; per-instance state inside a side effect is not modelled.
- The HStore side effects' own behaviour is left out. Their classes are not part of this model. A hook is modelled like a base operation, and a side effect only by its name and the `execute` and `quote_name` it holds. The `quote_name` binding is recorded, but no hook uses it here.
- Hook-level `execute` bindings:
  - The class-level `side_effects` list is shared by every editor instance. Each model editor holds its own list, so a later editor rebinding the same side effects to its own `execute` is not modelled.
  - `copy.deepcopy` of the bound `execute` is modelled as saving its current value. The real deep copy also copies the editor the method is bound to, which is not modelled.
- `quote_name`'s escaping rules are left out; they are backend-specific. It is a parameter.
  - A quoted name that contains `%` would add holes to a partition statement. The hole-count lemmas require that the quoted names contain no `%`.
- The contents of `PostgresPartitioningMethod` are left out; the enumeration's module is not part of this model. It is a set of strings. A method value is a member when it is a string equal to a member's value. Python's rules for `in` on an enumeration with non-string values are not modelled.
- `Text.Upper` covers ASCII letters only; Unicode case mapping is left out.
- Django model metadata is reduced to a set of field names. `get_field` succeeds exactly for those names.
- The wording of the `ImproperlyConfigured` messages is left out. The model keeps only which check failed.
- Database execution, connections, transactions, `collect_sql`/`atomic` and `deferred_sql` are left out; they are I/O and Django bookkeeping. The database is a log of the statements it received.
- Failures inside `execute` itself (errors reported by the database) are not modelled.
