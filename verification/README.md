# Verified model of django-pyturso

django-pyturso is a Django database backend over Turso, an embedded SQL engine. This project models its six
hardest components in Dafny and proves what they promise, for all inputs and for all runs.

## The components

**Placeholder translation** (`SqlText`, `Placeholders`, `PlaceholderLaws`, `QueryForms`, `NamedPlaceholders`,
`Bindings`). `SqlText` cuts a query into plain text, literals, identifiers and comments, without knowing about
placeholders. The translator is a loop over the query that is proved equal to a token-by-token specification. Its laws
relate the two: regions keep their kinds and their order, every `?` of the output is accounted for, and escaping
followed by translation is the identity. `QueryForms` says what every form of text and of placeholder, well formed or
not, becomes in front of any rest. `NamedPlaceholders` says for both modes exactly when the driver finds the regions
that the translator saw. `Bindings` adds the parameter check and the row feed of `executemany`.

**Write detection** (`SqlTokens`, `WriteDetector`). The detector is a token automaton; statements are syntax trees
with any list of common table expressions. It is exact on every printed tree.

**Transactions and cursors** (`Engine`, `Transactions`, `Sessions`, `Backend`, `Refinement`, `StoredRows`, `Clients`,
`Durability`, `Savepoints`, `Safety`, `SilentLosses`, `Lifecycle`). `Engine` is the environment below: committed data,
a working copy, savepoints, a driver that applies row-returning writes one row at a time during fetch, and faults that
may end the transaction. The second half of `Transactions` is the environment above: Django's commit, rollback,
savepoints, `on_commit` and `Atomic`. `Backend` holds the wrapper and the cursor as classes whose methods are proved
equal to the session functions. `Refinement` compares every run with a reference in which a write takes effect wholly
when it is executed, `StoredRows` follows the result rows of a write, and `Clients` drives the objects through whole
runs. `Durability` says when a transaction is begun and what reaches the committed database, `Savepoints` what a
rollback to a savepoint gives back. `Safety` follows a lost transaction through nested atomic blocks, and
`SilentLosses` one that disappears without an error. `Lifecycle` covers closing and the check between requests.

**Schema editing** (`SchemaEditor`, `Remake`, `RemakeLaws`, `RemakeRows`, `RemakeKeys`, `RemakeRoundTrips`). The
enter/exit protocol is a class that runs against a plan of faults at every step. The table remake edits two
dictionaries in place; the laws say what the dictionaries hold, what becomes of the keys, and what the copy statement
built from them does to every row.

**Schema text** (`TokenDepth`, `CheckExpressions`, `ConstraintParser`, `DefinitionRuns`, `TableConstraints`,
`DeclaredColumns`, `ConstraintNames`, `ColumnScans`, `ColumnDeclarations`). The parsers are loops over flags, proved
equal to folds; tables are syntax trees; parsing a printed table gives back what the tree declares.

**Foreign keys and SQL building** (`ForeignKeys`, `MatchSimple`, `References`, `AsciiCase`, `Quoting`, `Templates`,
`Temporal`, `TemporalMeaning`). The manual foreign-key checker, the reverse-reference closure behind a cascading
flush, identifier quoting, and the temporal SQL builders with their parameters and what they compute.

## Where a promise needs a condition

- A table remake loses an altered field exactly when a later alteration starts from the name or column it was given
  (`RemakeRows.AlteredSurvives`). Swapping two fields is the smallest such request (`RemakeRows.SwapLosesAColumn`).
- A transaction that disappears without an error inside an atomic block goes unnoticed until a call sends a
  statement (`SilentLosses.FirstStatementAfterSilentLoss`). In a block that began the transaction itself that call
  raises and nothing is begun again. Without such a call a block that is left normally seems to commit, and its
  callbacks run (`SilentLosses.SilentLossUnderAutocommit`; a smallest run is
  `SilentLosses.UnnoticedCommitUnderAutocommit`). In manual mode the call begins a second transaction and the callbacks
  stay (`SilentLosses.SecondTransactionInManualMode`).
- The driver reads a translated query as the translator did exactly when no placeholder name and no malformed
  placeholder contains an opening quote, or the start of a comment together with the character after it
  (`NamedPlaceholders.StructureIsSharedExactly`). Without mapping parameters that is always so.
  `NamedPlaceholders.QuoteInMalformedCandidate` and `NamedPlaceholders.DashAfterName` are small queries that fail.
- A CHECK is recorded with its own columns when it mentions one. Otherwise it is recorded with the columns of the next
  parenthesised group of its definition (`DefinitionRuns.EmptyCheckTakesNextGroup`).
- A foreign key whose target table does not exist is followed by a flush in the same spelling only; every other
  reference is followed in any case (`References.ReferencesUpToCase`).
- Unquoting inverts quoting exactly for names that are not already wrapped in double quotes
  (`Quoting.UnquoteInvertsQuote`).

## Model

| member | source | states |
|---|---|---|
| `Placeholders.ConvertPlaceholders` | src/django_pyturso/base.py:550-665 | the loop ends on every query and returns query text, positional count, required names, native flag and the first missing name of the token specification |
| `Placeholders.FindPlaceholderEnd` | src/django_pyturso/base.py:635-639 | the scan for the end of a `%(` candidate stops at the first `)` or at the next `%(` |
| `Placeholders.ReadQuoted` | src/django_pyturso/base.py:565-608 | inside comments, identifiers and literals one round reads one token, the same in both modes |
| `Placeholders.ReadNamed` | src/django_pyturso/base.py:634-656 | a `%(` candidate is a placeholder or one of three kinds of malformed text, each passed on as it stands; malformed text ends with the first parenthesis or before the next candidate |
| `Placeholders.ReadPlain` | src/django_pyturso/base.py:610-661 | in plain text one round reads one token of the specification |
| `PlaceholderLaws.TokensCoverQuery` | src/django_pyturso/base.py:561-661 | the tokens read together are the query, malformed placeholders included |
| `PlaceholderLaws.MissingNameIsRejected` | src/django_pyturso/base.py:651-654 | a mapping is rejected exactly when it lacks a required name, and the error names the first of these |
| `PlaceholderLaws.StructureIsPreserved` | src/django_pyturso/base.py:550-665 | in positional mode the regions of the output are the translated regions of the input: same kinds, same order, identifiers and comments unchanged |
| `PlaceholderLaws.QuestionMarksAreParameters` | src/django_pyturso/base.py:630-661 | the plain `?` of the output are the plain `?` of the input plus the positional count |
| `PlaceholderLaws.EscapeRoundTrip` | src/django_pyturso/base.py:561-661 | doubling `%` in plain text and literals and translating gives the SQL back, in both modes, from every state |
| `PlaceholderLaws.EscapedQueryHasNoBindings` | src/django_pyturso/base.py:550-665 | the same for whole translations: no error, no positional and no named binding |
| `PlaceholderLaws.LexAppend` | src/django_pyturso/base.py:561-661 | translation is compositional when no token straddles the seam |
| `QueryForms.PlaceholderForm` | src/django_pyturso/base.py:651-656 | `%(name)s` becomes `:name`, requires the name, and the rest is translated as if it stood alone |
| `QueryForms.ClosedCandidate` | src/django_pyturso/base.py:647-650 | a closed candidate that no `s` follows is passed on and binds nothing, and so it does not hide what follows |
| `QueryForms.InterruptedCandidate` | src/django_pyturso/base.py:643-646 | a candidate is passed on up to the next one |
| `QueryForms.UnclosedCandidate` | src/django_pyturso/base.py:640-642 | a candidate that nothing closes is passed on to the end |
| `QueryForms.MalformedTextIsShort` | src/django_pyturso/base.py:634-650 | no malformed text of a query holds a parenthesis before its end or another candidate |
| `QueryForms.PercentForm` | src/django_pyturso/base.py:602-629 | `%%` becomes `%` in plain text and in literals, in both modes |
| `QueryForms.PlainForm` | src/django_pyturso/base.py:657-661 | every other character of plain text is passed on, and exactly `?`, `:`, `@` and `$` set the native flag |
| `QueryForms.QuotedForm` | src/django_pyturso/base.py:582-592 | a name in double quotes or backticks is passed on whatever it holds |
| `QueryForms.BracketForm` | src/django_pyturso/base.py:582-592 | a name in brackets is passed on whatever it holds |
| `QueryForms.LineCommentForm` | src/django_pyturso/base.py:565-570 | a line comment is passed on up to the end of its line |
| `QueryForms.BlockCommentForm` | src/django_pyturso/base.py:572-580 | a block comment is passed on up to its end |
| `QueryForms.LiteralForm` | src/django_pyturso/base.py:594-608 | of a literal only doubled percent signs change |
| `NamedPlaceholders.StructureIsSharedExactly` | src/django_pyturso/base.py:634-656 | in both modes the regions of the output are the ones the translator saw, exactly when no name and no malformed candidate contains a delimiter |
| `NamedPlaceholders.KindsAreKept` | src/django_pyturso/base.py:634-656 | then the output has regions of the same kinds and in the same order as the query |
| `NamedPlaceholders.QuoteInMalformedCandidate` | src/django_pyturso/base.py:640-650 | a quote in a malformed candidate makes the driver read a replaced placeholder as part of a literal |
| `NamedPlaceholders.DashAfterName` | src/django_pyturso/base.py:651-656 | a name that ends with a dash can start a comment that the query does not have |
| `Bindings.AcceptedExactly` | src/django_pyturso/base.py:526-547 | without native placeholders a row is accepted exactly when it supplies the positional count, or at least all names |
| `Bindings.AcceptedWithNative` | src/django_pyturso/base.py:526-547 | beside native placeholders a sequence may hold more values than there are `%s`, never fewer |
| `Bindings.WhyRejected` | src/django_pyturso/base.py:526-547 | accepted parameters are passed on as they are, and a missing key is the error exactly when a mapping lacks a required name |
| `Bindings.OneFormOnly` | src/django_pyturso/base.py:630-656 | a translation has positional or named placeholders, never both |
| `Bindings.QuestionMarkIsNative` | src/django_pyturso/base.py:658-659 | a query without the native flag has no plain `?` |
| `Bindings.PositionalRowsFillEveryMark` | src/django_pyturso/base.py:526-547 | an accepted positional row has as many values as the driver sees question marks |
| `Bindings.FeedRows` | src/django_pyturso/base.py:772-777 | the driver receives, in order and one at a time, exactly the longest accepted prefix, cut where it fails itself, and the batch ends for that reason |
| `Bindings.ExecuteMany` | src/django_pyturso/base.py:761-777 | the first row fixes the translation for the batch; the feed is exact as above; without native placeholders each row taken supplies what the query needs; an empty batch does nothing |
| `WriteDetector.IsWriteStatement` | src/django_pyturso/base.py:668-710 | the loop computes the token automaton |
| `WriteDetector.NoiseIsIgnored` | src/django_pyturso/base.py:677-678 | whitespace and comments never change the answer |
| `SqlTokens.OnlyPaddingDisappears` | src/django_pyturso/base.py:677-678 | what is skipped is whitespace and comments, wherever they stand, and nothing else |
| `WriteDetector.ItemsAreSkipped` | src/django_pyturso/base.py:703-709 | a balanced list inside parentheses, of any depth, returns to the depth and the state it started from |
| `WriteDetector.GroupIsSkipped` | src/django_pyturso/base.py:703-709 | a balanced group outside parentheses ends the body of a common table after AS, and otherwise leaves the header state as it was |
| `WriteDetector.DetectsExactlyTheMainVerb` | src/django_pyturso/base.py:668-710 | the answer is yes exactly when the main verb is INSERT, UPDATE, DELETE or REPLACE in any case, for every list of common table expressions |
| `Backend.DatabaseWrapper.BeginTransaction` | src/django_pyturso/base.py:266-268 | one BEGIN reaches the engine, which refuses it inside a transaction |
| `Backend.DatabaseWrapper.EnsureOpenTransaction` | src/django_pyturso/base.py:270-279 | under autocommit nothing is begun; otherwise a transaction is active afterwards unless it raises; a transaction lost inside a block that `Atomic` began marks the block and drops the callbacks |
| `Backend.DatabaseWrapper.EnterGuard` | src/django_pyturso/base.py:732-737 | a block marked for rollback refuses every statement before anything is begun |
| `Backend.DatabaseWrapper.NoteDriverError` | src/django_pyturso/base.py:738-744 | a driver error that ends the transaction inside a block marks the block and drops the callbacks |
| `Backend.DatabaseWrapper.PrepareAutocommit` | src/django_pyturso/base.py:281-290 | autocommit is refused while a transaction is active; manual mode begins one |
| `Backend.DatabaseWrapper.RollbackToSavepoint` | src/django_pyturso/base.py:296-303 | savepoints of a lost transaction are reported as lost |
| `Backend.TursoCursor.Run` | src/django_pyturso/base.py:746-759 | execute equals the session function: guard, stored rows discarded, statement run, write drained |
| `Backend.TursoCursor.RunMany` | src/django_pyturso/base.py:761-777 | executemany equals the session function |
| `Backend.TursoCursor.PopRows` | src/django_pyturso/base.py:786-796 | rows leave the stored rows from the front and the others stay |
| `Backend.TursoCursor.Fetch` | src/django_pyturso/base.py:779-804 | the three fetch calls equal the session function; stored rows are handed out from the front, the others stay, and fetchall leaves none |
| `Backend.TursoCursor.Close` | src/django_pyturso/base.py:815-817 | a closed cursor keeps no rows |
| `Refinement.DetectorKnowsTheEngine` | src/django_pyturso/base.py:755-758 | the detector's answer is the engine's: the statement changes rows |
| `Refinement.StepSimulates` | src/django_pyturso/base.py:732-817 | one call leaves no unfinished write on any cursor and answers as the reference does |
| `Refinement.BackendRefinesEagerEngine` | src/django_pyturso/base.py:732-817 | over every run, with any number of cursors and any faults, the backend on the delaying engine equals the reference on the eager one |
| `Refinement.SameCommittedDatabase` | src/django_pyturso/base.py:746-804 | same committed database and same answers from a fresh connection, and no cursor is ever left holding a write |
| `StoredRows.FetchTakesFromTheFront` | src/django_pyturso/base.py:779-804 | what each fetch takes from the stored rows and what it leaves; a negative size raises |
| `StoredRows.NoRowIsLostOrRepeated` | src/django_pyturso/base.py:786-804 | over every run, the rows that a cursor has delivered and the rows still stored are the rows of its write |
| `StoredRows.StoredRowsReadLikeAQuery` | src/django_pyturso/base.py:786-804 | stored rows answer every fetch as a reading statement with the same rows does |
| `StoredRows.ReturningRowsAreDelivered` | src/django_pyturso/base.py:746-804 | from a finished write on, every run delivers its result rows in order, each once |
| `Clients.Client.Perform` | src/django_pyturso/base.py:732-817 | one call on the objects, on any cursor, is one step of the session, and the other cursors stay as they are |
| `Clients.Client.PerformAll` | src/django_pyturso/base.py:732-817 | driving the objects through a list of calls gives the trace of the session |
| `Clients.Serve` | src/django_pyturso/base.py:732-817 | a whole session on the objects commits the database of the eager reference and gives its answers |
| `Durability.BeginOpensOneTransaction` | src/django_pyturso/base.py:266-268 | BEGIN opens a transaction on the committed data and is refused inside another one |
| `Durability.StatementsRunInTransactions` | src/django_pyturso/base.py:270-279 | a statement begins a transaction exactly when autocommit is off, none is active and no block is responsible; with autocommit off it runs inside one; a marked block refuses it |
| `Durability.OnlyCommitsCommitInRuns` | src/django_pyturso/base.py:270-290 | over every run, with autocommit off the committed database changes exactly in a commit, to what the transaction made of it; under autocommit no transaction is active |
| `Durability.NothingIsKeptWithoutCommit` | src/django_pyturso/base.py:270-290 | in manual mode nothing reaches the database without a commit, whatever is executed, nested or fails, and a rollback shows it again |
| `Durability.SwitchingModes` | src/django_pyturso/base.py:281-290 | switching autocommit on is refused exactly while a transaction is active; switching it off ends inside one |
| `Durability.ClosingASession` | src/django_pyturso/base.py:458-470 | a close gives up active work and callbacks and nothing committed; an in-memory connection stays open outside blocks |
| `Savepoints.RollbackRestoresData` | src/django_pyturso/base.py:296-303 | over every session, a rollback to a savepoint raises or gives back the data of its creation |
| `Savepoints.FailedBlockIsUndone` | src/django_pyturso/base.py:296-303 | a block left with an exception is undone, or the enclosing block is marked |
| `Savepoints.LostSavepointsAreReported` | src/django_pyturso/base.py:296-303 | without a transaction nothing is sent and nothing changes |
| `Safety.NextAllowed` | src/django_pyturso/base.py:270-303 | what each call of a session may do to BEGIN, losses and callbacks |
| `Safety.NoBeginWhileLost` | src/django_pyturso/base.py:270-303 | from a loss to the end of the outermost block no call issues BEGIN |
| `Safety.ForgottenNeverRuns` | src/django_pyturso/base.py:738-744 | a forgotten callback never runs, however the session goes on |
| `Safety.NothingRestartsAfterLoss` | src/django_pyturso/base.py:270-303 | both, for every session from its start and every call that loses a transaction, at any depth of blocks, in autocommit and manual mode |
| `SilentLosses.GuardedStep` | src/django_pyturso/base.py:270-279 | the first statement after a silent loss is refused and marks the block, or begins a new transaction in manual mode |
| `SilentLosses.SilentLossUnderAutocommit` | src/django_pyturso/base.py:270-279 | for every session, every silent loss in a block that began its transaction and every continuation: no BEGIN, and a waiting callback ever runs exactly when no call noticed the loss and the block was left well |
| `SilentLosses.FirstStatementAfterSilentLoss` | src/django_pyturso/base.py:270-279 | in both modes: nothing happens before the first statement; it begins a transaction exactly in manual mode, and otherwise raises and ends the waiting callbacks |
| `SilentLosses.UnnoticedCommitUnderAutocommit` | src/django_pyturso/base.py:270-279 | a run of four calls without any error whose callback runs after its transaction was lost |
| `SilentLosses.SecondTransactionInManualMode` | src/django_pyturso/base.py:270-279 | a run in manual mode that begins twice and runs the callback of the lost transaction |
| `Lifecycle.ConnectionHolder.RollbackActiveTransactionForClose` | src/django_pyturso/base.py:437-451 | active work ends, or the connection is let go and the error leaves |
| `Lifecycle.ConnectionHolder.Close` | src/django_pyturso/base.py:458-470 | callbacks are dropped, active work ends, and the connection is let go inside a block or for a file |
| `Lifecycle.ConnectionHolder.CloseIfHealthCheckFailed` | src/django_pyturso/base.py:472-477 | an enabled check runs once and lets an unusable connection go |
| `Lifecycle.ConnectionHolder.CloseIfUnusableOrObsolete` | src/django_pyturso/base.py:479-505 | the check between requests, every early return included, leaves the state of its specification |
| `Lifecycle.CheckedIsGoneOrHealthy` | src/django_pyturso/base.py:479-505 | whatever fails, the connection is gone or has the configured autocommit, no recorded error and no stray transaction |
| `Lifecycle.CheckedKeepsHealthyConnections` | src/django_pyturso/base.py:479-505 | exactly the healthy connections are kept, with their data and a configured manual transaction; a failing read of the engine's state matters under autocommit only |
| `Lifecycle.CheckedRaisesExactly` | src/django_pyturso/base.py:437-505 | when the check raises, and what a connection that it lets go looks like |
| `Lifecycle.ClosedKeepsCommittedData` | src/django_pyturso/base.py:437-470 | a close outside blocks keeps an in-memory connection and its committed data and discards only active work; it raises exactly when the rollback fails or a physical close raises |
| `Lifecycle.HealthCheckLetsGo` | src/django_pyturso/base.py:472-477 | the connection goes exactly when the probe fails |
| `Lifecycle.HealthCheckIsSkipped` | src/django_pyturso/base.py:472-474 | without a connection, with checks off or after a check nothing happens |
| `SchemaEditor.Editor.SetForeignKeyState` | src/django_pyturso/schema.py:95-112 | no error means that the requested state is in force and was read back; which step raises otherwise |
| `SchemaEditor.Editor.RestoreForeignKeyState` | src/django_pyturso/schema.py:117-126 | the original state is back, or the connection is disposed and the error says why |
| `SchemaEditor.Editor.RestoreTransactionMode` | src/django_pyturso/schema.py:90-93 | the original mode is back |
| `SchemaEditor.Editor.Enter` | src/django_pyturso/schema.py:128-159 | the first reason for refusing; nothing left to undo after it; enforcement off and originals remembered otherwise |
| `SchemaEditor.EntrySucceeds` | src/django_pyturso/schema.py:128-159 | exactly when entry succeeds: concurrent editing outside transactions, enforcement readable, and off or switched off outside blocks |
| `SchemaEditor.RefusalsComeFirst` | src/django_pyturso/schema.py:130-145 | a refusal comes before anything is read or set |
| `SchemaEditor.SettingSucceeds` | src/django_pyturso/schema.py:103-112 | setting the enforcement raises exactly when it does not end in the requested state |
| `SchemaEditor.Editor.RunDeferred` | src/django_pyturso/schema.py:182-185 | deferred statements run once, in order, until one raises |
| `SchemaEditor.DeferredInTurn` | src/django_pyturso/schema.py:182-185 | each deferred statement runs on what the earlier ones left, and the first that raises ends the list |
| `SchemaEditor.Editor.CheckSchema` | src/django_pyturso/schema.py:186 | no error means that every constraint of the edited schema holds |
| `SchemaEditor.Editor.ExitSchema` | src/django_pyturso/schema.py:172-211 | which steps raise, the base exit after another error included; the leaving error follows exit, schema, body, restoration; an atomic editor commits everything or nothing |
| `SchemaEditor.Editor.With` | src/django_pyturso/schema.py:128-211 | for every combination of failing steps: each error is the one its step raises and the first in order leaves, mode restored, enforcement restored or connection disposed, and only databases whose constraints hold are committed |
| `SchemaEditor.SchemaIsSound` | src/django_pyturso/schema.py:180-189 | the schema has no error exactly when all deferred statements ran, the check was made and the constraints hold |
| `SchemaEditor.WhichExit` | src/django_pyturso/schema.py:190-198 | the base exit commits after a sound body and schema and rolls back otherwise |
| `SchemaEditor.RestorationSucceeds` | src/django_pyturso/schema.py:117-126 | when the original enforcement can be restored, from the state that body and exit left |
| `SchemaEditor.EveryCombinationOccurs` | src/django_pyturso/schema.py:190-211 | body, schema, exit and restoration errors occur in every combination that the protocol allows, so the order of leaving matters |
| `SchemaEditor.NothingIsLeftBroken` | src/django_pyturso/schema.py:180-198 | when the catalogue lists every table, no foreign key of the committed database is broken |
| `Remake.Dictionaries.Fill` | src/django_pyturso/schema.py:255-267 | every field under its name, every stored column copied from itself |
| `Remake.Dictionaries.DemoteKeys` | src/django_pyturso/schema.py:270-283 | under a new key an automatic key disappears with its column, another key becomes an ordinary field, and no key is left but those that an alteration replaces |
| `Remake.Dictionaries.ApplyAlterations` | src/django_pyturso/schema.py:296-313 | the two dictionaries and the rename table after all alterations |
| `Remake.Dictionaries.Prepare` | src/django_pyturso/schema.py:255-318 | all stages together yield the plan that the laws below speak about |
| `RemakeLaws.CopyFillsStoredColumns` | src/django_pyturso/schema.py:255-318 | without takeovers the copy names every stored column of the new table and nothing else, except a created column with a database default; columns are unambiguous |
| `RemakeRows.SurvivorIsCopied` | src/django_pyturso/schema.py:255-318 | a field that stays is in the new table and its column is copied from itself |
| `RemakeRows.CreatedIsFilled` | src/django_pyturso/schema.py:285-294 | a created column is filled with its default unless the database does that |
| `RemakeRows.AlteredIsKept` | src/django_pyturso/schema.py:296-313 | an altered field and its source stay in the dictionaries exactly when no later alteration starts from its name or column |
| `RemakeRows.AlteredSurvives` | src/django_pyturso/schema.py:296-318 | the same for a whole remake |
| `RemakeRows.SwapLosesAColumn` | src/django_pyturso/schema.py:296-313 | swapping two fields loses the second one, definition and values |
| `RemakeKeys.OnlyTheNewKeyStays` | src/django_pyturso/schema.py:270-313 | under a new key every key of the new table is the created field or the result of an alteration, for all requests |
| `RemakeKeys.AutomaticKeyDisappears` | src/django_pyturso/schema.py:270-283 | an automatic key that is not altered leaves the new table and the copy |
| `RemakeKeys.SurvivorIsUnchanged` | src/django_pyturso/schema.py:255-318 | a field that stays is unchanged, except that a key becomes an ordinary field under a new key |
| `RemakeKeys.AlteredNamesStay` | src/django_pyturso/schema.py:274-276 | a key whose name an altered field gets is left to the alteration |
| `RemakeKeys.RenamesAreExact` | src/django_pyturso/schema.py:296-302 | the rename table holds exactly the altered fields |
| `RemakeKeys.UniqueSetStaysValid` | src/django_pyturso/schema.py:324-327 | a unique set over fields that stay names fields of the new table |
| `RemakeRows.SourcesReadOldColumns` | src/django_pyturso/schema.py:263-318 | each source expression reads columns of the old table only |
| `RemakeRows.CopyIsDefined` | src/django_pyturso/schema.py:371-379 | the copy can run on every table with the old columns |
| `RemakeRows.SurvivorKeepsValues` | src/django_pyturso/schema.py:371-379 | a surviving column keeps its value in every row |
| `RemakeRows.AlteredKeepsValues` | src/django_pyturso/schema.py:303-313 | an altered column keeps its values, except that NULL becomes the database default, or else the default, when it becomes required |
| `RemakeRows.CreatedHoldsDefault` | src/django_pyturso/schema.py:285-294 | a created column holds its default in every row |
| `RemakeRoundTrips.RemadeTableHasModel` | src/django_pyturso/schema.py:255-318 | without takeovers the dictionaries describe a model, so the new table can be remade again |
| `RemakeRoundTrips.AddThenDelete` | src/django_pyturso/schema.py:285-318 | adding a field that is no key and deleting it gives back the original rows |
| `RemakeRoundTrips.AlterAndBack` | src/django_pyturso/schema.py:296-313 | altering a field in any way and back leaves every other column and converts that column twice |
| `RemakeRoundTrips.RenameAndBack` | src/django_pyturso/schema.py:296-313 | renaming and renaming back gives back the original rows |
| `RemakeRoundTrips.RequiredAndBack` | src/django_pyturso/schema.py:303-313 | making a column required and nullable again changes a row exactly where NULL became the default |
| `CheckExpressions.LookExpr` | src/django_pyturso/introspection.py:420-492 | one pass over a printed expression finds exactly its columns, left to right, over calls, operators, CASE, BETWEEN, IN, COLLATE and CAST at any depth |
| `CheckExpressions.LookParens` | src/django_pyturso/introspection.py:421-434 | a name before an opening parenthesis is no column; the columns of a list are those of its elements |
| `ConstraintParser.ReadInCheck` | src/django_pyturso/introspection.py:429-492 | one token inside a CHECK moves the search as specified |
| `ConstraintParser.ReadToken` | src/django_pyturso/introspection.py:360-492 | one token moves all flags of a definition as specified |
| `ConstraintParser.FirstOccurrences` | src/django_pyturso/introspection.py:510 | duplicates are dropped |
| `ConstraintParser.ParseDefinition` | src/django_pyturso/introspection.py:341-519 | the loop computes the fold over the tokens up to the end of one definition; no tokens are an error |
| `ConstraintParser.ParseTableConstraints` | src/django_pyturso/introspection.py:522-552 | definitions are parsed in turn into one dictionary; a table that does not close is an error |
| `DefinitionRuns.CheckRun` | src/django_pyturso/introspection.py:415-428 | a CHECK that mentions a column adds exactly its columns and is over at its closing parenthesis |
| `DefinitionRuns.EmptyCheckTakesNextGroup` | src/django_pyturso/introspection.py:415-428 | a CHECK that mentions no column stays open and takes the columns of the next group in its definition |
| `TableConstraints.GatherRun` | src/django_pyturso/introspection.py:388-403 | the columns of UNIQUE in order, in declared spelling, without COLLATE, ASC and DESC |
| `TableConstraints.WordsBeforeTheList` | src/django_pyturso/introspection.py:388-395 | words between UNIQUE and its list are skipped |
| `TableConstraints.DefinitionIsRead` | src/django_pyturso/introspection.py:341-519 | parsing a printed column, UNIQUE, CHECK or other definition gives what it declares |
| `TableConstraints.TableIsParsed` | src/django_pyturso/introspection.py:522-552 | parsing a printed table gives the constraints of all its definitions, whatever whitespace and comments are added |
| `TableConstraints.NoBodyNoConstraints` | src/django_pyturso/introspection.py:533-537 | a statement without a parenthesis has no constraints, and that is no error |
| `TableConstraints.UnclosedTableIsAnError` | src/django_pyturso/introspection.py:493-494 | a table that never closes is an error |
| `DeclaredColumns.ReferenceIsDeclared` | src/django_pyturso/introspection.py:357-489 | a name in an expression refers to the declared column that it matches up to ASCII case, in any quoting, and otherwise to none |
| `DeclaredColumns.UniqueColumnsAreDeclared` | src/django_pyturso/introspection.py:357-403 | the columns of UNIQUE come in declared spelling, or as written if not declared |
| `ConstraintNames.DistinctKeepsOrder` | src/django_pyturso/introspection.py:510 | the columns of a CHECK come once each, in the order of their first occurrence |
| `ConstraintNames.ConstraintIsFound` | src/django_pyturso/introspection.py:542-549 | each constraint is found under its title or its number, both constraints of a column with UNIQUE and CHECK included |
| `ConstraintNames.NothingElseIsFound` | src/django_pyturso/introspection.py:542-549 | every entry of the dictionary is a constraint of some definition under its title or its number |
| `ConstraintNames.GeneratedNamesDiffer` | src/django_pyturso/introspection.py:548-549 | generated names never collide |
| `ColumnScans.GetColumnCollations` | src/django_pyturso/introspection.py:555-600 | the loop computes the scan for collations |
| `ColumnScans.GetColumnSizes` | src/django_pyturso/introspection.py:603-644 | the loop computes the scan for sizes |
| `ColumnDeclarations.FieldSizeOf` | src/django_pyturso/introspection.py:52-68 | a length is read exactly after CHAR and VARCHAR, in any case and with any spaces around the word |
| `ColumnDeclarations.NumberOfDigits` | src/django_pyturso/introspection.py:52-68 | the length is the number that the digits stand for |
| `ColumnDeclarations.BracketsHoldSize` | src/django_pyturso/introspection.py:621-634 | only a single number in the parentheses is a length, whatever follows them |
| `ColumnDeclarations.ScansAreExact` | src/django_pyturso/introspection.py:555-644 | both scans return exactly the declared collations and lengths, column by column |
| `ColumnDeclarations.GroupContentsDoNotMatter` | src/django_pyturso/introspection.py:573-644 | the contents of groups never change a collation, and only the group right after the type can change a size |
| `ForeignKeys.ForeignKeyRows` | src/django_pyturso/introspection.py:291-301 | the rows of each constraint, all of them and no others, in the order of their positions |
| `ForeignKeys.ResolveTargetColumns` | src/django_pyturso/introspection.py:303-330 | target columns are resolved exactly when declared or when the primary key has the width of the constraint |
| `ForeignKeys.IsOrphan` | src/django_pyturso/base.py:388-404 | the query selects a row exactly when it breaks MATCH SIMPLE |
| `ForeignKeys.CheckForeignKey` | src/django_pyturso/base.py:376-418 | one constraint is accepted exactly when it can be read and holds; otherwise the verdict names a witness |
| `ForeignKeys.CheckConstraints` | src/django_pyturso/base.py:336-348 | acceptance exactly when every foreign key of the tables holds under MATCH SIMPLE (section 11.8 of ISO/IEC 9075-2) |
| `MatchSimple.HoldsSpelledOut` | src/django_pyturso/base.py:376-404 | a constraint holds exactly when each row has a source column without a value or finds an equal parent row, in terms of rows and columns alone |
| `MatchSimple.ReadableSpelledOut` | src/django_pyturso/introspection.py:303-330 | what must exist for a constraint to be read, and which target columns it then has |
| `ForeignKeys.ListedConstraintsHold` | src/django_pyturso/base.py:336-348 | when the tables listed are all tables, in any spelling, every foreign key of the database holds |
| `References.SortedDescending` | src/django_pyturso/operations.py:334 | the referring tables, sorted downwards |
| `References.FirstDifferenceDecides` | src/django_pyturso/operations.py:334 | the order of names: a prefix comes first, and otherwise the first difference decides |
| `References.BuildGraph` | src/django_pyturso/operations.py:315-324 | the graph holds exactly the references up to ASCII case |
| `References.ReferencesGraph` | src/django_pyturso/operations.py:307-335 | the worklist ends on cyclic graphs and returns, start first and without duplicates, exactly the tables that reach the start |
| `References.FlushTargets` | src/django_pyturso/operations.py:337-352 | the tables that a flush empties |
| `References.CascadeKeepsForeignKeys` | src/django_pyturso/operations.py:337-352 | a cascading flush empties the requested tables and keeps every foreign key valid |
| `References.ReferencesUpToCase` | src/django_pyturso/operations.py:315-324 | which spellings of a reference are recognised |
| `Quoting.QuoteIsIdempotent` | src/django_pyturso/operations.py:256-259 | quoting twice is quoting once, for all names |
| `Quoting.UnquoteInvertsQuote` | src/django_pyturso/introspection.py:71-80 | unquoting inverts quoting exactly on names that are not wrapped in double quotes |
| `Quoting.KeyIsIdempotent` | src/django_pyturso/introspection.py:83-85 | folding twice is folding once |
| `Quoting.SameKey` | src/django_pyturso/introspection.py:83-85 | two names have the same key exactly when they differ in the case of ASCII letters only |
| `Quoting.EveryQuotingIsUndone` | src/django_pyturso/introspection.py:71-80 | double quotes, single quotes, backticks and brackets are undone; any other text is its own name |
| `Quoting.QuotedNameIsVerbatim` | src/django_pyturso/base.py:582-592 | a quoted name between plain text translates to itself and binds nothing, unless a double quote touches a seam |
| `Templates.BuildThenBind` | src/django_pyturso/operations.py:122-251 | building SQL commutes with binding it: each copy of a placeholder gets the parameter of the original |
| `Temporal.TimesCountsCopies` | src/django_pyturso/operations.py:145-251 | each builder repeats its parameters as often as its SQL repeats the argument |
| `Temporal.ApplyIsAligned` | src/django_pyturso/operations.py:145-251 | one builder keeps placeholders and parameters aligned |
| `Temporal.CompiledSqlIsAligned` | src/django_pyturso/operations.py:122-251 | so does any nesting of extracts, truncations and casts |
| `Temporal.CompiledSqlFillsEveryMark` | src/django_pyturso/operations.py:122-251 | the translated SQL has as many question marks as there are parameters |
| `TemporalMeaning.ExtractionIsRight` | src/django_pyturso/operations.py:123-143 | each lookup extracts its own component of every moment; quarters and both kinds of week days come out right |
| `TemporalMeaning.TruncationIsRight` | src/django_pyturso/operations.py:162-190 | date truncation arrives at the first day of the year, quarter, month or week |
| `TemporalMeaning.TermText` | src/django_pyturso/operations.py:123-143 | the SQL of an extraction is printed as it is computed |
| `TemporalMeaning.DatetimeTruncationIs` | src/django_pyturso/operations.py:192-218 | a datetime is parsed, truncated by the time extension as the lookup says, formatted, and NULL for NULL |
| `TemporalMeaning.TimeTruncationIs` | src/django_pyturso/operations.py:192-251 | a time is taken from its day first; the cast to a time keeps the time part |
| `TemporalMeaning.SupportedExactly` | src/django_pyturso/operations.py:113-120 | a builder yields SQL exactly for its lookups, without time zone or in UTC on a UTC connection |

## Left out

- The driver, files, PRAGMA I/O and connection opening: faults and answers of the engine are chosen freely instead.
- The SQL tokenizer: the token-based components take classified tokens.
- The SQL text of the foreign-key query, which is modelled by what it selects, with one uninterpreted equality for
  each parent column in place of affinity and collation.
- Reconnecting after a close: it starts a new session.
- When the driver delays a statement: the model delays every statement with result columns.
- A connection of a file: Django's own close and check handle it; the model covers its close only, where the physical
  close may raise.
- Django's `durable` blocks, `set_rollback(False)` and what callbacks do themselves.
- When Django closes the connection because a rollback failed: the session model drops it at once, without the second
  rollback that the close of the backend tries.
- PlaceholderLaws.StructureIsPreserved: covers the positional mode; NamedPlaceholders.StructureIsSharedExactly covers
  both modes and names the condition.
- Backend.TursoCursor.RunMany: the row at which the parameter check stops is chosen freely, because the session model
  has no parameter values; Bindings.ExecuteMany says which row it is.
- Placeholder, identifier, keyword and size scanning outside ASCII: other Unicode letters are ordinary characters, other
  Unicode spaces and digits are not recognised.
- What SQLite's `strftime` and `date` compute is taken from their documentation; the functions of the time extension are
  named in the SQL but have no meaning in the model.
- SchemaEditor.Editor.With: the body does not change the transaction mode or close the connection; nothing is said
  about a non-atomic editor's data after an error, or about the data of an in-memory database once its connection is
  disposed.
- Model classes, temporary app registries, many-to-many tables, indexes and constraints inside the table remake, and
  the key that Django adds to a model left without one.
- RemakeLaws.CopyFillsStoredColumns: composite keys are outside the well-formed requests, and the order of columns is
  not modelled, since both dictionaries are maps.
- Errors of the copy statement itself, such as a duplicate value under a new UNIQUE.
- CheckExpressions.LookExpr: the grammar has no qualified names, subqueries or window functions; a CAST names a type
  that is no column; END, LIKE and GLOB do not name a column right after `*`, because one reading cannot tell.
- TableConstraints.DefinitionIsRead: a CHECK without any column is outside the grammar, since what it yields depends
  on the groups that follow it in the same definition (DefinitionRuns.EmptyCheckTakesNextGroup).
- ColumnDeclarations.ScansAreExact: the first word of a column is one unquoted word, and tokens inside the groups do
  not end with a closing parenthesis of their own.
- References.ReferencesGraph: the order of the result after the start is not stated.
- Value converters, type tables, features, settings validation and the client: constants and single-branch checks.
