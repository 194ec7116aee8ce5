# Spreadsheet import fixture, modelled in Dafny

This project models `ExcelFixture`, the fixture script of the Isis add-ons
Excel module that loads domain objects from a spreadsheet workbook. A fixture
is built for a list of target classes and a workbook source. The source is
either a resource location (a URL) or an uploaded blob. When executed, the
fixture:

- obtains the workbook bytes, memoising them, and wraps them in a blob when
  none was supplied;
- for every class, in order, reads the sheet of that class's name;
- creates each row in sheet order. A plain row is persisted, reported to the
  execution context and contributes itself. A row-handler row is asked to
  handle itself, given the row before it, and contributes whatever list it
  returns;
- appends every non-null contribution to the per-class map and to the
  combined list.

Two fixtures are equal, and hash alike, when their workbook bytes are.

The project has three modules:

- `ExcelTypes` (`excel_types.dfy`) holds the values: a signed Java byte,
  blobs, URLs, class descriptors, row objects and the errors an import can
  end with.
- `ImportSpec` (`import_spec.dfy`) holds the meaning of one import as pure
  functions. `RowsRun` folds over the rows of one class, `ClassesRun` folds
  over the classes and `Import` is the whole run. Beside these are
  independent reference definitions: what a row or class contributes, and
  whether it succeeds. Lemmas connect the run to those definitions for the
  combined list, the per-class lists, the keys of the per-class map, the
  persisted objects, fail-fast behaviour and previous-row threading. They
  also prove the invariant that the per-class lists together are exactly as
  long as the combined list.
  The same module covers byte resolution, the qualified name and
  `Arrays.hashCode` with its 32-bit wrap-around.
- `ExcelFixtures` (`excel_fixture.dfy`) has `ExcelFixture` as a class whose
  fields the methods update in place. Its methods are proved against
  `ImportSpec`. The persistence container and the execution context are
  small classes holding logs of what was persisted and reported.

Three behaviours of the code worth noting:

- A row handler that throws ends the import, but what earlier rows added to
  the combined list, the per-class map and the persist log stays there. The
  fixture has no rollback, so the model keeps the partial progress next to
  the error.
- Only plain rows are reported to the execution context by the fixture
  itself.
- The workbook bytes are memoised lazily, on first use, not computed when
  the fixture is constructed.

## Model

| member | source | states |
|---|---|---|
| ExcelFixtures.ExcelFixture.CheckClasses | dom/src/main/java/org/isisaddons/module/excel/dom/ExcelFixture.java:75-84 | succeeds exactly when every class is a row handler or persistable; otherwise the error names the first class that is neither |
| ExcelFixtures.ExcelFixture.constructor | dom/src/main/java/org/isisaddons/module/excel/dom/ExcelFixture.java:75-86 | for admissible classes: keeps the classes; name, resource, blob and memoised bytes are null; both outputs are empty |
| ExcelFixtures.ExcelFixture.FromResource | dom/src/main/java/org/isisaddons/module/excel/dom/ExcelFixture.java:57-64 | fails exactly when some class is inadmissible, with NotRowHandlerNorPersistable naming the first such class; otherwise a fresh fixture with that resource, no blob and empty outputs |
| ExcelFixtures.ExcelFixture.FromBlob | dom/src/main/java/org/isisaddons/module/excel/dom/ExcelFixture.java:66-73 | fails exactly when some class is inadmissible, with NotRowHandlerNorPersistable naming the first such class; otherwise a fresh fixture with that blob, no resource and empty outputs |
| ExcelFixtures.ExcelFixture.SetExcelResourceName | dom/src/main/java/org/isisaddons/module/excel/dom/ExcelFixture.java:93-95 | sets the resource name and nothing else |
| ExcelFixtures.ExcelFixture.SetExcelResource | dom/src/main/java/org/isisaddons/module/excel/dom/ExcelFixture.java:100-102 | sets the resource location and nothing else |
| ExcelFixtures.ExcelFixture.SetBlob | dom/src/main/java/org/isisaddons/module/excel/dom/ExcelFixture.java:107-108 | sets the blob and nothing else |
| ImportSpec.QualifiedName | dom/src/main/java/org/isisaddons/module/excel/dom/ExcelFixture.java:124-126 | the inherited name is a prefix; with no resource name the result is exactly the inherited name; otherwise it is followed by '-' and the resource name |
| ImportSpec.QualifiedNameDistinguishes | dom/src/main/java/org/isisaddons/module/excel/dom/ExcelFixture.java:88-92 | under one inherited name, equal qualified names imply equal resource names, so the suffix tells fixtures apart |
| ExcelFixtures.ExcelFixture.ReadBytes | dom/src/main/java/org/isisaddons/module/excel/dom/ExcelFixture.java:166-175 | reads the resource: a null location fails with NoResource, an unreadable one with CouldNotReadResource; the memo is set only on success |
| ExcelFixtures.ExcelFixture.GetBytes | dom/src/main/java/org/isisaddons/module/excel/dom/ExcelFixture.java:155-164 | answers the memo, else the blob's bytes, else the resource's; after success the memo holds the answer, after failure it is unchanged |
| ImportSpec.ResolveBytesPrefersBlob | dom/src/main/java/org/isisaddons/module/excel/dom/ExcelFixture.java:156-158 | with nothing memoised and a blob present, the bytes are the blob's, whatever the resource or reader |
| ImportSpec.ResolveBytesMemoised | dom/src/main/java/org/isisaddons/module/excel/dom/ExcelFixture.java:155-164 | once bytes are memoised, later calls answer with them whatever the blob, resource or reader |
| ImportSpec.ResolveBytesFailure | dom/src/main/java/org/isisaddons/module/excel/dom/ExcelFixture.java:155-175 | fails exactly when nothing is memoised, there is no blob and the resource is null or unreadable; fails with NoResource exactly when all three are absent |
| ImportSpec.Int32 | dom/src/main/java/org/isisaddons/module/excel/dom/ExcelFixture.java:222 | the result is a 32-bit signed int congruent to its argument modulo 2^32 |
| ImportSpec.ArraysHashCode | dom/src/main/java/org/isisaddons/module/excel/dom/ExcelFixture.java:222 | the hash is a 32-bit signed int, and 1 for an empty array |
| ImportSpec.ArraysHashCodePolynomial | dom/src/main/java/org/isisaddons/module/excel/dom/ExcelFixture.java:220-223 | the running hash 31*h+b with wrap-around equals 31^n plus the sum of b_i*31^(n-1-i), reduced to 32 bits |
| ExcelFixtures.ExcelFixture.HashCode | dom/src/main/java/org/isisaddons/module/excel/dom/ExcelFixture.java:220-223 | the hash of the resolved bytes, a 32-bit int, or the byte-resolution error; the memo holds the resolved bytes after success and is unchanged after failure |
| ExcelFixtures.ExcelFixture.Equals | dom/src/main/java/org/isisaddons/module/excel/dom/ExcelFixture.java:207-218 | the same fixture is equal and null is not; otherwise equal exactly when both resolved byte arrays are identical; the first failing resolution is propagated; each fixture whose bytes were resolved keeps them memoised, and the other fixture's bytes are resolved only after this one's succeed |
| ExcelFixtures.ExcelFixture.EqualFixturesHashAlike | dom/src/main/java/org/isisaddons/module/excel/dom/ExcelFixture.java:207-223 | after one fixture compares equal to another, hashing each gives the same result, and a success when they are distinct objects |
| ExcelFixtures.Container.PersistIfNotAlready | dom/src/main/java/org/isisaddons/module/excel/dom/ExcelFixture.java:186 | the object is appended to the persist log |
| ExcelFixtures.ExecutionContext.AddResult | dom/src/main/java/org/isisaddons/module/excel/dom/ExcelFixture.java:187 | the object is appended to the result log |
| ExcelFixtures.ExcelFixture.Create | dom/src/main/java/org/isisaddons/module/excel/dom/ExcelFixture.java:178-190 | a plain row contributes the singleton of itself and is persisted and reported once; a handler row contributes its handler's answer, given the previous row, and touches neither log; a throwing handler gives RowHandlerFailed |
| ExcelFixtures.ExcelFixture.AddToMap | dom/src/main/java/org/isisaddons/module/excel/dom/ExcelFixture.java:192-199 | the class's list is extended by the created list, created empty when missing; every other key is unchanged |
| ExcelFixtures.ExcelFixture.AddToCombined | dom/src/main/java/org/isisaddons/module/excel/dom/ExcelFixture.java:201-203 | the combined list is extended by the created list |
| ImportSpec.SumLengthsUpdate | dom/src/main/java/org/isisaddons/module/excel/dom/ExcelFixture.java:192-199 | replacing one class's list makes the total its length plus the other lists' lengths |
| ImportSpec.SumLengthsAppended | dom/src/main/java/org/isisaddons/module/excel/dom/ExcelFixture.java:192-203 | appending a list to one class adds exactly its length to the total of the per-class lists |
| ExcelFixtures.ExcelFixture.CreateRow | dom/src/main/java/org/isisaddons/module/excel/dom/ExcelFixture.java:142-148 | creating row k with row k-1 as previous row yields the run after k+1 rows, in outputs and both logs |
| ExcelFixtures.ExcelFixture.CreateRows | dom/src/main/java/org/isisaddons/module/excel/dom/ExcelFixture.java:141-149 | the outputs and logs are those of the run over all rows of the class, and the failure is the run's, which is the first throwing handler |
| ExcelFixtures.ExcelFixture.ImportClass | dom/src/main/java/org/isisaddons/module/excel/dom/ExcelFixture.java:138-149 | reads the class's sheet by name; an unreadable sheet fails with SheetUnreadable and changes nothing, otherwise the class's rows are run |
| ExcelFixtures.ExcelFixture.ImportClasses | dom/src/main/java/org/isisaddons/module/excel/dom/ExcelFixture.java:138-150 | the outputs and logs are those of the run over every class in order, starting from the old outputs; the failure is the run's |
| ExcelFixtures.ExcelFixture.Execute | dom/src/main/java/org/isisaddons/module/excel/dom/ExcelFixture.java:129-151 | a missing blob is built from the resolved bytes with name "unused", and a failing resolution changes nothing; then the outputs and logs are those of Import on the blob |
| ImportSpec.RowsSucceedAll | dom/src/main/java/org/isisaddons/module/excel/dom/ExcelFixture.java:142-149 | all of the first k rows succeed, recursively, exactly when each of them succeeds |
| ImportSpec.ClassesSucceedAll | dom/src/main/java/org/isisaddons/module/excel/dom/ExcelFixture.java:138-150 | all of the first j classes succeed, recursively, exactly when each of them succeeds |
| ImportSpec.AnyRowCreatesExists | dom/src/main/java/org/isisaddons/module/excel/dom/ExcelFixture.java:144 | some of the first k rows returns a non-null list exactly when one of them, at some index, does |
| ImportSpec.KeyedInExists | dom/src/main/java/org/isisaddons/module/excel/dom/ExcelFixture.java:144-145 | a class is keyed by the first j classes exactly when some occurrence of it among them has a row returning a non-null list |
| ImportSpec.RowStepFailsIff | dom/src/main/java/org/isisaddons/module/excel/dom/ExcelFixture.java:143 | one row's step fails exactly when the row is a handler row whose handler throws |
| ImportSpec.RowStepObjects | dom/src/main/java/org/isisaddons/module/excel/dom/ExcelFixture.java:143-146 | a successful step extends the combined list by the row's contribution, empty for null |
| ImportSpec.RowStepByClass | dom/src/main/java/org/isisaddons/module/excel/dom/ExcelFixture.java:143-145 | a successful step extends only the current class's list, by the row's contribution |
| ImportSpec.RowStepKeys | dom/src/main/java/org/isisaddons/module/excel/dom/ExcelFixture.java:144-145 | after a successful step a class is a key exactly when it was, or is the current class and the row returned a non-null list |
| ImportSpec.RowStepPersisted | dom/src/main/java/org/isisaddons/module/excel/dom/ExcelFixture.java:182-188 | a successful step persists the row exactly when it is a plain row |
| ImportSpec.RowsRunNext | dom/src/main/java/org/isisaddons/module/excel/dom/ExcelFixture.java:141-148 | while no row has failed, row k is created with row k-1 as its previous row, none for the first row |
| ImportSpec.RowsRunFailsStep | dom/src/main/java/org/isisaddons/module/excel/dom/ExcelFixture.java:142-149 | the first k rows succeed exactly when the first k-1 do and row k-1 does |
| ImportSpec.RowsRunFailsIff | dom/src/main/java/org/isisaddons/module/excel/dom/ExcelFixture.java:142-149 | the run over the first k rows succeeds exactly when every one of those rows succeeds |
| ImportSpec.RowsRunStaysFailed | dom/src/main/java/org/isisaddons/module/excel/dom/ExcelFixture.java:142-149 | once a row has failed, one more row changes nothing |
| ImportSpec.RowsFailureIsFinal | dom/src/main/java/org/isisaddons/module/excel/dom/ExcelFixture.java:142-149 | once a row has failed, the run and its partial progress stay as they were at the failure |
| ImportSpec.RowsRunObjectsStep | dom/src/main/java/org/isisaddons/module/excel/dom/ExcelFixture.java:142-146 | a successful run over k rows extends the run over k-1 by row k-1's contribution |
| ImportSpec.RowsRunObjects | dom/src/main/java/org/isisaddons/module/excel/dom/ExcelFixture.java:142-149 | a successful run extends the combined list by the rows' contributions, in row order |
| ImportSpec.RowsRunByClassStep | dom/src/main/java/org/isisaddons/module/excel/dom/ExcelFixture.java:142-145 | a successful run over k rows extends only the current class's list, by row k-1's contribution |
| ImportSpec.RowsRunByClass | dom/src/main/java/org/isisaddons/module/excel/dom/ExcelFixture.java:142-149 | a successful run extends the current class's list by the rows' contributions in order, and no other list changes |
| ImportSpec.RowsRunKeysStep | dom/src/main/java/org/isisaddons/module/excel/dom/ExcelFixture.java:142-145 | a class is a key after k rows exactly when it was after k-1, or row k-1 of that class returned a non-null list |
| ImportSpec.RowsRunKeys | dom/src/main/java/org/isisaddons/module/excel/dom/ExcelFixture.java:142-149 | after a successful run the class is a key exactly when it was already or some row returned a non-null list, even an empty one |
| ImportSpec.RowsRunPersistedStep | dom/src/main/java/org/isisaddons/module/excel/dom/ExcelFixture.java:142-143 | a successful run over k rows persists row k-1 exactly when it is plain |
| ImportSpec.RowsRunPersisted | dom/src/main/java/org/isisaddons/module/excel/dom/ExcelFixture.java:142-149 | a successful run persists exactly the plain rows, in row order |
| ImportSpec.ClassStepFailsIff | dom/src/main/java/org/isisaddons/module/excel/dom/ExcelFixture.java:139-149 | one class fails exactly when its sheet is unreadable or one of its rows fails |
| ImportSpec.ClassStepObjects | dom/src/main/java/org/isisaddons/module/excel/dom/ExcelFixture.java:139-146 | a successful class extends the combined list by all its rows' contributions |
| ImportSpec.ClassStepByClass | dom/src/main/java/org/isisaddons/module/excel/dom/ExcelFixture.java:139-145 | a successful class extends only its own list, by its rows' contributions |
| ImportSpec.ClassStepKeys | dom/src/main/java/org/isisaddons/module/excel/dom/ExcelFixture.java:139-145 | after a successful class it is a key exactly when it was, or one of its rows returned a non-null list |
| ImportSpec.ClassStepPersisted | dom/src/main/java/org/isisaddons/module/excel/dom/ExcelFixture.java:139-149 | a successful class persists exactly its plain rows |
| ImportSpec.ClassesRunNext | dom/src/main/java/org/isisaddons/module/excel/dom/ExcelFixture.java:138-140 | while no class has failed, class j is imported next, from the progress of the first j |
| ImportSpec.ClassesRunFailsStep | dom/src/main/java/org/isisaddons/module/excel/dom/ExcelFixture.java:138-150 | the first j classes succeed exactly when the first j-1 do and class j-1 does |
| ImportSpec.ClassesRunFailsIff | dom/src/main/java/org/isisaddons/module/excel/dom/ExcelFixture.java:138-150 | the import of the first j classes succeeds exactly when every one of them succeeds |
| ImportSpec.ClassesRunStaysFailed | dom/src/main/java/org/isisaddons/module/excel/dom/ExcelFixture.java:138-150 | once a class has failed, one more class changes nothing |
| ImportSpec.ClassesFailureIsFinal | dom/src/main/java/org/isisaddons/module/excel/dom/ExcelFixture.java:138-150 | once a class has failed, the import and its partial progress stay as they were at the failure |
| ImportSpec.ClassesRunObjectsStep | dom/src/main/java/org/isisaddons/module/excel/dom/ExcelFixture.java:138-146 | a successful import of j classes extends that of j-1 by class j-1's contributions |
| ImportSpec.ClassesRunObjects | dom/src/main/java/org/isisaddons/module/excel/dom/ExcelFixture.java:138-150 | a successful import extends the combined list by every class's contributions, class by class and row by row |
| ImportSpec.ClassesRunByClassStep | dom/src/main/java/org/isisaddons/module/excel/dom/ExcelFixture.java:138-145 | a successful import of j classes extends only class j-1's list, by its contributions |
| ImportSpec.ClassesRunByClass | dom/src/main/java/org/isisaddons/module/excel/dom/ExcelFixture.java:138-150 | after a successful import each class's list is extended by the contributions of all its occurrences in the class list, in order |
| ImportSpec.ClassesRunKeysStep | dom/src/main/java/org/isisaddons/module/excel/dom/ExcelFixture.java:138-145 | a class is a key after j classes exactly when it was after j-1, or it is class j-1 and one of its rows returned a non-null list |
| ImportSpec.ClassesRunKeys | dom/src/main/java/org/isisaddons/module/excel/dom/ExcelFixture.java:138-150 | after a successful import a class is a key exactly when it was already or one of its rows returned a non-null list |
| ImportSpec.ClassesRunPersistedStep | dom/src/main/java/org/isisaddons/module/excel/dom/ExcelFixture.java:138-149 | a successful import of j classes persists class j-1's plain rows after the earlier ones |
| ImportSpec.ClassesRunPersisted | dom/src/main/java/org/isisaddons/module/excel/dom/ExcelFixture.java:138-150 | a successful import persists exactly the plain rows of every class, in import order |
| ImportSpec.RowStepBalanced | dom/src/main/java/org/isisaddons/module/excel/dom/ExcelFixture.java:143-147 | one row step keeps the per-class lists together as long as the combined list |
| ImportSpec.RowsRunBalanced | dom/src/main/java/org/isisaddons/module/excel/dom/ExcelFixture.java:142-149 | running rows keeps the per-class lists together as long as the combined list, failure or not |
| ImportSpec.ClassStepBalanced | dom/src/main/java/org/isisaddons/module/excel/dom/ExcelFixture.java:138-149 | one class keeps the per-class lists together as long as the combined list |
| ImportSpec.ClassesRunBalanced | dom/src/main/java/org/isisaddons/module/excel/dom/ExcelFixture.java:138-150 | the whole import keeps the per-class lists together as long as the combined list |

## Left out

- Reading the resource location (`Resources.toByteArray`) is the `Fetch` parameter. It answers bytes or nothing, where nothing stands for an I/O error. A null location is the `NoResource` error, the model's name for the null-pointer failure.
- Reading a sheet (`ExcelServiceImpl.fromExcel` with sheet lookup by name) is the `ReadSheet` parameter. Cell coercion, header handling and row skipping belong to the workbook reader, which is not part of this model. A read that throws is `SheetUnreadable`.
- A row handler's `handleRow` is the `HandleRow` parameter, given the handler row and the previous row. Its own effects on the execution context, on the fixture and on the container are not modelled.
- ExcelFixtures.Container.PersistIfNotAlready: records every call and does not model the container's "already persisted" check or the persistence itself.
- ExcelFixtures.ExecutionContext.AddResult: records only the object, not the fixture passed alongside it or the result key.
- The inherited qualified name (`super.getQualifiedName()`) is a parameter of `QualifiedName`, since the fixture-script base class is not part of this model.
- The MIME type of the blob built in `execute` (`ExcelService.XSLX_MIME_TYPE`) is the `mimeType` parameter of `Execute`.
- ExcelFixtures.ExcelFixture.Equals: does not model the `getClass()` comparison, so a subclass instance is treated like any other fixture.
- The reader is not tied to the class it reads: `ReadSheet` may return plain rows for a row-handler class or handler rows for a persistable one. In the code, `fromExcel` returns instances of the class, so a row's kind follows the class. As a result, the constructor's class check constrains nothing else in the model.
- A blob whose `getBytes()` is null is not modelled: blob bytes are always a sequence.
- The lists inside the per-class map and the combined list are values. Java's aliasing, where the getters hand out the live lists, is not captured.
- Java `Class` identity is the `ClassRef` value: two equal descriptors are the same class.
- Dependency injection of the container and the bookmark service is left out, and so is the `ExcelServiceImpl` built in `execute`.
- The rest of the module is not part of this model: the demo application, the blob value converter, the export side of the Excel service and the integration tests.
- Execution strategies of the fixture-script framework, such as executing once per value, are not modelled; only the equality they rely on is.
