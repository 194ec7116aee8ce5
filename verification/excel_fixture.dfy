/**
 * The spreadsheet import fixture as an object: its inputs (the target
 * classes, a resource location or a blob, an optional resource name), its
 * outputs (the combined list and the per-class map of created objects) and
 * its memoised workbook bytes, updated in place by its methods. Every method
 * is proved against the pure definitions of the ImportSpec module.
 */
module ExcelFixtures {
  import opened ExcelTypes
  import opened ImportSpec

  /** The persistence container, reduced to the log of the objects it was asked to persist. */
  class Container {
    var persisted: seq<Obj>

    constructor ()
      ensures persisted == []
    {
      persisted := [];
    }

    method PersistIfNotAlready(o: Obj)
      modifies this
      ensures persisted == old(persisted) + [o]
    {
      persisted := persisted + [o];
    }
  }

  /** The fixture execution context, reduced to the log of the results added to it. */
  class ExecutionContext {
    var results: seq<Obj>

    constructor ()
      ensures results == []
    {
      results := [];
    }

    method AddResult(o: Obj)
      modifies this
      ensures results == old(results) + [o]
    {
      results := results + [o];
    }
  }

  class ExcelFixture {
    const classes: seq<ClassRef>
    const container: Container

    var excelResourceName: Option<string>
    var excelResource: Option<Url>
    var blob: Option<Blob>

    /** Output: the objects created for each class. */
    var objectsByClass: map<ClassRef, seq<Obj>>
    /** Output: all objects created, in creation order. */
    var objects: seq<Obj>

    /** The workbook bytes, once read. */
    var bytes: Option<seq<Byte>>

    /** The class check is done by the callers (see CheckClasses); the outputs start empty. */
    constructor (classes: seq<ClassRef>, container: Container)
      requires AllAdmissible(classes)
      ensures this.classes == classes && this.container == container
      ensures excelResourceName.None? && excelResource.None? && blob.None? && bytes.None?
      ensures objectsByClass == map[] && objects == []
    {
      this.classes := classes;
      this.container := container;
      excelResourceName := None;
      excelResource := None;
      blob := None;
      objectsByClass := map[];
      objects := [];
      bytes := None;
    }

    /** Every class must be a row handler or persistable; the first one that is neither is reported. */
    static method CheckClasses(classes: seq<ClassRef>) returns (r: Option<ImportError>)
      ensures r.None? <==> AllAdmissible(classes)
      ensures r.Some? ==>
        exists i :: 0 <= i < |classes| && !Admissible(classes[i])
          && (forall j :: 0 <= j < i ==> Admissible(classes[j]))
          && r.value == NotRowHandlerNorPersistable(classes[i].simpleName)
    {
      var i := 0;
      while i < |classes|
        invariant 0 <= i <= |classes|
        invariant forall j :: 0 <= j < i ==> Admissible(classes[j])
      {
        var cls := classes[i];
        if !cls.isRowHandler && !cls.isPersistable {
          return Some(NotRowHandlerNorPersistable(cls.simpleName));
        }
        i := i + 1;
      }
      return None;
    }

    /** A fixture reading the workbook from a resource location. */
    static method FromResource(excelResource: Option<Url>, classes: seq<ClassRef>, container: Container)
      returns (r: Result<ExcelFixture, ImportError>)
      ensures r.Failure? <==> !AllAdmissible(classes)
      ensures r.Failure? ==> r.error.NotRowHandlerNorPersistable?
      ensures r.Failure? ==>
        exists i :: 0 <= i < |classes| && !Admissible(classes[i])
          && (forall j :: 0 <= j < i ==> Admissible(classes[j]))
          && r.error == NotRowHandlerNorPersistable(classes[i].simpleName)
      ensures r.Success? ==>
        fresh(r.value) && r.value.classes == classes && r.value.container == container
        && r.value.excelResource == excelResource && r.value.blob.None? && r.value.excelResourceName.None?
        && r.value.bytes.None? && r.value.objects == [] && r.value.objectsByClass == map[]
    {
      var bad := CheckClasses(classes);
      if bad.Some? {
        return Failure(bad.value);
      }
      var fixture := new ExcelFixture(classes, container);
      fixture.excelResource := excelResource;
      return Success(fixture);
    }

    /** A fixture reading the workbook from an uploaded blob. */
    static method FromBlob(blob: Option<Blob>, classes: seq<ClassRef>, container: Container)
      returns (r: Result<ExcelFixture, ImportError>)
      ensures r.Failure? <==> !AllAdmissible(classes)
      ensures r.Failure? ==> r.error.NotRowHandlerNorPersistable?
      ensures r.Failure? ==>
        exists i :: 0 <= i < |classes| && !Admissible(classes[i])
          && (forall j :: 0 <= j < i ==> Admissible(classes[j]))
          && r.error == NotRowHandlerNorPersistable(classes[i].simpleName)
      ensures r.Success? ==>
        fresh(r.value) && r.value.classes == classes && r.value.container == container
        && r.value.blob == blob && r.value.excelResource.None? && r.value.excelResourceName.None?
        && r.value.bytes.None? && r.value.objects == [] && r.value.objectsByClass == map[]
    {
      var bad := CheckClasses(classes);
      if bad.Some? {
        return Failure(bad.value);
      }
      var fixture := new ExcelFixture(classes, container);
      fixture.blob := blob;
      return Success(fixture);
    }

    method SetExcelResourceName(name: Option<string>)
      modifies this`excelResourceName
      ensures excelResourceName == name
    {
      excelResourceName := name;
    }

    method SetExcelResource(resource: Option<Url>)
      modifies this`excelResource
      ensures excelResource == resource
    {
      excelResource := resource;
    }

    method SetBlob(b: Option<Blob>)
      modifies this`blob
      ensures blob == b
    {
      blob := b;
    }

    /** Reads the resource; the bytes are kept only when reading succeeds. */
    method ReadBytes(fetch: Fetch) returns (r: Result<seq<Byte>, ImportError>)
      modifies this`bytes
      ensures r == ReadResource(excelResource, fetch)
      ensures bytes == if r.Success? then Some(r.value) else old(bytes)
    {
      r := ReadResource(excelResource, fetch);
      if r.Success? {
        bytes := Some(r.value);
      }
    }

    /** The workbook bytes: memoised, else the blob's, else read from the resource. */
    method GetBytes(fetch: Fetch) returns (r: Result<seq<Byte>, ImportError>)
      modifies this`bytes
      ensures r == ResolveBytes(old(bytes), blob, excelResource, fetch)
      ensures bytes == if r.Success? then Some(r.value) else old(bytes)
    {
      if bytes.None? {
        if blob.Some? {
          bytes := Some(blob.value.bytes);
        } else {
          var read := ReadBytes(fetch);
          if read.Failure? {
            return read;
          }
        }
      }
      return Success(bytes.value);
    }

    /** Creates the objects of one row: a handler row asks its handler, a plain row is persisted and recorded. */
    method Create(row: RowObject, ec: ExecutionContext, previousRow: Option<RowObject>, handle: HandleRow)
      returns (r: Result<Option<seq<Obj>>, ImportError>)
      modifies container, ec
      ensures r == Contribution(row, previousRow, handle)
      ensures container.persisted == old(container.persisted) + (if row.Direct? then [row.obj] else [])
      ensures ec.results == old(ec.results) + (if row.Direct? then [row.obj] else [])
    {
      if row.Handled? {
        var outcome := handle(row.obj, previousRow);
        if outcome.Raised? {
          return Failure(RowHandlerFailed(outcome.reason));
        }
        return Success(outcome.created);
      } else {
        container.PersistIfNotAlready(row.obj);
        ec.AddResult(row.obj);
        return Success(Some([row.obj]));
      }
    }

    /** Appends the created objects to the class's list, creating the list when the class has none. */
    method AddToMap(cls: ClassRef, created: seq<Obj>)
      modifies this`objectsByClass
      ensures objectsByClass == Appended(old(objectsByClass), cls, created)
    {
      var objectList: seq<Obj>;
      if cls in objectsByClass {
        objectList := objectsByClass[cls];
      } else {
        objectList := [];
        objectsByClass := objectsByClass[cls := objectList];
      }
      objectsByClass := objectsByClass[cls := objectList + created];
    }

    method AddToCombined(created: seq<Obj>)
      modifies this`objects
      ensures objects == old(objects) + created
    {
      objects := objects + created;
    }

    /**
     * The outputs and the two logs show progress p: the combined list and the
     * per-class map are p's, and the persist and result logs hold what they held
     * at the start (persisted0, results0) followed by p's persisted objects.
     */
    ghost predicate Shows(ec: ExecutionContext, p: Progress, persisted0: seq<Obj>, results0: seq<Obj>)
      reads this, container, ec
    {
      objects == p.objects && objectsByClass == p.byClass
      && container.persisted == persisted0 + p.persisted && ec.results == results0 + p.persisted
    }

    /**
     * Creates row k of a class's rows, given the row before it, and records
     * what its handler returned: one step of the run over the rows.
     */
    method CreateRow(cls: ClassRef, rows: seq<RowObject>, k: nat, ec: ExecutionContext,
                     previousRow: Option<RowObject>, handle: HandleRow,
                     ghost before: Progress, ghost persisted0: seq<Obj>, ghost results0: seq<Obj>)
      returns (failure: Option<ImportError>)
      requires k < |rows| && previousRow == PreviousRow(rows, k)
      requires RowsOk(before, cls, rows, k, handle)
      requires Shows(ec, RowsProgress(before, cls, rows, k, handle), persisted0, results0)
      modifies this`objectsByClass, this`objects, container, ec
      ensures var run := RowsRun(before, cls, rows, k + 1, handle);
        failure == run.failure && Shows(ec, run.progress, persisted0, results0)
    {
      RowsRunNext(before, cls, rows, k, handle);
      var created := Create(rows[k], ec, previousRow, handle);
      if created.Failure? {
        return Some(created.error);
      }
      if created.value.Some? {
        AddToMap(cls, created.value.value);
        AddToCombined(created.value.value);
      }
      return None;
    }

    /**
     * Creates the rows of one class in order, each with the row before it as
     * previous row (none for the first). Stops at the first row whose handler
     * throws. The ghost parameters name what the run has produced so far and the
     * logs as they were when the run started.
     */
    method CreateRows(cls: ClassRef, rows: seq<RowObject>, ec: ExecutionContext, handle: HandleRow,
                      ghost before: Progress, ghost persisted0: seq<Obj>, ghost results0: seq<Obj>)
      returns (failure: Option<ImportError>)
      requires Shows(ec, before, persisted0, results0)
      modifies this`objectsByClass, this`objects, container, ec
      ensures var run := RowsRun(before, cls, rows, |rows|, handle);
        failure == run.failure && Shows(ec, run.progress, persisted0, results0)
    {
      var previousRow: Option<RowObject> := None;
      var k := 0;
      while k < |rows|
        invariant 0 <= k <= |rows|
        invariant previousRow == PreviousRow(rows, k)
        invariant RowsOk(before, cls, rows, k, handle)
        invariant Shows(ec, RowsProgress(before, cls, rows, k, handle), persisted0, results0)
      {
        failure := CreateRow(cls, rows, k, ec, previousRow, handle, before, persisted0, results0);
        if failure.Some? {
          RowsFailureIsFinal(before, cls, rows, k + 1, |rows|, handle);
          return;
        }
        previousRow := Some(rows[k]);
        k := k + 1;
      }
      return None;
    }

    /** Reads the rows of one class from the workbook, by sheet name, and creates them. */
    method ImportClass(cls: ClassRef, ec: ExecutionContext, workbook: Blob, read: ReadSheet, handle: HandleRow,
                       ghost before: Progress, ghost persisted0: seq<Obj>, ghost results0: seq<Obj>)
      returns (failure: Option<ImportError>)
      requires Shows(ec, before, persisted0, results0)
      modifies this`objectsByClass, this`objects, container, ec
      ensures var run := ClassStep(before, cls, workbook, read, handle);
        failure == run.failure && Shows(ec, run.progress, persisted0, results0)
    {
      var sheet := read(workbook, cls);
      if sheet.Unreadable? {
        return Some(SheetUnreadable(cls.simpleName, sheet.reason));
      }
      failure := CreateRows(cls, sheet.rows, ec, handle, before, persisted0, results0);
    }

    /**
     * Reads and creates the classes in order from the given workbook, stopping at
     * the first class that cannot be read or whose rows fail.
     */
    method ImportClasses(ec: ExecutionContext, workbook: Blob, read: ReadSheet, handle: HandleRow)
      returns (failure: Option<ImportError>)
      modifies this`objectsByClass, this`objects, container, ec
      ensures var run := Import(Progress(old(objects), old(objectsByClass), []), classes, workbook, read, handle);
        failure == run.failure && Shows(ec, run.progress, old(container.persisted), old(ec.results))
    {
      ghost var start := Progress(objects, objectsByClass, []);
      ghost var persisted0, results0 := container.persisted, ec.results;
      var j := 0;
      while j < |classes|
        invariant 0 <= j <= |classes|
        invariant ClassesOk(start, classes, j, workbook, read, handle)
        invariant Shows(ec, ClassesProgress(start, classes, j, workbook, read, handle), persisted0, results0)
      {
        ClassesRunNext(start, classes, j, workbook, read, handle);
        var classFailure := ImportClass(classes[j], ec, workbook, read, handle,
                                        ClassesProgress(start, classes, j, workbook, read, handle), persisted0, results0);
        if classFailure.Some? {
          ClassesFailureIsFinal(start, classes, j + 1, |classes|, workbook, read, handle);
          return classFailure;
        }
        j := j + 1;
      }
      return None;
    }

    /**
     * Runs the import: makes sure there is a blob, building one from the bytes
     * when there is none, then imports the classes from it. The first failure
     * ends the run and is returned; what was done before it stays done.
     */
    method Execute(ec: ExecutionContext, fetch: Fetch, read: ReadSheet, handle: HandleRow, mimeType: string)
      returns (failure: Option<ImportError>)
      modifies this`blob, this`bytes, this`objectsByClass, this`objects, container, ec
      ensures old(blob).Some? ==> blob == old(blob) && bytes == old(bytes)
      ensures old(blob).None? ==>
        var b := ResolveBytes(old(bytes), None, excelResource, fetch);
        if b.Failure? then
          failure == Some(b.error) && blob.None? && bytes == old(bytes)
          && objects == old(objects) && objectsByClass == old(objectsByClass)
          && container.persisted == old(container.persisted) && ec.results == old(ec.results)
        else
          blob == Some(Blob("unused", mimeType, b.value)) && bytes == Some(b.value)
      ensures blob.Some? ==>
        var run := Import(Progress(old(objects), old(objectsByClass), []), classes, blob.value, read, handle);
        failure == run.failure
        && objects == run.progress.objects && objectsByClass == run.progress.byClass
        && container.persisted == old(container.persisted) + run.progress.persisted
        && ec.results == old(ec.results) + run.progress.persisted
    {
      if blob.None? {
        var b := GetBytes(fetch);
        if b.Failure? {
          return Some(b.error);
        }
        blob := Some(Blob("unused", mimeType, b.value));
      }
      failure := ImportClasses(ec, blob.value, read, handle);
    }

    /** Value equality: the same object, or another fixture with the same workbook bytes. */
    method Equals(other: ExcelFixture?, fetch: Fetch) returns (r: Result<bool, ImportError>)
      modifies (if other == null then {this} else {this, other})`bytes
      ensures other == this ==> r == Success(true) && bytes == old(bytes)
      ensures other == null ==> r == Success(false) && bytes == old(bytes)
      ensures other != null && other != this ==>
        var mine := ResolveBytes(old(bytes), blob, excelResource, fetch);
        var theirs := ResolveBytes(old(other.bytes), other.blob, other.excelResource, fetch);
        r == (if mine.Failure? then Failure(mine.error)
              else if theirs.Failure? then Failure(theirs.error)
              else Success(mine.value == theirs.value))
        && bytes == (if mine.Success? then Some(mine.value) else old(bytes))
        && other.bytes == (if mine.Success? && theirs.Success? then Some(theirs.value) else old(other.bytes))
    {
      if other == this {
        return Success(true);
      }
      if other == null {
        return Success(false);
      }
      var mine := GetBytes(fetch);
      if mine.Failure? {
        return Failure(mine.error);
      }
      var theirs := other.GetBytes(fetch);
      if theirs.Failure? {
        return Failure(theirs.error);
      }
      return Success(mine.value == theirs.value);
    }

    /** The hash of the workbook bytes. */
    method HashCode(fetch: Fetch) returns (r: Result<int, ImportError>)
      modifies this`bytes
      ensures var b := ResolveBytes(old(bytes), blob, excelResource, fetch);
        r == (if b.Failure? then Failure(b.error) else Success(ArraysHashCode(b.value)))
        && bytes == (if b.Success? then Some(b.value) else old(bytes))
      ensures r.Success? ==> IsInt32(r.value)
    {
      var b := GetBytes(fetch);
      if b.Failure? {
        return Failure(b.error);
      }
      return Success(ArraysHashCode(b.value));
    }

    /**
     * The equals/hashCode contract over successive calls: once a fixture has
     * compared equal to another, both hash alike, since each keeps the bytes the
     * comparison resolved. A fixture is equal to itself without resolving its
     * bytes, so its hash may still fail, but it fails alike both times.
     */
    static method EqualFixturesHashAlike(a: ExcelFixture, b: ExcelFixture, fetch: Fetch)
      returns (eq: Result<bool, ImportError>, ha: Result<int, ImportError>, hb: Result<int, ImportError>)
      modifies {a, b}`bytes
      ensures eq == Success(true) ==> ha == hb
      ensures eq == Success(true) && a != b ==> ha.Success?
    {
      eq := a.Equals(b, fetch);
      ha := a.HashCode(fetch);
      hb := b.HashCode(fetch);
    }
  }
}
