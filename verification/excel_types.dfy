/**
 * Values shared by the model of the spreadsheet import fixture: Java bytes,
 * blobs and resource locations, the target classes, the row objects the
 * workbook reader yields, and the errors an import can end with.
 */
module ExcelTypes {

  /** Stands for a Java reference that may be null. */
  datatype Option<+T> = None | Some(value: T)

  /** The outcome of an operation that may throw. */
  datatype Result<+T, +E> = Success(value: T) | Failure(error: E)

  /** A Java `byte`: signed, eight bits. */
  type Byte = b: int | -128 <= b < 128

  /** The location of a workbook resource (a `java.net.URL`). */
  datatype Url = Url(spec: string)

  /** A named binary payload with its MIME type. */
  datatype Blob = Blob(name: string, mimeType: string, bytes: seq<Byte>)

  /**
   * A target class of the import: its simple name, whether it implements the
   * row-handler interface and whether it is persistable.
   */
  datatype ClassRef = ClassRef(simpleName: string, isRowHandler: bool, isPersistable: bool)

  /** An object reference (a domain entity, a view model, ...). */
  datatype Obj = Obj(id: nat)

  /**
   * A row object produced by the workbook reader: either a plain row that is
   * itself persisted, or a row that implements the row-handler interface.
   */
  datatype RowObject = Direct(obj: Obj) | Handled(obj: Obj)

  /** What the workbook reader returns for one class: its rows, or a failure. */
  datatype SheetRead = Rows(rows: seq<RowObject>) | Unreadable(reason: string)

  /** What a row handler does: return a (possibly null) list, or throw. */
  datatype HandlerOutcome = Returned(created: Option<seq<Obj>>) | Raised(reason: string)

  datatype ImportError =
    | NotRowHandlerNorPersistable(className: string)  // rejected by the constructor
    | NoResource                                      // no blob and no resource location
    | CouldNotReadResource(resource: Url)             // the resource could not be read
    | SheetUnreadable(className: string, reason: string)
    | RowHandlerFailed(reason: string)

  /** Reads the bytes behind a resource location; None when reading fails. */
  type Fetch = Url -> Option<seq<Byte>>

  /** The workbook reader, looking sheets up by name: the rows of one class. */
  type ReadSheet = (Blob, ClassRef) -> SheetRead

  /** A row handler's answer, given the handler row and the previous row. */
  type HandleRow = (Obj, Option<RowObject>) -> HandlerOutcome
}
