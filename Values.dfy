/** Optional values: JavaScript's `undefined`/`null` next to a present value. */
module Options {

  datatype Option<+T> = None | Some(value: T) {

    /** The value, or `default` when absent (JavaScript's `x ?? default`). */
    function GetOr(default: T): T {
      match this
      case Some(v) => v
      case None => default
    }
  }

  /** An optional string that is present and non-empty, i.e. truthy in JavaScript. */
  predicate Given(o: Option<string>) {
    o.Some? && o.value != ""
  }

  /** JavaScript's `x || ""` on an optional string. */
  function OrEmpty(o: Option<string>): (s: string)
    ensures Given(o) ==> s == o.value
    ensures !Given(o) ==> s == ""
  {
    o.GetOr("")
  }
}

/** The values that travel through the database adapter: document fields and file descriptors. */
module Values {
  import opened Options

  type Bytes = seq<bv8>

  /** A file handed in by the caller for upload (`FirebaseFile`: name, optional title, payload). */
  datatype FirebaseFile = FirebaseFile(name: string, title: Option<string>, file: Bytes)

  /** The descriptor stored in place of one uploaded file. */
  datatype UploadedFile = UploadedFile(src: string, title: string, fileName: string, uploadedAt: int)

  /** A field value of a document. Numbers are integers; floating point is not modelled. */
  datatype Value =
    | Undefined
    | Null
    | Bool(b: bool)
    | Number(n: int)
    | Str(s: string)
    | Files(files: seq<FirebaseFile>)
    | Uploads(uploads: seq<UploadedFile>)
    | Obj(fields: map<string, Value>)

  /** A document or a payload: field name to value. */
  type Record = map<string, Value>

  /** JavaScript truthiness: `undefined`, `null`, `false`, `0` and `""` are falsy; arrays and objects are truthy. */
  predicate Truthy(v: Value) {
    match v
    case Undefined => false
    case Null => false
    case Bool(b) => b
    case Number(n) => n != 0
    case Str(s) => s != ""
    case _ => true
  }

  /** The files of a file field; a value that is not a list of files yields none. */
  function ItemsOf(v: Value): seq<FirebaseFile> {
    match v
    case Files(fs) => fs
    case _ => []
  }
}
