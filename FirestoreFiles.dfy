/**
 * The file-field handling of the database adapter: stripping file fields from a
 * payload (`transform`) and uploading the files of the file fields (`uploadFiles`).
 * `files` is `meta.files`, the names of the file fields; `None` when `meta` or
 * `meta.files` is absent.
 */
module FirestoreFiles {
  import opened Options
  import opened Values

  // ---------------------------------------------------------------- transform

  /** The payload without the file fields; the variables themselves when no file fields are declared. */
  function Stripped(variables: Record, files: Option<seq<string>>): (r: Record)
    ensures files.None? ==> r == variables
    ensures files.Some? ==> forall k :: k in r <==> k in variables && k !in files.value
    ensures forall k :: k in r ==> r[k] == variables[k]
  {
    if files.None? then variables else map k | k in variables && k !in files.value :: variables[k]
  }

  /** Stripping the file fields a second time changes nothing. */
  lemma {:induction false} StrippedIdempotent(variables: Record, files: Option<seq<string>>)
    ensures Stripped(Stripped(variables, files), files) == Stripped(variables, files)
  {
    var once := Stripped(variables, files);
    var twice := Stripped(once, files);
    assert twice.Keys == once.Keys;
  }

  /** `transform`: copies every field not named in `files`, one field at a time. */
  method Transform(variables: Record, files: Option<seq<string>>) returns (r: Record)
    ensures r == Stripped(variables, files)
  {
    if files.None? {
      return variables;
    }
    r := map[];
    var remaining := variables.Keys;
    while remaining != {}
      invariant remaining <= variables.Keys
      invariant forall k :: k in r <==> k in variables && k !in remaining && k !in files.value
      invariant forall k :: k in r ==> r[k] == variables[k]
      decreases remaining
    {
      var fieldName :| fieldName in remaining;
      var fieldValue := variables[fieldName];
      if fieldName !in files.value {
        r := r[fieldName := fieldValue];
      }
      remaining := remaining - {fieldName};
    }
    assert r.Keys == Stripped(variables, files).Keys;
  }

  // -------------------------------------------------------------- uploadFiles

  /** The storage side of the vendor: the download URL of an upload to a path (`None` when the
      upload or the URL lookup throws), and the clock reading taken for that upload. */
  datatype Storage = Storage(downloadUrl: string -> Option<string>, clock: string -> int)

  /** The storage path of one file: `resource/docId/fieldName/name`. */
  function StoragePath(resource: string, docId: string, fieldName: string, name: string): string {
    resource + "/" + docId + "/" + fieldName + "/" + name
  }

  /** The title of an uploaded file: its own title when given, else its name. */
  function TitleOf(f: FirebaseFile): (t: string)
    ensures Given(f.title) ==> t == f.title.value
    ensures !Given(f.title) ==> t == f.name
  {
    if f.title.Some? && f.title.value != "" then f.title.value else f.name
  }

  /** The fields whose files are uploaded: named in `files` and holding a truthy value. */
  function SelectedFields(variables: Record, files: Option<seq<string>>): (sel: set<string>)
    ensures forall k :: k in sel <==> files.Some? && k in variables && Truthy(variables[k]) && k in files.value
  {
    if files.None? then {} else set k | k in variables && Truthy(variables[k]) && k in files.value
  }

  predicate Stored(storage: Storage, path: string) {
    storage.downloadUrl(path).Some?
  }

  function PathOf(resource: string, docId: string, fieldName: string, f: FirebaseFile): string {
    StoragePath(resource, docId, fieldName, f.name)
  }

  /** The descriptor of one file after its upload to `path` succeeded. */
  function Descriptor(storage: Storage, path: string, f: FirebaseFile): UploadedFile
    requires Stored(storage, path)
  {
    UploadedFile(storage.downloadUrl(path).value, TitleOf(f), path, storage.clock(path))
  }

  /**
   * The descriptors of one field's files, uploaded one after the other: `None` as soon as
   * one upload throws; otherwise one descriptor per file, in the same order.
   */
  function FieldUploads(resource: string, docId: string, fieldName: string, items: seq<FirebaseFile>, storage: Storage)
    : (r: Option<seq<UploadedFile>>)
    ensures r.Some? <==> forall i :: 0 <= i < |items| ==> Stored(storage, PathOf(resource, docId, fieldName, items[i]))
    ensures r.Some? ==>
      && |r.value| == |items|
      && forall i :: 0 <= i < |items| ==>
           r.value[i] == Descriptor(storage, PathOf(resource, docId, fieldName, items[i]), items[i])
  {
    if items == [] then Some([])
    else
      var last := items[|items| - 1];
      var path := PathOf(resource, docId, fieldName, last);
      match FieldUploads(resource, docId, fieldName, items[..|items| - 1], storage)
      case None => None
      case Some(prev) =>
        if Stored(storage, path) then Some(prev + [Descriptor(storage, path, last)]) else None
  }

  predicate FieldStored(resource: string, docId: string, variables: Record, k: string, storage: Storage)
    requires k in variables
  {
    FieldUploads(resource, docId, k, ItemsOf(variables[k]), storage).Some?
  }

  /** The value recorded for a field whose files all uploaded: the list of their descriptors. */
  function FieldValue(resource: string, docId: string, variables: Record, k: string, storage: Storage): Value
    requires k in variables && FieldStored(resource, docId, variables, k, storage)
  {
    Uploads(FieldUploads(resource, docId, k, ItemsOf(variables[k]), storage).value)
  }

  /**
   * The result of `uploadFiles`: for every selected field, the list of its upload descriptors;
   * `None` when any upload throws (the returned promise rejects).
   */
  function UploadedFields(resource: string, docId: string, variables: Record, files: Option<seq<string>>, storage: Storage)
    : (r: Option<Record>)
    ensures r.None? <==> exists k, i :: k in SelectedFields(variables, files) && 0 <= i < |ItemsOf(variables[k])|
                                        && !Stored(storage, PathOf(resource, docId, k, ItemsOf(variables[k])[i]))
    ensures r.Some? ==> forall k :: k in r.value <==> files.Some? && k in files.value && k in variables && Truthy(variables[k])
  {
    var sel := SelectedFields(variables, files);
    if forall k | k in sel :: FieldStored(resource, docId, variables, k, storage) then
      Some(map k | k in sel :: FieldValue(resource, docId, variables, k, storage))
    else
      None
  }

  /** A record holding the uploads of exactly the selected fields is the result of a successful upload. */
  lemma UploadedFieldsOf(resource: string, docId: string, variables: Record, files: Option<seq<string>>,
                         storage: Storage, out: Record)
    requires forall k :: k in out <==> k in SelectedFields(variables, files)
    requires forall k :: k in out ==>
      k in variables && FieldStored(resource, docId, variables, k, storage)
      && out[k] == FieldValue(resource, docId, variables, k, storage)
    ensures UploadedFields(resource, docId, variables, files, storage) == Some(out)
  {
    var sel := SelectedFields(variables, files);
    var m := map k | k in sel :: FieldValue(resource, docId, variables, k, storage);
    assert out == m by {
      assert m.Keys == out.Keys;
    }
    assert forall k | k in sel :: FieldStored(resource, docId, variables, k, storage) by {
      forall k | k in sel ensures FieldStored(resource, docId, variables, k, storage) {
        assert k in out;
      }
    }
  }

  /** Without declared file fields nothing is uploaded and the result is empty. */
  lemma NoFilesNoUploads(resource: string, docId: string, variables: Record, storage: Storage)
    ensures UploadedFields(resource, docId, variables, None, storage) == Some(map[])
  {
    assert SelectedFields(variables, None) == {};
  }

  /**
   * Per uploaded field: as many descriptors as files, in the same order, each stored under
   * `resource/docId/fieldName/name` and titled by the file's title or else its name.
   */
  lemma UploadedDescriptors(resource: string, docId: string, variables: Record, files: Option<seq<string>>,
                            storage: Storage, k: string)
    requires UploadedFields(resource, docId, variables, files, storage).Some?
    requires k in UploadedFields(resource, docId, variables, files, storage).value
    ensures k in variables
    ensures var v := UploadedFields(resource, docId, variables, files, storage).value[k];
            var items := ItemsOf(variables[k]);
            && v.Uploads?
            && |v.uploads| == |items|
            && forall i :: 0 <= i < |items| ==>
                 && v.uploads[i].fileName == resource + "/" + docId + "/" + k + "/" + items[i].name
                 && v.uploads[i].title == (if Given(items[i].title) then items[i].title.value else items[i].name)
                 && Some(v.uploads[i].src) == storage.downloadUrl(v.uploads[i].fileName)
  {
    var items := ItemsOf(variables[k]);
    var list := FieldUploads(resource, docId, k, items, storage);
    assert list.Some?;
  }

  /** The first loop of `uploadFiles`: the names of the truthy fields named in `files`. */
  method CollectFileFields(variables: Record, files: Option<seq<string>>) returns (pending: seq<string>)
    ensures forall k :: k in pending <==> k in SelectedFields(variables, files)
  {
    pending := [];
    if files.Some? {
      var remaining := variables.Keys;
      while remaining != {}
        invariant remaining <= variables.Keys
        invariant forall k :: k in pending <==> k in SelectedFields(variables, files) && k !in remaining
        decreases remaining
      {
        var fieldName :| fieldName in remaining;
        var fieldValue := variables[fieldName];
        if Truthy(fieldValue) && fieldName in files.value {
          pending := pending + [fieldName];
        }
        remaining := remaining - {fieldName};
      }
    }
  }

  /** The inner loop of `uploadFiles`: uploads one field's files in order, stopping at the first failure. */
  method UploadField(resource: string, docId: string, fieldName: string, items: seq<FirebaseFile>, storage: Storage)
    returns (r: Option<seq<UploadedFile>>)
    ensures r == FieldUploads(resource, docId, fieldName, items, storage)
  {
    var list: seq<UploadedFile> := [];
    var j := 0;
    while j < |items|
      invariant 0 <= j <= |items|
      invariant FieldUploads(resource, docId, fieldName, items[..j], storage) == Some(list)
    {
      var fileName := StoragePath(resource, docId, fieldName, items[j].name);
      var url := storage.downloadUrl(fileName);
      if url.None? {
        assert !Stored(storage, PathOf(resource, docId, fieldName, items[j]));
        return None;
      }
      assert items[..j + 1][..j] == items[..j];
      list := list + [UploadedFile(url.value, TitleOf(items[j]), fileName, storage.clock(fileName))];
      j := j + 1;
    }
    assert items[..j] == items;
    r := Some(list);
  }

  /**
   * `uploadFiles`: collects the truthy file fields, then uploads each field's files,
   * recording that field's list of descriptors.
   */
  method UploadFiles(variables: Record, resource: string, files: Option<seq<string>>, docId: string, storage: Storage)
    returns (r: Option<Record>)
    ensures r == UploadedFields(resource, docId, variables, files, storage)
  {
    var pending := CollectFileFields(variables, files);
    var out: Record := map[];
    var i := 0;
    while i < |pending|
      invariant 0 <= i <= |pending|
      invariant forall k :: k in out <==> k in pending[..i]
      invariant forall k :: k in out ==>
        k in variables && FieldStored(resource, docId, variables, k, storage)
        && out[k] == FieldValue(resource, docId, variables, k, storage)
    {
      var fieldName := pending[i];
      assert fieldName in pending;
      var list := UploadField(resource, docId, fieldName, ItemsOf(variables[fieldName]), storage);
      if list.None? {
        assert !FieldStored(resource, docId, variables, fieldName, storage);
        return None;
      }
      out := out[fieldName := Uploads(list.value)];
      assert pending[..i + 1] == pending[..i] + [fieldName];
      i := i + 1;
    }
    assert pending[..i] == pending;
    UploadedFieldsOf(resource, docId, variables, files, storage, out);
    r := Some(out);
  }
}
