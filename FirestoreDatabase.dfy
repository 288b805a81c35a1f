/**
 * The data-provider operations of the database adapter over Firestore. Every vendor
 * call is a parameter (`Firestore`, `Storage`); a vendor call that throws inside one of
 * the swallowing catch blocks makes the operation yield no result (`None`).
 */
module FirestoreDatabase {
  import opened Options
  import opened Values
  import opened FirestoreQuery
  import opened FirestoreFiles

  /** A document reference: collection and document id. */
  datatype DocRef = DocRef(resource: string, id: string)

  /** A document of a query snapshot: its id and its stored fields. */
  datatype Doc = Doc(id: string, data: Record)

  /**
   * The result of `getDoc`: the stored fields, `None` when no such document exists. A snapshot's
   * id is the id of the reference it was read from, so it is not repeated here.
   */
  datatype DocSnapshot = DocSnapshot(data: Option<Record>)

  /**
   * The document store side of the vendor. `getDocs`, `getDoc` and `addDoc` give `None`
   * when the call throws; `addDoc` gives the new document's id; `updateDoc` gives whether
   * the write succeeded.
   */
  datatype Firestore = Firestore(
    getDocs: QueryRef -> Option<seq<Doc>>,
    getDoc: DocRef -> Option<DocSnapshot>,
    addDoc: (string, Record) -> Option<string>,
    updateDoc: (DocRef, Record) -> bool)

  /** The overridable payload hooks `requestPayloadFactory` and `responsePayloadFactory`. */
  datatype Hooks = Hooks(request: (string, Record) -> Record, response: (string, Record) -> Record)

  /** The default hooks, which return the fields unchanged. */
  const IDENTITY_HOOKS: Hooks := Hooks((resource, fields) => fields, (resource, fields) => fields)

  /** The pagination of a list request (`current`, `pageSize`). */
  datatype Pagination = Pagination(current: Option<int>, pageSize: Option<int>)

  // --------------------------------------------------------------- createData

  /**
   * `{id: docId, ...payload, ...uploads}`: every key of the three parts, a later part
   * overriding an earlier one on a shared key.
   */
  function Assemble(docId: string, payload: Record, uploads: Record): (r: Record)
    ensures r.Keys == {"id"} + payload.Keys + uploads.Keys
    ensures forall k :: k in uploads ==> r[k] == uploads[k]
    ensures forall k :: k in payload && k !in uploads ==> r[k] == payload[k]
    ensures "id" !in payload && "id" !in uploads ==> r["id"] == Str(docId)
  {
    map["id" := Str(docId)] + payload + uploads
  }

  /**
   * `createData`: stores the payload without the file fields; when file fields are declared,
   * uploads their files, writes the descriptors to the new document and merges them into the
   * returned record. It fails exactly when the insert, an upload, or the write of the uploads
   * throws; a created record holds `id`, every payload field and every selected file field.
   */
  function CreateData(resource: string, variables: Record, files: Option<seq<string>>,
                      db: Firestore, storage: Storage, hooks: Hooks): (r: Option<Record>)
    ensures var payload := hooks.request(resource, Stripped(variables, files));
            r.None? <==>
              || db.addDoc(resource, payload).None?
              || (files.Some? && var docId := db.addDoc(resource, payload).value;
                  || UploadedFields(resource, docId, variables, files, storage).None?
                  || !db.updateDoc(DocRef(resource, docId), UploadedFields(resource, docId, variables, files, storage).value))
    ensures r.Some? ==>
      r.value.Keys == {"id"} + hooks.request(resource, Stripped(variables, files)).Keys + SelectedFields(variables, files)
    ensures r.Some? && files.Some? ==>
      var payload := hooks.request(resource, Stripped(variables, files));
      var uploads := UploadedFields(resource, db.addDoc(resource, payload).value, variables, files, storage).value;
      && (forall k :: k in uploads ==> r.value[k] == uploads[k])
      && (forall k :: k in payload && k !in uploads ==> r.value[k] == payload[k])
    ensures r.Some? && files.None? ==>
      var payload := hooks.request(resource, Stripped(variables, files));
      forall k :: k in payload ==> r.value[k] == payload[k]
    ensures r.Some? ==>
      var payload := hooks.request(resource, Stripped(variables, files));
      "id" !in payload && "id" !in SelectedFields(variables, files) ==> r.value["id"] == Str(db.addDoc(resource, payload).value)
  {
    var payload := hooks.request(resource, Stripped(variables, files));
    match db.addDoc(resource, payload)
    case None => None
    case Some(docId) =>
      if files.Some? then
        match UploadedFields(resource, docId, variables, files, storage)
        case None => None
        case Some(uploads) =>
          if db.updateDoc(DocRef(resource, docId), uploads) then Some(Assemble(docId, payload, uploads)) else None
      else
        Some(Assemble(docId, payload, map[]))
  }

  /** Without file fields the record is `{id: docId, ...payload}` of the unchanged variables. */
  lemma CreateDataWithoutFiles(resource: string, variables: Record, db: Firestore, storage: Storage,
                               hooks: Hooks, docId: string)
    requires db.addDoc(resource, hooks.request(resource, variables)) == Some(docId)
    ensures CreateData(resource, variables, None, db, storage, hooks)
         == Some(map["id" := Str(docId)] + hooks.request(resource, variables))
  {
    var payload := hooks.request(resource, variables);
    assert map["id" := Str(docId)] + payload + map[] == map["id" := Str(docId)] + payload;
  }

  /** The document first written holds no declared file field (default hooks). */
  lemma CreateDataStoresNoFileField(resource: string, variables: Record, files: seq<string>, k: string)
    requires k in files
    ensures k !in IDENTITY_HOOKS.request(resource, Stripped(variables, Some(files)))
  {
  }

  /**
   * With file fields and the default hooks, a created record keeps every non-file field's value,
   * holds an upload list for every truthy file field, and drops the file fields that are falsy.
   * An upload list overrides a payload field of the same name.
   */
  lemma CreateDataWithFiles(resource: string, variables: Record, files: seq<string>,
                            db: Firestore, storage: Storage, rec: Record)
    requires CreateData(resource, variables, Some(files), db, storage, IDENTITY_HOOKS) == Some(rec)
    ensures forall k :: k in variables && k !in files ==> k in rec && rec[k] == variables[k]
    ensures var docId := db.addDoc(resource, Stripped(variables, Some(files))).value;
            forall k :: k in files && k in variables && Truthy(variables[k]) ==>
              && k in rec && rec[k].Uploads?
              && k in UploadedFields(resource, docId, variables, Some(files), storage).value
              && rec[k] == UploadedFields(resource, docId, variables, Some(files), storage).value[k]
    ensures forall k :: k in files && k != "id" && !(k in variables && Truthy(variables[k])) ==> k !in rec
    ensures exists docId :: db.addDoc(resource, Stripped(variables, Some(files))) == Some(docId)
                            && ("id" !in variables ==> rec["id"] == Str(docId))
  {
    var payload := Stripped(variables, Some(files));
    var docId := db.addDoc(resource, payload).value;
    var uploads := UploadedFields(resource, docId, variables, Some(files), storage).value;
    assert rec == Assemble(docId, payload, uploads);
    forall k | k in files && k in variables && Truthy(variables[k]) ensures k in rec && rec[k].Uploads? {
      UploadedDescriptors(resource, docId, variables, Some(files), storage, k);
    }
    assert db.addDoc(resource, payload) == Some(docId);
  }

  /** `createManyData`: always resolves, wrapping whatever `createData` gave (possibly nothing). */
  function CreateManyData(resource: string, variables: Record, files: Option<seq<string>>,
                          db: Firestore, storage: Storage, hooks: Hooks): (r: Option<Option<Record>>)
    ensures r.Some?
    ensures r.value == CreateData(resource, variables, files, db, storage, hooks)
  {
    Some(CreateData(resource, variables, files, db, storage, hooks))
  }

  // ------------------------------------------------------------------ getList

  /** One listed record: `{id: document.id, ...document.data()}` through the response hook. */
  function ListRecord(resource: string, d: Doc, hooks: Hooks): Record {
    hooks.response(resource, map["id" := Str(d.id)] + d.data)
  }

  function Records(resource: string, docs: seq<Doc>, hooks: Hooks): seq<Record> {
    seq(|docs|, i requires 0 <= i < |docs| => ListRecord(resource, docs[i], hooks))
  }

  /** The data `getList` returns: one record per document of the composed query's snapshot. */
  function ListData(resource: string, sort: Option<seq<Sorter>>, filters: Option<seq<Filter>>,
                    pagination: Option<Pagination>, db: Firestore, hooks: Hooks): (r: Option<seq<Record>>)
    ensures r.Some? <==> db.getDocs(GetFilterQuery(resource, sort, filters)).Some?
    ensures r.Some? ==>
      var docs := db.getDocs(GetFilterQuery(resource, sort, filters)).value;
      && |r.value| == |docs|
      && forall i :: 0 <= i < |docs| ==> r.value[i] == ListRecord(resource, docs[i], hooks)
  {
    match db.getDocs(GetFilterQuery(resource, sort, filters))
    case None => None
    case Some(docs) => Some(Records(resource, docs, hooks))
  }

  /** The pagination of a list request has no effect on its result. */
  lemma ListDataIgnoresPagination(resource: string, sort: Option<seq<Sorter>>, filters: Option<seq<Filter>>,
                                  p: Option<Pagination>, q: Option<Pagination>, db: Firestore, hooks: Hooks)
    ensures ListData(resource, sort, filters, p, db, hooks) == ListData(resource, sort, filters, q, db, hooks)
  {
  }

  /** With the default hooks a listed record's `id` comes from a stored `id` field when there is one. */
  lemma ListRecordStoredIdWins(resource: string, d: Doc)
    ensures "id" !in d.data ==> ListRecord(resource, d, IDENTITY_HOOKS)["id"] == Str(d.id)
    ensures "id" in d.data ==> ListRecord(resource, d, IDENTITY_HOOKS)["id"] == d.data["id"]
    ensures ListRecord(resource, d, IDENTITY_HOOKS).Keys == d.data.Keys + {"id"}
    ensures forall k :: k in d.data && k != "id" ==> ListRecord(resource, d, IDENTITY_HOOKS)[k] == d.data[k]
  {
  }

  /** `getList`: runs the composed query and pushes one record per snapshot document. */
  method GetList(resource: string, sort: Option<seq<Sorter>>, filters: Option<seq<Filter>>,
                 pagination: Option<Pagination>, db: Firestore, hooks: Hooks)
    returns (data: Option<seq<Record>>)
    ensures data == ListData(resource, sort, filters, pagination, db, hooks)
  {
    var ref := GetFilterQuery(resource, sort, filters);
    var querySnapshot := db.getDocs(ref);
    if querySnapshot.None? {
      return None;
    }
    var docs := querySnapshot.value;
    var out: seq<Record> := [];
    for i := 0 to |docs|
      invariant |out| == i
      invariant forall m :: 0 <= m < i ==> out[m] == ListRecord(resource, docs[m], hooks)
    {
      out := out + [ListRecord(resource, docs[i], hooks)];
    }
    assert out == Records(resource, docs, hooks);
    data := Some(out);
  }

  // ------------------------------------------------------------------ getMany

  /** The snapshot documents whose id is among `ids`, in snapshot order. */
  function Kept(docs: seq<Doc>, ids: seq<string>): (r: seq<Doc>)
    ensures |r| <= |docs|
    ensures forall d :: d in r ==> d in docs && d.id in ids
  {
    if docs == [] then []
    else (if docs[0].id in ids then [docs[0]] else []) + Kept(docs[1..], ids)
  }

  /** Filtering distributes over concatenation, so snapshot order is kept. */
  lemma {:induction false} KeptConcat(a: seq<Doc>, b: seq<Doc>, ids: seq<string>)
    ensures Kept(a + b, ids) == Kept(a, ids) + Kept(b, ids)
  {
    if a == [] {
      assert a + b == b;
    } else {
      assert (a + b)[1..] == a[1..] + b;
      KeptConcat(a[1..], b, ids);
    }
  }

  /** A document is kept exactly when it is in the snapshot and its id is requested. */
  lemma {:induction false} KeptMembers(docs: seq<Doc>, ids: seq<string>, d: Doc)
    ensures d in Kept(docs, ids) <==> d in docs && d.id in ids
  {
    if docs != [] {
      KeptMembers(docs[1..], ids, d);
      assert docs == [docs[0]] + docs[1..];
    }
  }

  /** When every document's id is requested, every document is kept. */
  lemma {:induction false} KeptAll(docs: seq<Doc>, ids: seq<string>)
    requires forall d :: d in docs ==> d.id in ids
    ensures Kept(docs, ids) == docs
  {
    if docs != [] {
      KeptAll(docs[1..], ids);
      assert docs == [docs[0]] + docs[1..];
    }
  }

  /** The data `getMany` returns: the records of the requested documents of the whole collection. */
  function ManyData(resource: string, ids: seq<string>, db: Firestore, hooks: Hooks): (r: Option<seq<Record>>)
    ensures r.Some? <==> db.getDocs(CollectionRef(resource)).Some?
    ensures r.Some? ==>
      var docs := db.getDocs(CollectionRef(resource)).value;
      && |r.value| <= |docs|
      && (forall i :: 0 <= i < |r.value| ==> exists d :: d in docs && d.id in ids && r.value[i] == ListRecord(resource, d, hooks))
      && r.value == Records(resource, Kept(docs, ids), hooks)
  {
    match db.getDocs(CollectionRef(resource))
    case None => None
    case Some(docs) =>
      var kept := Kept(docs, ids);
      var recs := Records(resource, kept, hooks);
      assert forall i :: 0 <= i < |recs| ==>
        kept[i] in kept && kept[i] in docs && kept[i].id in ids && recs[i] == ListRecord(resource, kept[i], hooks);
      Some(recs)
  }

  /** `getMany`: reads the whole collection and pushes the records of the requested documents. */
  method GetMany(resource: string, ids: seq<string>, db: Firestore, hooks: Hooks) returns (data: Option<seq<Record>>)
    ensures data == ManyData(resource, ids, db, hooks)
  {
    var querySnapshot := db.getDocs(CollectionRef(resource));
    if querySnapshot.None? {
      return None;
    }
    var docs := querySnapshot.value;
    var out: seq<Record> := [];
    for i := 0 to |docs|
      invariant out == Records(resource, Kept(docs[..i], ids), hooks)
    {
      var document := docs[i];
      assert docs[..i + 1] == docs[..i] + [document];
      KeptConcat(docs[..i], [document], ids);
      if document.id in ids {
        out := out + [ListRecord(resource, document, hooks)];
      }
    }
    assert docs[..|docs|] == docs;
    data := Some(out);
  }

  // ------------------------------------------------------------------- getOne

  /**
   * `getOne`: nothing without a resource and an id, or when the read throws; otherwise
   * `{...document.data(), id: document.id}` through the response hook.
   */
  function GetOne(resource: string, id: string, db: Firestore, hooks: Hooks): (r: Option<Record>)
    ensures r.Some? <==> resource != "" && id != "" && db.getDoc(DocRef(resource, id)).Some?
  {
    if resource != "" && id != "" then
      match db.getDoc(DocRef(resource, id))
      case None => None
      case Some(snap) => Some(hooks.response(resource, snap.data.GetOr(map[]) + map["id" := Str(id)]))
    else
      None
  }

  /**
   * With the default hooks the record of `getOne` carries the document id as `id`, whatever
   * is stored, and every other stored field unchanged; a missing document gives just `{id}`.
   */
  lemma GetOneRecord(resource: string, id: string, db: Firestore)
    ensures GetOne(resource, id, db, IDENTITY_HOOKS).Some? <==>
              resource != "" && id != "" && db.getDoc(DocRef(resource, id)).Some?
    ensures GetOne(resource, id, db, IDENTITY_HOOKS).Some? ==>
      var snap := db.getDoc(DocRef(resource, id)).value;
      var rec := GetOne(resource, id, db, IDENTITY_HOOKS).value;
      && rec["id"] == Str(id)
      && (snap.data.None? ==> rec == map["id" := Str(id)])
      && (snap.data.Some? ==> rec.Keys == snap.data.value.Keys + {"id"})
      && (snap.data.Some? ==> forall k :: k in snap.data.value && k != "id" ==> rec[k] == snap.data.value[k])
  {
  }

  // --------------------------------------------------------------- updateData

  /**
   * `updateData`: writes the variables through the request hook when both a resource and
   * an id are given, and returns the variables unchanged; nothing when the write throws.
   */
  function UpdateData(resource: string, id: string, variables: Record, db: Firestore, hooks: Hooks)
    : (r: Option<Record>)
    ensures r.Some? ==> r.value == variables
    ensures r.None? <==> id != "" && resource != "" && !db.updateDoc(DocRef(resource, id), hooks.request(resource, variables))
  {
    if id != "" && resource != "" then
      if db.updateDoc(DocRef(resource, id), hooks.request(resource, variables)) then Some(variables) else None
    else
      Some(variables)
  }

  /** `updateManyData`: one write of the same payload per id, in the order of the ids. */
  method UpdateManyData(resource: string, ids: seq<string>, variables: Record, hooks: Hooks)
    returns (writes: seq<(DocRef, Record)>)
    ensures |writes| == |ids|
    ensures forall i :: 0 <= i < |ids| ==> writes[i] == (DocRef(resource, ids[i]), hooks.request(resource, variables))
  {
    writes := [];
    for i := 0 to |ids|
      invariant |writes| == i
      invariant forall m :: 0 <= m < i ==> writes[m] == (DocRef(resource, ids[m]), hooks.request(resource, variables))
    {
      writes := writes + [(DocRef(resource, ids[i]), hooks.request(resource, variables))];
    }
  }

  // --------------------------------------------------------------- deleteData

  /** `deleteData`: the one document delete it issues. */
  function DeleteData(resource: string, id: string): (d: DocRef)
    ensures d.resource == resource && d.id == id
  {
    DocRef(resource, id)
  }

  /** `deleteManyData`: one `deleteData` per id, in the order of the ids. */
  method DeleteManyData(resource: string, ids: seq<string>) returns (deletes: seq<DocRef>)
    ensures |deletes| == |ids|
    ensures forall i :: 0 <= i < |ids| ==> deletes[i] == DeleteData(resource, ids[i])
  {
    deletes := [];
    for i := 0 to |ids|
      invariant |deletes| == i
      invariant forall m :: 0 <= m < i ==> deletes[m] == DeleteData(resource, ids[m])
    {
      deletes := deletes + [DeleteData(resource, ids[i])];
    }
  }
}
