/** The older document controller: uploaded files with their storage path, and a
    download and a delete that tell a missing record (404) from another user's (401). */
module DocumentsCtrl {
  import opened Common
  import opened Seqs
  import opened Db

  /** The `req.file` that the upload middleware attaches. */
  datatype Upload = Upload(originalname: string, filename: string, mimetype: string, size: int, path: string)

  /** `uploadDocument`: without a file nothing is created. */
  method UploadDocument(st: Store, actor: Id, file: Option<Upload>) returns (r: Result<StoredFile>)
    requires st.Valid()
    modifies st`files, st`nextId
    ensures st.Valid()
    ensures r.Err? <==> file.None?
    ensures r.Err? ==> r == Fail(400, "Please upload a file") && st.files == old(st.files) && st.nextId == old(st.nextId)
    ensures r.Ok? ==>
              var f := file.value;
              r.value == StoredFile(old(st.nextId), actor, f.originalname, f.filename, f.mimetype, f.size, f.path) &&
              st.files == old(st.files) + [r.value]
  {
    if file.None? {
      return Fail(400, "Please upload a file");
    }
    var f := file.value;
    var d := StoredFile(st.nextId, actor, f.originalname, f.filename, f.mimetype, f.size, f.path);
    AppendOk(st.files, d, StoredFileId, st.nextId);
    st.TablesGrow(st.nextId, st.nextId + 1);
    st.files := st.files + [d];
    st.nextId := st.nextId + 1;
    assert st.TablesBelow(st.nextId);
    r := Ok(d);
  }

  /** `getDocuments`: the acting user's records, in stored order. */
  function GetDocuments(files: seq<StoredFile>, actor: Id): (r: seq<StoredFile>)
    ensures forall f :: f in r <==> f in files && f.user == actor
  {
    var p := (f: StoredFile) => f.user == actor;
    FilterMembers(files, p);
    Filter(files, p)
  }

  /** The 404 / 401 checks of download and delete: the index of the record when it
      exists and the acting user owns it. */
  function Check(files: seq<StoredFile>, actor: Id, id: Id): (r: Result<nat>)
    requires UniqueBy(files, StoredFileId)
    ensures r.Ok? <==> exists i :: 0 <= i < |files| && files[i].id == id && files[i].user == actor
    ensures r.Err? && (forall i :: 0 <= i < |files| ==> files[i].id != id) ==> r == Fail(404, "Document not found")
    ensures r.Err? && (exists i :: 0 <= i < |files| && files[i].id == id) ==> r == Fail(401, "Not authorized")
    ensures r.Ok? ==> r.value < |files| && files[r.value].id == id && files[r.value].user == actor
  {
    var i := FirstWhere(files, (f: StoredFile) => f.id == id);
    if i == |files| then Fail(404, "Document not found")
    else if files[i].user != actor then
      assert forall j :: 0 <= j < |files| && files[j].id == id ==> j == i by {
        forall j | 0 <= j < |files| && files[j].id == id ensures j == i {
          UniqueIndex(files, StoredFileId, i, j);
        }
      }
      Fail(401, "Not authorized")
    else Ok(i)
  }

  /** `downloadDocument`: the stored path to send and the original name to send it under.
      The controller resolves that path against its own directory's parent before sending;
      the resolved file-system path is not modelled, only the stored one. */
  function DownloadDocument(files: seq<StoredFile>, actor: Id, id: Id): (r: Result<(string, string)>)
    requires UniqueBy(files, StoredFileId)
    ensures r.Err? ==> Err(r.failure) == Check(files, actor, id)
    ensures r.Ok? <==> Check(files, actor, id).Ok?
    ensures r.Ok? ==> exists f :: f in files && f.id == id && f.user == actor && r.value == (f.path, f.name)
  {
    match Check(files, actor, id)
    case Err(e) => Err(e)
    case Ok(i) => Ok((files[i].path, files[i].name))
  }

  const Removed: string := "Document removed"

  /** `deleteDocument`: the file is unlinked and the record removed; a failed unlink is
      only logged, so the record goes either way. */
  method DeleteDocument(st: Store, actor: Id, id: Id, unlinkFails: bool) returns (r: Result<string>)
    requires st.Valid()
    modifies st`files
    ensures st.Valid()
    ensures r.Err? ==> st.files == old(st.files)
    ensures r.Err? ==> Err(r.failure) == Check(old(st.files), actor, id)
    ensures r.Ok? <==> Check(old(st.files), actor, id).Ok?
    ensures r.Ok? ==> r.value == Removed && st.files == RemoveAt(old(st.files), Check(old(st.files), actor, id).value)
    ensures r.Ok? ==> forall f :: f in st.files ==> f.id != id
  {
    var c := Check(st.files, actor, id);
    if c.Err? {
      return Err(c.failure);
    }
    // `unlinkFails`: the error is only logged, and the removal goes ahead either way
    RemoveOk(st.files, c.value, StoredFileId, st.nextId);
    RemovedIdGone(st.files, c.value, StoredFileId);
    st.files := RemoveAt(st.files, c.value);
    r := Ok(Removed);
  }
}
