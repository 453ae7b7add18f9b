/** The document controller: owner-scoped create, read, update and delete of document
    records, and the listing with its storage statistics per file type. */
module DocumentCtrl {
  import opened Common
  import opened Seqs
  import opened Grouping
  import opened Sorting
  import opened Db

  /** `upload`: the acting user owns the new record, dated `now`. */
  method Upload(st: Store, actor: Id, now: Date, title: string, description: string, fileUrl: string,
                fileType: string, fileSize: int)
    returns (d: Document)
    requires st.Valid()
    modifies st`documents, st`nextId
    ensures st.Valid()
    ensures d == Document(old(st.nextId), actor, title, description, fileUrl, fileType, fileSize, now)
    ensures st.documents == old(st.documents) + [d]
  {
    d := Document(st.nextId, actor, title, description, fileUrl, fileType, fileSize, now);
    AppendOk(st.documents, d, DocumentId, st.nextId);
    st.TablesGrow(st.nextId, st.nextId + 1);
    st.documents := st.documents + [d];
    st.nextId := st.nextId + 1;
    assert st.TablesBelow(st.nextId);
  }

  function OfUser(docs: seq<Document>, actor: Id): (r: seq<Document>)
    ensures forall d :: d in r <==> d in docs && d.user == actor
  {
    var p := (d: Document) => d.user == actor;
    FilterMembers(docs, p);
    Filter(docs, p)
  }

  function UploadKey(d: Document): int {
    DateKey(d.uploadDate)
  }

  function SizePair(d: Document): (string, int) {
    (d.fileType, d.fileSize)
  }

  function CountPair(d: Document): (string, int) {
    (d.fileType, 1)
  }

  /** A `byType` entry. */
  datatype TypeStat = TypeStat(count: int, size: int)

  datatype StorageStats = StorageStats(totalFiles: int, totalSize: int, byType: seq<(string, TypeStat)>)

  function Sizes(byType: seq<(string, TypeStat)>): (r: seq<(string, int)>)
    ensures |r| == |byType| && forall i :: 0 <= i < |r| ==> r[i] == (byType[i].0, byType[i].1.size)
  {
    seq(|byType|, i requires 0 <= i < |byType| => (byType[i].0, byType[i].1.size))
  }

  function Counts(byType: seq<(string, TypeStat)>): (r: seq<(string, int)>)
    ensures |r| == |byType| && forall i :: 0 <= i < |r| ==> r[i] == (byType[i].0, byType[i].1.count)
  {
    seq(|byType|, i requires 0 <= i < |byType| => (byType[i].0, byType[i].1.count))
  }

  /** The `$group` by `fileType` with a count and a size sum, one entry per type present. */
  function ByType(mine: seq<Document>): (r: seq<(string, TypeStat)>)
    ensures Sizes(r) == Grouped(PairsOf(mine, SizePair))
    ensures Counts(r) == Grouped(PairsOf(mine, CountPair))
  {
    var ds := Distinct(KeysOf(PairsOf(mine, SizePair)));
    var r := seq(|ds|, i requires 0 <= i < |ds| =>
      (ds[i], TypeStat(SumFor(PairsOf(mine, CountPair), ds[i]), SumFor(PairsOf(mine, SizePair), ds[i]))));
    assert KeysOf(PairsOf(mine, SizePair)) == KeysOf(PairsOf(mine, CountPair));
    r
  }

  lemma {:induction false} CountTotal(docs: seq<Document>)
    ensures Total(PairsOf(docs, CountPair)) == |docs|
  {
    if docs != [] {
      var p := docs[..|docs| - 1];
      CountTotal(p);
      PairsOfAppend(p, [docs[|docs| - 1]], CountPair);
      assert docs == p + [docs[|docs| - 1]];
      TotalSnoc(PairsOf(p, CountPair), CountPair(docs[|docs| - 1]));
    }
  }

  /** The statistics of `getAll`: the number of documents, the sum of the per-type
      sizes and the per-type buckets. The per-type sizes add up to the size of all
      documents, the counts to their number, and each file type present has exactly one
      bucket. */
  function Stats(mine: seq<Document>): (r: StorageStats)
    ensures r.totalFiles == |mine|
    ensures r.totalSize == Total(Sizes(r.byType))
    ensures r.totalSize == Total(PairsOf(mine, SizePair))
    ensures Total(Counts(r.byType)) == |mine|
    ensures NoDup(KeysOf(Sizes(r.byType)))
    ensures forall k :: k in KeysOf(Sizes(r.byType)) <==> exists d :: d in mine && d.fileType == k
  {
    var byType := ByType(mine);
    GroupedTotal(PairsOf(mine, SizePair));
    GroupedTotal(PairsOf(mine, CountPair));
    CountTotal(mine);
    PairsKeys(mine, SizePair);
    StorageStats(|mine|, Total(Sizes(byType)), byType)
  }

  datatype Listing = Listing(documents: seq<Document>, stats: StorageStats)

  /** `getAll`: the acting user's documents, newest upload first, with their statistics. */
  function GetAll(docs: seq<Document>, actor: Id): (r: Listing)
    ensures SortedDescBy(r.documents, UploadKey)
    ensures multiset(r.documents) == multiset(OfUser(docs, actor))
    ensures r.stats == Stats(OfUser(docs, actor))
    ensures r.stats.totalFiles == |r.documents|
  {
    var mine := OfUser(docs, actor);
    Listing(SortDescBy(mine, UploadKey), Stats(mine))
  }

  predicate Owned(docs: seq<Document>, actor: Id, id: Id) {
    exists i :: 0 <= i < |docs| && docs[i].id == id && docs[i].user == actor
  }

  function FindOwned(docs: seq<Document>, actor: Id, id: Id): (r: nat)
    ensures r <= |docs|
    ensures r < |docs| ==> docs[r].id == id && docs[r].user == actor
    ensures r == |docs| <==> !Owned(docs, actor, id)
  {
    FirstWhere(docs, (d: Document) => d.id == id && d.user == actor)
  }

  /** `getOne`: the document with that id, when the acting user owns it. */
  function GetOne(docs: seq<Document>, actor: Id, id: Id): (r: Result<Document>)
    ensures r.Err? <==> !Owned(docs, actor, id)
    ensures r.Err? ==> r == Fail(404, "Document not found")
    ensures r.Ok? ==> r.value in docs && r.value.id == id && r.value.user == actor
  {
    var i := FindOwned(docs, actor, id);
    if i == |docs| then Fail(404, "Document not found") else Ok(docs[i])
  }

  /** The title and description of an update body; None for a field it leaves out. */
  function Retitle(d: Document, title: Option<string>, description: Option<string>): (r: Document)
    ensures r.title == (if title.Some? then title.value else d.title)
    ensures r.description == (if description.Some? then description.value else d.description)
    ensures r.(title := d.title, description := d.description) == d
  {
    d.(title := if title.Some? then title.value else d.title,
       description := if description.Some? then description.value else d.description)
  }

  /** `update`: only the title and the description of an owned document change. */
  method Update(st: Store, actor: Id, id: Id, title: Option<string>, description: Option<string>)
    returns (r: Result<Document>)
    requires st.Valid()
    modifies st`documents
    ensures st.Valid()
    ensures r.Err? <==> !Owned(old(st.documents), actor, id)
    ensures r.Err? ==> r == Fail(404, "Document not found") && st.documents == old(st.documents)
    ensures r.Ok? ==>
              exists i :: 0 <= i < |old(st.documents)| && old(st.documents)[i].id == id &&
                old(st.documents)[i].user == actor &&
                r.value == Retitle(old(st.documents)[i], title, description) &&
                st.documents == old(st.documents)[i := r.value]
  {
    var i := FindOwned(st.documents, actor, id);
    if i == |st.documents| {
      return Fail(404, "Document not found");
    }
    var d := Retitle(st.documents[i], title, description);
    ReplaceOk(st.documents, i, d, DocumentId, st.nextId);
    st.documents := st.documents[i := d];
    r := Ok(d);
  }

  /** `delete`: only an owned document is removed. */
  method Delete(st: Store, actor: Id, id: Id) returns (r: Result<Document>)
    requires st.Valid()
    modifies st`documents
    ensures st.Valid()
    ensures r.Err? <==> !Owned(old(st.documents), actor, id)
    ensures r.Err? ==> r == Fail(404, "Document not found") && st.documents == old(st.documents)
    ensures r.Ok? ==>
              exists i :: 0 <= i < |old(st.documents)| && old(st.documents)[i].id == id &&
                old(st.documents)[i].user == actor &&
                r.value == old(st.documents)[i] && st.documents == RemoveAt(old(st.documents), i)
    ensures r.Ok? ==> forall d :: d in st.documents ==> d.id != id
  {
    var i := FindOwned(st.documents, actor, id);
    if i == |st.documents| {
      return Fail(404, "Document not found");
    }
    r := Ok(st.documents[i]);
    RemoveOk(st.documents, i, DocumentId, st.nextId);
    RemovedIdGone(st.documents, i, DocumentId);
    st.documents := RemoveAt(st.documents, i);
  }
}
