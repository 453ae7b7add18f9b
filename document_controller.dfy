/** The third document controller: document links stored with the request's `userId`,
    which the authentication middleware does not set, and a delete by id alone. */
module DocumentController {
  import opened Common
  import opened Seqs
  import opened Db

  /** `addDocument`: title, link and whatever user id the request carried. */
  method AddDocument(st: Store, user: Option<Id>, title: string, fileUrl: string) returns (d: LinkDocument)
    requires st.Valid()
    modifies st`links, st`nextId
    ensures st.Valid()
    ensures d == LinkDocument(old(st.nextId), user, title, fileUrl)
    ensures st.links == old(st.links) + [d]
  {
    d := LinkDocument(st.nextId, user, title, fileUrl);
    AppendOk(st.links, d, LinkDocumentId, st.nextId);
    st.TablesGrow(st.nextId, st.nextId + 1);
    st.links := st.links + [d];
    st.nextId := st.nextId + 1;
    assert st.TablesBelow(st.nextId);
  }

  /** `getDocuments`: the links whose user is the request's user id. */
  function GetDocuments(links: seq<LinkDocument>, user: Option<Id>): (r: seq<LinkDocument>)
    ensures forall d :: d in r <==> d in links && d.user == user
  {
    var p := (d: LinkDocument) => d.user == user;
    FilterMembers(links, p);
    Filter(links, p)
  }

  const Deleted: string := "Document deleted successfully"

  /** `deleteDocument`: `findByIdAndDelete` with no owner in the query, so the caller's
      identity plays no part. */
  method DeleteDocument(st: Store, id: Id) returns (r: Result<string>)
    requires st.Valid()
    modifies st`links
    ensures st.Valid()
    ensures r.Err? <==> forall i :: 0 <= i < |old(st.links)| ==> old(st.links)[i].id != id
    ensures r.Err? ==> r == Fail(404, "Document not found") && st.links == old(st.links)
    ensures r.Ok? ==>
              r.value == Deleted &&
              exists i :: 0 <= i < |old(st.links)| && old(st.links)[i].id == id &&
                st.links == RemoveAt(old(st.links), i)
    ensures r.Ok? ==> forall d :: d in st.links ==> d.id != id
  {
    var i := FirstWhere(st.links, (d: LinkDocument) => d.id == id);
    if i == |st.links| {
      return Fail(404, "Document not found");
    }
    RemoveOk(st.links, i, LinkDocumentId, st.nextId);
    RemovedIdGone(st.links, i, LinkDocumentId);
    st.links := RemoveAt(st.links, i);
    r := Ok(Deleted);
  }
}
