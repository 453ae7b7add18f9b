/** The documents page kept in the browser: files picked by the user are read into data
    URLs and kept under the signed-in user's `documents_<id>` key; files over 5 MB are
    turned away one by one; documents can be deleted; sizes are shown in binary units. */
module DocumentsPage {
  import opened Common
  import opened Seqs
  import opened Browser

  /** A file of the picker, with its contents already read as a data URL. */
  datatype PickedFile = PickedFile(name: string, mimeType: string, size: nat, dataUrl: string)

  const SizeLimit: int := 5 * 1024 * 1024

  const LoginFirst := "Please log in to upload documents"

  /** What an upload did: nothing (no file picked), a refusal, or the new list together
      with the names of the files turned away for their size. */
  datatype Outcome = NoFiles | Refused(message: string) | Uploaded(docs: seq<ClientDoc>, tooLarge: seq<string>)

  /** The document made from the `i`-th picked file, read at clock reading `stamp`:
      its id is `Date.now() + i`. */
  function MakeDoc(f: PickedFile, stamp: int, i: int): ClientDoc {
    ClientDoc(stamp + i, f.name, f.mimeType, f.size, f.dataUrl, stamp)
  }

  /** The documents made from the first `n` files, skipping those over the limit. */
  function Accepted(files: seq<PickedFile>, clock: seq<int>, n: nat): seq<ClientDoc>
    requires n <= |files| && |clock| == |files|
  {
    if n == 0 then []
    else if files[n - 1].size > SizeLimit then Accepted(files, clock, n - 1)
    else Accepted(files, clock, n - 1) + [MakeDoc(files[n - 1], clock[n - 1], n - 1)]
  }

  /** The names of the first `n` files that are over the limit. */
  function TooLarge(files: seq<PickedFile>, n: nat): seq<string>
    requires n <= |files|
  {
    if n == 0 then []
    else if files[n - 1].size > SizeLimit then TooLarge(files, n - 1) + [files[n - 1].name]
    else TooLarge(files, n - 1)
  }

  /** `handleFileUpload`. `clock` holds the `Date.now()` reading taken at each file, which
      gives both the document's id and its upload time. The new documents are appended to
      the ones shown, and the whole list is stored under the user's key. */
  method HandleFileUpload(ls: LocalStorage, shown: seq<ClientDoc>, files: seq<PickedFile>, clock: seq<int>)
    returns (out: Outcome)
    requires |clock| == |files|
    modifies ls
    ensures files == [] ==> out == NoFiles && ls.items == old(ls.items)
    ensures files != [] && "user" !in old(ls.items) ==> out == Refused(LoginFirst) && ls.items == old(ls.items)
    ensures files != [] && "user" in old(ls.items) ==>
              var docs := shown + Accepted(files, clock, |files|);
              out == Uploaded(docs, TooLarge(files, |files|)) &&
              ls.items == old(ls.items)[DocsKey(UserIdOf(old(ls.items)["user"])) := Docs(docs)]
  {
    if |files| == 0 {
      return NoFiles;
    }
    if "user" !in ls.items {
      return Refused(LoginFirst);
    }
    var newDocs: seq<ClientDoc> := [];
    var rejected: seq<string> := [];
    var i := 0;
    while i < |files|
      invariant 0 <= i <= |files|
      invariant newDocs == Accepted(files, clock, i)
      invariant rejected == TooLarge(files, i)
    {
      var file := files[i];
      if file.size > SizeLimit {
        rejected := rejected + [file.name];
      } else {
        newDocs := newDocs + [MakeDoc(file, clock[i], i)];
      }
      i := i + 1;
    }
    var updated := shown + newDocs;
    ls.SetItem(DocsKey(UserIdOf(ls.items["user"])), Docs(updated));
    out := Uploaded(updated, rejected);
  }

  /** Every kept document is within the limit and comes from a picked file at its index;
      every picked file within the limit is kept. */
  lemma {:induction false} AcceptedExactly(files: seq<PickedFile>, clock: seq<int>, n: nat)
    requires n <= |files| && |clock| == |files|
    ensures forall d :: d in Accepted(files, clock, n) <==>
              exists i :: 0 <= i < n && files[i].size <= SizeLimit && d == MakeDoc(files[i], clock[i], i)
    ensures forall d :: d in Accepted(files, clock, n) ==> d.size <= SizeLimit
  {
    if n > 0 {
      AcceptedExactly(files, clock, n - 1);
    }
  }

  /** Each picked file is either kept or named as too large, never both. */
  lemma {:induction false} AllAccountedFor(files: seq<PickedFile>, clock: seq<int>, n: nat)
    requires n <= |files| && |clock| == |files|
    ensures |Accepted(files, clock, n)| + |TooLarge(files, n)| == n
  {
    if n > 0 {
      AllAccountedFor(files, clock, n - 1);
    }
  }

  /** A file is named as too large exactly when some file of that name is over the limit. */
  lemma {:induction false} TooLargeNames(files: seq<PickedFile>, n: nat)
    requires n <= |files|
    ensures forall s :: s in TooLarge(files, n) <==> exists i :: 0 <= i < n && files[i].size > SizeLimit && files[i].name == s
  {
    if n > 0 {
      TooLargeNames(files, n - 1);
    }
  }

  /** `loadDocuments`: the list stored under the user's key, or nothing. */
  method LoadDocuments(ls: LocalStorage) returns (docs: seq<ClientDoc>)
    ensures "user" !in ls.items ==> docs == []
    ensures "user" in ls.items ==> docs == DocsAt(ls.items, DocsKey(UserIdOf(ls.items["user"])))
  {
    if "user" !in ls.items {
      return [];
    }
    docs := DocsAt(ls.items, DocsKey(UserIdOf(ls.items["user"])));
  }

  function WithoutDoc(docs: seq<ClientDoc>, id: int): seq<ClientDoc> {
    Filter(docs, (d: ClientDoc) => d.id != id)
  }

  /** `handleDelete`: drop the shown documents with this id and store the rest; with no
      signed-in user the store is left alone (the handler's `catch` reports the failure). */
  method HandleDelete(ls: LocalStorage, shown: seq<ClientDoc>, id: int) returns (updated: seq<ClientDoc>)
    modifies ls
    ensures updated == WithoutDoc(shown, id)
    ensures "user" in old(ls.items) ==> ls.items == old(ls.items)[DocsKey(UserIdOf(old(ls.items)["user"])) := Docs(updated)]
    ensures "user" !in old(ls.items) ==> ls.items == old(ls.items)
  {
    updated := WithoutDoc(shown, id);
    if "user" in ls.items {
      ls.SetItem(DocsKey(UserIdOf(ls.items["user"])), Docs(updated));
    }
  }

  /** Deleting keeps exactly the documents with another id. */
  lemma WithoutDocMembers(docs: seq<ClientDoc>, id: int)
    ensures forall d :: d in WithoutDoc(docs, id) <==> d in docs && d.id != id
  {
    FilterMembers(docs, (d: ClientDoc) => d.id != id);
  }

  // ---------------------------------------------------------------------------
  // formatFileSize

  const Units: seq<string> := ["Bytes", "KB", "MB", "GB"]

  function Pow1024(i: nat): (r: nat)
    ensures r >= 1
  {
    if i == 0 then 1 else 1024 * Pow1024(i - 1)
  }

  /** `Math.floor(Math.log(bytes) / Math.log(1024))`, taken exactly: the power of 1024
      that the size reaches. */
  function UnitIndex(bytes: nat): (i: nat)
    requires bytes >= 1
    ensures Pow1024(i) <= bytes < Pow1024(i + 1)
  {
    if bytes < 1024 then 0
    else
      var i := UnitIndex(bytes / 1024);
      assert Pow1024(i + 1) == 1024 * Pow1024(i);
      assert Pow1024(i + 2) == 1024 * Pow1024(i + 1);
      i + 1
  }

  /** A label: "0 Bytes", or the size scaled down to its unit (`sizes[i]`, which is
      undefined from 1024 GB on), before rounding to two decimals. */
  datatype SizeLabel = ZeroBytes | Scaled(value: real, unit: string)

  lemma ScaleBounds(b: real, p: real)
    requires 0.0 < p <= b < 1024.0 * p
    ensures (b / p) * p == b
    ensures 1.0 <= b / p < 1024.0
  {
    var v := b / p;
    assert v * p == b;
    if v < 1.0 {
      assert false;
    }
    if v >= 1024.0 {
      assert false;
    }
  }

  function FormatFileSize(bytes: nat): (r: SizeLabel)
    ensures bytes == 0 <==> r == ZeroBytes
    ensures bytes > 0 ==>
              var i := UnitIndex(bytes);
              r.Scaled? && r.value * (Pow1024(i) as real) == bytes as real &&
              1.0 <= r.value < 1024.0 &&
              r.unit == (if i < |Units| then Units[i] else "undefined")
  {
    if bytes == 0 then ZeroBytes
    else
      var i := UnitIndex(bytes);
      var p := Pow1024(i) as real;
      assert Pow1024(i + 1) == 1024 * Pow1024(i);
      ScaleBounds(bytes as real, p);
      Scaled(bytes as real / p, if i < |Units| then Units[i] else "undefined")
  }

  /** 1536 bytes read as 1.5 KB; the upload limit reads as 5 MB. */
  lemma SizeLabels()
    ensures FormatFileSize(1536) == Scaled(1.5, "KB")
    ensures FormatFileSize(SizeLimit) == Scaled(5.0, "MB")
  {
    assert UnitIndex(1536 / 1024) == 0;
    assert UnitIndex(1536) == 1;
    assert UnitIndex(SizeLimit / 1024 / 1024) == 0;
    assert UnitIndex(SizeLimit / 1024) == 1;
    assert UnitIndex(SizeLimit) == 2;
    assert Pow1024(2) == 1048576;
  }
}
