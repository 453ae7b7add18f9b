/** The shared dashboard frame: which navigation link is highlighted, and logging out,
    which drops the session and any saved form data from the browser's storage. */
module DashboardLayout {
  import opened Common
  import opened Browser

  /** The links of the navigation menu. */
  const NavPaths: seq<string> := [
    "/dashboard", "/dashboard/transactions", "/dashboard/budget-goals",
    "/dashboard/documents", "/dashboard/financial-insights"]

  /** `isActive(path)`: the link for `path` is highlighted on the page at `pathname`. */
  predicate IsActive(pathname: string, path: string) {
    pathname == path
  }

  /** Among links with different paths, at most one is highlighted, and one is exactly
      when the page is one of them. */
  lemma AtMostOneActive(pathname: string, paths: seq<string>)
    requires forall i, j :: 0 <= i < j < |paths| ==> paths[i] != paths[j]
    ensures forall i, j :: 0 <= i < j < |paths| ==> !(IsActive(pathname, paths[i]) && IsActive(pathname, paths[j]))
    ensures (exists i :: 0 <= i < |paths| && IsActive(pathname, paths[i])) <==> pathname in paths
  {
  }

  lemma NavPathsDistinct()
    ensures forall i, j :: 0 <= i < j < |NavPaths| ==> NavPaths[i] != NavPaths[j]
  {
    assert NavPaths[1][11] == 't' && NavPaths[2][11] == 'b' && NavPaths[3][11] == 'd' && NavPaths[4][11] == 'f';
    assert |NavPaths[0]| == 10 && |NavPaths[1]| == 23 && |NavPaths[2]| == 23 && |NavPaths[3]| == 20 && |NavPaths[4]| == 29;
  }

  /** A key holding saved form data: it starts with `formData_` or contains `_form_` or
      `_input_`. */
  predicate FormKey(key: string) {
    StartsWith(key, "formData_") || Contains(key, "_form_") || Contains(key, "_input_")
  }

  /** The storage after logging out: the session and every form-data key gone, everything
      else as it was. */
  function AfterLogout(items: map<string, Value>): (r: map<string, Value>)
    ensures forall k :: k in r <==> k in items && k != "user" && !FormKey(k)
    ensures forall k :: k in r ==> r[k] == items[k]
  {
    map k | k in items && k != "user" && !FormKey(k) :: items[k]
  }

  /** `handleLogout`: remove `user`, collect the form-data keys that remain, and remove
      them one by one. */
  method HandleLogout(ls: LocalStorage)
    modifies ls
    ensures ls.items == AfterLogout(old(ls.items))
  {
    ls.RemoveItem("user");
    ghost var start := ls.items;
    var formKeys := set k | k in ls.items && FormKey(k);
    var pending := formKeys;
    while pending != {}
      invariant pending <= formKeys
      invariant forall k :: k in ls.items <==> k in start && !(k in formKeys && k !in pending)
      invariant forall k :: k in ls.items ==> ls.items[k] == start[k]
      decreases pending
    {
      var k :| k in pending;
      ls.RemoveItem(k);
      pending := pending - {k};
    }
    assert ls.items == AfterLogout(old(ls.items));
  }

  /** Logging out keeps the token and the storage of a user whose id has no `_`, and
      runs twice as once. */
  lemma LogoutKeeps(items: map<string, Value>, id: string)
    requires forall c :: c in id ==> c != '_'
    ensures "token" in items ==> "token" in AfterLogout(items) && AfterLogout(items)["token"] == items["token"]
    ensures LedgerKey(id) in items ==> LedgerKey(id) in AfterLogout(items)
    ensures AfterLogout(AfterLogout(items)) == AfterLogout(items)
  {
    LedgerKeyNotForm(id);
    assert !Contains("token", "_form_") && !Contains("token", "_input_");
  }

  /** The only `_` of `transactions_<id>`, for an id without one, is the separator. */
  lemma SeparatorOnly(id: string)
    requires forall c :: c in id ==> c != '_'
    ensures forall i :: 0 <= i < |LedgerKey(id)| && i != 12 ==> LedgerKey(id)[i] != '_'
  {
    var k := LedgerKey(id);
    forall i | 0 <= i < |k| && i != 12 ensures k[i] != '_' {
      if i > 12 {
        assert k[i] == id[i - 13];
        assert id[i - 13] in id;
      } else {
        assert k[i] == "transactions_"[i];
      }
    }
  }

  lemma OccursAtChars(s: string, sub: string, i: int)
    requires 0 <= i <= |s| - |sub| && OccursAt(s, sub, i)
    ensures forall j :: 0 <= j < |sub| ==> s[i + j] == sub[j]
  {
    forall j | 0 <= j < |sub| ensures s[i + j] == sub[j] {
      assert s[i..i + |sub|][j] == sub[j];
    }
  }

  /** Both patterns have two `_` apart, and the ledger key of such an id has only one. */
  lemma LedgerKeyNotForm(id: string)
    requires forall c :: c in id ==> c != '_'
    ensures !FormKey(LedgerKey(id))
  {
    assert LedgerKey(id)[0] == 't';
    NoPairInKey(id, "_form_", 5);
    NoPairInKey(id, "_input_", 6);
  }

  lemma NoPairInKey(id: string, pattern: string, d: nat)
    requires forall c :: c in id ==> c != '_'
    requires 0 < d < |pattern| && pattern[0] == '_' && pattern[d] == '_'
    ensures !Contains(LedgerKey(id), pattern)
  {
    var k := LedgerKey(id);
    if Contains(k, pattern) {
      var i :| 0 <= i <= |k| - |pattern| && OccursAt(k, pattern, i);
      OccursAtChars(k, pattern, i);
      assert k[i] == '_' && k[i + d] == '_';
      SeparatorOnly(id);
    }
  }

  /** But an id that starts with `form_` loses its transactions on logout. */
  lemma LedgerKeyCanLookLikeForm()
    ensures FormKey(LedgerKey("form_a@b.c"))
  {
    var k := LedgerKey("form_a@b.c");
    assert k[12..18] == "_form_";
    assert OccursAt(k, "_form_", 12);
  }
}
