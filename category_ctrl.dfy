/** The category controller. A category's name is the only link between a category and
    the transactions filed under it, so renaming and deleting rewrite the acting user's
    transactions with the old name. The update guard combines its two tests with `&&`, so
    it never rejects another user's category and raises on a missing one. */
module CategoryCtrl {
  import opened Common
  import opened Seqs
  import opened CategoryModel
  import opened Db

  /** The name `delete` files orphaned transactions under; it differs from the schema's
      default name. */
  const Uncategorized: string := "uncategorized"

  const Removed: string := "category removed and transaction updated"
  const NotRemoved: string := "category not found or user not authorized"

  /** `updateMany({user: actor, category: from}, {$set: {category: to}})`. */
  function Recategorize(txs: seq<Transaction>, actor: Id, from: string, to: string): (r: seq<Transaction>)
    ensures |r| == |txs|
    ensures forall i :: 0 <= i < |txs| ==> r[i].(category := txs[i].category) == txs[i]
    ensures forall i :: 0 <= i < |txs| ==>
              r[i].category == (if txs[i].user == actor && txs[i].category == from then to else txs[i].category)
  {
    seq(|txs|, i requires 0 <= i < |txs| =>
      if txs[i].user == actor && txs[i].category == from then txs[i].(category := to) else txs[i])
  }

  /** After the cascade no transaction of the acting user carries the old name, and every
      other user's transactions are as they were. */
  lemma RecategorizeMoves(txs: seq<Transaction>, actor: Id, from: string, to: string)
    requires from != to
    ensures forall t :: t in Recategorize(txs, actor, from, to) && t.user == actor ==> t.category != from
    ensures forall i :: 0 <= i < |txs| && txs[i].user != actor ==> Recategorize(txs, actor, from, to)[i] == txs[i]
  {
    var r := Recategorize(txs, actor, from, to);
    forall t | t in r && t.user == actor ensures t.category != from {
      var i :| 0 <= i < |r| && r[i] == t;
      assert r[i].user == txs[i].user;
    }
  }

  /** Running the cascade a second time changes nothing. */
  lemma RecategorizeIdempotent(txs: seq<Transaction>, actor: Id, from: string, to: string)
    ensures Recategorize(Recategorize(txs, actor, from, to), actor, from, to) == Recategorize(txs, actor, from, to)
  {
    var r := Recategorize(txs, actor, from, to);
    var rr := Recategorize(r, actor, from, to);
    forall i | 0 <= i < |r| ensures rr[i] == r[i] {
      assert r[i].user == txs[i].user;
    }
  }

  /** The cascade keeps every id, so the table stays well formed. */
  lemma RecategorizeOk(txs: seq<Transaction>, actor: Id, from: string, to: string, bound: nat)
    requires TableOk(txs, TransactionId, bound)
    ensures TableOk(Recategorize(txs, actor, from, to), TransactionId, bound)
  {
    var r := Recategorize(txs, actor, from, to);
    assert forall i :: 0 <= i < |r| ==> r[i].id == txs[i].id;
  }

  /** The user already has a category with this name. */
  predicate OwnsName(cats: seq<Category>, actor: Id, name: string) {
    exists i :: 0 <= i < |cats| && cats[i].name == name && cats[i].user == actor
  }

  lemma LowerOfKind(kind: string)
    requires IsKind(kind)
    ensures Lower(kind) == kind
  {
  }

  /** `create`. The type is checked lowercased but stored as given, so the schema's
      case-sensitive enum then rejects any capitalised spelling. */
  method Create(st: Store, actor: Id, name: string, kind: string) returns (r: Result<Category>)
    requires st.Valid()
    modifies st`categories, st`nextId
    ensures st.Valid()
    ensures r.Err? ==> st.categories == old(st.categories) && st.nextId == old(st.nextId)
    ensures name == "" || kind == "" ==> r == Raise("Name and type are required for creating a category")
    ensures (name != "" && kind != "" && !IsKind(Lower(kind))) ==> r == Raise("Invalid category type: " + kind)
    ensures r.Ok? <==> name != "" && IsKind(kind) && !OwnsName(old(st.categories), actor, Lower(name))
    ensures r.Ok? ==>
              r.value == Category(old(st.nextId), actor, Lower(name), Some(kind)) &&
              st.categories == old(st.categories) + [r.value]
  {
    if name == "" || kind == "" {
      return Raise("Name and type are required for creating a category");
    }
    var normalized := Lower(name);
    if !IsKind(Lower(kind)) {
      return Raise("Invalid category type: " + kind);
    }
    var i := FirstWhere(st.categories, (c: Category) => c.name == normalized && c.user == actor);
    if i < |st.categories| {
      assert OwnsName(st.categories, actor, normalized);
      return Raise("Category " + st.categories[i].name + " already exists in the database");
    }
    assert !OwnsName(st.categories, actor, normalized);
    var err := ValidationError(normalized, Some(kind));
    if err.Some? {
      return Raise(err.value);
    }
    var c := Category(st.nextId, actor, normalized, Some(kind));
    AppendOk(st.categories, c, CategoryId, st.nextId);
    st.TablesGrow(st.nextId, st.nextId + 1);
    st.categories := st.categories + [c];
    st.nextId := st.nextId + 1;
    assert st.TablesBelow(st.nextId);
    r := Ok(c);
  }

  /** `lists`: the acting user's categories, in stored order. */
  function Lists(cats: seq<Category>, actor: Id): (r: seq<Category>)
    ensures forall c :: c in r <==> c in cats && c.user == actor
  {
    var p := (c: Category) => c.user == actor;
    FilterMembers(cats, p);
    Filter(cats, p)
  }

  /** `update`. `name` and `kind` are the request body's fields, None when absent. */
  method Update(st: Store, actor: Id, id: Id, name: Option<string>, kind: Option<string>) returns (r: Result<Category>)
    requires st.Valid()
    modifies st`categories, st`transactions
    ensures st.Valid()
    ensures r.Err? ==> st.categories == old(st.categories) && st.transactions == old(st.transactions)
    ensures r.Ok? <==>
              name.Some? && ValidationError(name.value, kind).None? &&
              exists i :: 0 <= i < |old(st.categories)| && old(st.categories)[i].id == id
    ensures r.Ok? ==>
              exists i :: 0 <= i < |old(st.categories)| && old(st.categories)[i].id == id &&
                var c := old(st.categories)[i];
                r.value == c.(name := name.value, kind := kind) &&
                st.categories == old(st.categories)[i := r.value] &&
                st.transactions == (if c.name == name.value then old(st.transactions)
                                    else Recategorize(old(st.transactions), actor, c.name, name.value))
  {
    if name.None? {
      return Raise("Cannot read properties of undefined (reading 'toLowerCase')");
    }
    var i := FirstWhere(st.categories, (c: Category) => c.id == id);
    if i == |st.categories| {
      // `!category` holds, so the guard goes on to read `category.user` on null.
      return Raise("Cannot read properties of null (reading 'user')");
    }
    var c := st.categories[i];
    var oldName := c.name;
    var c' := c.(name := name.value, kind := kind);
    var err := ValidationError(c'.name, c'.kind);
    if err.Some? {
      return Raise(err.value);
    }
    ReplaceOk(st.categories, i, c', CategoryId, st.nextId);
    st.categories := st.categories[i := c'];
    if oldName != c'.name {
      RecategorizeOk(st.transactions, actor, oldName, c'.name, st.nextId);
      st.transactions := Recategorize(st.transactions, actor, oldName, c'.name);
    }
    r := Ok(c');
  }

  /** The category with this id exists and the acting user owns it. */
  predicate Owned(cats: seq<Category>, actor: Id, id: Id) {
    exists i :: 0 <= i < |cats| && cats[i].id == id && cats[i].user == actor
  }

  /** `delete`. Only a message distinguishes the two outcomes. */
  method Delete(st: Store, actor: Id, id: Id) returns (message: string)
    requires st.Valid()
    modifies st`categories, st`transactions
    ensures st.Valid()
    ensures message == Removed <==> Owned(old(st.categories), actor, id)
    ensures message != Removed ==>
              message == NotRemoved &&
              st.categories == old(st.categories) && st.transactions == old(st.transactions)
    ensures message == Removed ==>
              exists i :: 0 <= i < |old(st.categories)| && old(st.categories)[i].id == id &&
                st.categories == RemoveAt(old(st.categories), i) &&
                st.transactions == Recategorize(old(st.transactions), actor, old(st.categories)[i].name, Uncategorized)
    ensures message == Removed ==> forall j :: 0 <= j < |st.categories| ==> st.categories[j].id != id
  {
    var i := FirstWhere(st.categories, (c: Category) => c.id == id);
    if i < |st.categories| && st.categories[i].user == actor {
      var c := st.categories[i];
      RecategorizeOk(st.transactions, actor, c.name, Uncategorized, st.nextId);
      st.transactions := Recategorize(st.transactions, actor, c.name, Uncategorized);
      RemoveOk(st.categories, i, CategoryId, st.nextId);
      RemovedIdGone(st.categories, i, CategoryId);
      st.categories := RemoveAt(st.categories, i);
      message := Removed;
    } else {
      assert !Owned(st.categories, actor, id) by {
        if i < |st.categories| {
          forall j | 0 <= j < |st.categories| && st.categories[j].id == id ensures j == i {
            UniqueIndex(st.categories, CategoryId, i, j);
          }
        }
      }
      message := NotRemoved;
    }
  }

  /** Deleting the same category twice: the second call finds nothing and changes
      nothing, so the pair ends in exactly the state one call leaves. */
  method DeleteTwice(st: Store, actor: Id, id: Id) returns (first: string, second: string)
    requires st.Valid()
    modifies st`categories, st`transactions
    ensures st.Valid()
    ensures second == NotRemoved
    ensures first == Removed <==> Owned(old(st.categories), actor, id)
    ensures first != Removed ==>
              st.categories == old(st.categories) && st.transactions == old(st.transactions)
    ensures first == Removed ==>
              exists i :: 0 <= i < |old(st.categories)| && old(st.categories)[i].id == id &&
                st.categories == RemoveAt(old(st.categories), i) &&
                st.transactions == Recategorize(old(st.transactions), actor, old(st.categories)[i].name, Uncategorized)
  {
    first := Delete(st, actor, id);
    ghost var cats, txs := st.categories, st.transactions;
    second := Delete(st, actor, id);
    assert st.categories == cats && st.transactions == txs;
  }
}
