/** The category schema: an owning user, a required name with a default, and a type
    restricted to two values but not required (its `required` key is misspelled). */
module CategoryModel {
  import opened Common

  /** `kind` is the schema's `type` field; None when it was never set. */
  datatype Category = Category(id: Id, user: Id, name: string, kind: Option<string>)

  const DefaultName: string := "Unacategorized"

  /** The enum of the `type` field; the match is case-sensitive. */
  predicate IsKind(k: string) {
    k == "income" || k == "expense"
  }

  /** The value stored for `name`: the default when none is given. */
  function NameOrDefault(name: Option<string>): (r: string)
    ensures name.Some? ==> r == name.value
    ensures name.None? ==> r == DefaultName
  {
    if name.Some? then name.value else DefaultName
  }

  /** The schema's validation of a category about to be saved: the message of the first
      failing rule, or None. */
  function ValidationError(name: string, kind: Option<string>): (r: Option<string>)
    ensures r.None? <==> name != "" && (kind.None? || IsKind(kind.value))
  {
    if name == "" then Some("Path `name` is required.")
    else if kind.Some? && !IsKind(kind.value) then Some("`" + kind.value + "` is not a valid enum value for path `type`.")
    else None
  }

  /** A category saved with neither name nor type passes validation: it gets the default
      name and no type. */
  lemma DefaultsValidate()
    ensures ValidationError(NameOrDefault(None), None) == None
    ensures NameOrDefault(None) == "Unacategorized"
  {
  }

  /** The enum is case-sensitive: a capitalised type fails validation although the
      controller's own check lowercases it first. */
  lemma EnumIsCaseSensitive()
    ensures ValidationError("rent", Some("Expense")).Some?
    ensures Lower("Expense") == "expense"
  {
  }
}
