/** The browser side's persistent state: `localStorage`, a map from keys to the JSON
    values the pages write there. Each stored value is held as the structure it
    serialises, so `JSON.parse(JSON.stringify(v))` is `v` itself. */
module Browser {
  import opened Common
  import UsersCtrl

  /** A transaction's `type` as the form's select offers it. */
  datatype Kind = Income | Expense

  /** A transaction kept in the browser; `id` is its `_id`, a `Date.now()` stamp. */
  datatype ClientTx = ClientTx(
    id: int, kind: Kind, amount: int, category: string, description: string, date: Date, userId: string)

  /** An account of the template pages' `users` list. */
  datatype TemplateUser = TemplateUser(id: string, name: string, email: string, password: string)

  /** The signed-in user the template login writes under `user`. */
  datatype SessionUser = SessionUser(id: string, email: string, name: string)

  /** A document kept in the browser: `content` is the file's data URL and `uploadDate`
      the clock reading (milliseconds) at which it was read. */
  datatype ClientDoc = ClientDoc(id: int, name: string, mimeType: string, size: int, content: string, uploadDate: int)

  /** A monthly budget for one expense category; `month` is None when the form's month
      field was left empty. */
  datatype BudgetGoal = BudgetGoal(id: int, category: string, amount: int, month: Option<YearMonth>)

  datatype Value =
    | UserList(users: seq<TemplateUser>)   // under `users`
    | SignedIn(session: SessionUser)       // under `user`, written by the template login
    | LoginReply(reply: UsersCtrl.Session) // under `user`, written by the auth slice
    | Ledger(txs: seq<ClientTx>)           // under `transactions_<id>`
    | Docs(docs: seq<ClientDoc>)           // under `documents_<id>`
    | Budgets(goals: seq<BudgetGoal>)      // under `budget_goals_<id>`
    | Text(text: string)                   // `token` and any other plain string

  /** `transactions_${id}`. */
  function LedgerKey(id: string): (r: string)
    ensures |r| == |id| + 13
  {
    "transactions_" + id
  }

  /** Distinct users have distinct ledger keys. */
  lemma LedgerKeyInjective(a: string, b: string)
    requires LedgerKey(a) == LedgerKey(b)
    ensures a == b
  {
    assert a == LedgerKey(a)[13..];
    assert b == LedgerKey(b)[13..];
  }

  function DocsKey(id: string): string {
    "documents_" + id
  }

  function BudgetKey(id: string): string {
    "budget_goals_" + id
  }

  /** `JSON.parse(localStorage.getItem('user')).id`: the template session's id; the auth
      slice's stored reply has no `id` property, so the key is spelled with "undefined". */
  function UserIdOf(v: Value): string {
    if v.SignedIn? then v.session.id else "undefined"
  }

  /** The parsed list under `key`, or `[]` when nothing is stored there. */
  function ListAt(items: map<string, Value>, key: string): seq<ClientTx> {
    if key in items && items[key].Ledger? then items[key].txs else []
  }

  function DocsAt(items: map<string, Value>, key: string): seq<ClientDoc> {
    if key in items && items[key].Docs? then items[key].docs else []
  }

  function BudgetsAt(items: map<string, Value>, key: string): seq<BudgetGoal> {
    if key in items && items[key].Budgets? then items[key].goals else []
  }

  /** The stored `users` list, or `[]`. */
  function UsersAt(items: map<string, Value>): seq<TemplateUser> {
    if "users" in items && items["users"].UserList? then items["users"].users else []
  }

  /** The key under which the signed-in user's transactions are kept. */
  function CurrentLedgerKey(items: map<string, Value>): string
    requires "user" in items
  {
    LedgerKey(UserIdOf(items["user"]))
  }

  class LocalStorage {
    var items: map<string, Value>

    constructor()
      ensures items == map[]
    {
      items := map[];
    }

    method SetItem(key: string, v: Value)
      modifies this
      ensures items == old(items)[key := v]
    {
      items := items[key := v];
    }

    method RemoveItem(key: string)
      modifies this
      ensures items == old(items) - {key}
    {
      items := items - {key};
    }
  }
}
