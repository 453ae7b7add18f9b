/** The collections the controllers read and write, held in one store. Records of the
    `Transaction`, `Goal` and `Document` collections take the fields the controllers
    pass; the collections that the older controllers write with other field names are
    kept as tables of their own. */
module Db {
  import opened Common
  import opened Seqs
  import opened UserModel
  import opened CategoryModel

  /** A transaction; `kind` is its `type` field, a plain string with no enum check. */
  datatype Transaction = Transaction(
    id: Id, user: Id, kind: string, amount: int, category: string, description: string, date: Date)

  /** A savings goal of the goal controller; `status` is "ongoing" or "completed" in practice. */
  datatype Goal = Goal(
    id: Id, user: Id, name: string, targetAmount: int, currentAmount: int,
    deadline: Date, description: string, status: string)

  /** A goal as the older goal controller stores it (`models/Goal`). */
  datatype LegacyGoal = LegacyGoal(
    id: Id, user: Id, name: string, targetAmount: int, deadline: Date, currentAmount: int)

  /** A goal as the third goal controller stores it, owned through `userId`. */
  datatype UserGoal = UserGoal(
    id: Id, userId: Id, description: string, targetAmount: int, targetDate: Date)

  /** A document record of the document controller. */
  datatype Document = Document(
    id: Id, user: Id, title: string, description: string, fileUrl: string,
    fileType: string, fileSize: int, uploadDate: Date)

  /** An uploaded file as the older document controller stores it (`models/Document`). */
  datatype StoredFile = StoredFile(
    id: Id, user: Id, name: string, filename: string, mimetype: string, size: int, path: string)

  /** A document link of the third document controller; `user` is whatever the request
      carried in `req.userId`, None when it carried nothing. */
  datatype LinkDocument = LinkDocument(id: Id, user: Option<Id>, title: string, fileUrl: string)

  function UserId(u: User): Id { u.id }
  function CategoryId(c: Category): Id { c.id }
  function TransactionId(t: Transaction): Id { t.id }
  function GoalId(g: Goal): Id { g.id }
  function LegacyGoalId(g: LegacyGoal): Id { g.id }
  function UserGoalId(g: UserGoal): Id { g.id }
  function DocumentId(d: Document): Id { d.id }
  function StoredFileId(f: StoredFile): Id { f.id }
  function LinkDocumentId(d: LinkDocument): Id { d.id }

  /** The unique indexes of the user schema: no two users share a username or an email. */
  predicate UniqueAccounts(users: seq<User>) {
    forall i, j :: 0 <= i < j < |users| ==>
      users[i].username != users[j].username && users[i].email != users[j].email
  }

  lemma AppendAccountOk(users: seq<User>, u: User)
    requires UniqueAccounts(users)
    requires forall i :: 0 <= i < |users| ==> users[i].username != u.username && users[i].email != u.email
    ensures UniqueAccounts(users + [u])
  {
  }

  lemma ReplaceAccountOk(users: seq<User>, k: nat, u: User)
    requires UniqueAccounts(users) && k < |users|
    requires forall i :: 0 <= i < |users| && i != k ==> users[i].username != u.username && users[i].email != u.email
    ensures UniqueAccounts(users[k := u])
  {
  }

  class Store {
    var users: seq<User>
    var categories: seq<Category>
    var transactions: seq<Transaction>
    var goals: seq<Goal>
    var legacyGoals: seq<LegacyGoal>
    var userGoals: seq<UserGoal>
    var documents: seq<Document>
    var files: seq<StoredFile>
    var links: seq<LinkDocument>
    /** The next id to hand out; every stored id is below it. */
    var nextId: nat

    /** Ids are unique within every collection and below `nextId`; accounts are unique. */
    ghost predicate Valid()
      reads this
    {
      TablesBelow(nextId) && UniqueAccounts(users)
    }

    /** Ids are unique within every collection and below `b`. */
    ghost predicate TablesBelow(b: nat)
      reads this
    {
      TableOk(users, UserId, b) && TableOk(categories, CategoryId, b) &&
      TableOk(transactions, TransactionId, b) && TableOk(goals, GoalId, b) &&
      TableOk(legacyGoals, LegacyGoalId, b) && TableOk(userGoals, UserGoalId, b) &&
      TableOk(documents, DocumentId, b) && TableOk(files, StoredFileId, b) &&
      TableOk(links, LinkDocumentId, b)
    }

    lemma TablesGrow(b: nat, b': nat)
      requires TablesBelow(b) && b <= b'
      ensures TablesBelow(b')
    {
      GrowOk(users, UserId, b, b');
      GrowOk(categories, CategoryId, b, b');
      GrowOk(transactions, TransactionId, b, b');
      GrowOk(goals, GoalId, b, b');
      GrowOk(legacyGoals, LegacyGoalId, b, b');
      GrowOk(userGoals, UserGoalId, b, b');
      GrowOk(documents, DocumentId, b, b');
      GrowOk(files, StoredFileId, b, b');
      GrowOk(links, LinkDocumentId, b, b');
    }

    /** `User.create`: store a new account under the next id. */
    method AddUser(u: User)
      requires Valid() && u.id == nextId
      requires forall i :: 0 <= i < |users| ==> users[i].username != u.username && users[i].email != u.email
      modifies this`users, this`nextId
      ensures users == old(users) + [u] && nextId == old(nextId) + 1
      ensures Valid()
    {
      AppendOk(users, u, UserId, nextId);
      TablesGrow(nextId, nextId + 1);
      AppendAccountOk(users, u);
      users := users + [u];
      nextId := nextId + 1;
    }

    constructor ()
      ensures Valid() && nextId == 0
      ensures users == [] && categories == [] && transactions == [] && goals == []
      ensures legacyGoals == [] && userGoals == [] && documents == [] && files == [] && links == []
    {
      users, categories, transactions, goals := [], [], [], [];
      legacyGoals, userGoals, documents, files, links := [], [], [], [], [];
      nextId := 0;
    }
  }
}
