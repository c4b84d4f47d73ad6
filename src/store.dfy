/** The relational store the services talk to, as in-memory tables: one map from
    row id to row per table. Every ORM call of the services is one atomic map
    operation on a field of `Db`. */
module Store {
  import opened Common

  datatype User = User(email: string, passwordHash: string, fullname: string, phone: string)

  datatype Admin = Admin(name: string, email: string, passwordHash: string, isSuperAdmin: bool)

  datatype Session = Session(userId: Id, device: string, ipAddress: string)

  datatype PaymentMethod = PaymentMethod(name: string)

  /** An order row. `paymentStatus` is left to the column default on creation. */
  datatype Order = Order(
    userId: Id,
    status: string,
    date: string,
    address: Option<string>,
    overallPrice: real,
    paymentMethodId: Id,
    withDelivery: bool,
    deliveryComment: Option<string>,
    longitude: Option<real>,
    latitude: Option<real>,
    paymentStatus: string)

  /** The payment status a new order row receives from the column default. */
  const DefaultPaymentStatus: string := "pending"

  /** A tool; `inStockCount` is the stock ledger. */
  datatype Tool = Tool(name: string, price: real, inStockCount: int)

  datatype OrderTool = OrderTool(orderId: Id, toolId: Id, count: int, price: real)

  datatype OrderWorker = OrderWorker(
    orderId: Id,
    workerProficiencyId: Id,
    workerLevelId: Id,
    count: int,
    withTools: bool,
    time: int,
    timeUnit: string,
    price: real)

  datatype Proficiency = Proficiency(name: string)

  datatype Level = Level(name: string)

  datatype Worker = Worker(fullname: string, isFree: bool)

  datatype AttachedWorker = AttachedWorker(orderWorkerId: Id, workerId: Id)

  datatype Comment = Comment(orderId: Id, message: Option<string>)

  /** One star rating of a worker inside a comment. */
  datatype CommentWorker = CommentWorker(commentId: Id, workerId: Id, stars: int)

  datatype FavItem = FavItem(
    toolId: Option<Id>,
    workerId: Option<Id>,
    count: real,
    timeUnit: string,
    time: real,
    price: real)

  datatype Favorite = Favorite(userId: Id, itemId: Id)

  /** A named attribute of a tool: the rows of both the capacity and the size table. */
  datatype ToolLabel = ToolLabel(toolId: Id, name: string)

  datatype Company = Company(
    userId: Id,
    name: string,
    email: string,
    phone: string,
    address: string,
    about: Option<string>,
    aboutUz: Option<string>,
    aboutRu: Option<string>,
    website: Option<string>,
    isVerified: Option<bool>)

  /** No two rows of the table share an email (the column is unique). */
  ghost predicate UniqueEmails(users: map<Id, User>) {
    forall a, b :: a in users && b in users && users[a].email == users[b].email ==> a == b
  }

  ghost predicate UniqueAdminEmails(admins: map<Id, Admin>) {
    forall a, b :: a in admins && b in admins && admins[a].email == admins[b].email ==> a == b
  }

  class Db {
    /** The case folding the store applies to `mode: 'insensitive'` comparisons. */
    const fold: string -> string

    /** The next identifier the store hands out; every key and reference is below it. */
    var nextId: Id

    var users: map<Id, User>
    var admins: map<Id, Admin>
    var sessions: map<Id, Session>
    var paymentMethods: map<Id, PaymentMethod>
    var orders: map<Id, Order>
    var tools: map<Id, Tool>
    var orderTools: map<Id, OrderTool>
    var orderWorkers: map<Id, OrderWorker>
    var proficiencies: map<Id, Proficiency>
    var levels: map<Id, Level>
    var workers: map<Id, Worker>
    var attachedWorkers: map<Id, AttachedWorker>
    var comments: map<Id, Comment>
    var commentWorkers: map<Id, CommentWorker>
    var favItems: map<Id, FavItem>
    var favorites: map<Id, Favorite>
    var capacities: map<Id, ToolLabel>
    var sizes: map<Id, ToolLabel>
    var companies: map<Id, Company>

    /** Fresh ids are fresh: no key, and no reference to an order, comment or
        favourite item, has reached `nextId`. Emails are unique where the schema
        looks rows up by email. */
    ghost predicate Valid()
      reads this
    {
      Fresh() && Linked() && UniqueEmails(users) && UniqueAdminEmails(admins)
    }

    /** No key has reached `nextId`. */
    ghost predicate Fresh()
      reads this
    {
      && KeysBelow(users, nextId) && KeysBelow(admins, nextId) && KeysBelow(sessions, nextId)
      && KeysBelow(paymentMethods, nextId) && KeysBelow(orders, nextId) && KeysBelow(tools, nextId)
      && KeysBelow(orderTools, nextId) && KeysBelow(orderWorkers, nextId)
      && KeysBelow(proficiencies, nextId) && KeysBelow(levels, nextId) && KeysBelow(workers, nextId)
      && KeysBelow(attachedWorkers, nextId) && KeysBelow(comments, nextId)
      && KeysBelow(commentWorkers, nextId) && KeysBelow(favItems, nextId)
      && KeysBelow(favorites, nextId) && KeysBelow(capacities, nextId) && KeysBelow(sizes, nextId)
      && KeysBelow(companies, nextId)
    }

    /** No reference to an order, comment or favourite item has reached `nextId`. */
    ghost predicate Linked()
      reads this
    {
      && (forall k :: k in orderTools ==> orderTools[k].orderId < nextId)
      && (forall k :: k in orderWorkers ==> orderWorkers[k].orderId < nextId)
      && (forall k :: k in commentWorkers ==> commentWorkers[k].commentId < nextId)
      && (forall k :: k in favorites ==> favorites[k].itemId < nextId)
    }

    /** An empty store with the given collation. */
    constructor (fold: string -> string)
      ensures Valid() && this.fold == fold && nextId == 0
      ensures users == map[] && admins == map[] && sessions == map[] && orders == map[]
      ensures tools == map[] && orderTools == map[] && orderWorkers == map[]
      ensures workers == map[] && comments == map[] && commentWorkers == map[]
      ensures favItems == map[] && favorites == map[] && companies == map[]
    {
      this.fold := fold;
      nextId := 0;
      users, admins, sessions, paymentMethods := map[], map[], map[], map[];
      orders, tools, orderTools, orderWorkers := map[], map[], map[], map[];
      proficiencies, levels, workers, attachedWorkers := map[], map[], map[], map[];
      comments, commentWorkers, favItems, favorites := map[], map[], map[], map[];
      capacities, sizes, companies := map[], map[], map[];
    }

    /** What an operation must show to keep the store valid: every table it
        changed (and only those need showing) is fresh below the new `nextId`,
        linked, and unique where it has to be. */
    twostate lemma StaysValid()
      requires old(Valid()) && old(nextId) <= nextId
      requires users == old(users) || (KeysBelow(users, nextId) && UniqueEmails(users))
      requires admins == old(admins) || (KeysBelow(admins, nextId) && UniqueAdminEmails(admins))
      requires sessions == old(sessions) || KeysBelow(sessions, nextId)
      requires paymentMethods == old(paymentMethods) || KeysBelow(paymentMethods, nextId)
      requires orders == old(orders) || KeysBelow(orders, nextId)
      requires tools == old(tools) || KeysBelow(tools, nextId)
      requires orderTools == old(orderTools)
        || (KeysBelow(orderTools, nextId) && forall k :: k in orderTools ==> orderTools[k].orderId < nextId)
      requires orderWorkers == old(orderWorkers)
        || (KeysBelow(orderWorkers, nextId) && forall k :: k in orderWorkers ==> orderWorkers[k].orderId < nextId)
      requires proficiencies == old(proficiencies) || KeysBelow(proficiencies, nextId)
      requires levels == old(levels) || KeysBelow(levels, nextId)
      requires workers == old(workers) || KeysBelow(workers, nextId)
      requires attachedWorkers == old(attachedWorkers) || KeysBelow(attachedWorkers, nextId)
      requires comments == old(comments) || KeysBelow(comments, nextId)
      requires commentWorkers == old(commentWorkers)
        || (KeysBelow(commentWorkers, nextId) && forall k :: k in commentWorkers ==> commentWorkers[k].commentId < nextId)
      requires favItems == old(favItems) || KeysBelow(favItems, nextId)
      requires favorites == old(favorites)
        || (KeysBelow(favorites, nextId) && forall k :: k in favorites ==> favorites[k].itemId < nextId)
      requires capacities == old(capacities) || KeysBelow(capacities, nextId)
      requires sizes == old(sizes) || KeysBelow(sizes, nextId)
      requires companies == old(companies) || KeysBelow(companies, nextId)
      ensures Valid()
    {
    }

    /** The store assigns the id of a row it inserts. */
    method FreshId() returns (id: Id)
      modifies this`nextId
      ensures id == old(nextId) && nextId == id + 1
    {
      id := nextId;
      nextId := nextId + 1;
    }
  }
}
