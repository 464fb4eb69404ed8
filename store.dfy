/** The `orders` and `users` collections as the pipeline sees them, the two
    writes it makes to them (an order update returning the new document, and a
    credit refund), and `finalizeOrder`, which chains the two. */
module Store {
  import opened Js

  type OrderId = nat
  type UserId = nat

  /** The payment sources the refund rule distinguishes. */
  const Regular: string := "regular"
  const Daily: string := "daily"

  /** A user document: the consumable credit balance and the daily allowance used. */
  datatype User = User(checks: int, dailyCreditsUsedToday: int)

  datatype UserFile = UserFile(url: Option<string>, filename: Option<string>)

  /** An order document. Every field the schema declares may be absent. */
  datatype Order = Order(
    fileName: Option<string>,
    user: Option<UserId>,
    paymentSource: Option<string>,
    userFile: Option<UserFile>,
    status: string,
    failureReason: Option<string>,
    aiReportUrl: Option<string>,
    similarityReportUrl: Option<string>)

  /** The two kinds of update the pipeline writes to an order. */
  datatype OrderUpdate =
    | MarkFailed(reason: string)
    | MarkCompleted(aiReportUrl: string, similarityReportUrl: string)
  {
    /** The `status` field the update sets. */
    function Status(): string
    {
      if MarkFailed? then "failed" else "completed"
    }
  }

  /** Both collections, keyed by document id. */
  datatype Db = Db(orders: map<OrderId, Order>, users: map<UserId, User>)

  /** A freshly inserted order: pending, with no failure reason and no report URLs. */
  predicate IsNew(o: Order)
  {
    o.status == "pending" && o.failureReason == None
    && o.aiReportUrl == None && o.similarityReportUrl == None
  }

  /** The document an update sets: only the fields named in the update change. */
  function Apply(o: Order, u: OrderUpdate): (r: Order)
    ensures r.status == u.Status()
    ensures r.fileName == o.fileName && r.user == o.user && r.paymentSource == o.paymentSource
    ensures r.userFile == o.userFile
    ensures u.MarkFailed? ==>
              r.failureReason == Some(u.reason)
              && r.aiReportUrl == o.aiReportUrl && r.similarityReportUrl == o.similarityReportUrl
    ensures u.MarkCompleted? ==>
              r.failureReason == o.failureReason
              && r.aiReportUrl == Some(u.aiReportUrl) && r.similarityReportUrl == Some(u.similarityReportUrl)
  {
    match u
    case MarkFailed(reason) => o.(status := "failed", failureReason := Some(reason))
    case MarkCompleted(ai, sim) =>
      o.(status := "completed", aiReportUrl := Some(ai), similarityReportUrl := Some(sim))
  }

  /** One update applied to a new order leaves it terminal with the fields that
      status calls for: failed exactly when a failure reason is present, and
      completed exactly when both report URLs are present, set together. */
  lemma ApplyToNewIsTerminal(o: Order, u: OrderUpdate)
    requires IsNew(o)
    ensures Apply(o, u).status in {"failed", "completed"}
    ensures Apply(o, u).status == "failed" <==> Apply(o, u).failureReason.Some?
    ensures Apply(o, u).status == "completed" <==> Apply(o, u).aiReportUrl.Some?
    ensures Apply(o, u).aiReportUrl.Some? <==> Apply(o, u).similarityReportUrl.Some?
  {
  }

  /** The users collection after `refundCredit(id, source)`: a "regular" refund
      gives back one check, a "daily" refund gives back one daily credit, any
      other source (or an unknown user) changes nothing. */
  function Refund(users: map<UserId, User>, id: UserId, source: Option<string>): (r: map<UserId, User>)
    ensures r.Keys == users.Keys
    ensures forall other :: other in users && other != id ==> r[other] == users[other]
    ensures id in users && source == Some(Regular) ==>
      r[id].checks == users[id].checks + 1
      && r[id].dailyCreditsUsedToday == users[id].dailyCreditsUsedToday
    ensures id in users && source == Some(Daily) ==>
      r[id].checks == users[id].checks
      && r[id].dailyCreditsUsedToday == users[id].dailyCreditsUsedToday - 1
    ensures source != Some(Regular) && source != Some(Daily) ==> r == users
  {
    if id !in users then users
    else if source == Some(Regular) then users[id := users[id].(checks := users[id].checks + 1)]
    else if source == Some(Daily) then
      users[id := users[id].(dailyCreditsUsedToday := users[id].dailyCreditsUsedToday - 1)]
    else users
  }

  /** The collections after `finalizeOrder(update)` for order `id`: the order is
      updated when the write succeeds and the order exists; then, only for a
      failed update and only when the updated document names a user, that user
      is refunded by the updated document's payment source (the refund write may
      itself fail, and is then lost). */
  function Finalized(db: Db, id: OrderId, u: OrderUpdate, writeOk: bool, refundOk: bool): (r: Db)
    ensures writeOk && id in db.orders ==> r.orders == db.orders[id := Apply(db.orders[id], u)]
    ensures !(writeOk && id in db.orders) ==> r == db
    ensures r.users != db.users ==>
      u.MarkFailed? && writeOk && refundOk && id in db.orders && db.orders[id].user.Some?
    ensures u.MarkFailed? && writeOk && refundOk && id in db.orders && db.orders[id].user.Some? ==>
      r.users == Refund(db.users, db.orders[id].user.value, db.orders[id].paymentSource)
  {
    if writeOk && id in db.orders then
      var updated := Apply(db.orders[id], u);
      var users :=
        if u.Status() == "failed" && updated.user.Some? && refundOk
        then Refund(db.users, updated.user.value, updated.paymentSource)
        else db.users;
      Db(db.orders[id := updated], users)
    else db
  }

  /** A completed finalisation never refunds. */
  lemma CompletedNeverRefunds(db: Db, id: OrderId, ai: string, sim: string, writeOk: bool, refundOk: bool)
    ensures Finalized(db, id, MarkCompleted(ai, sim), writeOk, refundOk).users == db.users
  {
  }

  /** A failed finalisation of an order whose owner exists with a "regular"
      payment source gives that owner exactly one check back, and touches no
      other user. */
  lemma FailedRegularRefundsOneCheck(db: Db, id: OrderId, reason: string)
    requires id in db.orders && db.orders[id].user.Some? && db.orders[id].user.value in db.users
    requires db.orders[id].paymentSource == Some(Regular)
    ensures var owner := db.orders[id].user.value;
      var r := Finalized(db, id, MarkFailed(reason), true, true);
      r.users.Keys == db.users.Keys
      && r.users[owner] == db.users[owner].(checks := db.users[owner].checks + 1)
      && (forall other :: other in db.users && other != owner ==> r.users[other] == db.users[other])
      && r.orders[id].status == "failed" && r.orders[id].failureReason == Some(reason)
  {
  }

  /** The datastore the pipeline writes to. */
  class Datastore {
    var orders: map<OrderId, Order>
    var users: map<UserId, User>

    function State(): Db
      reads this
    {
      Db(orders, users)
    }

    constructor (db: Db)
      ensures State() == db
    {
      orders := db.orders;
      users := db.users;
    }

    /** `refundCredit(userId, paymentSource)`: a `$inc` on the user document;
        a failed write is logged and lost. */
    method RefundCredit(userId: UserId, paymentSource: Option<string>, writeOk: bool)
      modifies this
      ensures orders == old(orders)
      ensures users == if writeOk then Refund(old(users), userId, paymentSource) else old(users)
    {
      if !writeOk {
        return;
      }
      if paymentSource == Some(Regular) {
        if userId in users {
          users := users[userId := users[userId].(checks := users[userId].checks + 1)];
        }
      } else if paymentSource == Some(Daily) {
        if userId in users {
          var u := users[userId];
          users := users[userId := u.(dailyCreditsUsedToday := u.dailyCreditsUsedToday - 1)];
        }
      }
    }

    /** `Order.findByIdAndUpdate(id, update, { new: true })`: the updated
        document, or nothing when the order does not exist or the write fails. */
    method FindByIdAndUpdate(id: OrderId, u: OrderUpdate, writeOk: bool) returns (updated: Option<Order>)
      modifies this
      ensures updated == if writeOk && id in old(orders) then Some(Apply(old(orders)[id], u)) else None
      ensures orders == if updated.Some? then old(orders)[id := updated.value] else old(orders)
      ensures users == old(users)
    {
      if writeOk && id in orders {
        var o := Apply(orders[id], u);
        orders := orders[id := o];
        updated := Some(o);
      } else {
        updated := None;
      }
    }

    /** `finalizeOrder(update)`: update the order, then refund when the update's
        status is "failed" and the updated document names a user. */
    method Finalize(id: OrderId, u: OrderUpdate, writeOk: bool, refundOk: bool)
      modifies this
      ensures State() == Finalized(old(State()), id, u, writeOk, refundOk)
    {
      var updated := FindByIdAndUpdate(id, u, writeOk);
      if u.Status() == "failed" && updated.Some? && updated.value.user.Some? {
        RefundCredit(updated.value.user.value, updated.value.paymentSource, refundOk);
      }
    }
  }
}
