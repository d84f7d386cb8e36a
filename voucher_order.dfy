/** VoucherOrderServiceImpl: the flash sale. seckillVoucher draws an order id, lets the
    admission script decide, and answers at once; a single consumer thread later reads
    admitted orders from the stream "stream.orders" (group g1, consumer c1), writes them
    to the database under a per-user lock and acknowledges them. A message is
    acknowledged only after its handling returned normally; one whose handling threw
    stays on the pending list until a later sweep handles it. */
module VoucherOrder {
  import opened Wrappers
  import opened Texts
  import opened Redis
  import opened Clock
  import opened RedisIdWorker

  const NO_STOCK: string := "库存不足"
  const ALREADY_ORDERED: string := "不能重复下单"
  const ORDER_LOCK_PREFIX: string := "lock:order:"

  /** A tb_voucher_order row: the order id, the buyer and the voucher. */
  datatype VoucherOrder = VoucherOrder(id: int, userId: nat, voucherId: nat)

  /** A stream entry: its id and the order it carries. */
  datatype Message = Message(msgId: nat, order: VoucherOrder)

  /** The two tables the consumer writes: stock per voucher (tb_seckill_voucher) and
      the orders in the order they were saved. */
  datatype Db = Db(stocks: map<nat, int>, orders: seq<VoucherOrder>)

  /** Long.intValue: the low 32 bits, read as a signed int. */
  function IntValue(x: int): (r: int)
    ensures -0x8000_0000 <= r < 0x8000_0000
    ensures -0x8000_0000 <= x < 0x8000_0000 ==> r == x
    ensures (r - x) % 0x1_0000_0000 == 0
  {
    var low := x % 0x1_0000_0000;
    if low < 0x8000_0000 then low else low - 0x1_0000_0000
  }

  /** seckillVoucher's reply to the script's result: 0 admits with the order id, 1 is
      out of stock, any other code is a repeat purchase. */
  function SeckillReply(code: int, orderId: int): (r: Result<int>)
    ensures r == Ok(Some(orderId)) <==> IntValue(code) == 0
    ensures r == Fail(NO_STOCK) <==> IntValue(code) == 1
    ensures r == Fail(ALREADY_ORDERED) <==> IntValue(code) != 0 && IntValue(code) != 1
  {
    var r := IntValue(code);
    if r != 0 then Fail(if r == 1 then NO_STOCK else ALREADY_ORDERED)
    else Ok(Some(orderId))
  }

  /** The result of seckillVoucher: the reply, the string keys, the stream's unread
      entries, the last entry id, and whether the service proxy has been captured. */
  datatype Seckill = Seckill(reply: Outcome<Result<int>>, strings: Strings, entries: seq<Message>,
                             lastMessageId: nat, proxyReady: bool)

  /** seckillVoucher(voucherId) for user `userId` at `now`, where the admission script
      answers `code`. On 0 the script has appended the order to the stream. */
  function SeckillStep(m: Strings, entries: seq<Message>, lastMessageId: nat, proxyReady: bool,
                       voucherId: nat, userId: nat, code: Long, now: LocalDateTime): (r: Seckill)
    requires ValidTime(now)
    ensures r.strings == NextIdStep(m, "order", EpochSecond(now), FormatDay(now)).strings
    ensures r.reply == Threw <==> NextIdStep(m, "order", EpochSecond(now), FormatDay(now)).id.None?
    ensures r.entries != entries <==> r.reply.Returned? && IntValue(code as int) == 0
    ensures r.entries == entries ==> r.lastMessageId == lastMessageId && r.proxyReady == proxyReady
    ensures r.reply.Returned? ==>
              r.reply == Returned(Some(SeckillReply(code as int, NextIdStep(m, "order", EpochSecond(now), FormatDay(now)).id.value)))
    ensures r.reply.Returned? && IntValue(code as int) == 0 ==>
              var orderId := NextIdStep(m, "order", EpochSecond(now), FormatDay(now)).id.value;
              && r.entries == entries + [Message(lastMessageId + 1, VoucherOrder(orderId, userId, voucherId))]
              && r.lastMessageId == lastMessageId + 1
              && r.proxyReady
  {
    var next := NextIdStep(m, "order", EpochSecond(now), FormatDay(now));
    match next.id
    case None => Seckill(Threw, next.strings, entries, lastMessageId, proxyReady)
    case Some(orderId) =>
      if IntValue(code as int) != 0 then
        Seckill(Returned(Some(SeckillReply(code as int, orderId))), next.strings, entries, lastMessageId, proxyReady)
      else
        var msg := Message(lastMessageId + 1, VoucherOrder(orderId, userId, voucherId));
        Seckill(Returned(Some(Ok(Some(orderId)))), next.strings, entries + [msg], lastMessageId + 1, true)
  }

  /** The order id is drawn before the script runs: a rejected request replies with the
      script's failure, queues nothing, and still uses up a count, so the next request
      of the day gets the count after it. */
  lemma {:induction false} RejectedRequestConsumesId(m: Strings, entries: seq<Message>, lastMessageId: nat, proxyReady: bool,
                                                    voucherId: nat, userId: nat, code: Long, t1: LocalDateTime,
                                                    voucher2: nat, user2: nat, code2: Long, t2: LocalDateTime)
    requires ValidTime(t1) && ValidTime(t2) && FormatDay(t1) == FormatDay(t2)
    requires var key := CounterKey("order", FormatDay(t1)); key !in m || m[key].expireAt.None?
    requires NextIdStep(m, "order", EpochSecond(t1), FormatDay(t1)).id.Some?
    requires 0 <= CountAfter(m, CounterKey("order", FormatDay(t1)), EpochMilli(t1)) < TWO_32 - 1
    requires IntValue(code as int) != 0
    ensures var first := SeckillStep(m, entries, lastMessageId, proxyReady, voucherId, userId, code, t1);
            var c := CountAfter(m, CounterKey("order", FormatDay(t1)), EpochMilli(t1));
            && first.reply.Returned? && first.reply.result.Some? && first.reply.result.value.Fail?
            && first.entries == entries
            && NextIdStep(first.strings, "order", EpochSecond(t2), FormatDay(t2)).id
                 == Some(ComposeId(EpochSecond(t2) - BEGIN_TIMESTAMP, c + 1))
  {
    NextCallUsesNextCount(m, "order", EpochSecond(t1), EpochSecond(t2), FormatDay(t1));
  }

  /** Whether an order of `userId` for `voucherId` is already saved. */
  predicate HasOrder(orders: seq<VoucherOrder>, userId: nat, voucherId: nat)
  {
    exists i :: 0 <= i < |orders| && orders[i].userId == userId && orders[i].voucherId == voucherId
  }

  /** Whether an order with this primary key is already saved. */
  predicate IdTaken(orders: seq<VoucherOrder>, id: int)
  {
    exists i :: 0 <= i < |orders| && orders[i].id == id
  }

  /** How many saved orders are for `voucherId`. */
  function Sold(orders: seq<VoucherOrder>, voucherId: nat): (n: nat)
    ensures n <= |orders|
  {
    if orders == [] then 0
    else Sold(orders[..|orders| - 1], voucherId) + (if orders[|orders| - 1].voucherId == voucherId then 1 else 0)
  }

  /** The tables as the sale keeps them: no stock below zero, one order per user and
      voucher, and distinct order ids. */
  predicate Consistent(db: Db)
  {
    && (forall v :: v in db.stocks ==> db.stocks[v] >= 0)
    && (forall i, j :: 0 <= i < j < |db.orders| ==>
          !(db.orders[i].userId == db.orders[j].userId && db.orders[i].voucherId == db.orders[j].voucherId))
    && (forall i, j :: 0 <= i < j < |db.orders| ==> db.orders[i].id != db.orders[j].id)
  }

  /** How a handling ended: whether an exception escaped, and the tables afterwards. */
  datatype Handled = Handled(threw: bool, db: Db)

  /** createVoucherOrder, one transaction: an existing order of the user for the voucher
      returns; the stock is decremented only where it is positive, and otherwise the call
      returns; then the order is saved. A save that fails on the primary key throws and
      rolls the decrement back. */
  function CreateStep(db: Db, o: VoucherOrder): (r: Handled)
    ensures r.threw ==> r.db == db
    ensures HasOrder(db.orders, o.userId, o.voucherId) ==> r == Handled(false, db)
    ensures !(o.voucherId in db.stocks && db.stocks[o.voucherId] > 0) ==> r == Handled(false, db)
    ensures r.db != db <==> !HasOrder(db.orders, o.userId, o.voucherId) && o.voucherId in db.stocks
                            && db.stocks[o.voucherId] > 0 && !IdTaken(db.orders, o.id)
    ensures r.db != db ==> r.db == Db(db.stocks[o.voucherId := db.stocks[o.voucherId] - 1], db.orders + [o])
  {
    if HasOrder(db.orders, o.userId, o.voucherId) then Handled(false, db)
    else if !(o.voucherId in db.stocks && db.stocks[o.voucherId] > 0) then Handled(false, db)
    else if IdTaken(db.orders, o.id) then Handled(true, db)
    else
      var saved := db.orders + [o];
      assert saved[|saved| - 1] == o;
      Handled(false, Db(db.stocks[o.voucherId := db.stocks[o.voucherId] - 1], saved))
  }

  /** createVoucherOrder keeps the tables consistent and never oversells: for every
      voucher, stock plus orders sold stays the same. */
  lemma {:induction false} CreatePreserves(db: Db, o: VoucherOrder)
    requires Consistent(db)
    ensures var r := CreateStep(db, o).db;
            && Consistent(r)
            && r.stocks.Keys == db.stocks.Keys
            && forall v :: v in db.stocks ==> r.stocks[v] + Sold(r.orders, v) == db.stocks[v] + Sold(db.orders, v)
  {
    var r := CreateStep(db, o).db;
    if r != db {
      var n := |db.orders|;
      assert r.orders[..n] == db.orders;
      forall i | 0 <= i < n
        ensures !(r.orders[i].userId == o.userId && r.orders[i].voucherId == o.voucherId)
        ensures r.orders[i].id != o.id
      {
        assert r.orders[i] == db.orders[i];
      }
    }
  }

  /** handleVoucherOrder: the Redisson lock "lock:order:" + userId. When another client
      holds it the call returns at once; otherwise createVoucherOrder runs through the
      proxy, which throws while no request has captured it yet, and the lock is released
      in any case. `held` is the set of locks other clients hold. */
  function HandleStep(db: Db, held: set<string>, proxyReady: bool, o: VoucherOrder): (r: Handled)
    ensures ORDER_LOCK_PREFIX + Decimal(o.userId) in held ==> r == Handled(false, db)
    ensures ORDER_LOCK_PREFIX + Decimal(o.userId) !in held && !proxyReady ==> r == Handled(true, db)
    ensures ORDER_LOCK_PREFIX + Decimal(o.userId) !in held && proxyReady ==> r == CreateStep(db, o)
  {
    if ORDER_LOCK_PREFIX + Decimal(o.userId) in held then Handled(false, db)
    else if !proxyReady then Handled(true, db)
    else CreateStep(db, o)
  }

  /** XACK: the pending list without the entry of that id. */
  function Ack(pending: seq<Message>, msgId: nat): (r: seq<Message>)
    ensures |r| <= |pending|
    ensures pending != [] && pending[0].msgId == msgId ==> |r| < |pending|
    ensures forall x :: x in r <==> x in pending && x.msgId != msgId
  {
    if pending == [] then []
    else if pending[0].msgId == msgId then Ack(pending[1..], msgId)
    else [pending[0]] + Ack(pending[1..], msgId)
  }

  /** The result of a pending-list sweep: whether it found the list empty, the tables
      and the pending list afterwards. */
  datatype Sweep = Sweep(drained: bool, db: Db, pending: seq<Message>)

  /** handlePendingList: read the first pending entry; none ends the sweep; otherwise
      handle it and acknowledge it if that returned normally, or sleep five seconds and
      read again if it threw. The source retries without bound; here each failed round
      uses one of `retries`, and a sweep that runs out stops with the list not drained. */
  function PendingSweep(db: Db, pending: seq<Message>, held: set<string>, proxyReady: bool, retries: nat): (r: Sweep)
    decreases retries, |pending|
    ensures r.drained <==> r.pending == []
    ensures forall x :: x in r.pending ==> x in pending
    ensures pending != [] && !HandleStep(db, held, proxyReady, pending[0].order).threw ==>
              forall x :: x in r.pending ==> x.msgId != pending[0].msgId
  {
    if pending == [] then Sweep(true, db, [])
    else
      var h := HandleStep(db, held, proxyReady, pending[0].order);
      if !h.threw then PendingSweep(h.db, Ack(pending, pending[0].msgId), held, proxyReady, retries)
      else if retries == 0 then Sweep(false, db, pending)
      else PendingSweep(db, pending, held, proxyReady, retries - 1)
  }

  /** A sweep keeps the tables consistent and conserves stock plus sold per voucher. */
  lemma {:induction false} SweepPreserves(db: Db, pending: seq<Message>, held: set<string>, proxyReady: bool, retries: nat)
    requires Consistent(db)
    decreases retries, |pending|
    ensures var r := PendingSweep(db, pending, held, proxyReady, retries).db;
            && Consistent(r)
            && r.stocks.Keys == db.stocks.Keys
            && forall v :: v in db.stocks ==> r.stocks[v] + Sold(r.orders, v) == db.stocks[v] + Sold(db.orders, v)
  {
    if pending != [] {
      var h := HandleStep(db, held, proxyReady, pending[0].order);
      if ORDER_LOCK_PREFIX + Decimal(pending[0].order.userId) !in held && proxyReady {
        CreatePreserves(db, pending[0].order);
      }
      if !h.threw {
        SweepPreserves(h.db, Ack(pending, pending[0].msgId), held, proxyReady, retries);
      } else if retries > 0 {
        SweepPreserves(db, pending, held, proxyReady, retries - 1);
      }
    }
  }

  /** A sweep stops short of draining the pending list only at an entry whose handling
      throws. */
  lemma {:induction false} SweepStopsOnlyAtThrow(db: Db, pending: seq<Message>, held: set<string>, proxyReady: bool, retries: nat)
    decreases retries, |pending|
    ensures var r := PendingSweep(db, pending, held, proxyReady, retries);
            !r.drained ==> HandleStep(r.db, held, proxyReady, r.pending[0].order).threw
  {
    if pending != [] {
      var h := HandleStep(db, held, proxyReady, pending[0].order);
      if !h.threw {
        SweepStopsOnlyAtThrow(h.db, Ack(pending, pending[0].msgId), held, proxyReady, retries);
      } else if retries > 0 {
        SweepStopsOnlyAtThrow(db, pending, held, proxyReady, retries - 1);
      }
    }
  }

  /** The consumer's state: tables, unread stream entries and the pending list. */
  datatype Consumer = Consumer(db: Db, entries: seq<Message>, pending: seq<Message>)

  /** One round of the consumer's run loop. An empty read changes nothing. Otherwise the
      entry moves to the pending list and is handled; a normal return acknowledges it,
      an exception starts a pending-list sweep. */
  function RunRound(c: Consumer, held: set<string>, proxyReady: bool, retries: nat): (r: Consumer)
    ensures c.entries == [] ==> r == c
    ensures c.entries != [] ==> r.entries == c.entries[1..]
    ensures forall x :: x in r.pending ==> x in c.pending || (c.entries != [] && x == c.entries[0])
    ensures c.entries != [] && !HandleStep(c.db, held, proxyReady, c.entries[0].order).threw ==>
              forall x :: x in r.pending ==> x.msgId != c.entries[0].msgId
  {
    if c.entries == [] then c
    else
      var msg := c.entries[0];
      var pending := c.pending + [msg];
      var h := HandleStep(c.db, held, proxyReady, msg.order);
      if !h.threw then Consumer(h.db, c.entries[1..], Ack(pending, msg.msgId))
      else
        var s := PendingSweep(c.db, pending, held, proxyReady, retries);
        Consumer(s.db, c.entries[1..], s.pending)
  }

  /** A round keeps the tables consistent and never oversells. */
  lemma {:induction false} RunRoundPreserves(c: Consumer, held: set<string>, proxyReady: bool, retries: nat)
    requires Consistent(c.db)
    ensures var r := RunRound(c, held, proxyReady, retries).db;
            && Consistent(r)
            && r.stocks.Keys == c.db.stocks.Keys
            && forall v :: v in c.db.stocks ==> r.stocks[v] + Sold(r.orders, v) == c.db.stocks[v] + Sold(c.db.orders, v)
  {
    if c.entries != [] {
      var msg := c.entries[0];
      if ORDER_LOCK_PREFIX + Decimal(msg.order.userId) !in held && proxyReady {
        CreatePreserves(c.db, msg.order);
      }
      SweepPreserves(c.db, c.pending + [msg], held, proxyReady, retries);
    }
  }

  /** Acknowledgement follows returns, not orders: a message whose user's lock another
      client holds is acknowledged and dropped without an order being written, and so
      is one for a voucher out of stock or a user who already ordered. */
  lemma {:induction false} ReturnedMessagesAreAcked(c: Consumer, held: set<string>, proxyReady: bool, retries: nat)
    requires c.entries != [] && c.entries[0] !in c.pending
    requires var o := c.entries[0].order;
             || ORDER_LOCK_PREFIX + Decimal(o.userId) in held
             || HasOrder(c.db.orders, o.userId, o.voucherId)
             || !(o.voucherId in c.db.stocks && c.db.stocks[o.voucherId] > 0)
    requires proxyReady
    ensures var r := RunRound(c, held, proxyReady, retries);
            && r.db == c.db
            && c.entries[0] !in r.pending
            && r.entries == c.entries[1..]
  {
  }

  /** A message whose handling throws is not acknowledged: while no proxy is captured,
      the round's message stays on the pending list and nothing is written. */
  lemma {:induction false} ThrownMessageStaysPending(c: Consumer, held: set<string>, retries: nat)
    requires c.entries != [] && ORDER_LOCK_PREFIX + Decimal(c.entries[0].order.userId) !in held
    requires forall y :: y in c.pending ==> y.msgId != c.entries[0].msgId
    ensures var r := RunRound(c, held, false, retries);
            && r.db == c.db
            && c.entries[0] in r.pending
  {
    var msg := c.entries[0];
    var pending := c.pending + [msg];
    assert msg in pending;
    SweepKeepsThrowing(c.db, pending, held, retries, msg);
  }

  /** With no proxy captured, a sweep writes nothing, and every entry whose user's lock
      is free stays on the pending list: the sweep only drops entries locked out. */
  lemma {:induction false} SweepKeepsThrowing(db: Db, pending: seq<Message>, held: set<string>, retries: nat, x: Message)
    requires x in pending && ORDER_LOCK_PREFIX + Decimal(x.order.userId) !in held
    requires forall y :: y in pending && y.msgId == x.msgId ==> y == x
    decreases retries, |pending|
    ensures PendingSweep(db, pending, held, false, retries).db == db
    ensures x in PendingSweep(db, pending, held, false, retries).pending
  {
    var h := HandleStep(db, held, false, pending[0].order);
    if !h.threw {
      assert pending[0] != x;
      SweepKeepsThrowing(h.db, Ack(pending, pending[0].msgId), held, retries, x);
    } else if retries > 0 {
      SweepKeepsThrowing(db, pending, held, retries - 1, x);
    }
  }

  /** The sale's state: the order tables, the stream, the Redisson locks other clients
      hold, and the captured proxy. */
  class VoucherOrderService {
    const idWorker: IdWorker
    var stocks: map<nat, int>
    var orders: seq<VoucherOrder>
    /** stream.orders: entries not yet delivered to group g1, and the group's pending list. */
    var entries: seq<Message>
    var pending: seq<Message>
    var lastMessageId: nat
    /** Redisson locks held by other clients. */
    var held: set<string>
    /** Whether `proxy` has been set by a successful seckillVoucher. */
    var proxyReady: bool

    constructor (idWorker: IdWorker, stocks: map<nat, int>)
      ensures this.idWorker == idWorker && this.stocks == stocks && orders == []
      ensures entries == [] && pending == [] && lastMessageId == 0 && held == {} && !proxyReady
    {
      this.idWorker := idWorker;
      this.stocks := stocks;
      orders := [];
      entries := [];
      pending := [];
      lastMessageId := 0;
      held := {};
      proxyReady := false;
    }

    /** seckillVoucher(voucherId) by `userId`; `code` is the admission script's reply. */
    method SeckillVoucher(voucherId: nat, userId: nat, code: Long, now: LocalDateTime) returns (reply: Outcome<Result<int>>)
      requires ValidTime(now)
      modifies idWorker.redis`strings, this`entries, this`lastMessageId, this`proxyReady
      ensures Seckill(reply, idWorker.redis.strings, entries, lastMessageId, proxyReady)
              == SeckillStep(old(idWorker.redis.strings), old(entries), old(lastMessageId), old(proxyReady),
                             voucherId, userId, code, now)
    {
      var orderId := idWorker.NextId("order", now);
      if orderId.None? {
        return Threw;
      }
      var r := IntValue(code as int);
      if r != 0 {
        return Returned(Some(Fail(if r == 1 then NO_STOCK else ALREADY_ORDERED)));
      }
      // The script appended the admitted order to the stream.
      lastMessageId := lastMessageId + 1;
      entries := entries + [Message(lastMessageId, VoucherOrder(orderId.value, userId, voucherId))];
      proxyReady := true;
      reply := Returned(Some(Ok(Some(orderId.value))));
    }

    /** createVoucherOrder(voucherOrder); `threw` says whether an exception escaped. */
    method CreateVoucherOrder(o: VoucherOrder) returns (threw: bool)
      modifies this`stocks, this`orders
      ensures Handled(threw, Db(stocks, orders)) == CreateStep(old(Db(stocks, orders)), o)
    {
      threw := false;
      var count := if HasOrder(orders, o.userId, o.voucherId) then 1 else 0;
      if count > 0 {
        return;
      }
      var success := o.voucherId in stocks && stocks[o.voucherId] > 0;
      if !success {
        return;
      }
      var before := stocks;
      stocks := stocks[o.voucherId := stocks[o.voucherId] - 1];
      if IdTaken(orders, o.id) {
        // save fails on the primary key; the transaction rolls back the decrement.
        stocks := before;
        return true;
      }
      orders := orders + [o];
    }

    /** handleVoucherOrder(voucherOrder). */
    method HandleVoucherOrder(o: VoucherOrder) returns (threw: bool)
      modifies this`stocks, this`orders, this`held
      ensures held == old(held)
      ensures Handled(threw, Db(stocks, orders)) == HandleStep(old(Db(stocks, orders)), held, proxyReady, o)
    {
      var name := ORDER_LOCK_PREFIX + Decimal(o.userId);
      var isLock := name !in held;
      if !isLock {
        return false;
      }
      held := held + {name};
      if !proxyReady {
        threw := true;
      } else {
        threw := CreateVoucherOrder(o);
      }
      held := held - {name};
    }

    /** XREADGROUP GROUP g1 c1 COUNT 1 STREAMS stream.orders >: the next undelivered
        entry, now pending. */
    method ReadNew() returns (msg: Option<Message>)
      modifies this`entries, this`pending
      ensures old(entries) == [] ==> msg.None? && entries == [] && pending == old(pending)
      ensures old(entries) != [] ==> msg == Some(old(entries)[0]) && entries == old(entries)[1..]
                                     && pending == old(pending) + [old(entries)[0]]
    {
      if entries == [] {
        return None;
      }
      msg := Some(entries[0]);
      pending := pending + [entries[0]];
      entries := entries[1..];
    }

    /** XACK stream.orders g1 id. */
    method Acknowledge(msgId: nat)
      modifies this`pending
      ensures pending == Ack(old(pending), msgId)
    {
      var i := 0;
      var kept: seq<Message> := [];
      while i < |pending|
        invariant 0 <= i <= |pending|
        invariant kept + Ack(pending[i..], msgId) == Ack(pending, msgId)
      {
        assert pending[i..] == [pending[i]] + pending[i + 1..];
        if pending[i].msgId != msgId {
          kept := kept + [pending[i]];
        }
        i := i + 1;
      }
      pending := kept;
    }

    /** One round of VoucherOrderHandler.run. */
    method RunOnce(retries: nat)
      modifies this`stocks, this`orders, this`held, this`entries, this`pending
      ensures held == old(held)
      ensures Consumer(Db(stocks, orders), entries, pending)
              == RunRound(old(Consumer(Db(stocks, orders), entries, pending)), held, proxyReady, retries)
    {
      var list := ReadNew();
      if list.None? {
        return;
      }
      var msg := list.value;
      var threw := HandleVoucherOrder(msg.order);
      if !threw {
        Acknowledge(msg.msgId);
      } else {
        var drained := HandlePendingList(retries);
      }
    }

    /** handlePendingList, giving up after `retries` failed rounds. */
    method HandlePendingList(retries: nat) returns (drained: bool)
      modifies this`stocks, this`orders, this`held, this`pending
      ensures held == old(held)
      ensures Sweep(drained, Db(stocks, orders), pending)
              == PendingSweep(old(Db(stocks, orders)), old(pending), held, proxyReady, retries)
    {
      var left := retries;
      while true
        invariant held == old(held)
        invariant PendingSweep(Db(stocks, orders), pending, held, proxyReady, left)
                  == PendingSweep(old(Db(stocks, orders)), old(pending), held, proxyReady, retries)
        decreases left, |pending|
      {
        if pending == [] {
          return true;
        }
        var msg := pending[0];
        var threw := HandleVoucherOrder(msg.order);
        if !threw {
          Acknowledge(msg.msgId);
        } else {
          if left == 0 {
            return false;
          }
          // Thread.sleep(5000), then read the pending list again.
          left := left - 1;
        }
      }
    }
  }
}
