/** The rider balance recomputation script: test transactions are removed,
    then for each rider the completed orders are credited (a credit transaction
    is inserted only where none exists for that rider and order), pending and
    processed withdrawals are deducted, and the stored balance is overwritten. */
module Recalc {
  import opened Common

  datatype RUser = RUser(id: string, role: string, firebaseUid: Option<string>, walletBalance: Option<real>)

  /** An order; `riderId` is None when it is missing or null, and `riderEarning`
      is None unless it is a number. */
  datatype ROrder = ROrder(id: string, riderId: Option<string>, status: Option<string>,
                           riderEarning: Option<real>, updatedAt: Option<int>)

  datatype RTx = RTx(userId: string, kind: string, amount: Option<real>, description: string,
                     orderId: Option<string>, status: Option<string>, createdAt: int)

  const TestDescription: string := "System Test Delivery Earnings"

  /** What a completed order earns its rider when it carries no amount. */
  const DefaultEarning: real := 15.0

  /** `deleteMany({description: 'System Test Delivery Earnings'})`. */
  function Cleaned(txs: seq<RTx>): (r: seq<RTx>)
    ensures forall t :: t in r ==> t in txs && t.description != TestDescription
    ensures forall t :: t in txs && t.description != TestDescription ==> t in r
  {
    if txs == [] then []
    else
      var rest := Cleaned(txs[..|txs| - 1]);
      var t := txs[|txs| - 1];
      assert forall u :: u in txs ==> u in txs[..|txs| - 1] || u == t;
      if t.description != TestDescription then rest + [t] else rest
  }

  // ---------------------------------------------------------------------------
  // Which orders belong to a rider

  /** The query `riderId: {$in: [rider._id.toString(), rider.firebaseUid]}` as
      written: a rider without a firebaseUid puts `undefined` in the list, which
      is sent as null and matches every order whose riderId is missing or null. */
  predicate MatchesAsWritten(o: ROrder, riderId: string, firebaseUid: Option<string>) {
    o.riderId == Some(riderId) || o.riderId == firebaseUid
  }

  /** A completed order with no rider is counted as the earning of a rider who
      has no firebaseUid. */
  lemma RiderlessOrderCountedAsWritten(riderId: string, o: ROrder)
    requires o.riderId.None?
    ensures MatchesAsWritten(o, riderId, None)
    ensures !RiderOrder(o, riderId, None)
  {
  }

  /** The orders of a rider: those whose riderId is the rider's id or the rider's
      firebaseUid, when the rider has one. */
  predicate RiderOrder(o: ROrder, riderId: string, firebaseUid: Option<string>) {
    o.riderId == Some(riderId) || (firebaseUid.Some? && o.riderId == firebaseUid)
  }

  /** Only an order that names a rider is ever attributed to one, and the two
      matchings agree on every such order. */
  lemma RiderOrderNamesRider(o: ROrder, riderId: string, firebaseUid: Option<string>)
    ensures RiderOrder(o, riderId, firebaseUid) ==> o.riderId.Some?
    ensures o.riderId.Some? ==> (RiderOrder(o, riderId, firebaseUid) <==> MatchesAsWritten(o, riderId, firebaseUid))
    ensures firebaseUid.Some? ==> (RiderOrder(o, riderId, firebaseUid) <==> MatchesAsWritten(o, riderId, firebaseUid))
  {
  }

  predicate IsCompletedFor(o: ROrder, riderId: string, firebaseUid: Option<string>) {
    o.status == Some("completed") && RiderOrder(o, riderId, firebaseUid)
  }

  /** The completed orders of a rider, in collection order. */
  function Completed(orders: seq<ROrder>, riderId: string, firebaseUid: Option<string>): (r: seq<ROrder>)
    ensures forall o :: o in r <==> o in orders && IsCompletedFor(o, riderId, firebaseUid)
  {
    if orders == [] then []
    else
      var rest := Completed(orders[..|orders| - 1], riderId, firebaseUid);
      var o := orders[|orders| - 1];
      assert forall u :: u in orders ==> u in orders[..|orders| - 1] || u == o;
      if IsCompletedFor(o, riderId, firebaseUid) then rest + [o] else rest
  }

  // ---------------------------------------------------------------------------
  // Earnings and credits

  /** `typeof order.riderEarning === 'number' ? order.riderEarning : 15`. */
  function Earning(o: ROrder): real {
    if o.riderEarning.Some? then o.riderEarning.value else DefaultEarning
  }

  function Earnings(os: seq<ROrder>): real {
    if os == [] then 0.0 else Earnings(os[..|os| - 1]) + Earning(os[|os| - 1])
  }

  predicate IsCreditFor(t: RTx, riderId: string, orderId: string) {
    t.userId == riderId && t.orderId == Some(orderId) && t.kind == "credit"
  }

  predicate HasCredit(txs: seq<RTx>, riderId: string, orderId: string) {
    exists t :: t in txs && IsCreditFor(t, riderId, orderId)
  }

  /** The last six characters of the order id, upper-cased. */
  function Description(orderId: string): (d: string)
    ensures |d| >= 19 && d[..19] == "Delivery Earnings #"
  {
    var start := if |orderId| >= 6 then |orderId| - 6 else 0;
    "Delivery Earnings #" + ToUpper(orderId[start..])
  }

  function CreditFor(riderId: string, o: ROrder, now: int): RTx {
    RTx(riderId, "credit", Some(Earning(o)), Description(o.id), Some(o.id), None,
        if o.updatedAt.Some? then o.updatedAt.value else now)
  }

  /** The transactions after one order: its credit is inserted unless the rider
      already has a credit for it. */
  function AddCredit(txs: seq<RTx>, riderId: string, o: ROrder, now: int): seq<RTx> {
    if HasCredit(txs, riderId, o.id) then txs else txs + [CreditFor(riderId, o, now)]
  }

  /** The transactions after the inner loop over the orders `os`. */
  function InsertCredits(txs: seq<RTx>, riderId: string, os: seq<ROrder>, now: int): seq<RTx> {
    if os == [] then txs
    else AddCredit(InsertCredits(txs, riderId, os[..|os| - 1], now), riderId, os[|os| - 1], now)
  }

  predicate IsWithdrawal(t: RTx, userId: string) {
    t.userId == userId && t.kind == "debit" && (t.status == Some("pending") || t.status == Some("processed"))
  }

  /** The withdrawals query. */
  function Debits(txs: seq<RTx>, userId: string): seq<RTx> {
    if txs == [] then []
    else
      var rest := Debits(txs[..|txs| - 1], userId);
      if IsWithdrawal(txs[|txs| - 1], userId) then rest + [txs[|txs| - 1]] else rest
  }

  /** `totalWithdrawals`: a missing amount counts as 0. */
  function SumAmounts(ws: seq<RTx>): real {
    if ws == [] then 0.0 else SumAmounts(ws[..|ws| - 1]) + NumberOrZero(ws[|ws| - 1].amount)
  }

  function Withdrawn(txs: seq<RTx>, userId: string): real {
    SumAmounts(Debits(txs, userId))
  }

  /** A user after the script: a rider's balance is earnings minus withdrawals,
      anyone else is left alone. */
  function Recomputed(u: RUser, orders: seq<ROrder>, txs: seq<RTx>): (r: RUser)
    ensures r.id == u.id && r.role == u.role && r.firebaseUid == u.firebaseUid
    ensures u.role != "rider" ==> r == u
    ensures u.role == "rider" ==>
      r.walletBalance == Some(Earnings(Completed(orders, u.id, u.firebaseUid)) - Withdrawn(txs, u.id))
  {
    if u.role == "rider" then
      u.(walletBalance := Some(Earnings(Completed(orders, u.id, u.firebaseUid)) - Withdrawn(txs, u.id)))
    else u
  }

  /** The transactions after the outer loop has run over the users `us`. */
  function AfterRiders(us: seq<RUser>, orders: seq<ROrder>, txs: seq<RTx>, now: int): seq<RTx> {
    if us == [] then txs
    else
      var prev := AfterRiders(us[..|us| - 1], orders, txs, now);
      var r := us[|us| - 1];
      if r.role == "rider" then InsertCredits(prev, r.id, Completed(orders, r.id, r.firebaseUid), now) else prev
  }

  // ---------------------------------------------------------------------------
  // Properties of the credits

  /** The collection only grows: `b` starts with `a`. */
  predicate Extends(a: seq<RTx>, b: seq<RTx>) {
    |a| <= |b| && b[..|a|] == a
  }

  lemma ExtendsTransitive(a: seq<RTx>, b: seq<RTx>, c: seq<RTx>)
    requires Extends(a, b) && Extends(b, c)
    ensures Extends(a, c)
  {
    assert c[..|a|] == c[..|b|][..|a|];
  }

  lemma HasCreditExtends(a: seq<RTx>, b: seq<RTx>, riderId: string, orderId: string)
    requires Extends(a, b) && HasCredit(a, riderId, orderId)
    ensures HasCredit(b, riderId, orderId)
  {
    var t :| t in a && IsCreditFor(t, riderId, orderId);
    var i :| 0 <= i < |a| && a[i] == t;
    assert b[i] == t;
  }

  lemma {:induction false} InsertCreditsExtends(txs: seq<RTx>, riderId: string, os: seq<ROrder>, now: int)
    ensures Extends(txs, InsertCredits(txs, riderId, os, now))
    ensures forall k :: |txs| <= k < |InsertCredits(txs, riderId, os, now)| ==>
      InsertCredits(txs, riderId, os, now)[k].kind == "credit" &&
      InsertCredits(txs, riderId, os, now)[k].userId == riderId &&
      InsertCredits(txs, riderId, os, now)[k].description != TestDescription
  {
    if os != [] {
      var prev := InsertCredits(txs, riderId, os[..|os| - 1], now);
      InsertCreditsExtends(txs, riderId, os[..|os| - 1], now);
      var o := os[|os| - 1];
      if !HasCredit(prev, riderId, o.id) {
        var c := CreditFor(riderId, o, now);
        assert Extends(prev, prev + [c]);
        ExtendsTransitive(txs, prev, prev + [c]);
        assert c.description[0] == 'D' && TestDescription[0] == 'S';
      }
    }
  }

  /** After the inner loop every completed order of the rider has a credit. */
  lemma {:induction false} InsertCreditsCovers(txs: seq<RTx>, riderId: string, os: seq<ROrder>, now: int)
    ensures forall o :: o in os ==> HasCredit(InsertCredits(txs, riderId, os, now), riderId, o.id)
  {
    if os != [] {
      var init, o := os[..|os| - 1], os[|os| - 1];
      var prev := InsertCredits(txs, riderId, init, now);
      InsertCreditsCovers(txs, riderId, init, now);
      var next := AddCredit(prev, riderId, o, now);
      assert Extends(prev, next);
      if !HasCredit(prev, riderId, o.id) {
        assert next[|prev|] in next;
      }
      forall p | p in os ensures HasCredit(next, riderId, p.id) {
        if p != o {
          assert p in init;
          HasCreditExtends(prev, next, riderId, p.id);
        }
      }
    }
  }

  /** Where every credit already exists, the inner loop inserts nothing. */
  lemma {:induction false} InsertCreditsNothingMissing(txs: seq<RTx>, riderId: string, os: seq<ROrder>, now: int)
    requires forall o :: o in os ==> HasCredit(txs, riderId, o.id)
    ensures InsertCredits(txs, riderId, os, now) == txs
  {
    if os != [] {
      InsertCreditsNothingMissing(txs, riderId, os[..|os| - 1], now);
      assert os[|os| - 1] in os;
    }
  }

  /** No rider ever has two credits for the same order: a collection without
      such duplicates keeps none, whatever the orders. */
  predicate NoDuplicateCredits(txs: seq<RTx>) {
    forall i, j :: 0 <= i < j < |txs| && txs[i].kind == "credit" && txs[j].kind == "credit" ==>
      txs[i].userId != txs[j].userId || txs[i].orderId != txs[j].orderId
  }

  lemma {:induction false} InsertCreditsNoDuplicates(txs: seq<RTx>, riderId: string, os: seq<ROrder>, now: int)
    requires NoDuplicateCredits(txs)
    ensures NoDuplicateCredits(InsertCredits(txs, riderId, os, now))
  {
    if os != [] {
      var prev := InsertCredits(txs, riderId, os[..|os| - 1], now);
      InsertCreditsNoDuplicates(txs, riderId, os[..|os| - 1], now);
      var o := os[|os| - 1];
      if !HasCredit(prev, riderId, o.id) {
        var next := prev + [CreditFor(riderId, o, now)];
        forall i, j | 0 <= i < j < |next| && next[i].kind == "credit" && next[j].kind == "credit"
          ensures next[i].userId != next[j].userId || next[i].orderId != next[j].orderId
        {
          if j == |prev| {
            assert next[i] in prev;
          } else {
            assert next[i] == prev[i] && next[j] == prev[j];
          }
        }
      }
    }
  }

  // ---------------------------------------------------------------------------
  // Withdrawals do not see credits

  lemma DebitsSnoc(txs: seq<RTx>, t: RTx, userId: string)
    ensures Debits(txs + [t], userId) == Debits(txs, userId) + (if IsWithdrawal(t, userId) then [t] else [])
  {
    assert (txs + [t])[..|txs|] == txs;
  }

  lemma {:induction false} WithdrawnIgnoresCredits(txs: seq<RTx>, riderId: string, os: seq<ROrder>, now: int, userId: string)
    ensures Debits(InsertCredits(txs, riderId, os, now), userId) == Debits(txs, userId)
  {
    if os != [] {
      var prev := InsertCredits(txs, riderId, os[..|os| - 1], now);
      WithdrawnIgnoresCredits(txs, riderId, os[..|os| - 1], now, userId);
      var o := os[|os| - 1];
      if !HasCredit(prev, riderId, o.id) {
        DebitsSnoc(prev, CreditFor(riderId, o, now), userId);
        assert Debits(prev, userId) + [] == Debits(prev, userId);
      }
    }
  }

  // ---------------------------------------------------------------------------
  // The outer loop

  lemma {:induction false} AfterRidersFacts(us: seq<RUser>, orders: seq<ROrder>, txs: seq<RTx>, now: int, userId: string)
    ensures Extends(txs, AfterRiders(us, orders, txs, now))
    ensures Debits(AfterRiders(us, orders, txs, now), userId) == Debits(txs, userId)
    ensures forall k :: |txs| <= k < |AfterRiders(us, orders, txs, now)| ==>
      AfterRiders(us, orders, txs, now)[k].kind == "credit" &&
      AfterRiders(us, orders, txs, now)[k].description != TestDescription
  {
    if us != [] {
      var init, r := us[..|us| - 1], us[|us| - 1];
      var prev := AfterRiders(init, orders, txs, now);
      AfterRidersFacts(init, orders, txs, now, userId);
      if r.role == "rider" {
        var os := Completed(orders, r.id, r.firebaseUid);
        InsertCreditsExtends(prev, r.id, os, now);
        ExtendsTransitive(txs, prev, InsertCredits(prev, r.id, os, now));
        WithdrawnIgnoresCredits(prev, r.id, os, now, userId);
        var next := InsertCredits(prev, r.id, os, now);
        forall k | |txs| <= k < |next|
          ensures next[k].kind == "credit" && next[k].description != TestDescription
        {
          if k < |prev| {
            assert next[k] == prev[k];
          }
        }
      }
    }
  }

  /** A later prefix of the users extends the transactions of an earlier one. */
  lemma {:induction false} AfterRidersGrows(us: seq<RUser>, m: nat, orders: seq<ROrder>, txs: seq<RTx>, now: int)
    requires m <= |us|
    ensures Extends(AfterRiders(us[..m], orders, txs, now), AfterRiders(us, orders, txs, now))
  {
    if m < |us| {
      var init := us[..|us| - 1];
      assert init[..m] == us[..m];
      AfterRidersGrows(init, m, orders, txs, now);
      var r := us[|us| - 1];
      if r.role == "rider" {
        InsertCreditsExtends(AfterRiders(init, orders, txs, now), r.id, Completed(orders, r.id, r.firebaseUid), now);
        ExtendsTransitive(AfterRiders(us[..m], orders, txs, now), AfterRiders(init, orders, txs, now), AfterRiders(us, orders, txs, now));
      }
    } else {
      assert us[..m] == us;
    }
  }

  /** After the script every completed order of every rider has a credit. */
  lemma EveryRiderCredited(us: seq<RUser>, orders: seq<ROrder>, txs: seq<RTx>, now: int, k: nat, o: ROrder)
    requires k < |us| && us[k].role == "rider" && o in Completed(orders, us[k].id, us[k].firebaseUid)
    ensures HasCredit(AfterRiders(us, orders, txs, now), us[k].id, o.id)
  {
    var pre := us[..k + 1];
    assert pre[..k] == us[..k] && pre[k] == us[k];
    InsertCreditsCovers(AfterRiders(us[..k], orders, txs, now), us[k].id, Completed(orders, us[k].id, us[k].firebaseUid), now);
    AfterRidersGrows(us, k + 1, orders, txs, now);
    HasCreditExtends(AfterRiders(pre, orders, txs, now), AfterRiders(us, orders, txs, now), us[k].id, o.id);
  }

  lemma {:induction false} CleanedKeepsAll(txs: seq<RTx>)
    requires forall k :: 0 <= k < |txs| ==> txs[k].description != TestDescription
    ensures Cleaned(txs) == txs
  {
    if txs != [] {
      var init := txs[..|txs| - 1];
      assert forall k :: 0 <= k < |init| ==> init[k] == txs[k];
      CleanedKeepsAll(init);
      assert txs == init + [txs[|txs| - 1]];
    }
  }

  lemma RecomputedSameDebits(u: RUser, orders: seq<ROrder>, a: seq<RTx>, b: seq<RTx>)
    requires Debits(a, u.id) == Debits(b, u.id)
    ensures Recomputed(u, orders, a) == Recomputed(u, orders, b)
  {
  }

  lemma RecomputedTwice(u: RUser, orders: seq<ROrder>, a: seq<RTx>, b: seq<RTx>)
    requires Debits(a, u.id) == Debits(b, u.id)
    ensures Recomputed(Recomputed(u, orders, a), orders, b) == Recomputed(u, orders, a)
  {
  }

  /** The users after the script. */
  function RecomputedAll(us: seq<RUser>, orders: seq<ROrder>, txs: seq<RTx>): (r: seq<RUser>)
    ensures |r| == |us|
  {
    seq(|us|, k requires 0 <= k < |us| => Recomputed(us[k], orders, txs))
  }

  /** Where every credit the riders `vs` need already exists, the outer loop
      inserts nothing. */
  lemma {:induction false} AfterRidersNothingMissing(vs: seq<RUser>, orders: seq<ROrder>, txs: seq<RTx>, now: int)
    requires forall k, o :: 0 <= k < |vs| && vs[k].role == "rider" && o in Completed(orders, vs[k].id, vs[k].firebaseUid) ==>
      HasCredit(txs, vs[k].id, o.id)
    ensures AfterRiders(vs, orders, txs, now) == txs
  {
    if vs != [] {
      var init, r := vs[..|vs| - 1], vs[|vs| - 1];
      AfterRidersNothingMissing(init, orders, txs, now);
      if r.role == "rider" {
        InsertCreditsNothingMissing(txs, r.id, Completed(orders, r.id, r.firebaseUid), now);
      }
    }
  }

  /** The transactions after the first run hold no test transaction, so a second
      run's clean-up removes nothing. */
  lemma CleanRunStaysClean(us: seq<RUser>, orders: seq<ROrder>, txs: seq<RTx>, now: int)
    ensures Cleaned(AfterRiders(us, orders, Cleaned(txs), now)) == AfterRiders(us, orders, Cleaned(txs), now)
  {
    var t0 := Cleaned(txs);
    var t1 := AfterRiders(us, orders, t0, now);
    AfterRidersFacts(us, orders, t0, now, "");
    forall k | 0 <= k < |t1| ensures t1[k].description != TestDescription {
      if k < |t0| {
        assert t1[k] == t0[k];
        assert t0[k] in t0;
      }
    }
    CleanedKeepsAll(t1);
  }

  /** After the first run, every completed order of every rider of the updated users
      has its credit. */
  lemma RecomputedAllCredited(us: seq<RUser>, orders: seq<ROrder>, t0: seq<RTx>, now: int)
    ensures forall k, o :: (0 <= k < |us| && RecomputedAll(us, orders, t0)[k].role == "rider" &&
      o in Completed(orders, RecomputedAll(us, orders, t0)[k].id, RecomputedAll(us, orders, t0)[k].firebaseUid)) ==>
      HasCredit(AfterRiders(us, orders, t0, now), RecomputedAll(us, orders, t0)[k].id, o.id)
  {
    var u1 := RecomputedAll(us, orders, t0);
    forall k, o | 0 <= k < |us| && u1[k].role == "rider" && o in Completed(orders, u1[k].id, u1[k].firebaseUid)
      ensures HasCredit(AfterRiders(us, orders, t0, now), u1[k].id, o.id)
    {
      EveryRiderCredited(us, orders, t0, now, k, o);
    }
  }

  /** Recomputing the updated users against the first run's transactions gives them
      back: the withdrawals are unchanged and the earnings are the same. */
  lemma RecomputedAllStable(us: seq<RUser>, orders: seq<ROrder>, t0: seq<RTx>, now: int)
    ensures RecomputedAll(RecomputedAll(us, orders, t0), orders, AfterRiders(us, orders, t0, now)) ==
            RecomputedAll(us, orders, t0)
  {
    var t1 := AfterRiders(us, orders, t0, now);
    var u1 := RecomputedAll(us, orders, t0);
    forall k | 0 <= k < |u1| ensures Recomputed(u1[k], orders, t1) == u1[k] {
      AfterRidersFacts(us, orders, t0, now, us[k].id);
      RecomputedTwice(us[k], orders, t0, t1);
    }
    var u2 := RecomputedAll(u1, orders, t1);
    assert forall k :: 0 <= k < |u1| ==> u2[k] == Recomputed(u1[k], orders, t1);
    assert u2 == u1;
  }

  /** Running the script a second time changes nothing: no credit is inserted
      twice and every balance comes out the same. */
  lemma RecalculationIdempotent(us: seq<RUser>, orders: seq<ROrder>, txs: seq<RTx>, now: int, now': int)
    ensures AfterRiders(RecomputedAll(us, orders, Cleaned(txs)), orders,
                        Cleaned(AfterRiders(us, orders, Cleaned(txs), now)), now') ==
            AfterRiders(us, orders, Cleaned(txs), now)
    ensures RecomputedAll(RecomputedAll(us, orders, Cleaned(txs)), orders,
                          Cleaned(AfterRiders(us, orders, Cleaned(txs), now))) ==
            RecomputedAll(us, orders, Cleaned(txs))
  {
    var t0 := Cleaned(txs);
    var t1 := AfterRiders(us, orders, t0, now);
    var u1 := RecomputedAll(us, orders, t0);
    CleanRunStaysClean(us, orders, txs, now);
    RecomputedAllCredited(us, orders, t0, now);
    AfterRidersNothingMissing(u1, orders, t1, now');
    RecomputedAllStable(us, orders, t0, now);
  }

  // ---------------------------------------------------------------------------
  // The script

  class BalanceStore {
    var users: seq<RUser>
    var orders: seq<ROrder>
    var transactions: seq<RTx>

    constructor(users0: seq<RUser>, orders0: seq<ROrder>, transactions0: seq<RTx>)
      ensures users == users0 && orders == orders0 && transactions == transactions0
    {
      users := users0;
      orders := orders0;
      transactions := transactions0;
    }

    /** The script. Users are addressed by position, their ids being unique.
        `now` is the clock read where an order has no `updatedAt`. */
    method Run(now: int)
      modifies this
      ensures orders == old(orders)
      ensures transactions == AfterRiders(old(users), orders, Cleaned(old(transactions)), now)
      ensures users == RecomputedAll(old(users), orders, Cleaned(old(transactions)))
    {
      transactions := Cleaned(transactions);
      ghost var t0 := transactions;
      ghost var u0 := users;
      for j := 0 to |users|
        invariant orders == old(orders)
        invariant Progress(j, u0, t0, now)
      {
        Step(j, u0, t0, now);
      }
      assert u0[..|u0|] == u0;
    }

    /** The state after the outer loop has handled the first `j` users. */
    ghost predicate Progress(j: nat, u0: seq<RUser>, t0: seq<RTx>, now: int)
      reads this
    {
      j <= |u0| && |users| == |u0| &&
      transactions == AfterRiders(u0[..j], orders, t0, now) &&
      (forall k :: 0 <= k < j ==> users[k] == Recomputed(u0[k], orders, t0)) &&
      (forall k :: j <= k < |users| ==> users[k] == u0[k])
    }

    /** One turn of the outer loop. */
    method Step(j: nat, ghost u0: seq<RUser>, ghost t0: seq<RTx>, now: int)
      requires j < |u0| && Progress(j, u0, t0, now)
      modifies this
      ensures orders == old(orders)
      ensures Progress(j + 1, u0, t0, now)
    {
      assert u0[..j + 1][..j] == u0[..j];
      if users[j].role == "rider" {
        AfterRidersFacts(u0[..j], orders, t0, now, users[j].id);
        RecomputedSameDebits(u0[j], orders, transactions, t0);
        ProcessRider(j, now);
      }
    }

    /** The body of the outer loop for the rider `users[j]`. */
    method ProcessRider(j: nat, now: int)
      requires j < |users| && users[j].role == "rider"
      modifies this
      ensures orders == old(orders)
      ensures transactions == InsertCredits(old(transactions), old(users)[j].id,
                                            Completed(orders, old(users)[j].id, old(users)[j].firebaseUid), now)
      ensures users == old(users)[j := Recomputed(old(users)[j], orders, old(transactions))]
    {
      var rider := users[j];
      var completedOrders := Completed(orders, rider.id, rider.firebaseUid);
      var realEarnings := 0.0;
      for i := 0 to |completedOrders|
        invariant realEarnings == Earnings(completedOrders[..i])
        invariant transactions == InsertCredits(old(transactions), rider.id, completedOrders[..i], now)
        invariant users == old(users) && orders == old(orders)
      {
        var order := completedOrders[i];
        assert completedOrders[..i + 1][..i] == completedOrders[..i];
        var earning := Earning(order);
        realEarnings := realEarnings + earning;
        if !HasCredit(transactions, rider.id, order.id) {
          transactions := transactions + [CreditFor(rider.id, order, now)];
        }
      }
      assert completedOrders[..|completedOrders|] == completedOrders;
      WithdrawnIgnoresCredits(old(transactions), rider.id, completedOrders, now, rider.id);
      var withdrawals := Debits(transactions, rider.id);
      var totalWithdrawals := 0.0;
      for i := 0 to |withdrawals|
        invariant totalWithdrawals == SumAmounts(withdrawals[..i])
      {
        assert withdrawals[..i + 1][..i] == withdrawals[..i];
        totalWithdrawals := totalWithdrawals + NumberOrZero(withdrawals[i].amount);
      }
      assert withdrawals[..|withdrawals|] == withdrawals;
      users := users[j := rider.(walletBalance := Some(realEarnings - totalWithdrawals))];
    }
  }
}
