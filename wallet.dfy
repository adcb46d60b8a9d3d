/** The wallet routes: a withdrawal debits the caller's balance and records a
    pending debit; saved payment methods are validated on creation and can be
    deleted only by their owner. Ids come from the token or the URL and go
    through `new ObjectId`, which throws (500) on anything but 24 hex digits. */
module Wallet {
  import opened Common

  /** A withdrawal amount as the request body holds it. A string is compared by
      the handler through `Number(s)` and debited through `parseFloat(s)`; both
      conversions are given with the string (None stands for NaN). */
  datatype AmountInput =
    | Absent
    | Num(x: real)
    | Text(s: string, asNumber: Option<real>, asFloat: Option<real>)

  datatype WalletUser = WalletUser(walletBalance: Option<real>, bankDetails: Option<string>)

  datatype Transaction = Transaction(
    userId: string,
    kind: string,
    amount: real,
    description: string,
    status: string,
    bankDetails: Option<string>,
    createdAt: int)

  datatype Receipt = Receipt(transactionId: string, newBalance: real)

  /** Payment details: only the bank name is read by the handler. */
  datatype Details = Details(bankName: Option<string>, other: map<string, string>)

  datatype PaymentMethod = PaymentMethod(
    id: string,
    userId: string,
    kind: string,
    details: Details,
    alias: Option<string>,
    createdAt: int)

  /** `user.walletBalance || 0`. */
  function BalanceOf(u: WalletUser): real {
    NumberOrZero(u.walletBalance)
  }

  /** GET /: the balance of a user, 404 when there is no such user. */
  function Balance(users: map<string, WalletUser>, userId: string): (r: Result<real>)
    ensures ObjectIdOf(userId).None? ==> r == Err(ServerError)
    ensures ObjectIdOf(userId).Some? && ObjectIdOf(userId).value !in users ==> r == Err(NotFound)
    ensures ObjectIdOf(userId).Some? && ObjectIdOf(userId).value in users ==>
      r == Ok(BalanceOf(users[ObjectIdOf(userId).value]))
  {
    match ObjectIdOf(userId)
    case None => Err(ServerError)
    case Some(uid) => if uid in users then Ok(BalanceOf(users[uid])) else Err(NotFound)
  }

  // ---------------------------------------------------------------------------
  // The withdrawal checks

  /** The amount checks as the handler writes them, on a balance already read:
      `!amount || amount <= 0` and `currentBalance < amount` compare through
      `Number`, while the debit is `parseFloat(amount)`. The result is the amount
      debited (None for NaN). */
  function GateAsWritten(balance: real, amount: AmountInput): Result<Option<real>> {
    match amount
    case Absent => Err(BadRequest("invalid amount"))
    case Num(x) =>
      if x == 0.0 || x <= 0.0 then Err(BadRequest("invalid amount"))
      else if balance < x then Err(BadRequest("insufficient balance"))
      else Ok(Some(x))
    case Text(s, n, f) =>
      if s == "" || (n.Some? && n.value <= 0.0) then Err(BadRequest("invalid amount"))
      else if n.Some? && balance < n.value then Err(BadRequest("insufficient balance"))
      else Ok(f)
  }

  /** A string amount that `Number` cannot read but `parseFloat` can passes both
      checks as written, and the debit takes the balance below zero: "12abc"
      against a balance of 5 debits 12. The two conversions of the string are
      given by hand, as the language defines them: `Number("12abc")` is NaN
      (None) and `parseFloat("12abc")` is 12. */
  lemma TextAmountOverdraws()
    ensures GateAsWritten(5.0, Text("12abc", None, Some(12.0))) == Ok(Some(12.0))
    ensures 5.0 - 12.0 < 0.0
  {
  }

  /** The value of the amount the handler debits: `parseFloat(amount)`. */
  function AmountValue(amount: AmountInput): Option<real> {
    match amount
    case Absent => None
    case Num(x) => Some(x)
    case Text(_, _, f) => f
  }

  /** The checks applied to the amount that is debited: it must be a positive
      number no larger than the balance. */
  function Gate(balance: real, amount: AmountInput): (r: Result<real>)
    ensures r.Ok? <==> AmountValue(amount).Some? && 0.0 < AmountValue(amount).value <= balance
    ensures r.Ok? ==> r.value == AmountValue(amount).value
    ensures r.Ok? ==> 0.0 < r.value && balance - r.value >= 0.0
    ensures (AmountValue(amount).None? || AmountValue(amount).value <= 0.0) ==> r == Err(BadRequest("invalid amount"))
    ensures AmountValue(amount).Some? && AmountValue(amount).value > 0.0 && balance < AmountValue(amount).value ==>
      r == Err(BadRequest("insufficient balance"))
  {
    match AmountValue(amount)
    case None => Err(BadRequest("invalid amount"))
    case Some(v) =>
      if v <= 0.0 then Err(BadRequest("invalid amount"))
      else if balance < v then Err(BadRequest("insufficient balance"))
      else Ok(v)
  }

  /** For a numeric amount the corrected checks decide exactly as the handler does. */
  lemma GateAgreesOnNumbers(balance: real, x: real)
    ensures Gate(balance, Num(x)).Ok? <==> GateAsWritten(balance, Num(x)).Ok?
    ensures Gate(balance, Num(x)).Ok? ==> GateAsWritten(balance, Num(x)) == Ok(Some(Gate(balance, Num(x)).value))
    ensures Gate(balance, Num(x)).Err? ==> GateAsWritten(balance, Num(x)) == Err(Gate(balance, Num(x)).error)
  {
  }

  // ---------------------------------------------------------------------------
  // Payment methods

  /** POST /payment-methods: the type must be 'bank' or 'upi' and details given;
      a missing alias becomes the bank name for a bank and 'UPI ID' for UPI. */
  function NewMethod(userId: string, kind: Option<string>, details: Option<Details>, alias: Option<string>,
                     id: string, now: int): (r: Result<PaymentMethod>)
    ensures ObjectIdOf(userId).None? ==> r == Err(ServerError)
    ensures ObjectIdOf(userId).Some? ==>
      (r == Err(BadRequest("invalid data")) <==> kind !in {Some("bank"), Some("upi")} || details.None?)
    ensures ObjectIdOf(userId).Some? && kind in {Some("bank"), Some("upi")} && details.Some? ==> r.Ok?
    ensures r.Ok? ==> (r.value.userId == ObjectIdOf(userId).value && r.value.kind == kind.value &&
                       r.value.details == details.value && r.value.id == id && r.value.createdAt == now)
    ensures r.Ok? && Filled(alias) ==> r.value.alias == alias
    ensures r.Ok? && !Filled(alias) && kind == Some("bank") ==> r.value.alias == details.value.bankName
    ensures r.Ok? && !Filled(alias) && kind == Some("upi") ==> r.value.alias == Some("UPI ID")
  {
    match ObjectIdOf(userId)
    case None => Err(ServerError)
    case Some(uid) =>
      if kind !in {Some("bank"), Some("upi")} || details.None? then Err(BadRequest("invalid data"))
      else
        var a := if Filled(alias) then alias else if kind == Some("bank") then details.value.bankName else Some("UPI ID");
        Ok(PaymentMethod(id, uid, kind.value, details.value, a, now))
  }

  predicate Owned(m: PaymentMethod, methodId: string, owner: string) {
    m.id == methodId && m.userId == owner
  }

  function FirstOwned(methods: seq<PaymentMethod>, methodId: string, owner: string): (r: Option<nat>)
    ensures r.Some? ==> r.value < |methods| && Owned(methods[r.value], methodId, owner)
    ensures r.None? <==> forall m :: m in methods ==> !Owned(m, methodId, owner)
  {
    if methods == [] then None
    else if Owned(methods[0], methodId, owner) then Some(0)
    else match FirstOwned(methods[1..], methodId, owner)
      case None => None
      case Some(k) => Some(k + 1)
  }

  /** DELETE /payment-methods/:id: `deleteOne({_id, userId})` removes the first
      method with that id that belongs to the caller; otherwise 404. */
  function RemoveOwned(methods: seq<PaymentMethod>, userId: string, methodId: string): (r: Result<seq<PaymentMethod>>)
    ensures ObjectIdOf(userId).None? || ObjectIdOf(methodId).None? ==> r == Err(ServerError)
    ensures ObjectIdOf(userId).Some? && ObjectIdOf(methodId).Some? ==>
      (r == Err(NotFound) <==> forall m :: m in methods ==> !Owned(m, ObjectIdOf(methodId).value, ObjectIdOf(userId).value))
    ensures r.Ok? ==> |r.value| == |methods| - 1
    ensures r.Ok? ==> forall m :: m in methods && m.userId != ObjectIdOf(userId).value ==> m in r.value
    ensures r.Ok? ==> forall m :: m in methods && !Owned(m, ObjectIdOf(methodId).value, ObjectIdOf(userId).value) ==>
      m in r.value
    ensures r.Ok? ==> forall m :: m in r.value ==> m in methods
    // exactly the first matching method is taken out, and the others keep their order
    ensures r.Ok? ==>
      var k := FirstOwned(methods, ObjectIdOf(methodId).value, ObjectIdOf(userId).value);
      k.Some? && r.value == methods[..k.value] + methods[k.value + 1..]
  {
    match ObjectIdOf(userId)
    case None => Err(ServerError)
    case Some(uid) =>
      match ObjectIdOf(methodId)
      case None => Err(ServerError)
      case Some(mid) =>
        match FirstOwned(methods, mid, uid)
        case None => Err(NotFound)
        case Some(k) =>
          var rest := methods[..k] + methods[k + 1..];
          RemoveAtKeeps(methods, k);
          Ok(rest)
  }

  lemma RemoveAtKeeps(methods: seq<PaymentMethod>, k: nat)
    requires k < |methods|
    ensures forall m :: m in methods && m != methods[k] ==> m in methods[..k] + methods[k + 1..]
    ensures forall m :: m in methods[..k] + methods[k + 1..] ==> m in methods
  {
    var rest := methods[..k] + methods[k + 1..];
    forall m | m in methods && m != methods[k] ensures m in rest {
      var j :| 0 <= j < |methods| && methods[j] == m;
      if j < k { assert rest[j] == m; } else { assert rest[j - 1] == m; }
    }
  }

  /** Another user's method is never deleted, whoever asks. */
  lemma DeleteIsOwnerScoped(methods: seq<PaymentMethod>, userId: string, methodId: string, m: PaymentMethod)
    requires m in methods && ObjectIdOf(userId).Some? && m.userId != ObjectIdOf(userId).value
    ensures RemoveOwned(methods, userId, methodId).Ok? ==> m in RemoveOwned(methods, userId, methodId).value
    ensures (forall n :: n in methods ==> n.userId != ObjectIdOf(userId).value) ==>
      RemoveOwned(methods, userId, methodId).Err?
  {
  }

  // ---------------------------------------------------------------------------
  // The store

  class WalletStore {
    var users: map<string, WalletUser>
    var transactions: seq<Transaction>
    var methods: seq<PaymentMethod>

    constructor(users0: map<string, WalletUser>)
      ensures users == users0 && transactions == [] && methods == []
    {
      users := users0;
      transactions := [];
      methods := [];
    }

    /** POST /withdraw. The amount is checked first, then the user is read (a
        missing user makes the handler throw: 500), then the balance. On success
        one pending debit is recorded and the stored balance drops by the amount.
        `txId` is the id the driver assigns and `now` the clock. */
    method Withdraw(userId: string, amount: AmountInput, bankDetails: Option<string>, txId: string, now: int)
      returns (r: Result<Receipt>)
      modifies this
      ensures methods == old(methods)
      ensures ObjectIdOf(userId).None? ==> r == Err(ServerError)
      ensures ObjectIdOf(userId).Some? && (AmountValue(amount).None? || AmountValue(amount).value <= 0.0) ==>
        r == Err(BadRequest("invalid amount"))
      ensures (ObjectIdOf(userId).Some? && AmountValue(amount).Some? && AmountValue(amount).value > 0.0 &&
               ObjectIdOf(userId).value !in old(users)) ==> r == Err(ServerError)
      ensures (ObjectIdOf(userId).Some? && AmountValue(amount).Some? && AmountValue(amount).value > 0.0 &&
               ObjectIdOf(userId).value in old(users) &&
               BalanceOf(old(users)[ObjectIdOf(userId).value]) < AmountValue(amount).value) ==>
        r == Err(BadRequest("insufficient balance"))
      ensures (ObjectIdOf(userId).Some? && AmountValue(amount).Some? && ObjectIdOf(userId).value in old(users) &&
               0.0 < AmountValue(amount).value <= BalanceOf(old(users)[ObjectIdOf(userId).value])) ==> r.Ok?
      ensures r.Err? ==> users == old(users) && transactions == old(transactions)
      ensures (forall u :: u in old(users) ==> BalanceOf(old(users)[u]) >= 0.0) ==>
        forall u :: u in users ==> BalanceOf(users[u]) >= 0.0
      ensures r.Ok? ==>
        var uid := ObjectIdOf(userId).value;
        var v := AmountValue(amount).value;
        && uid in old(users)
        && 0.0 < v <= BalanceOf(old(users)[uid])
        && r.value == Receipt(txId, BalanceOf(old(users)[uid]) - v)
        && users == old(users)[uid := old(users)[uid].(walletBalance := Some(BalanceOf(old(users)[uid]) - v))]
        && BalanceOf(users[uid]) == BalanceOf(old(users)[uid]) - v >= 0.0
        && transactions == old(transactions) +
             [Transaction(uid, "debit", v, "Withdrawal Request", "pending",
                          if Filled(bankDetails) then bankDetails else old(users)[uid].bankDetails, now)]
    {
      var oid := ObjectIdOf(userId);
      if oid.None? {
        return Err(ServerError);
      }
      var uid := oid.value;
      var v := AmountValue(amount);
      if v.None? || v.value <= 0.0 {
        return Err(BadRequest("invalid amount"));
      }
      if uid !in users {
        return Err(ServerError);
      }
      var user := users[uid];
      var currentBalance := BalanceOf(user);
      match Gate(currentBalance, amount)
      case Err(e) =>
        r := Err(e);
      case Ok(debit) =>
        var details := if Filled(bankDetails) then bankDetails else user.bankDetails;
        transactions := transactions + [Transaction(uid, "debit", debit, "Withdrawal Request", "pending", details, now)];
        users := users[uid := user.(walletBalance := Some(currentBalance - debit))];
        r := Ok(Receipt(txId, currentBalance - debit));
        assert forall u :: u in users && u != uid ==> users[u] == old(users)[u];
    }

    /** POST /payment-methods: validates the method and appends it. */
    method AddPaymentMethod(userId: string, kind: Option<string>, details: Option<Details>, alias: Option<string>,
                            id: string, now: int) returns (r: Result<PaymentMethod>)
      modifies this
      ensures r == NewMethod(userId, kind, details, alias, id, now)
      ensures users == old(users) && transactions == old(transactions)
      ensures methods == if r.Ok? then old(methods) + [r.value] else old(methods)
    {
      r := NewMethod(userId, kind, details, alias, id, now);
      if r.Ok? {
        methods := methods + [r.value];
      }
    }

    /** DELETE /payment-methods/:id. */
    method DeletePaymentMethod(userId: string, methodId: string) returns (err: Option<HttpError>)
      modifies this
      ensures users == old(users) && transactions == old(transactions)
      ensures RemoveOwned(old(methods), userId, methodId).Err? ==>
        err == Some(RemoveOwned(old(methods), userId, methodId).error) && methods == old(methods)
      ensures RemoveOwned(old(methods), userId, methodId).Ok? ==>
        err == None && methods == RemoveOwned(old(methods), userId, methodId).value
    {
      match RemoveOwned(methods, userId, methodId)
      case Err(e) =>
        err := Some(e);
      case Ok(rest) =>
        methods := rest;
        err := None;
    }
  }
}
