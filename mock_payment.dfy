/**
 * The payment ledger of the mock backend (mock-svc/handler/payment_handler.go):
 * transactions by id and balances by account, updated by `CreateTransaction`
 * and `RefundTransaction`, and the default accounts `LoadData` seeds.
 */
module MockPayment {
  import opened Events
  import opened MockReply

  /** Amounts and balances, `float64` in the source, are integers here. */
  datatype Transaction = Transaction(id: string, refId: string, amount: int, status: string, accountBankId: string)

  datatype Balance = Balance(accountId: string, balance: int)

  datatype TransactionRequest = TransactionRequest(refId: string, amount: int, accountBankId: string)

  datatype RefundRequest = RefundRequest(refId: string)

  /** The two maps of the handler: `dbT` and `dbB`. */
  datatype Ledger = Ledger(transactions: map<string, Transaction>, balances: map<string, Balance>)

  const StatusSuccess := "success"
  const StatusRefunded := "refunded"

  /** The request's tags: both ids not blank and at least 3 characters, the amount at least 1. */
  predicate ValidTransaction(req: TransactionRequest)
  {
    NotBlank(req.refId) && SizeMin(req.refId, 3) && req.amount >= 1
    && NotBlank(req.accountBankId) && SizeMin(req.accountBankId, 3)
  }

  predicate ValidRefund(req: RefundRequest)
  {
    NotBlank(req.refId) && SizeMin(req.refId, 3)
  }

  /** Some transaction carries the reference `refId`. */
  predicate RefTaken(transactions: map<string, Transaction>, refId: string)
  {
    exists k :: k in transactions && transactions[k].refId == refId
  }

  /**
   * One `CreateTransaction`, given the uuid it would draw for the new
   * transaction: the new ledger and the reply.
   */
  function CreateSpec(l: Ledger, id: string, req: TransactionRequest): (Ledger, Reply<Transaction>)
  {
    if !ValidTransaction(req) then (l, Invalid)
    else if RefTaken(l.transactions, req.refId) then (l, Err(400, "ref_id already exists"))
    else if req.accountBankId !in l.balances then (l, Err(404, "account not found"))
    else if l.balances[req.accountBankId].balance < req.amount then (l, Err(400, "balance is not enough"))
    else
      var account := l.balances[req.accountBankId];
      var account' := account.(balance := account.balance - req.amount);
      var t := Transaction(id, req.refId, req.amount, StatusSuccess, req.accountBankId);
      (Ledger(l.transactions[id := t], l.balances[account.accountId := account']), Ok(201, t))
  }

  /**
   * `RefundTransaction` once its scan has stopped at the transaction stored
   * under `hit`: the new ledger and the reply.
   */
  function RefundAt(l: Ledger, hit: string): (Ledger, Reply<Transaction>)
    requires hit in l.transactions
  {
    var t := l.transactions[hit];
    if t.accountBankId !in l.balances then (l, Err(404, "account not found"))
    else if t.status == StatusRefunded then (l, Err(400, "transaction already refunded"))
    else
      var account := l.balances[t.accountBankId];
      var t' := t.(status := StatusRefunded);
      (Ledger(l.transactions[t.id := t'], l.balances[t.accountBankId := account.(balance := account.balance + t.amount)]),
       Ok(200, t'))
  }

  /**
   * One `RefundTransaction`, where `hit` is whichever transaction with the
   * reference the unordered scan meets first.
   */
  function RefundSpec(l: Ledger, req: RefundRequest, hit: string): (Ledger, Reply<Transaction>)
    requires ValidRefund(req) && RefTaken(l.transactions, req.refId) ==>
               hit in l.transactions && l.transactions[hit].refId == req.refId
  {
    if !ValidRefund(req) then (l, Invalid)
    else if !RefTaken(l.transactions, req.refId) then (l, Err(404, "transaction not found"))
    else RefundAt(l, hit)
  }

  /** The default accounts `LoadData` makes sure of. */
  const Defaults := [Balance("AC-001", 50000), Balance("AC-002", 100000), Balance("AC-003", 5000)]

  /** `balances` with each of `ds` added, in order, unless its account is already there. */
  function Seeded(balances: map<string, Balance>, ds: seq<Balance>): map<string, Balance>
  {
    if ds == [] then balances
    else
      var b := Seeded(balances, ds[..|ds| - 1]);
      var d := ds[|ds| - 1];
      if d.accountId in b then b else b[d.accountId := d]
  }

  /** The ledger's own consistency: entries keyed by their ids, references unique, amounts positive, balances non-negative. */
  predicate Consistent(l: Ledger)
  {
    (forall k :: k in l.transactions ==> l.transactions[k].id == k && l.transactions[k].amount >= 1)
    && (forall k, k' :: k in l.transactions && k' in l.transactions && l.transactions[k].refId == l.transactions[k'].refId
                       ==> k == k')
    && (forall k :: k in l.balances ==> l.balances[k].accountId == k && l.balances[k].balance >= 0)
  }

  class PaymentHandler {
    var dbT: map<string, Transaction>
    var dbB: map<string, Balance>
    /** Stands for `uuid.New()`. */
    const ids: Supply

    constructor (dbT: map<string, Transaction>, dbB: map<string, Balance>, ids: Supply)
      ensures this.dbT == dbT && this.dbB == dbB && this.ids == ids
    {
      this.dbT := dbT;
      this.dbB := dbB;
      this.ids := ids;
    }

    ghost function Contents(): Ledger
      reads this
    {
      Ledger(dbT, dbB)
    }

    /** The scan for a transaction with reference `refId`, over the keys in no particular order. */
    method FindRef(refId: string) returns (found: bool, hit: string)
      ensures found <==> RefTaken(dbT, refId)
      ensures found ==> hit in dbT && dbT[hit].refId == refId
    {
      var remaining := dbT.Keys;
      while remaining != {}
        invariant remaining <= dbT.Keys
        invariant forall k :: k in dbT && k !in remaining ==> dbT[k].refId != refId
        decreases |remaining|
      {
        var k :| k in remaining;
        if dbT[k].refId == refId {
          return true, k;
        }
        remaining := remaining - {k};
      }
      return false, "";
    }

    /** `CreateTransaction`: a uuid is drawn only for a transaction that is made. */
    method CreateTransaction(req: TransactionRequest) returns (reply: Reply<Transaction>)
      modifies this, ids
      ensures (Contents(), reply) == CreateSpec(old(Contents()), ids.gen(old(ids.drawn)), req)
      ensures ids.drawn == old(ids.drawn) + (if reply.Ok? then 1 else 0)
    {
      if !ValidTransaction(req) {
        return Invalid;
      }
      var taken, _ := FindRef(req.refId);
      if taken {
        return Err(400, "ref_id already exists");
      }
      if req.accountBankId !in dbB {
        return Err(404, "account not found");
      }
      var account := dbB[req.accountBankId];
      if account.balance < req.amount {
        return Err(400, "balance is not enough");
      }
      account := account.(balance := account.balance - req.amount);
      dbB := dbB[account.accountId := account];
      var id := ids.Next();
      var t := Transaction(id, req.refId, req.amount, StatusSuccess, req.accountBankId);
      dbT := dbT[t.id := t];
      reply := Ok(201, t);
    }

    /** `RefundTransaction`; `hit` names the transaction the scan stopped at. */
    method RefundTransaction(req: RefundRequest) returns (reply: Reply<Transaction>, ghost hit: string)
      modifies this
      ensures ValidRefund(req) && RefTaken(old(dbT), req.refId) ==> hit in old(dbT) && old(dbT)[hit].refId == req.refId
      ensures (Contents(), reply) == RefundSpec(old(Contents()), req, hit)
    {
      hit := "";
      if !ValidRefund(req) {
        return Invalid, hit;
      }
      var found, k := FindRef(req.refId);
      hit := k;
      if !found {
        return Err(404, "transaction not found"), hit;
      }
      var t := dbT[k];
      if t.accountBankId !in dbB {
        return Err(404, "account not found"), hit;
      }
      if t.status == StatusRefunded {
        return Err(400, "transaction already refunded"), hit;
      }
      var account := dbB[t.accountBankId];
      dbB := dbB[t.accountBankId := account.(balance := account.balance + t.amount)];
      t := t.(status := StatusRefunded);
      dbT := dbT[t.id := t];
      reply := Ok(200, t);
    }

    /** The seeding half of `LoadData`: each default account is added only when absent. */
    method SeedDefaults()
      modifies this
      ensures dbT == old(dbT) && dbB == Seeded(old(dbB), Defaults)
    {
      var i := 0;
      while i < |Defaults|
        invariant 0 <= i <= |Defaults|
        invariant dbT == old(dbT) && dbB == Seeded(old(dbB), Defaults[..i])
      {
        var d := Defaults[i];
        assert Defaults[..i + 1][..i] == Defaults[..i];
        if d.accountId !in dbB {
          dbB := dbB[d.accountId := d];
        }
        i := i + 1;
      }
      assert Defaults[..i] == Defaults;
    }
  }

  /**
   * A request whose reference is taken, whose account is unknown or whose
   * balance is too low is turned away with the ledger unchanged; the checks
   * come in that order.
   */
  lemma CreateRejections(l: Ledger, id: string, req: TransactionRequest)
    requires ValidTransaction(req)
    ensures var (l', r) := CreateSpec(l, id, req);
      (RefTaken(l.transactions, req.refId) ==> l' == l && r == Err(400, "ref_id already exists"))
      && (!RefTaken(l.transactions, req.refId) && req.accountBankId !in l.balances ==>
            l' == l && r == Err(404, "account not found"))
      && ((!RefTaken(l.transactions, req.refId) && req.accountBankId in l.balances
           && l.balances[req.accountBankId].balance < req.amount) ==> l' == l && r == Err(400, "balance is not enough"))
      && (r.Ok? <==> !RefTaken(l.transactions, req.refId) && req.accountBankId in l.balances
                     && l.balances[req.accountBankId].balance >= req.amount)
  {
  }

  /**
   * In a consistent ledger a successful payment lowers that account's
   * balance by exactly the amount, touches no other account, and adds
   * exactly one transaction, in status "success", under a fresh id.
   */
  lemma CreateDebits(l: Ledger, id: string, req: TransactionRequest)
    requires Consistent(l) && id !in l.transactions
    requires CreateSpec(l, id, req).1.Ok?
    ensures var (l', r) := CreateSpec(l, id, req);
      var acc := req.accountBankId;
      l'.balances.Keys == l.balances.Keys && l'.balances[acc].balance == l.balances[acc].balance - req.amount
      && (forall a :: a in l.balances && a != acc ==> l'.balances[a] == l.balances[a])
      && l'.transactions == l.transactions[id := r.data] && |l'.transactions| == |l.transactions| + 1
      && r.data == Transaction(id, req.refId, req.amount, "success", acc) && r.code == 201
  {
  }

  /** A refund for a reference no transaction carries is a 404 that changes nothing. */
  lemma RefundUnknownRef(l: Ledger, req: RefundRequest, hit: string)
    requires ValidRefund(req) && !RefTaken(l.transactions, req.refId)
    ensures RefundSpec(l, req, hit) == (l, Err(404, "transaction not found"))
  {
  }

  /**
   * In a consistent ledger a successful refund credits the amount back to
   * the account, marks that transaction "refunded" and touches nothing else.
   */
  lemma RefundCredits(l: Ledger, req: RefundRequest, hit: string)
    requires Consistent(l) && RefTaken(l.transactions, req.refId)
    requires hit in l.transactions && l.transactions[hit].refId == req.refId
    requires RefundSpec(l, req, hit).1.Ok?
    ensures var (l', r) := RefundSpec(l, req, hit);
      var t := l.transactions[hit];
      t.status != "refunded" && r.data == t.(status := "refunded") && r.code == 200
      && l'.transactions == l.transactions[hit := r.data]
      && l'.balances == l.balances[t.accountBankId := Balance(t.accountBankId, l.balances[t.accountBankId].balance + t.amount)]
  {
  }

  /** A second refund of the same reference is refused: a transaction is refunded at most once. */
  lemma RefundAtMostOnce(l: Ledger, req: RefundRequest, hit: string, hit': string)
    requires Consistent(l) && RefTaken(l.transactions, req.refId)
    requires hit in l.transactions && l.transactions[hit].refId == req.refId
    requires RefundSpec(l, req, hit).1.Ok?
    requires var l' := RefundSpec(l, req, hit).0;
      hit' in l'.transactions && l'.transactions[hit'].refId == req.refId
    ensures var l' := RefundSpec(l, req, hit).0;
      RefTaken(l'.transactions, req.refId)
      && RefundSpec(l', req, hit') == (l', Err(400, "transaction already refunded"))
  {
    var l' := RefundSpec(l, req, hit).0;
    assert hit' == hit;
  }

  /** A payment followed by the refund of its reference restores every balance. */
  lemma CreateThenRefundRestores(l: Ledger, id: string, req: TransactionRequest, hit: string)
    requires Consistent(l) && id !in l.transactions
    requires CreateSpec(l, id, req).1.Ok?
    requires var l' := CreateSpec(l, id, req).0;
      hit in l'.transactions && l'.transactions[hit].refId == req.refId
    ensures var l' := CreateSpec(l, id, req).0;
      RefTaken(l'.transactions, req.refId)
      && RefundSpec(l', RefundRequest(req.refId), hit).1.Ok?
      && RefundSpec(l', RefundRequest(req.refId), hit).0.balances == l.balances
  {
    var l' := CreateSpec(l, id, req).0;
    assert hit == id by {
      assert !RefTaken(l.transactions, req.refId);
    }
    var acc := req.accountBankId;
    var l'' := RefundSpec(l', RefundRequest(req.refId), hit).0;
    assert l''.balances[acc] == l.balances[acc];
  }

  /** Both operations keep a consistent ledger consistent, given a fresh uuid for a new transaction. */
  lemma OperationsKeepConsistent(l: Ledger, id: string, req: TransactionRequest, refund: RefundRequest, hit: string)
    requires Consistent(l) && id !in l.transactions
    requires RefTaken(l.transactions, refund.refId) ==> hit in l.transactions && l.transactions[hit].refId == refund.refId
    ensures Consistent(CreateSpec(l, id, req).0)
    ensures Consistent(RefundSpec(l, refund, hit).0)
  {
    var (l', r) := CreateSpec(l, id, req);
    if r.Ok? {
      assert forall k :: k in l.transactions ==> l.transactions[k].refId != req.refId;
    }
  }

  /** The account ids among `ds`. */
  function Ids(ds: seq<Balance>): set<string>
  {
    if ds == [] then {} else Ids(ds[..|ds| - 1]) + {ds[|ds| - 1].accountId}
  }

  /** Seeding never overwrites an account already present. */
  lemma {:induction false} SeededKeepsExisting(balances: map<string, Balance>, ds: seq<Balance>)
    ensures forall k :: k in balances ==> k in Seeded(balances, ds) && Seeded(balances, ds)[k] == balances[k]
    decreases |ds|
  {
    if ds != [] {
      SeededKeepsExisting(balances, ds[..|ds| - 1]);
    }
  }

  /** Seeding adds exactly the ids of `ds` and no other account. */
  lemma {:induction false} SeededKeys(balances: map<string, Balance>, ds: seq<Balance>)
    ensures Seeded(balances, ds).Keys == balances.Keys + Ids(ds)
    decreases |ds|
  {
    if ds != [] {
      SeededKeys(balances, ds[..|ds| - 1]);
    }
  }

  /** An absent account gets the entry of its first occurrence in `ds`. */
  lemma {:induction false} SeededFirstWins(balances: map<string, Balance>, ds: seq<Balance>, i: nat)
    requires i < |ds| && ds[i].accountId !in balances && ds[i].accountId !in Ids(ds[..i])
    ensures ds[i].accountId in Seeded(balances, ds) && Seeded(balances, ds)[ds[i].accountId] == ds[i]
    decreases |ds|
  {
    var init := ds[..|ds| - 1];
    SeededKeys(balances, init);
    if i < |ds| - 1 {
      assert init[i] == ds[i] && init[..i] == ds[..i];
      SeededFirstWins(balances, init, i);
    } else {
      assert init == ds[..i];
    }
  }

  /**
   * `LoadData` leaves every loaded account as it was, and afterwards
   * AC-001, AC-002 and AC-003 exist, the absent ones with 50000, 100000 and
   * 5000; no other account appears.
   */
  lemma SeedingDefaults(balances: map<string, Balance>)
    ensures var b := Seeded(balances, Defaults);
      (forall k :: k in balances ==> k in b && b[k] == balances[k])
      && b.Keys == balances.Keys + {"AC-001", "AC-002", "AC-003"}
      && ("AC-001" !in balances ==> b["AC-001"] == Balance("AC-001", 50000))
      && ("AC-002" !in balances ==> b["AC-002"] == Balance("AC-002", 100000))
      && ("AC-003" !in balances ==> b["AC-003"] == Balance("AC-003", 5000))
  {
    SeededKeepsExisting(balances, Defaults);
    SeededKeys(balances, Defaults);
    assert Defaults[..0] == [] && Defaults[..1] == [Defaults[0]] && Defaults[..2] == [Defaults[0], Defaults[1]];
    assert Ids(Defaults[..1]) == {"AC-001"};
    assert Ids(Defaults[..2]) == {"AC-001", "AC-002"};
    assert Defaults[..3] == Defaults;
    assert Ids(Defaults) == {"AC-001", "AC-002", "AC-003"};
    if "AC-001" !in balances {
      SeededFirstWins(balances, Defaults, 0);
    }
    if "AC-002" !in balances {
      SeededFirstWins(balances, Defaults, 1);
    }
    if "AC-003" !in balances {
      SeededFirstWins(balances, Defaults, 2);
    }
  }

  /** Seeding accounts with non-negative balances keeps the ledger consistent. */
  lemma {:induction false} SeededKeepsConsistent(l: Ledger, ds: seq<Balance>)
    requires Consistent(l)
    requires forall i :: 0 <= i < |ds| ==> ds[i].balance >= 0
    ensures Consistent(l.(balances := Seeded(l.balances, ds)))
    decreases |ds|
  {
    if ds != [] {
      var init := ds[..|ds| - 1];
      assert forall i :: 0 <= i < |init| ==> init[i] == ds[i];
      SeededKeepsConsistent(l, init);
    }
  }

  /**
   * The ledger the service starts from is consistent: the empty one, and
   * any consistent one once `LoadData` has seeded the default accounts.
   */
  lemma StartIsConsistent(l: Ledger)
    ensures Consistent(Ledger(map[], map[]))
    ensures Consistent(Ledger(map[], Seeded(map[], Defaults)))
    ensures Consistent(l) ==> Consistent(l.(balances := Seeded(l.balances, Defaults)))
  {
    SeededKeepsConsistent(Ledger(map[], map[]), Defaults);
    if Consistent(l) {
      SeededKeepsConsistent(l, Defaults);
    }
  }
}
