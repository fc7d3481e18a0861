/** The transaction record of the shop's ledger, the inclusive date window a
    statistics query may carry, and the store lookup `Transaction.find(query)`
    as a filter over the stored sequence. */
module Transactions {
  import opened Wrappers

  /** `type` of a transaction (and of a category): 'income' or 'expense'. */
  datatype Kind = Income | Expense

  /** `paymentType`: 'cash', 'upi' or 'bank'. */
  datatype PaymentType = Cash | Upi | Bank

  /** One stored transaction. `date` is an instant in milliseconds since the
      epoch; `kind` is the source's `type` field. */
  datatype Transaction = Transaction(
    date: int,
    category: string,
    kind: Kind,
    paymentType: PaymentType,
    description: string,
    amount: real)
  {
    /** The schema's constraint that an amount is never negative. */
    predicate Valid()
    {
      amount >= 0.0
    }
  }

  /** Every transaction of a sequence meets the schema's constraint. */
  predicate AllValid(txs: seq<Transaction>)
  {
    forall k :: 0 <= k < |txs| ==> txs[k].Valid()
  }

  /** The query `{ date: { $gte: start, $lte: end } }`. */
  datatype Window = Window(start: int, end: int)

  /** Both bounds of the window are inclusive. */
  predicate InWindow(t: int, w: Window)
  {
    w.start <= t <= w.end
  }

  /** A transaction matches a query: the empty query `{}` matches everything. */
  predicate Matches(query: Option<Window>, tx: Transaction)
  {
    query.None? || InWindow(tx.date, query.value)
  }

  /** `Transaction.find(query)` over the stored sequence, keeping store order. */
  function Find(store: seq<Transaction>, query: Option<Window>): (r: seq<Transaction>)
    ensures |r| <= |store|
    ensures forall k :: 0 <= k < |r| ==> Matches(query, r[k])
  {
    if store == [] then []
    else
      var rest := Find(store[..|store| - 1], query);
      var last := store[|store| - 1];
      if Matches(query, last) then rest + [last] else rest
  }

  /** A transaction is found exactly when it is stored and matches the query. */
  lemma {:induction false} FindMembership(store: seq<Transaction>, query: Option<Window>, tx: Transaction)
    ensures tx in Find(store, query) <==> tx in store && Matches(query, tx)
  {
    if store != [] {
      var init := store[..|store| - 1];
      FindMembership(init, query, tx);
      assert store == init + [store[|store| - 1]];
    }
  }

  /** The filter distributes over concatenation: every stored copy of a
      transaction is kept or dropped on its own, so duplicates survive. */
  lemma {:induction false} FindAppend(a: seq<Transaction>, b: seq<Transaction>, query: Option<Window>)
    ensures Find(a + b, query) == Find(a, query) + Find(b, query)
    decreases |b|
  {
    if b != [] {
      var init := b[..|b| - 1];
      assert (a + b)[..|a + b| - 1] == a + init;
      assert (a + b)[|a + b| - 1] == b[|b| - 1];
      FindAppend(a, init, query);
    } else {
      assert a + b == a;
    }
  }

  /** The empty query returns the whole store. */
  lemma {:induction false} FindWithoutQuery(store: seq<Transaction>)
    ensures Find(store, None) == store
  {
    if store != [] {
      FindWithoutQuery(store[..|store| - 1]);
      assert store == store[..|store| - 1] + [store[|store| - 1]];
    }
  }

  /** A window whose dates no stored transaction falls into finds nothing. */
  lemma {:induction false} FindNothingInWindow(store: seq<Transaction>, w: Window)
    requires forall k :: 0 <= k < |store| ==> !InWindow(store[k].date, w)
    ensures Find(store, Some(w)) == []
  {
    if store != [] {
      FindNothingInWindow(store[..|store| - 1], w);
    }
  }

  /** What is found from a valid store is valid. */
  lemma FindKeepsValid(store: seq<Transaction>, query: Option<Window>)
    requires AllValid(store)
    ensures AllValid(Find(store, query))
  {
    forall k | 0 <= k < |Find(store, query)|
      ensures Find(store, query)[k].Valid()
    {
      FindMembership(store, query, Find(store, query)[k]);
    }
  }
}
