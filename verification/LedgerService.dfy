/** The ledger service as the program has it: rows updated in place, one step
    after another. Every method is proved to compute the function of the same
    name over the book it found. */
module LedgerServices {
  import opened Common
  import opened LedgerInvariants
  import opened LedgerAnswers
  import L = Ledger

  class LedgerService {
    var accounts: map<L.AccountId, L.Account>
    var txs: seq<L.Tx>
    var entries: seq<L.Entry>

    function Book(): L.Book
      reads this
    {
      L.Book(accounts, txs, entries)
    }

    constructor (b: L.Book)
      ensures Book() == b
    {
      accounts, txs, entries := b.accounts, b.txs, b.entries;
    }

    /** What a session does when its transaction is rolled back. */
    method Restore(b: L.Book)
      modifies this
      ensures Book() == b
    {
      accounts, txs, entries := b.accounts, b.txs, b.entries;
    }

    method EnsureAccount(a: L.AccountId)
      modifies this
      ensures Book() == L.Ensure(old(Book()), a)
    {
      if a !in accounts {
        accounts := accounts[a := L.NewAccount];
      }
    }

    method EnsureGlobalAccounts()
      modifies this
      ensures Book() == L.EnsureGlobalAccounts(old(Book()))
    {
      EnsureAccount(L.MasterAccount);
      EnsureAccount(L.ExternalFunding);
      EnsureAccount(L.PerfFeePaid);
    }

    method ApplyEntry(tx: nat, a: L.AccountId, debit: int, credit: int)
      requires a in accounts
      modifies this
      ensures Book() == L.ApplyEntry(old(Book()), L.Entry(tx, a, debit, credit))
    {
      entries := entries + [L.Entry(tx, a, debit, credit)];
      accounts := accounts[a := accounts[a].(balance := accounts[a].balance + debit - credit)];
    }

    /** `recompute_balance`, one entry after another. */
    method RecomputeBalance(a: L.AccountId) returns (balance: int)
      ensures balance == L.BalanceOf(entries, a)
    {
      balance := 0;
      for i := 0 to |entries|
        invariant balance == L.BalanceOf(entries[..i], a)
      {
        assert entries[..i + 1][..i] == entries[..i];
        if entries[i].account == a {
          balance := balance + entries[i].debit - entries[i].credit;
        }
      }
      assert entries[..|entries|] == entries;
    }

    method MasterAccountAvailable() returns (balance: int, pending: int, available: int)
      ensures (balance, pending, available) == L.Available(Book())
    {
      if !L.Usable(Book(), L.MasterAccount) {
        return 0, 0, 0;
      }
      balance := RecomputeBalance(L.MasterAccount);
      pending := accounts[L.MasterAccount].pendingDebit;
      available := balance - pending;
    }

    method FundMasterAccount(amount: int, key: string) returns (r: Result<nat, L.LedgerError>)
      modifies this
      ensures L.Outcome(Book(), r) == L.FundMasterAccount(old(Book()), amount, key)
    {
      EnsureGlobalAccounts();
      if !L.Usable(Book(), L.MasterAccount) || !L.Usable(Book(), L.ExternalFunding) {
        return Err(L.AccountsMissing);
      }
      if L.FindTx(txs, key).Some? {
        return Err(L.DuplicateKey);
      }
      var id := |txs|;
      txs := txs + [L.Tx(L.MasterAccountFunding, L.Posted, key, None, amount)];
      ApplyEntry(id, L.MasterAccount, amount, 0);
      ApplyEntry(id, L.ExternalFunding, 0, amount);
      return Ok(id);
    }

    method CreateDepositHold(t: L.TraderId, amount: int, key: string) returns (r: Result<nat, L.LedgerError>)
      modifies this
      ensures L.Outcome(Book(), r) == L.CreateDepositHold(old(Book()), t, amount, key)
      ensures Sound(old(Book())) && !Inactive(old(Book()), L.MasterAccount) && L.Row(old(Book()), key).None? ==>
        r == if amount <= FreeFunds(old(Book())) then Ok(|old(txs)|) else Err(L.InsufficientMasterAccount)
    {
      ghost var b := Book();
      if Sound(b) {
        HoldAnswers(b, t, amount, key);
      }
      EnsureGlobalAccounts();
      EnsureAccount(L.Holdings(t));
      if !L.Usable(Book(), L.MasterAccount) {
        return Err(L.AccountsMissing);
      }
      var balance := RecomputeBalance(L.MasterAccount);
      if balance - accounts[L.MasterAccount].pendingDebit < amount {
        return Err(L.InsufficientMasterAccount);
      }
      if L.FindTx(txs, key).Some? {
        return Err(L.DuplicateKey);
      }
      AppendHold(t, amount, key);
      return Ok(|txs| - 1);
    }

    /** The waiting row and the amount it holds. */
    method AppendHold(t: L.TraderId, amount: int, key: string)
      requires L.MasterAccount in accounts
      modifies this
      ensures var tx := L.Tx(L.TraderDeposit, L.Pending, key, Some(t), amount);
        Book() == L.AddHeld(old(Book()).(txs := old(txs) + [tx]), amount)
    {
      txs := txs + [L.Tx(L.TraderDeposit, L.Pending, key, Some(t), amount)];
      var cold := accounts[L.MasterAccount];
      accounts := accounts[L.MasterAccount := cold.(pendingDebit := cold.pendingDebit + amount)];
    }

    method CommitDeposit(id: nat) returns (r: Result<nat, L.LedgerError>)
      modifies this
      ensures L.Outcome(Book(), r) == L.CommitDeposit(old(Book()), id)
    {
      if id >= |txs| {
        return Err(L.TxNotFound);
      }
      var tx := txs[id];
      if tx.status.Posted? {
        return Ok(id);
      }
      if !tx.status.Pending? {
        return Err(L.TxNotCommittable);
      }
      if tx.trader.None? || !L.Usable(Book(), L.MasterAccount) || !L.Usable(Book(), L.Holdings(tx.trader.value)) {
        return Err(L.AccountsMissing);
      }
      ApplyEntry(id, L.MasterAccount, 0, tx.amount);
      ApplyEntry(id, L.Holdings(tx.trader.value), tx.amount, 0);
      var cold := accounts[L.MasterAccount];
      accounts := accounts[L.MasterAccount := cold.(pendingDebit := cold.pendingDebit - tx.amount)];
      txs := txs[id := tx.(status := L.Posted)];
      return Ok(id);
    }

    method ReleaseDeposit(id: nat) returns (r: Result<nat, L.LedgerError>)
      modifies this
      ensures L.Outcome(Book(), r) == L.ReleaseDeposit(old(Book()), id)
    {
      if id >= |txs| {
        return Err(L.TxNotFound);
      }
      var tx := txs[id];
      if !tx.status.Pending? {
        return Ok(id);
      }
      if L.Usable(Book(), L.MasterAccount) {
        var cold := accounts[L.MasterAccount];
        accounts := accounts[L.MasterAccount := cold.(pendingDebit := cold.pendingDebit - tx.amount)];
      }
      txs := txs[id := tx.(status := L.Failed)];
      return Ok(id);
    }

    /** The body the three direct postings share; `guarded` asks that the master
        account has the amount free. */
    method PostDirect(kind: L.Kind, t: L.TraderId, amount: int, key: string, guarded: bool)
        returns (r: Result<nat, L.LedgerError>)
      requires !kind.MasterAccountFunding?
      modifies this
      ensures L.Outcome(Book(), r) == L.PostDirect(old(Book()), kind, t, amount, key, guarded)
    {
      var existing := L.FindTx(txs, key);
      if existing.Some? && txs[existing.value].status.Posted? {
        return Ok(existing.value);
      }
      EnsureGlobalAccounts();
      EnsureAccount(L.Holdings(t));
      if !L.Usable(Book(), L.DebitSide(kind, Some(t))) || !L.Usable(Book(), L.CreditSide(kind, Some(t))) {
        return Err(L.AccountsMissing);
      }
      if guarded {
        var _, _, available := MasterAccountAvailable();
        if available < amount {
          return Err(L.InsufficientMasterAccount);
        }
      }
      var id := |txs|;
      if existing.Some? {
        id := existing.value;
        txs := txs[id := txs[id].(status := L.Posted)];
      } else {
        txs := txs + [L.Tx(kind, L.Posted, key, Some(t), amount)];
      }
      var legs := L.Legs(kind, Some(t), amount, id);
      ApplyEntry(id, legs.0.account, legs.0.debit, legs.0.credit);
      ApplyEntry(id, legs.1.account, legs.1.debit, legs.1.credit);
      return Ok(id);
    }

    method PostPerfFee(t: L.TraderId, amount: int, key: string) returns (r: Result<nat, L.LedgerError>)
      modifies this
      ensures L.Outcome(Book(), r) == L.PostPerfFee(old(Book()), t, amount, key)
    {
      r := PostDirect(L.PerfFee, t, amount, key, false);
    }

    method PostWithdrawal(t: L.TraderId, amount: int, key: string) returns (r: Result<nat, L.LedgerError>)
      modifies this
      ensures L.Outcome(Book(), r) == L.PostWithdrawal(old(Book()), t, amount, key)
    {
      r := PostDirect(L.TraderWithdrawal, t, amount, key, false);
    }

    method PostCapitalRegularization(t: L.TraderId, amount: int, key: string, incoming: bool)
        returns (r: Result<nat, L.LedgerError>)
      modifies this
      ensures L.Outcome(Book(), r) == L.PostRegularization(old(Book()), t, amount, key, incoming)
      ensures (&& Sound(old(Book())) && L.Row(old(Book()), key).None?
               && !Inactive(old(Book()), L.MasterAccount) && !Inactive(old(Book()), L.Holdings(t))) ==>
        r == if incoming && amount > FreeFunds(old(Book())) then Err(L.InsufficientMasterAccount) else Ok(|old(txs)|)
    {
      ghost var b := Book();
      if Sound(b) && L.Row(b, key).None? {
        RegularizationAnswers(b, t, amount, key, incoming);
      }
      r := PostDirect(if incoming then L.TraderDeposit else L.TraderWithdrawal, t, amount, key, incoming);
    }
  }
}
