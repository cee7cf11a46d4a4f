/** The escrow contract as the host runs it: storage cells updated in place, effects before the token transfer, and a
    rollback of everything when a call fails late. */
module EscrowStorage {
  import opened Types
  import opened EscrowContract

  class Contract {
    var escrows: map<Id, Escrow>
    var nonce: nat
    var token: Option<Token>
    var books: map<Token, Book>
    var ledger: nat
    var paid: map<Id, int>

    function State(): Chain
      reads this
    {
      Chain(escrows, nonce, token, books, ledger, paid)
    }

    constructor ()
      ensures State() == GENESIS
    {
      escrows, nonce, token, books, ledger, paid := map[], 0, None, map[], 0, map[];
    }

    /** The host's rollback. */
    method Rollback(saved: Chain)
      modifies this
      ensures State() == saved
    {
      escrows, nonce, token := saved.escrows, saved.nonce, saved.token;
      books, ledger, paid := saved.books, saved.ledger, saved.paid;
    }

    /** The token's `transfer`; false when it traps. */
    method TokenTransfer(t: Token, from: Address, to: Address, amount: int) returns (ok: bool)
      modifies this`books
      ensures ok == CanMove(BookOf(old(State()), t), from, to, amount)
      ensures books == if ok then old(books)[t := Move(BookOf(old(State()), t), from, to, amount)] else old(books)
    {
      var book := if t in books then books[t] else map[];
      ok := CanMove(book, from, to, amount);
      if ok {
        book := book[from := Balance(book, from) - amount];
        book := book[to := Balance(book, to) + amount];
        books := books[t := book];
      }
    }

    /** A payment out of the contract on behalf of one escrow; zero shares are skipped. */
    method Pay(id: Id, t: Token, to: Address, amount: int) returns (ok: bool)
      modifies this`books, this`paid
      ensures ok == PayOut(old(State()), id, t, to, amount).Some?
      ensures State() == if ok then PayOut(old(State()), id, t, to, amount).value else old(State())
    {
      ok := true;
      if amount > 0 {
        ok := TokenTransfer(t, SELF, to, amount);
        if ok { paid := paid[id := (if id in paid then paid[id] else 0) + amount]; }
      }
    }

    method NextNonce() returns (next: Option<nat>)
      modifies this`nonce
      ensures next == if old(nonce) + 1 > U64_MAX then None else Some(old(nonce) + 1)
      ensures nonce == if next.None? then old(nonce) else next.value
    {
      if nonce + 1 > U64_MAX { return None; }
      nonce := nonce + 1;
      next := Some(nonce);
    }

    method CreateEscrow(hash: Hash, auths: set<Address>, executor: Address, signer: Address, requester: Address,
                        t: Token, amount: int) returns (r: Result)
      modifies this
      ensures (State(), r) == Create(old(State()), hash, auths, executor, signer, requester, t, amount)
    {
      var saved := State();
      if executor !in auths { return Panic; }
      if amount <= 0 { return Failed(ZeroCollateral); }
      var next := NextNonce();
      if next.None? { return Panic; }
      var id := hash(next.value, executor);
      if id in escrows { Rollback(saved); return Failed(InvalidNonce); }
      token := Some(t);
      escrows := escrows[id := Escrow(executor, requester, signer, amount, ledger, LOCKED)];
      paid := paid[id := 0];
      var ok := TokenTransfer(t, executor, SELF, amount);
      if !ok { Rollback(saved); return Panic; }
      r := Success;
    }

    method ReleaseMilestone(auths: set<Address>, id: Id) returns (r: Result)
      modifies this
      ensures (State(), r) == Release(old(State()), auths, id)
    {
      var saved := State();
      if id !in escrows { return Failed(NotFound); }
      var x := escrows[id];
      if x.status != LOCKED { return Failed(NotLocked); }
      if x.releaseSigner !in auths { return Panic; }
      if token.None? { return Failed(NotFound); }
      escrows := escrows[id := x.(status := RELEASED)];
      var ok := Pay(id, token.value, x.executor, x.collateral);
      if !ok { Rollback(saved); return Panic; }
      r := Success;
    }

    method ConfiscateEscrow(auths: set<Address>, id: Id, bp: nat, marketplace: Address) returns (r: Result)
      modifies this
      ensures (State(), r) == Confiscate(old(State()), auths, id, bp, marketplace)
    {
      var saved := State();
      if bp > FULL_BP { return Failed(ShareInvalid); }
      if id !in escrows { return Failed(NotFound); }
      var x := escrows[id];
      if x.status != LOCKED { return Failed(NotLocked); }
      if x.requester !in auths { return Panic; }
      if token.None? { return Failed(NotFound); }
      var share := x.collateral;
      if bp != FULL_BP {
        var product := x.collateral * bp;
        if product > I128_MAX { return Failed(Insufficient); }
        share := product / 10000;
      }
      var rest := x.collateral - share;
      escrows := escrows[id := x.(status := CONFISCATED)];
      var ok := Pay(id, token.value, x.requester, share);
      if !ok { Rollback(saved); return Panic; }
      ok := Pay(id, token.value, marketplace, rest);
      if !ok { Rollback(saved); return Panic; }
      r := Success;
    }

    method ClaimAfterTimeout(id: Id) returns (r: Result)
      modifies this
      ensures (State(), r) == ClaimTimeout(old(State()), id)
    {
      var saved := State();
      if id !in escrows { return Failed(NotFound); }
      var x := escrows[id];
      if x.status != LOCKED { return Failed(NotLocked); }
      if Elapsed(ledger, x.createdAt) < LOCK_DURATION { return Failed(TooEarly); }
      if token.None? { return Failed(NotFound); }
      escrows := escrows[id := x.(status := TIMED_OUT)];
      var ok := Pay(id, token.value, x.requester, x.collateral);
      if !ok { Rollback(saved); return Panic; }
      r := Success;
    }
  }
}
