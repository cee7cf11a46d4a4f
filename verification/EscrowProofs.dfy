/** Solvency, exact splits and guaranteed exit of the escrow contract. */
module EscrowProofs {
  import opened Types
  import opened MapSum
  import opened EscrowContract

  // ---------- Token ledgers ----------

  ghost predicate Sane(b: Book) {
    (forall a :: a in b ==> b[a] >= 0) && Sum(b) <= I128_MAX
  }

  /** Any two accounts together hold at most the supply. */
  lemma PairWithinSupply(b: Book, x: Address, y: Address)
    requires Sane(b)
    ensures 0 <= Balance(b, x) <= I128_MAX
    ensures x != y ==> Balance(b, x) + Balance(b, y) <= I128_MAX
  {
    SumAtLeast(b);
    if x != y && x in b && y in b {
      SumOut(b, x);
      SumAtLeast(b - {x});
      assert (b - {x})[y] == b[y];
    }
  }

  lemma MoveFacts(b: Book, from: Address, to: Address, amount: int)
    requires Sane(b) && amount >= 0 && CanMove(b, from, to, amount)
    ensures var n := Move(b, from, to, amount);
            && Sane(n) && Sum(n) == Sum(b)
            && forall a :: Balance(n, a) == Balance(b, a) + (if a == to then amount else 0) - (if a == from then amount else 0)
  {
    var taken := b[from := Balance(b, from) - amount];
    SumSet(b, from, Balance(b, from) - amount);
    SumSet(taken, to, Balance(taken, to) + amount);
  }

  /** A holder of the contract's promise can always be paid: the transfer neither lacks funds nor overflows. */
  lemma CanPay(b: Book, to: Address, amount: int)
    requires Sane(b) && Balance(b, SELF) >= amount >= 0
    ensures CanMove(b, SELF, to, amount)
  {
    PairWithinSupply(b, SELF, to);
  }

  // ---------- Locked collateral ----------

  function LockedPart(x: Escrow): int { if x.status == LOCKED then x.collateral else 0 }

  function LockedMap(escrows: map<Id, Escrow>): map<Id, int> {
    map id | id in escrows :: LockedPart(escrows[id])
  }

  ghost function Locked(s: Chain): int { Sum(LockedMap(s.escrows)) }

  lemma LockedSet(s: Chain, id: Id, x: Escrow)
    ensures Sum(LockedMap(s.escrows[id := x]))
         == Locked(s) + LockedPart(x) - (if id in s.escrows then LockedPart(s.escrows[id]) else 0)
  {
    assert LockedMap(s.escrows[id := x]) == LockedMap(s.escrows)[id := LockedPart(x)];
    SumSet(LockedMap(s.escrows), id, LockedPart(x));
  }

  lemma LockedCovers(s: Chain, t: Token, id: Id)
    requires Solvent(s, t) && id in s.escrows && s.escrows[id].status == LOCKED
    ensures Balance(BookOf(s, t), SELF) >= s.escrows[id].collateral
  {
    assert forall x :: x in s.escrows ==> EscrowOk(s, t, x);
    SumAtLeast(LockedMap(s.escrows));
    assert LockedMap(s.escrows)[id] == s.escrows[id].collateral;
  }

  // ---------- The invariant ----------

  /** An escrow holds a positive collateral and has paid out nothing while LOCKED, exactly its collateral after. */
  predicate EscrowOk(s: Chain, t: Token, id: Id)
    requires id in s.escrows
  {
    var x := s.escrows[id];
    && s.token == Some(t) && 0 < x.collateral <= I128_MAX && x.createdAt <= s.ledger
    && id in s.paid && s.paid[id] == (if x.status == LOCKED then 0 else x.collateral)
  }

  ghost predicate Solvent(s: Chain, t: Token) {
    && (forall id :: id in s.escrows ==> EscrowOk(s, t, id))
    && Sane(BookOf(s, t))
    && Balance(BookOf(s, t), SELF) >= Locked(s)
  }

  /** What the contract holds beyond its locked collateral. */
  ghost function Surplus(s: Chain, t: Token): int {
    Balance(BookOf(s, t), SELF) - Locked(s)
  }

  // ---------- Paying out ----------

  /** Closing a LOCKED escrow with payments of its whole collateral keeps the contract solvent. */
  lemma ClosedFacts(s: Chain, t: Token, id: Id, status: Status)
    requires Solvent(s, t) && id in s.escrows && s.escrows[id].status == LOCKED && status != LOCKED
    ensures var n := Closed(s, id, status);
            && Locked(n) == Locked(s) - s.escrows[id].collateral
            && BookOf(n, t) == BookOf(s, t) && n.paid == s.paid
  {
    LockedSet(s, id, s.escrows[id].(status := status));
  }

  /** One payment out of the contract. */
  lemma PayOutFacts(s: Chain, t: Token, id: Id, to: Address, amount: int)
    requires Sane(BookOf(s, t)) && amount >= 0 && id in s.paid
    requires Balance(BookOf(s, t), SELF) >= amount
    ensures PayOut(s, id, t, to, amount).Some?
    ensures var n := PayOut(s, id, t, to, amount).value;
            && n.escrows == s.escrows && n.token == s.token && n.ledger == s.ledger && n.nonce == s.nonce
            && Sane(BookOf(n, t)) && Sum(BookOf(n, t)) == Sum(BookOf(s, t))
            && n.paid == s.paid[id := s.paid[id] + amount]
            && forall a :: Balance(BookOf(n, t), a)
                 == Balance(BookOf(s, t), a) + (if a == to then amount else 0) - (if a == SELF then amount else 0)
  {
    CanPay(BookOf(s, t), to, amount);
    if amount > 0 { MoveFacts(BookOf(s, t), SELF, to, amount); }
    else { assert s.paid[id := s.paid[id] + amount] == s.paid; }
  }

  /** What a closing call did, when it succeeded: the escrow has its final status, its collateral has left, and the
      contract's holdings beyond locked collateral only grow, by what was paid to the contract itself. */
  ghost predicate ClosedWith(s: Chain, n: Chain, t: Token, id: Id, status: Status, first: Address, share: int, second: Address, rest: int)
    requires id in s.escrows
  {
    && n.escrows == s.escrows[id := s.escrows[id].(status := status)]
    && n.token == s.token && n.ledger == s.ledger && n.nonce == s.nonce
    && share >= 0 && rest >= 0 && share + rest == s.escrows[id].collateral
    && n.paid == s.paid[id := share + rest]
    && (forall a :: Balance(BookOf(n, t), a)
          == Balance(BookOf(s, t), a) + (if a == first then share else 0) + (if a == second then rest else 0)
             - (if a == SELF then share + rest else 0))
    && Sane(BookOf(n, t)) && Sum(BookOf(n, t)) == Sum(BookOf(s, t))
  }

  lemma ClosedKeeps(s: Chain, n: Chain, t: Token, id: Id, status: Status, first: Address, share: int, second: Address, rest: int)
    requires Solvent(s, t) && id in s.escrows && s.escrows[id].status == LOCKED && status != LOCKED
    requires ClosedWith(s, n, t, id, status, first, share, second, rest)
    ensures Solvent(n, t)
    ensures Surplus(n, t) == Surplus(s, t) + (if first == SELF then share else 0) + (if second == SELF then rest else 0)
  {
    ClosedFacts(s, t, id, status);
    forall x | x in n.escrows ensures EscrowOk(n, t, x) { assert EscrowOk(s, t, x); }
  }

  // ---------- Each call ----------

  /** A creation succeeds if and only if the executor has authorized it, the amount is positive and covered by the
      executor, a nonce is left, and the id is free. Then the new escrow holds exactly what it was called with, LOCKED as
      of now, and the collateral has moved to the contract. */
  lemma CreateStores(s: Chain, hash: Hash, auths: set<Address>, executor: Address, signer: Address, requester: Address, t: Token, amount: int)
    requires Sane(BookOf(s, t)) && SELF !in auths
    ensures var (n, r) := Create(s, hash, auths, executor, signer, requester, t, amount);
            var id := hash(s.nonce + 1, executor);
            && (r == Success <==>
                  && executor in auths && 0 < amount <= Balance(BookOf(s, t), executor)
                  && s.nonce < U64_MAX && id !in s.escrows)
            && (r == Success ==>
                  && n.escrows.Keys == s.escrows.Keys + {id} && (forall x :: x in s.escrows ==> n.escrows[x] == s.escrows[x])
                  && n.escrows[id].executor == executor && n.escrows[id].releaseSigner == signer
                  && n.escrows[id].requester == requester && n.escrows[id].collateral == amount
                  && n.escrows[id].createdAt == s.ledger && n.escrows[id].status == LOCKED
                  && n.token == Some(t) && n.nonce == s.nonce + 1
                  && forall a :: Balance(BookOf(n, t), a)
                       == Balance(BookOf(s, t), a) + (if a == SELF then amount else 0) - (if a == executor then amount else 0))
            && (r != Success ==> n == s)
  {
    PairWithinSupply(BookOf(s, t), executor, SELF);
    if 0 < amount <= Balance(BookOf(s, t), executor) && executor in auths {
      MoveFacts(BookOf(s, t), executor, SELF, amount);
    }
  }

  lemma CreateKeeps(s: Chain, hash: Hash, auths: set<Address>, executor: Address, signer: Address, requester: Address, t: Token, amount: int)
    requires Solvent(s, t) && SELF !in auths
    ensures Solvent(Create(s, hash, auths, executor, signer, requester, t, amount).0, t)
    ensures Surplus(Create(s, hash, auths, executor, signer, requester, t, amount).0, t) == Surplus(s, t)
  {
    var (n, r) := Create(s, hash, auths, executor, signer, requester, t, amount);
    if r == Success {
      var id := hash(s.nonce + 1, executor);
      MoveFacts(BookOf(s, t), executor, SELF, amount);
      PairWithinSupply(BookOf(s, t), executor, SELF);
      LockedSet(s, id, Escrow(executor, requester, signer, amount, s.ledger, LOCKED));
      forall x | x in n.escrows ensures EscrowOk(n, t, x) {
        if x != id { assert EscrowOk(s, t, x); }
      }
    }
  }

  predicate IsLocked(s: Chain, id: Id) { id in s.escrows && s.escrows[id].status == LOCKED }

  /** A release succeeds if and only if the escrow is LOCKED and its signer has authorized the call. Then it pays the
      executor the whole collateral; otherwise nothing changes, and the answer says why. */
  lemma ReleasePays(s: Chain, t: Token, auths: set<Address>, id: Id)
    requires Solvent(s, t)
    ensures var (n, r) := Release(s, auths, id);
            && (r == Success <==> IsLocked(s, id) && s.escrows[id].releaseSigner in auths)
            && (r == Success ==>
                  var x := s.escrows[id]; ClosedWith(s, n, t, id, RELEASED, x.executor, x.collateral, x.executor, 0))
            && (r != Success ==> n == s)
            && (r == Panic <==> IsLocked(s, id) && s.escrows[id].releaseSigner !in auths)
            && (r == Failed(NotFound) <==> id !in s.escrows)
            && (r == Failed(NotLocked) <==> id in s.escrows && s.escrows[id].status != LOCKED)
  {
    if id in s.escrows { assert EscrowOk(s, t, id); }
    if IsLocked(s, id) {
      LockedCovers(s, t, id);
      ClosedFacts(s, t, id, RELEASED);
      PayOutFacts(Closed(s, id, RELEASED), t, id, s.escrows[id].executor, s.escrows[id].collateral);
    }
  }

  /** The arithmetic of a confiscation, for every collateral an escrow can hold and every share up to 10000. */
  lemma SharesExact(collateral: int, bp: nat)
    requires 0 < collateral <= I128_MAX && bp <= FULL_BP
    ensures Shares(collateral, bp).None? <==> bp != FULL_BP && collateral * bp > I128_MAX
    ensures Shares(collateral, bp).Some? ==>
              var (r, m) := Shares(collateral, bp).value;
              && r >= 0 && m >= 0 && r + m == collateral
              && r * 10000 <= collateral * bp < (r + 1) * 10000
  {
    if bp != FULL_BP {
      assert collateral * bp >= 0;
      assert collateral * bp <= collateral * 10000 by { MulMonotone(collateral, bp, 10000); }
      DivFloor(collateral * bp);
    } else {
      assert collateral * bp == collateral * 10000;
    }
  }

  lemma MulMonotone(c: int, x: int, y: int)
    requires c >= 0 && x <= y
    ensures c * x <= c * y
  {
  }

  lemma DivFloor(p: int)
    requires p >= 0
    ensures 0 <= p / 10000 && (p / 10000) * 10000 <= p < (p / 10000 + 1) * 10000
  {
  }

  /** A larger share never gives the requester less. */
  lemma SharesMonotone(collateral: int, low: nat, high: nat)
    requires 0 < collateral <= I128_MAX && low <= high <= FULL_BP
    requires Shares(collateral, low).Some? && Shares(collateral, high).Some?
    ensures Shares(collateral, low).value.0 <= Shares(collateral, high).value.0
  {
    SharesExact(collateral, low);
    SharesExact(collateral, high);
    MulMonotone(collateral, low, high);
  }

  /** Where the general formula is defined at 10000, it agrees with the special case, which is always defined. */
  lemma FullShareAgrees(collateral: int)
    requires 0 < collateral
    ensures Shares(collateral, FULL_BP) == Some((collateral, 0))
    ensures collateral * 10000 / 10000 == collateral
  {
  }

  /** A confiscation succeeds if and only if the share is at most 10000, the escrow is LOCKED, its requester has authorized
      the call, and the share product stays within i128. Then it pays out the two shares; otherwise nothing changes. */
  lemma ConfiscatePays(s: Chain, t: Token, auths: set<Address>, id: Id, bp: nat, marketplace: Address)
    requires Solvent(s, t)
    ensures var (n, r) := Confiscate(s, auths, id, bp, marketplace);
            && (r == Success <==>
                  && bp <= 10000 && IsLocked(s, id) && s.escrows[id].requester in auths
                  && (bp == 10000 || s.escrows[id].collateral * bp <= I128_MAX))
            && (r == Success ==>
                  var x := s.escrows[id];
                  ClosedWith(s, n, t, id, CONFISCATED, x.requester, Shares(x.collateral, bp).value.0,
                             marketplace, Shares(x.collateral, bp).value.1))
            && (r != Success ==> n == s)
            && (r == Panic <==> bp <= 10000 && IsLocked(s, id) && s.escrows[id].requester !in auths)
            && (r == Failed(ShareInvalid) <==> bp > 10000)
            && (r == Failed(Insufficient) <==>
                  && bp < 10000 && IsLocked(s, id) && s.escrows[id].requester in auths
                  && s.escrows[id].collateral * bp > I128_MAX)
  {
    if id in s.escrows { assert EscrowOk(s, t, id); }
    if bp <= FULL_BP && IsLocked(s, id) && s.escrows[id].requester in auths {
      var x := s.escrows[id];
      SharesExact(x.collateral, bp);
      if Shares(x.collateral, bp).Some? {
        var (first, rest) := Shares(x.collateral, bp).value;
        PayTwice(s, t, id, first, marketplace, rest);
      }
    }
    hide PayOut, ClosedWith, Closed, Solvent;
  }

  /** Closing an escrow by two payments that add up to its collateral. */
  lemma PayTwice(s: Chain, t: Token, id: Id, first: int, marketplace: Address, rest: int)
    requires Solvent(s, t) && id in s.escrows && s.escrows[id].status == LOCKED
    requires first >= 0 && rest >= 0 && first + rest == s.escrows[id].collateral
    ensures var s0 := Closed(s, id, CONFISCATED);
            && PayOut(s0, id, t, s.escrows[id].requester, first).Some?
            && var s1 := PayOut(s0, id, t, s.escrows[id].requester, first).value;
            && PayOut(s1, id, t, marketplace, rest).Some?
            && ClosedWith(s, PayOut(s1, id, t, marketplace, rest).value, t, id, CONFISCATED,
                          s.escrows[id].requester, first, marketplace, rest)
  {
    assert EscrowOk(s, t, id);
    LockedCovers(s, t, id);
    ClosedFacts(s, t, id, CONFISCATED);
    var s0 := Closed(s, id, CONFISCATED);
    hide PayOut, Solvent, ClosedWith, Closed;
    PayOutFacts(s0, t, id, s.escrows[id].requester, first);
    var s1 := PayOut(s0, id, t, s.escrows[id].requester, first).value;
    PayOutFacts(s1, t, id, marketplace, rest);
    TwoPayments(s, s0, s1, PayOut(s1, id, t, marketplace, rest).value, t, id, s.escrows[id].requester, first, marketplace, rest);
  }

  /** `n` follows `s` by one payment of `amount`; nothing else has changed. */
  ghost predicate Pays(s: Chain, n: Chain, t: Token, id: Id, to: Address, amount: int) {
    && n.escrows == s.escrows && n.token == s.token && n.ledger == s.ledger && n.nonce == s.nonce
    && Sane(BookOf(n, t)) && Sum(BookOf(n, t)) == Sum(BookOf(s, t))
    && id in s.paid && n.paid == s.paid[id := s.paid[id] + amount]
    && forall a :: Balance(BookOf(n, t), a)
         == Balance(BookOf(s, t), a) + (if a == to then amount else 0) - (if a == SELF then amount else 0)
  }

  lemma TwoPayments(s: Chain, s0: Chain, s1: Chain, n: Chain, t: Token, id: Id,
                    to: Address, first: int, marketplace: Address, rest: int)
    requires id in s.escrows && id in s.paid && s.paid[id] == 0 && s0 == Closed(s, id, CONFISCATED)
    requires first >= 0 && rest >= 0 && first + rest == s.escrows[id].collateral
    requires Pays(s0, s1, t, id, to, first) && Pays(s1, n, t, id, marketplace, rest)
    ensures ClosedWith(s, n, t, id, CONFISCATED, to, first, marketplace, rest)
  {
    assert s.paid[id := first][id := first + rest] == s.paid[id := first + rest];
    assert BookOf(s0, t) == BookOf(s, t);
    hide Balance, BookOf, Sane;
  }

  /** Guaranteed exit: a claim succeeds if and only if the escrow is LOCKED and at least 241920 ledgers old. Anyone may
      call it, and it pays the requester the whole collateral. */
  lemma ClaimPays(s: Chain, t: Token, id: Id)
    requires Solvent(s, t)
    ensures var (n, r) := ClaimTimeout(s, id);
            && (r == Success <==> IsLocked(s, id) && s.ledger - s.escrows[id].createdAt >= 241920)
            && (r == Success ==>
                  var x := s.escrows[id]; ClosedWith(s, n, t, id, TIMED_OUT, x.requester, x.collateral, x.requester, 0))
            && (r != Success ==> n == s)
            && (r == Failed(TooEarly) <==> IsLocked(s, id) && s.ledger - s.escrows[id].createdAt < 241920)
            && (r == Failed(NotFound) <==> id !in s.escrows) && r != Panic
  {
    if id in s.escrows { assert EscrowOk(s, t, id); }
    if id in s.escrows && s.escrows[id].status == LOCKED && s.ledger - s.escrows[id].createdAt >= LOCK_DURATION {
      LockedCovers(s, t, id);
      ClosedFacts(s, t, id, TIMED_OUT);
      PayOutFacts(Closed(s, id, TIMED_OUT), t, id, s.escrows[id].requester, s.escrows[id].collateral);
    }
  }

  // ---------- Every call sequence ----------

  /** A call that does not succeed changes nothing. */
  lemma AllOrNothing(s: Chain, hash: Hash, call: Call)
    ensures Apply(s, hash, call).1 != Success ==> Apply(s, hash, call).0 == s
  {
  }

  lemma OtherTokens(s: Chain, t: Token, n: Chain)
    requires Solvent(s, t) && BookOf(n, t) == BookOf(s, t)
    requires n.escrows == s.escrows && n.token == s.token && n.paid == s.paid && n.ledger >= s.ledger
    ensures Solvent(n, t) && Surplus(n, t) == Surplus(s, t)
  {
    forall x | x in n.escrows ensures EscrowOk(n, t, x) { assert EscrowOk(s, t, x); }
  }

  /** Payments into the contract from outside: by a transfer or a mint to its address. */
  function Inflow(t: Token, call: Call): int {
    match call
    case Transfer(u, _, to, amount) => if u == t && to == SELF then amount else 0
    case Mint(u, to, amount) => if u == t && to == SELF then amount else 0
    case _ => 0
  }

  lemma OutsideKeeps(s: Chain, hash: Hash, t: Token, call: Call)
    requires Solvent(s, t) && Fair(s, t, call) && (call.Transfer? || call.Mint?)
    ensures var (n, r) := Apply(s, hash, call);
            Solvent(n, t) && Surplus(n, t) == Surplus(s, t) + if r == Success then Inflow(t, call) else 0
  {
    var (n, r) := Apply(s, hash, call);
    if r == Success {
      if call.t != t { OtherTokens(s, t, n); }
      else {
        var b := BookOf(s, t);
        if call.Transfer? { MoveFacts(b, call.from, call.to, call.amount); }
        else { SumSet(b, call.to, Balance(b, call.to) + call.amount); PairWithinSupply(b, call.to, call.to); }
        forall x | x in n.escrows ensures EscrowOk(n, t, x) { assert EscrowOk(s, t, x); }
      }
    }
  }

  /** Parties of a closing call that would be paid inside the contract. */
  predicate PaysSelf(s: Chain, call: Call) {
    match call
    case ReleaseCall(_, id) => id in s.escrows && s.escrows[id].executor == SELF
    case ConfiscateCall(_, id, _, marketplace) => marketplace == SELF || (id in s.escrows && s.escrows[id].requester == SELF)
    case ClaimCall(id) => id in s.escrows && s.escrows[id].requester == SELF
    case _ => false
  }

  lemma ClosingKeeps(s: Chain, hash: Hash, t: Token, call: Call)
    requires Solvent(s, t) && Fair(s, t, call) && (call.ReleaseCall? || call.ConfiscateCall? || call.ClaimCall?)
    ensures var n := Apply(s, hash, call).0;
            Solvent(n, t) && Surplus(n, t) >= Surplus(s, t) && (!PaysSelf(s, call) ==> Surplus(n, t) == Surplus(s, t))
  {
    AllOrNothing(s, hash, call);
    var (n, r) := Apply(s, hash, call);
    if r == Success {
      var x := s.escrows[call.id];
      match call
      case ReleaseCall(auths, id) =>
        ReleasePays(s, t, auths, id);
        ClosedKeeps(s, n, t, id, RELEASED, x.executor, x.collateral, x.executor, 0);
      case ConfiscateCall(auths, id, bp, marketplace) =>
        ConfiscatePays(s, t, auths, id, bp, marketplace);
        ClosedKeeps(s, n, t, id, CONFISCATED, x.requester, Shares(x.collateral, bp).value.0,
                    marketplace, Shares(x.collateral, bp).value.1);
      case ClaimCall(id) =>
        ClaimPays(s, t, id);
        ClosedKeeps(s, n, t, id, TIMED_OUT, x.requester, x.collateral, x.requester, 0);
    }
  }

  lemma CallKeeps(s: Chain, hash: Hash, t: Token, call: Call)
    requires Solvent(s, t) && Fair(s, t, call)
    ensures var n := Apply(s, hash, call).0;
            Solvent(n, t) && (!PaysSelf(s, call) && Inflow(t, call) == 0 ==> Surplus(n, t) == Surplus(s, t))
  {
    match call
    case CreateCall(auths, executor, signer, requester, token, amount) =>
      CreateKeeps(s, hash, auths, executor, signer, requester, token, amount);
    case NextLedger(_) => OtherTokens(s, t, Apply(s, hash, call).0);
    case Transfer(_, _, _, _) => OutsideKeeps(s, hash, t, call);
    case Mint(_, _, _) => OutsideKeeps(s, hash, t, call);
    case _ => ClosingKeeps(s, hash, t, call);
  }

  /** Solvency, over every sequence of calls with one token: the contract's balance covers the collateral of all LOCKED
      escrows, and every escrow has paid out nothing while LOCKED and exactly its collateral otherwise. */
  lemma {:induction false} AlwaysSolvent(hash: Hash, t: Token, calls: seq<Call>)
    requires FairRun(hash, t, calls)
    ensures Solvent(Run(hash, calls), t)
  {
    if calls != [] {
      var n := |calls| - 1;
      FairPrefix(hash, t, calls, n);
      AlwaysSolvent(hash, t, calls[..n]);
      CallKeeps(Run(hash, calls[..n]), hash, t, calls[n]);
    }
  }

  lemma FairPrefix(hash: Hash, t: Token, calls: seq<Call>, n: nat)
    requires FairRun(hash, t, calls) && n <= |calls|
    ensures FairRun(hash, t, calls[..n])
  {
    forall i | 0 <= i < n ensures Fair(Run(hash, calls[..n][..i]), t, calls[..n][i]) {
      assert calls[..n][..i] == calls[..i];
      assert Fair(Run(hash, calls[..i]), t, calls[i]);
    }
  }

  /** The contract holds exactly its locked collateral as long as no party paid out to is the contract itself and
      nothing is sent in from outside. */
  lemma {:induction false} ExactlyCovered(hash: Hash, t: Token, calls: seq<Call>)
    requires FairRun(hash, t, calls)
    requires forall i :: 0 <= i < |calls| ==> !PaysSelf(Run(hash, calls[..i]), calls[i]) && Inflow(t, calls[i]) == 0
    ensures Balance(BookOf(Run(hash, calls), t), SELF) == Locked(Run(hash, calls))
  {
    if calls != [] {
      var n := |calls| - 1;
      FairPrefix(hash, t, calls, n);
      forall i | 0 <= i < n ensures !PaysSelf(Run(hash, calls[..n][..i]), calls[..n][i]) && Inflow(t, calls[..n][i]) == 0 {
        assert calls[..n][..i] == calls[..i];
        assert !PaysSelf(Run(hash, calls[..i]), calls[i]);
      }
      ExactlyCovered(hash, t, calls[..n]);
      AlwaysSolvent(hash, t, calls[..n]);
      CallKeeps(Run(hash, calls[..n]), hash, t, calls[n]);
    }
  }

  /** Guaranteed exit: in every reachable state, anyone can close a LOCKED escrow that is old enough. */
  lemma GuaranteedExit(hash: Hash, t: Token, calls: seq<Call>, id: Id)
    requires FairRun(hash, t, calls)
    requires var s := Run(hash, calls);
             id in s.escrows && s.escrows[id].status == LOCKED && s.ledger - s.escrows[id].createdAt >= LOCK_DURATION
    ensures var s := Run(hash, calls);
            var (n, r) := ClaimTimeout(s, id);
            var x := s.escrows[id];
            && r == Success && id in n.escrows && n.escrows[id].status == TIMED_OUT && id in n.paid && n.paid[id] == x.collateral
            && (x.requester != SELF ==>
                  Balance(BookOf(n, t), x.requester) == Balance(BookOf(s, t), x.requester) + x.collateral)
  {
    AlwaysSolvent(hash, t, calls);
    ClaimPays(Run(hash, calls), t, id);
  }

  /** Escrows are never forgotten, a status that is not LOCKED never changes again, and nothing else about an escrow
      ever changes, whatever the calls and tokens. */
  lemma {:induction false} FinalStatus(hash: Hash, calls: seq<Call>, n: nat, id: Id)
    requires n <= |calls| && id in Run(hash, calls[..n]).escrows
    ensures var s, u := Run(hash, calls[..n]), Run(hash, calls);
            && id in u.escrows && u.escrows[id] == s.escrows[id].(status := u.escrows[id].status)
            && (s.escrows[id].status != LOCKED ==> u.escrows[id].status == s.escrows[id].status)
  {
    if n == |calls| { assert calls[..n] == calls; }
    else {
      var k := |calls| - 1;
      assert calls[..k][..n] == calls[..n];
      FinalStatus(hash, calls[..k], n, id);
      CallKeepsEscrow(Run(hash, calls[..k]), hash, calls[k], id);
    }
  }

  lemma CallKeepsEscrow(s: Chain, hash: Hash, call: Call, id: Id)
    requires id in s.escrows
    ensures var n := Apply(s, hash, call).0;
            && id in n.escrows && n.escrows[id] == s.escrows[id].(status := n.escrows[id].status)
            && (s.escrows[id].status != LOCKED ==> n.escrows[id].status == s.escrows[id].status)
  {
  }

  // ---------- Who opens and who closes ----------

  /** The call with index `c` created the escrow, with the fields it has. */
  ghost predicate CreatedBy(hash: Hash, calls: seq<Call>, c: nat, id: Id)
    requires c < |calls| && id in Run(hash, calls).escrows
  {
    var x := Run(hash, calls).escrows[id];
    && calls[c].CreateCall? && calls[c].executor in calls[c].auths
    && x.executor == calls[c].executor && x.releaseSigner == calls[c].signer && x.requester == calls[c].requester
    && x.collateral == calls[c].amount && x.createdAt == Run(hash, calls[..c]).ledger
    && id !in Run(hash, calls[..c]).escrows && IsLocked(Run(hash, calls[..c + 1]), id)
  }

  lemma CallCreates(s: Chain, hash: Hash, call: Call, id: Id)
    requires id !in s.escrows && id in Apply(s, hash, call).0.escrows
    ensures var x := Apply(s, hash, call).0.escrows[id];
            && call.CreateCall? && call.executor in call.auths
            && x == Escrow(call.executor, call.requester, call.signer, call.amount, s.ledger, LOCKED)
  {
  }

  lemma {:induction false} Creator(hash: Hash, calls: seq<Call>, id: Id) returns (c: nat)
    requires id in Run(hash, calls).escrows
    ensures c < |calls| && CreatedBy(hash, calls, c, id)
  {
    var n := |calls| - 1;
    var s := Run(hash, calls[..n]);
    assert calls[..n + 1] == calls;
    if id in s.escrows {
      c := Creator(hash, calls[..n], id);
      assert calls[..n][..c] == calls[..c] && calls[..n][..c + 1] == calls[..c + 1];
      CallKeepsEscrow(s, hash, calls[n], id);
    } else {
      c := n;
      CallCreates(s, hash, calls[n], id);
    }
  }

  /** The call closes a LOCKED escrow by right: the signer releases, the requester confiscates, and after 241920 ledgers
      anyone claims. */
  predicate ClosesByRight(s: Chain, call: Call, id: Id, status: Status) {
    && IsLocked(s, id)
    && match status
       case RELEASED => call.ReleaseCall? && call.id == id && s.escrows[id].releaseSigner in call.auths
       case CONFISCATED => call.ConfiscateCall? && call.id == id && s.escrows[id].requester in call.auths
       case TIMED_OUT => call.ClaimCall? && call.id == id && s.ledger - s.escrows[id].createdAt >= 241920
       case LOCKED => false
  }

  lemma CallCloses(s: Chain, hash: Hash, call: Call, id: Id)
    requires id in s.escrows && Apply(s, hash, call).0.escrows[id].status != s.escrows[id].status
    ensures ClosesByRight(s, call, id, Apply(s, hash, call).0.escrows[id].status)
  {
  }

  lemma {:induction false} Closer(hash: Hash, calls: seq<Call>, id: Id) returns (k: nat)
    requires id in Run(hash, calls).escrows && Run(hash, calls).escrows[id].status != LOCKED
    ensures k < |calls| && ClosesByRight(Run(hash, calls[..k]), calls[k], id, Run(hash, calls).escrows[id].status)
  {
    var n := |calls| - 1;
    var s := Run(hash, calls[..n]);
    assert calls[..n + 1] == calls;
    if id in s.escrows && s.escrows[id].status != LOCKED {
      k := Closer(hash, calls[..n], id);
      assert calls[..n][..k] == calls[..k];
      CallKeepsEscrow(s, hash, calls[n], id);
    } else {
      k := n;
      if id in s.escrows { CallCloses(s, hash, calls[n], id); } else { CallCreates(s, hash, calls[n], id); }
    }
  }

  /** Over every sequence of calls, any tokens: an escrow was opened by a call that its executor authorized, and holds what
      that call said. It was closed, if at all, by a later call: RELEASED only with the authorization of the signer, and
      CONFISCATED only with that of the requester, who was named at the creation, and TIMED_OUT only when old enough. */
  lemma ClosedByItsParty(hash: Hash, calls: seq<Call>, id: Id) returns (c: nat, k: nat)
    requires id in Run(hash, calls).escrows && Run(hash, calls).escrows[id].status != LOCKED
    ensures c < k < |calls| && CreatedBy(hash, calls, c, id)
    ensures match Run(hash, calls).escrows[id].status
            case RELEASED => calls[k].ReleaseCall? && calls[k].id == id && calls[c].signer in calls[k].auths
            case CONFISCATED => calls[k].ConfiscateCall? && calls[k].id == id && calls[c].requester in calls[k].auths
            case TIMED_OUT => calls[k].ClaimCall? && calls[k].id == id
                              && Run(hash, calls[..k]).ledger - Run(hash, calls[..c]).ledger >= 241920
            case LOCKED => false
  {
    c := Creator(hash, calls, id);
    k := Closer(hash, calls, id);
    FinalStatus(hash, calls, k, id);
    if k <= c {
      assert calls[..c][..k] == calls[..k];
      FinalStatus(hash, calls[..c], k, id);
    }
  }

  // ---------- Why one token ----------

  /** The issuers of all tokens keep their supplies within i128. */
  ghost predicate MintsWithin(s: Chain, call: Call) {
    call.Mint? ==> Sum(BookOf(s, call.t)) + call.amount <= I128_MAX
  }

  lemma PayOutSane(s: Chain, id: Id, u: Token, to: Address, amount: int, t: Token)
    requires Sane(BookOf(s, t)) && PayOut(s, id, u, to, amount).Some?
    ensures Sane(BookOf(PayOut(s, id, u, to, amount).value, t))
  {
    if amount > 0 && u == t { MoveFacts(BookOf(s, t), SELF, to, amount); }
  }

  lemma ClosingSane(s: Chain, hash: Hash, call: Call, t: Token)
    requires Sane(BookOf(s, t)) && (call.ReleaseCall? || call.ConfiscateCall? || call.ClaimCall?)
    ensures Sane(BookOf(Apply(s, hash, call).0, t))
  {
    if Apply(s, hash, call).1 == Success {
      var (id, u) := (call.id, s.token.value);
      var x := s.escrows[id];
      hide Sane, PayOut;
      match call
      case ReleaseCall(_, _) => PayOutSane(Closed(s, id, RELEASED), id, u, x.executor, x.collateral, t);
      case ClaimCall(_) => PayOutSane(Closed(s, id, TIMED_OUT), id, u, x.requester, x.collateral, t);
      case ConfiscateCall(_, _, bp, marketplace) =>
        var (first, rest) := Shares(x.collateral, bp).value;
        PayOutSane(Closed(s, id, CONFISCATED), id, u, x.requester, first, t);
        PayOutSane(PayOut(Closed(s, id, CONFISCATED), id, u, x.requester, first).value, id, u, marketplace, rest, t);
    }
  }

  lemma CallSane(s: Chain, hash: Hash, call: Call, t: Token)
    requires Sane(BookOf(s, t)) && MintsWithin(s, call)
    ensures Sane(BookOf(Apply(s, hash, call).0, t))
  {
    match call
    case CreateCall(_, executor, _, _, token, amount) =>
      if Apply(s, hash, call).1 == Success && token == t { MoveFacts(BookOf(s, t), executor, SELF, amount); }
    case NextLedger(_) =>
    case Transfer(u, from, to, amount) =>
      if Apply(s, hash, call).1 == Success && u == t { MoveFacts(BookOf(s, t), from, to, amount); }
    case Mint(u, to, amount) =>
      if amount >= 0 && u == t {
        SumSet(BookOf(s, t), to, Balance(BookOf(s, t), to) + amount);
        PairWithinSupply(BookOf(s, t), to, to);
      }
    case _ => ClosingSane(s, hash, call, t);
  }

  /** Every escrow holds something, and some token is stored once there is an escrow. */
  predicate Backed(s: Chain) {
    forall id :: id in s.escrows ==> s.escrows[id].collateral > 0 && s.token.Some?
  }

  lemma CallBacked(s: Chain, hash: Hash, call: Call)
    requires Backed(s)
    ensures Backed(Apply(s, hash, call).0)
  {
  }

  lemma {:induction false} RunSane(hash: Hash, calls: seq<Call>, t: Token)
    requires forall i :: 0 <= i < |calls| ==> MintsWithin(Run(hash, calls[..i]), calls[i])
    ensures Sane(BookOf(Run(hash, calls), t)) && Backed(Run(hash, calls))
  {
    if calls != [] {
      var n := |calls| - 1;
      forall i | 0 <= i < n ensures MintsWithin(Run(hash, calls[..n][..i]), calls[..n][i]) {
        assert calls[..n][..i] == calls[..i];
      }
      RunSane(hash, calls[..n], t);
      CallSane(Run(hash, calls[..n]), hash, calls[n], t);
      CallBacked(Run(hash, calls[..n]), hash, calls[n]);
    }
  }

  /** Exactly when an old LOCKED escrow can be claimed, over every sequence of calls with any tokens: when the contract
      holds its collateral in the token that the latest escrow stored. Otherwise the claim panics. */
  lemma ClaimExactly(hash: Hash, calls: seq<Call>, id: Id)
    requires forall i :: 0 <= i < |calls| ==> MintsWithin(Run(hash, calls[..i]), calls[i])
    requires var s := Run(hash, calls);
             id in s.escrows && s.escrows[id].status == LOCKED && s.ledger - s.escrows[id].createdAt >= LOCK_DURATION
    ensures var s := Run(hash, calls);
            && s.token.Some?
            && (ClaimTimeout(s, id).1 == Success
                <==> Balance(BookOf(s, s.token.value), SELF) >= s.escrows[id].collateral)
            && (ClaimTimeout(s, id).1 != Success ==> ClaimTimeout(s, id) == (s, Panic))
  {
    var s := Run(hash, calls);
    RunSane(hash, calls, 0);
    var t := s.token.value;
    RunSane(hash, calls, t);
    PairWithinSupply(BookOf(s, t), SELF, s.escrows[id].requester);
  }

  const OLD_CALLS := [Mint(1, 5, 100), Mint(2, 5, 50), CreateCall({5}, 5, 6, 7, 1, 100)]

  lemma FirstEscrow(hash: Hash)
    requires hash(1, 5) == 11
    ensures var s := Run(hash, OLD_CALLS);
            && s.nonce == 1 && s.ledger == 0 && BookOf(s, 2) == map[5 := 50] && s.escrows.Keys == {11}
            && s.escrows[11].status == LOCKED && s.escrows[11].collateral == 100 && s.escrows[11].createdAt == 0
  {
    var c1, c2, c3 := OLD_CALLS[0], OLD_CALLS[1], OLD_CALLS[2];
    var s1 := GENESIS.(books := map[1 := map[5 := 100]]);
    assert [c1][..0] == [];
    assert Run(hash, [c1]) == s1;
    var s2 := s1.(books := map[1 := map[5 := 100], 2 := map[5 := 50]]);
    assert [c1, c2][..1] == [c1];
    assert Run(hash, [c1, c2]) == s2;
    assert OLD_CALLS[..2] == [c1, c2];
    assert Run(hash, OLD_CALLS) == Create(s2, hash, {5}, 5, 6, 7, 1, 100).0;
  }

  /** With two tokens the exit guarantee fails: an old LOCKED escrow whose collateral is 100 of token 1 cannot be claimed
      once a later escrow has switched the stored token to token 2. */
  lemma TwoTokensTrapEscrow(hash: Hash)
    requires hash(1, 5) == 11 && hash(2, 5) == 12
    ensures var calls := OLD_CALLS + [CreateCall({5}, 5, 6, 7, 2, 50), NextLedger(LOCK_DURATION)];
            var s := Run(hash, calls);
            && 11 in s.escrows && s.escrows[11].status == LOCKED && s.ledger - s.escrows[11].createdAt >= LOCK_DURATION
            && ClaimTimeout(s, 11) == (s, Panic)
  {
    FirstEscrow(hash);
    var c4, c5 := CreateCall({5}, 5, 6, 7, 2, 50), NextLedger(LOCK_DURATION);
    var s3 := Run(hash, OLD_CALLS);
    assert (OLD_CALLS + [c4])[..3] == OLD_CALLS;
    var s4 := Run(hash, OLD_CALLS + [c4]);
    assert s4 == Create(s3, hash, {5}, 5, 6, 7, 2, 50).0;
    assert s4.token == Some(2) && Balance(BookOf(s4, 2), SELF) == 50 && s4.escrows[11] == s3.escrows[11];
    assert (OLD_CALLS + [c4, c5])[..4] == OLD_CALLS + [c4];
    assert Run(hash, OLD_CALLS + [c4, c5]) == s4.(ledger := LOCK_DURATION);
  }
}
