/** The on-chain escrow contract: storage, token ledgers, and its four state-changing calls. A call that returns an
    error or panics leaves no trace, as the host rolls it back. */
module EscrowContract {
  import opened Types
  import opened MapSum

  type Address = nat
  type Token = nat
  type Id = nat

  /** The contract's own address. It never authorizes anything: no call path of the contract invokes itself. */
  const SELF: Address := 0

  const I128_MAX := 0x7fff_ffff_ffff_ffff_ffff_ffff_ffff_ffff
  const U64_MAX := 0xffff_ffff_ffff_ffff
  const LOCK_DURATION := 241920
  const FULL_BP := 10000

  datatype Status = LOCKED | RELEASED | CONFISCATED | TIMED_OUT

  datatype Escrow = Escrow(executor: Address, requester: Address, releaseSigner: Address,
                           collateral: int, createdAt: nat, status: Status)

  datatype Error = NotFound | NotLocked | ShareInvalid | TooEarly | InvalidNonce | ZeroCollateral | Insufficient

  /** `Panic` is a host failure: a missing authorization, a token transfer that traps, an overflow. */
  datatype Result = Success | Failed(e: Error) | Panic

  type Book = map<Address, int>

  /** Contract storage, every token's balances, and the ledger sequence number. `paid` records what each escrow has
      paid out so far; no call reads it. */
  datatype Chain = Chain(escrows: map<Id, Escrow>, nonce: nat, token: Option<Token>,
                         books: map<Token, Book>, ledger: nat, paid: map<Id, int>)

  /** The host's hash of (nonce, length of the executor's address). */
  type Hash = (nat, Address) -> Id

  function BookOf(s: Chain, t: Token): Book { if t in s.books then s.books[t] else map[] }

  function Balance(b: Book, a: Address): int { if a in b then b[a] else 0 }

  predicate CanMove(b: Book, from: Address, to: Address, amount: int) {
    Balance(b, from) >= amount && (from == to || Balance(b, to) + amount <= I128_MAX)
  }

  function Move(b: Book, from: Address, to: Address, amount: int): Book {
    var taken := b[from := Balance(b, from) - amount];
    taken[to := Balance(taken, to) + amount]
  }

  function WithMove(s: Chain, t: Token, from: Address, to: Address, amount: int): Chain {
    s.(books := s.books[t := Move(BookOf(s, t), from, to, amount)])
  }

  /** The two shares of a confiscation, or None when the product leaves i128. */
  function Shares(collateral: int, bp: nat): Option<(int, int)> {
    if bp == FULL_BP then Some((collateral, 0))
    else if collateral * bp > I128_MAX then None
    else Some((collateral * bp / 10000, collateral - collateral * bp / 10000))
  }

  // ---------- Calls ----------

  function Create(s: Chain, hash: Hash, auths: set<Address>, executor: Address, signer: Address, requester: Address,
                  token: Token, amount: int): (Chain, Result)
  {
    if executor !in auths then (s, Panic)
    else if amount <= 0 then (s, Failed(ZeroCollateral))
    else if s.nonce + 1 > U64_MAX then (s, Panic)
    else
      var id := hash(s.nonce + 1, executor);
      if id in s.escrows then (s, Failed(InvalidNonce))
      else if !CanMove(BookOf(s, token), executor, SELF, amount) then (s, Panic)
      else
        (WithMove(s.(escrows := s.escrows[id := Escrow(executor, requester, signer, amount, s.ledger, LOCKED)],
                     nonce := s.nonce + 1, token := Some(token), paid := s.paid[id := 0]),
                  token, executor, SELF, amount), Success)
  }

  /** Marks the escrow and records the payment. */
  function Closed(s: Chain, id: Id, status: Status): Chain
    requires id in s.escrows
  {
    s.(escrows := s.escrows[id := s.escrows[id].(status := status)])
  }

  function Paid(s: Chain, id: Id, amount: int): Chain {
    s.(paid := s.paid[id := (if id in s.paid then s.paid[id] else 0) + amount])
  }

  /** Pays `amount` out of the contract; a zero share is skipped. */
  function PayOut(s: Chain, id: Id, t: Token, to: Address, amount: int): Option<Chain> {
    if amount <= 0 then Some(s)
    else if !CanMove(BookOf(s, t), SELF, to, amount) then None
    else Some(Paid(WithMove(s, t, SELF, to, amount), id, amount))
  }

  function Release(s: Chain, auths: set<Address>, id: Id): (Chain, Result) {
    if id !in s.escrows then (s, Failed(NotFound))
    else if s.escrows[id].status != LOCKED then (s, Failed(NotLocked))
    else if s.escrows[id].releaseSigner !in auths then (s, Panic)
    else if s.token.None? then (s, Failed(NotFound))
    else
      var x := s.escrows[id];
      match PayOut(Closed(s, id, RELEASED), id, s.token.value, x.executor, x.collateral)
      case None => (s, Panic)
      case Some(s') => (s', Success)
  }

  function Confiscate(s: Chain, auths: set<Address>, id: Id, bp: nat, marketplace: Address): (Chain, Result) {
    if bp > FULL_BP then (s, Failed(ShareInvalid))
    else if id !in s.escrows then (s, Failed(NotFound))
    else if s.escrows[id].status != LOCKED then (s, Failed(NotLocked))
    else if s.escrows[id].requester !in auths then (s, Panic)
    else if s.token.None? then (s, Failed(NotFound))
    else
      var x := s.escrows[id];
      match Shares(x.collateral, bp)
      case None => (s, Failed(Insufficient))
      case Some((toRequester, toMarketplace)) =>
        match PayOut(Closed(s, id, CONFISCATED), id, s.token.value, x.requester, toRequester)
        case None => (s, Panic)
        case Some(s1) =>
          match PayOut(s1, id, s.token.value, marketplace, toMarketplace)
          case None => (s, Panic)
          case Some(s2) => (s2, Success)
  }

  function Elapsed(now: nat, created: nat): nat { if now >= created then now - created else 0 }

  function ClaimTimeout(s: Chain, id: Id): (Chain, Result) {
    if id !in s.escrows then (s, Failed(NotFound))
    else if s.escrows[id].status != LOCKED then (s, Failed(NotLocked))
    else if Elapsed(s.ledger, s.escrows[id].createdAt) < LOCK_DURATION then (s, Failed(TooEarly))
    else if s.token.None? then (s, Failed(NotFound))
    else
      var x := s.escrows[id];
      match PayOut(Closed(s, id, TIMED_OUT), id, s.token.value, x.requester, x.collateral)
      case None => (s, Panic)
      case Some(s') => (s', Success)
  }

  // ---------- Runs ----------

  datatype Call =
    | CreateCall(auths: set<Address>, executor: Address, signer: Address, requester: Address, token: Token, amount: int)
    | ReleaseCall(auths: set<Address>, id: Id)
    | ConfiscateCall(auths: set<Address>, id: Id, bp: nat, marketplace: Address)
    | ClaimCall(id: Id)
    | NextLedger(count: nat)                                             // time passes
    | Transfer(t: Token, from: Address, to: Address, amount: int)        // anyone but the contract moves tokens
    | Mint(t: Token, to: Address, amount: int)                           // the token issuer adds supply

  function Apply(s: Chain, hash: Hash, call: Call): (Chain, Result) {
    match call
    case CreateCall(auths, executor, signer, requester, token, amount) =>
      Create(s, hash, auths, executor, signer, requester, token, amount)
    case ReleaseCall(auths, id) => Release(s, auths, id)
    case ConfiscateCall(auths, id, bp, marketplace) => Confiscate(s, auths, id, bp, marketplace)
    case ClaimCall(id) => ClaimTimeout(s, id)
    case NextLedger(count) => (s.(ledger := s.ledger + count), Success)
    case Transfer(t, from, to, amount) =>
      if amount < 0 || !CanMove(BookOf(s, t), from, to, amount) then (s, Panic)
      else (WithMove(s, t, from, to, amount), Success)
    case Mint(t, to, amount) =>
      if amount < 0 then (s, Panic)
      else (s.(books := s.books[t := BookOf(s, t)[to := Balance(BookOf(s, t), to) + amount]]), Success)
  }

  const GENESIS := Chain(map[], 0, None, map[], 0, map[])

  function Run(hash: Hash, calls: seq<Call>): Chain {
    if calls == [] then GENESIS else Apply(Run(hash, calls[..|calls| - 1]), hash, calls[|calls| - 1]).0
  }

  /** What the environment grants: the contract authorizes nothing and moves tokens only through its calls, and the
      issuer of the one token in use keeps its supply within i128. */
  ghost predicate Fair(s: Chain, t: Token, call: Call) {
    match call
    case CreateCall(auths, _, _, _, token, _) => SELF !in auths && token == t
    case ReleaseCall(auths, _) => SELF !in auths
    case ConfiscateCall(auths, _, _, _) => SELF !in auths
    case Transfer(_, from, _, _) => from != SELF
    case Mint(u, _, amount) => u == t ==> Sum(BookOf(s, t)) + amount <= I128_MAX
    case _ => true
  }

  ghost predicate FairRun(hash: Hash, t: Token, calls: seq<Call>) {
    forall i :: 0 <= i < |calls| ==> Fair(Run(hash, calls[..i]), t, calls[i])
  }
}
