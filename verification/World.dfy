// The world state: the documents the chaincode keeps, and the contract chaincode's documents.
module World {
  import opened Basics
  import opened Stamps

  /** A Kiesnet id. */
  type Kid = string

  datatype Kind = Personal | Joint

  /** An account address without its checksum, which the other parts determine. The id of a personal
      account is its holder's Kiesnet id. */
  datatype Address = Address(code: string, kind: Kind, id: string)

  datatype BalanceDoc = BalanceDoc(amount: int, lastPruned: string)

  datatype Related = ToAccount(account: Address) | ToContract(cid: string)

  /** An escrow: a time-locked transfer (rid is the sender) or a deposit to a contract. */
  datatype Pending = Pending(account: Address, rid: Related, amount: int, fee: Option<int>, memo: string,
                             createdTime: Time, pendingTime: Time)

  /** A payment to a merchant; a refund has a negative amount and names its parent. */
  datatype Pay = Pay(merchant: Address, amount: int, fee: int, totalRefund: int, rid: Address, parentId: string,
                     orderId: string, memo: string, createdTime: Time)

  datatype Fee = Fee(code: string, account: Address, amount: int, createdTime: Time)

  datatype LogKind = Minted | Burnt | Sent | Received | Deposited | Withdrawn | Paid | Refunded | PrunedPay | PrunedFee

  datatype Log = Log(kind: LogKind, diff: int, fee: Option<int>, amount: int)

  /** A rational rate num/den and a cap, where a cap of zero or less is no cap. */
  datatype FeeRate = FeeRate(num: int, den: Pos, max: int)

  datatype Policy = Policy(target: Address, rates: map<string, FeeRate>)

  datatype Token = Token(maxSupply: int, supply: int, lastPrunedFee: string, genesis: Address, policy: Option<Policy>)

  datatype Account = PersonalAccount(suspended: bool) | JointAccount(holders: set<Kid>)

  /** A contract document, as the contract chaincode hands it back to a callback. */
  datatype Doc =
    | TransferDoc(pbId: string, sender: Address, receiver: Address, amount: int, fee: int, memo: string,
                  pendingSeconds: Option<int>)
    | PayDoc(pbId: string, sender: Address, receiver: Address, amount: int, orderId: string, memo: string)
    | MintDoc(code: string, amount: int)
    | BurnDoc(code: string, amount: int)
    | TokenDoc(code: string, holders: set<Kid>)
    | AccountDoc(code: string, holders: set<Kid>)
    | AddHolderDoc(account: Address, holder: Kid)
    | RemoveHolderDoc(account: Address, holder: Kid)

  /** Everything that holds value. Logs are keyed by account and time; pays, fees and pending balances
      by id; lastFee is the stored fee cursor of a token. */
  datatype Book = Book(
    balances: map<Address, BalanceDoc>,
    logs: map<(Address, Time), Log>,
    pendings: map<string, Pending>,
    pays: map<string, Pay>,
    fees: map<string, Fee>,
    lastFee: map<string, string>)

  /** Accounts, and the holder index that lists the accounts of a Kiesnet id. */
  datatype Registry = Registry(accounts: map<Address, Account>, holders: set<(Kid, Address)>)

  /** The ledger. txs are the ids of the transactions committed so far; contracts is what the contract
      chaincode keeps. */
  datatype World = World(
    book: Book,
    registry: Registry,
    tokens: map<string, Token>,
    contracts: map<string, Doc>,
    txs: set<string>)

  const EMPTY: World := World(Book(map[], map[], map[], map[], map[], map[]), Registry(map[], {}), map[], map[], {})

  /** The contract chaincode's answer to a new contract. */
  datatype NewContract = NewContract(cid: string, expiry: Time)

  /** The token-metadata chaincode's answer, before validation. */
  datatype Meta = Meta(decimal: int, maxSupply: int, supply: int, rates: Option<map<string, FeeRate>>,
                       target: Option<Address>)

  /** A query of the state database: the records, given by their created times, of one owner inside a
      window of time. */
  type Query = (map<string, Time>, Time, Time) -> seq<string>

  /** What a transaction sees besides the world state: its time and id, the invoker, the answers of the
      other chaincodes, and the state database. recordId is the id under which it files a pay or fee
      record, NewId(ts, txId); jointId is the digest of the transaction id. */
  datatype Env = Env(ts: Time, txId: string, recordId: string, kid: Kid, jointId: string, contract: Option<NewContract>,
                     kntAmount: Option<int>, meta: Option<Meta>, query: Query)

  datatype Tx =
    | AccountCreate(code: string, coHolders: seq<Address>)
    | AccountHolderAdd(account: Address, holder: Address)
    | AccountHolderRemove(account: Address, holder: Address)
    | AccountSuspend(code: string)
    | AccountUnsuspend(code: string)
    | PendingWithdraw(id: string)
    | ContractCancel(cid: string)
    | ContractExecute(cid: string)
    | FeePrune(code: string, safe: bool, endSeconds: Option<int>)
    | PayTx(sender: Option<Address>, receiver: Address, amount: int, orderId: string, memo: string)
    | PayPrune(account: Address, safe: bool, endSeconds: Option<int>)
    | PayRefund(payId: string, amount: int, memo: string)
    | TokenBurn(code: string, amount: int)
    | TokenCreate(code: string, coHolders: seq<Address>)
    | TokenMint(code: string, amount: int)
    | TokenUpdate(code: string)
    | Transfer(sender: Option<Address>, receiver: Address, amount: int, memo: string, pendingSeconds: Option<int>,
               extra: seq<Address>)

  /** The time a prune cursor stands for, and the epoch when it cannot be read. */
  function CursorOf(id: string): Time {
    OrZero(CursorTime(id))
  }

  function PayCursor(balances: map<Address, BalanceDoc>, a: Address): Time {
    if a in balances then CursorOf(balances[a].lastPruned) else 0
  }

  /** The fee cursor of a token: the stored one, or the token's legacy field when none is stored. */
  function FeeCursorId(tokens: map<string, Token>, lastFee: map<string, string>, code: string): string {
    if code in lastFee then lastFee[code]
    else if code in tokens then tokens[code].lastPrunedFee
    else ""
  }

  function FeeCursor(w: World, code: string): Time {
    CursorOf(FeeCursorId(w.tokens, w.book.lastFee, code))
  }

  /** The value an escrow holds. */
  function Held(p: Pending): int {
    p.amount + OrZero(p.fee)
  }

  function AmountOf(b: Book, a: Address): int {
    if a in b.balances then b.balances[a].amount else 0
  }

  /** The created times of a merchant's pay records and of a token's fee records. */
  function PayTimes(pays: map<string, Pay>, merchant: Address): map<string, Time> {
    map id | id in pays && pays[id].merchant == merchant :: pays[id].createdTime
  }

  function FeeTimes(fees: map<string, Fee>, code: string): map<string, Time> {
    map id | id in fees && fees[id].code == code :: fees[id].createdTime
  }

  function PayAmounts(pays: map<string, Pay>): map<string, int> {
    map id | id in pays :: pays[id].amount
  }

  function PayFees(pays: map<string, Pay>): map<string, int> {
    map id | id in pays :: pays[id].fee
  }

  function FeeAmounts(fees: map<string, Fee>): map<string, int> {
    map id | id in fees :: fees[id].amount
  }
}
