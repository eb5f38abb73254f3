/** core/state_transition.go and core/gaspool.go: what applying one message does to gas and money.

Ordinary messages only: no system transaction and no simulated call with the base fee switched off.
The EVM is a function of the state and the gas it is given; all that is asked of it is that it
creates no money and no gas.
*/
module StateTransitions {
  import opened Worlds
  import opened Options
  import SetCode

  // ---------------------------------------------------------------- core/gaspool.go

  class GasPool {
    var gas: Uint64

    constructor (amount: Uint64)
      ensures gas == amount
    {
      gas := amount;
    }

    /** AddGas panics on overflow: then `ok` is false and nothing is added. */
    method AddGas(amount: Uint64) returns (ok: bool)
      modifies this
      ensures ok <==> old(gas) + amount <= MAX_UINT64
      ensures gas == if ok then old(gas) + amount else old(gas)
    {
      ok := gas <= MAX_UINT64 - amount;
      if ok {
        gas := gas + amount;
      }
    }

    /** SubGas reports that the block gas limit is reached. */
    method SubGas(amount: Uint64) returns (ok: bool)
      modifies this
      ensures ok <==> amount <= old(gas)
      ensures gas == if ok then old(gas) - amount else old(gas)
    {
      ok := amount <= gas;
      if ok {
        gas := gas - amount;
      }
    }
  }

  // ---------------------------------------------------------------- messages and blocks

  const TX_GAS: nat := 21000
  const TX_GAS_CONTRACT_CREATION: nat := 53000
  const TX_DATA_ZERO_GAS: nat := 4
  const TX_DATA_NON_ZERO_GAS_FRONTIER: nat := 68
  const TX_DATA_NON_ZERO_GAS_EIP2028: nat := 16
  const INIT_CODE_WORD_GAS: nat := 2
  const TX_ACCESS_LIST_ADDRESS_GAS: nat := 2400
  const TX_ACCESS_LIST_STORAGE_KEY_GAS: nat := 1900
  const TX_TOKEN_PER_NON_ZERO_BYTE: nat := 4
  const TX_COST_FLOOR_PER_TOKEN: nat := 10
  const MAX_INIT_CODE_SIZE: nat := 65536
  const REFUND_QUOTIENT: nat := 2
  const REFUND_QUOTIENT_EIP3529: nat := 5
  const BLOB_GAS_PER_BLOB: nat := 0x2_0000

  /** The call data, as far as it is priced: its zero bytes and the others. */
  datatype Bytes = Bytes(zeros: nat, others: nat)

  type Data = d: Bytes | d.zeros + d.others <= MAX_UINT64 witness Bytes(0, 0)

  datatype AccessList = AccessList(addresses: nat, keys: nat)

  /** A message; the flags of `blobs` say which blob hashes have a valid version. */
  datatype Message = Message(
    from: Address, to: Option<Address>, nonce: Uint64, value: nat, gasLimit: Uint64,
    gasPrice: nat, gasFeeCap: nat, gasTipCap: nat, data: Data, accessList: Option<AccessList>,
    authList: Option<seq<SetCode.Authorization>>, skipAccountChecks: bool, payer: Address, expiredTime: nat,
    blobGasFeeCap: nat, blobs: Option<seq<bool>>)

  /** The block and the chain rules at its number. */
  datatype Env = Env(
    homestead: bool, istanbul: bool, london: bool, shanghai: bool, cancun: bool, venoki: bool, kotaro: bool,
    consortiumV2: bool, chainId: nat, baseFee: nat, blobBaseFee: nat, time: nat,
    coinbase: Address, systemAddress: Address, treasury: Option<Address>)

  /** Rules that every chain configuration meets. */
  predicate Ordered(env: Env)
  {
    (env.venoki ==> env.london) && (!env.london ==> env.baseFee == 0)
  }

  function Min(a: int, b: int): (m: int)
    ensures m <= a && m <= b && (m == a || m == b)
  {
    if a < b then a else b
  }

  function Max(a: int, b: int): (m: int)
    ensures a <= m && b <= m && (m == a || m == b)
  {
    if a < b then b else a
  }

  /** The price rule of TransactionToMessage: the effective price under a base fee, else the offered price. */
  function EffectivePrice(env: Env, offered: nat, tipCap: nat, feeCap: nat): (price: int)
  {
    if env.london then Min(tipCap + env.baseFee, feeCap) else offered
  }

  /** The message was made from a transaction for this block. */
  predicate Priced(env: Env, m: Message)
  {
    && m.gasPrice == EffectivePrice(env, m.gasPrice, m.gasTipCap, m.gasFeeCap)
    && (!env.london ==> m.gasFeeCap == m.gasPrice)
    && (m.blobs.Some? ==> env.cancun)
  }

  /** Per unit of gas, the miner's tip and the base fee make up the price. */
  lemma PriceSplits(env: Env, m: Message)
    requires env.london && Priced(env, m) && env.baseFee <= m.gasFeeCap
    ensures m.gasPrice == env.baseFee + Min(m.gasTipCap, m.gasFeeCap - env.baseFee)
  {
  }

  function BlobGas(m: Message): (g: nat)
  {
    if m.blobs.Some? then |m.blobs.value| * BLOB_GAS_PER_BLOB else 0
  }

  /** The blob fee is charged only to senders who pay for themselves. */
  function BlobFee(env: Env, m: Message): (fee: nat)
  {
    if m.payer == m.from then BlobGas(m) * env.blobBaseFee else 0
  }

  datatype Error =
    | NonceTooHigh | NonceTooLow | NonceMax | SenderNoEOA
    | FeeCapVeryHigh | TipVeryHigh | TipAboveFeeCap | FeeCapTooLow
    | ExpiredSponsoredTx | DifferentFeeCapTipCap
    | BlobTxCreate | MissingBlobHashes | InvalidBlobVersion | BlobFeeCapTooLow
    | SetCodeTxCreate | EmptyAuthList
    | InsufficientPayerFunds | InsufficientSenderFunds | InsufficientFunds | GasLimitReached
    | GasUintOverflow | IntrinsicGas | FloorDataGas | InsufficientFundsForTransfer | MaxInitCodeSizeExceeded

  const TWO_256: nat := 0x1_0000_0000_0000_0000_0000_0000_0000_0000_0000_0000_0000_0000_0000_0000_0000_0000

  /** The checks of preCheck on the sender's account. */
  function AccountRefusal(w: World, m: Message): (e: Option<Error>)
  {
    var account := w.Get(m.from);
    if m.skipAccountChecks then None
    else if account.nonce < m.nonce then Some(NonceTooHigh)
    else if m.nonce < account.nonce then Some(NonceTooLow)
    else if Wrap(account.nonce + 1) < account.nonce then Some(NonceMax)
    else if account.code.Contract? then Some(SenderNoEOA)
    else None
  }

  /** Its checks on the fees that are offered. */
  function FeeRefusal(env: Env, m: Message): (e: Option<Error>)
  {
    if env.london && TWO_256 <= m.gasFeeCap then Some(FeeCapVeryHigh)
    else if env.london && TWO_256 <= m.gasTipCap then Some(TipVeryHigh)
    else if env.london && m.gasFeeCap < m.gasTipCap then Some(TipAboveFeeCap)
    else if env.london && m.gasFeeCap < env.baseFee then Some(FeeCapTooLow)
    else if m.payer != m.from && m.expiredTime != 0 && m.expiredTime <= env.time then Some(ExpiredSponsoredTx)
    else if m.payer != m.from && !env.venoki && m.gasTipCap != m.gasFeeCap then Some(DifferentFeeCapTipCap)
    else None
  }

  /** Its checks on blobs and authorizations. */
  function ListRefusal(env: Env, m: Message): (e: Option<Error>)
  {
    if m.blobs.Some? && m.to.None? then Some(BlobTxCreate)
    else if m.blobs.Some? && |m.blobs.value| == 0 then Some(MissingBlobHashes)
    else if m.blobs.Some? && false in m.blobs.value then Some(InvalidBlobVersion)
    else if env.cancun && 0 < BlobGas(m) && m.blobGasFeeCap < env.blobBaseFee then Some(BlobFeeCapTooLow)
    else if m.authList.Some? && m.to.None? then Some(SetCodeTxCreate)
    else if m.authList.Some? && |m.authList.value| == 0 then Some(EmptyAuthList)
    else None
  }

  /** The checks of preCheck before gas is bought. */
  function Refusal(env: Env, w: World, m: Message): (e: Option<Error>)
    ensures e.None? && env.london ==> m.gasTipCap <= m.gasFeeCap && env.baseFee <= m.gasFeeCap
    ensures e.None? && env.cancun && 0 < BlobGas(m) ==> env.blobBaseFee <= m.blobGasFeeCap
    ensures e.None? && !m.skipAccountChecks ==> w.Get(m.from).nonce == m.nonce && !w.Get(m.from).code.Contract?
  {
    var account, fee := AccountRefusal(w, m), FeeRefusal(env, m);
    if account.Some? then account else if fee.Some? then fee else ListRefusal(env, m)
  }

  /** The balances that buyGas asks for: gas at the fee cap, blobs at the blob fee cap, and the value. */
  function Shortfall(w: World, m: Message): (e: Option<Error>)
  {
    if m.payer != m.from then
      if w.Balance(m.payer) < m.gasLimit * m.gasFeeCap then Some(InsufficientPayerFunds)
      else if w.Balance(m.from) < m.value then Some(InsufficientSenderFunds)
      else None
    else if w.Balance(m.from) < m.gasLimit * m.gasFeeCap + BlobGas(m) * m.blobGasFeeCap + m.value
    then Some(InsufficientFunds)
    else None
  }

  /** The state after gas is bought: the blob fee goes to the treasury if there is one, the payer pays. */
  function Bought(env: Env, w: World, m: Message): (r: World)
  {
    var fee := BlobFee(env, m);
    var w1 := if env.treasury.Some? && 0 < fee then w.Credit(env.treasury.value, fee) else w;
    w1.Credit(m.payer, -(m.gasLimit * m.gasPrice + fee))
  }

  lemma MulMono(a: nat, b: nat, c: nat)
    requires b <= c
    ensures a * b <= a * c
  {
  }

  /** Once the checks pass, paying leaves nobody in debt and leaves the sender the value to transfer. */
  lemma BuyingIsAffordable(env: Env, w: World, m: Message)
    requires Ordered(env) && Priced(env, m) && Refusal(env, w, m).None? && Shortfall(w, m).None?
    requires forall a :: 0 <= w.Balance(a)
    ensures forall a :: 0 <= Bought(env, w, m).Balance(a)
    ensures m.value <= Bought(env, w, m).Balance(m.from)
  {
    MulMono(m.gasLimit, m.gasPrice, m.gasFeeCap);
    var fee := BlobFee(env, m);
    assert m.payer == m.from ==> fee <= BlobGas(m) * m.blobGasFeeCap by {
      if 0 < BlobGas(m) { MulMono(BlobGas(m), env.blobBaseFee, m.blobGasFeeCap); }
    }
    var w1 := if env.treasury.Some? && 0 < fee then w.Credit(env.treasury.value, fee) else w;
    assert forall a :: w.Balance(a) <= w1.Balance(a);
    forall a
      ensures 0 <= Bought(env, w, m).Balance(a)
    {
      assert w.Balance(a) <= w1.Balance(a);
    }
  }

  /** Who pays what for gas and blobs, and what the treasury gets of it, whoever they are. */
  lemma BoughtShares(env: Env, w: World, m: Message, a: Address)
    ensures var blobs := if m.payer == m.from && m.blobs.Some? then |m.blobs.value| * BLOB_GAS_PER_BLOB else 0;
            Bought(env, w, m).Get(a) ==
            w.Get(a).(balance := w.Balance(a)
                                 - (if a == m.payer then m.gasLimit * m.gasPrice + blobs * env.blobBaseFee else 0)
                                 + (if env.treasury == Some(a) then blobs * env.blobBaseFee else 0))
  {
  }

  lemma BuyingTotal(env: Env, w: World, m: Message)
    ensures Total(Bought(env, w, m).accounts) ==
            Total(w.accounts) - m.gasLimit * m.gasPrice - (if env.treasury.Some? then 0 else BlobFee(env, m))
  {
    var fee := BlobFee(env, m);
    var w1 := if env.treasury.Some? && 0 < fee then w.Credit(env.treasury.value, fee) else w;
    if env.treasury.Some? && 0 < fee { TotalCredit(w, env.treasury.value, fee); }
    TotalCredit(w1, m.payer, -(m.gasLimit * m.gasPrice + fee));
  }

  // ---------------------------------------------------------------- gas

  function WordSize(size: Uint64): (words: nat)
    ensures 32 * words <= size + 31 < 32 * words + 32
  {
    if MAX_UINT64 - 31 < size then MAX_UINT64 / 32 + 1 else (size + 31) / 32
  }

  /** `gas + count * price`, or nothing if that is more than 64 bits hold. */
  function Charged(gas: Uint64, count: nat, price: nat): (r: Option<Uint64>)
    requires 0 < price
    ensures r.Some? <==> gas + count * price <= MAX_UINT64
    ensures r.Some? ==> r.value == gas + count * price
  {
    if (MAX_UINT64 - gas) / price < count then
      MulOver(MAX_UINT64 - gas, price, count);
      None
    else
      MulUnder(MAX_UINT64 - gas, price, count);
      Some(gas + count * price)
  }

  lemma MulOver(x: nat, d: nat, n: nat)
    requires 0 < d && x / d < n
    ensures x < n * d
  {
    MulMono(d, x / d + 1, n);
  }

  lemma MulUnder(x: nat, d: nat, n: nat)
    requires 0 < d && n <= x / d
    ensures n * d <= x
  {
    MulMono(d, n, x / d);
  }

  /** What the creation and the data cost, as a plain sum. */
  function DataSum(env: Env, m: Message): (sum: nat)
  {
    (if m.to.None? && env.homestead then TX_GAS_CONTRACT_CREATION else TX_GAS)
    + m.data.others * (if env.istanbul then TX_DATA_NON_ZERO_GAS_EIP2028 else TX_DATA_NON_ZERO_GAS_FRONTIER)
    + m.data.zeros * TX_DATA_ZERO_GAS
    + (if m.to.None? && env.shanghai then WordSize(m.data.zeros + m.data.others) * INIT_CODE_WORD_GAS else 0)
  }

  function NonZeroGas(env: Env): (price: nat)
    ensures 0 < price
  {
    if env.istanbul then TX_DATA_NON_ZERO_GAS_EIP2028 else TX_DATA_NON_ZERO_GAS_FRONTIER
  }

  /** What the access list and the authorizations cost, as a plain sum. */
  function ListSum(m: Message): (sum: nat)
  {
    (if m.accessList.Some? then m.accessList.value.addresses * TX_ACCESS_LIST_ADDRESS_GAS
                                + m.accessList.value.keys * TX_ACCESS_LIST_STORAGE_KEY_GAS else 0)
    + (if m.authList.Some? then |m.authList.value| * SetCode.CALL_NEW_ACCOUNT_GAS else 0)
  }

  function AddressSum(m: Message): (sum: nat)
  {
    if m.accessList.Some? then m.accessList.value.addresses * TX_ACCESS_LIST_ADDRESS_GAS else 0
  }

  function KeySum(m: Message): (sum: nat)
  {
    if m.accessList.Some? then m.accessList.value.keys * TX_ACCESS_LIST_STORAGE_KEY_GAS else 0
  }

  function AuthSum(m: Message): (sum: nat)
  {
    if m.authList.Some? then |m.authList.value| * SetCode.CALL_NEW_ACCOUNT_GAS else 0
  }

  /** The first part of IntrinsicGas, with overflow checks. */
  function DataCost(env: Env, m: Message): (r: Option<Uint64>)
  {
    var creation := m.to.None?;
    var gas0: Uint64 := if creation && env.homestead then TX_GAS_CONTRACT_CREATION else TX_GAS;
    var size := m.data.zeros + m.data.others;
    if size == 0 then Some(gas0) else
      var gas1 := Charged(gas0, m.data.others, NonZeroGas(env));
      if gas1.None? then None else
        var gas2 := Charged(gas1.value, m.data.zeros, TX_DATA_ZERO_GAS);
        if gas2.None? || !(creation && env.shanghai) then gas2
        else Charged(gas2.value, WordSize(size), INIT_CODE_WORD_GAS)
  }

  /** The data is refused exactly when its sum does not fit in 64 bits. */
  lemma DataCostIs(env: Env, m: Message)
    ensures DataCost(env, m) == if DataSum(env, m) <= MAX_UINT64 then Some(DataSum(env, m)) else None
  {
    var others := m.data.others * NonZeroGas(env);
    if m.data.zeros + m.data.others == 0 { assert others == 0; }
  }

  lemma WrapAdds(x: nat, y: nat)
    ensures Wrap(Wrap(x) + y) == Wrap(x + y)
  {
  }

  /** The rest of IntrinsicGas: the lists are added modulo 2^64. */
  function WithLists(gas: Uint64, m: Message): (r: Uint64)
  {
    Wrap(Wrap(Wrap(gas + AddressSum(m)) + KeySum(m)) + AuthSum(m))
  }

  lemma WithListsIs(gas: Uint64, m: Message)
    ensures WithLists(gas, m) == Wrap(gas + ListSum(m))
  {
    WrapAdds(gas + AddressSum(m), KeySum(m));
    WrapAdds(gas + AddressSum(m) + KeySum(m), AuthSum(m));
  }

  /** IntrinsicGas */
  function IntrinsicCost(env: Env, m: Message): (r: Option<Uint64>)
  {
    var data := DataCost(env, m);
    if data.None? then None else Some(WithLists(data.value, m))
  }

  /** Refused exactly when the data's sum overflows 64 bits; what is charged is the whole sum exactly when that fits. */
  lemma IntrinsicCostIs(env: Env, m: Message)
    ensures IntrinsicCost(env, m).Some? <==> DataSum(env, m) <= MAX_UINT64
    ensures IntrinsicCost(env, m).Some? ==>
              (IntrinsicCost(env, m).value == DataSum(env, m) + ListSum(m) <==>
               DataSum(env, m) + ListSum(m) <= MAX_UINT64)
    ensures IntrinsicCost(env, m).Some? ==> IntrinsicCost(env, m).value == Wrap(DataSum(env, m) + ListSum(m))
  {
    DataCostIs(env, m);
    if DataSum(env, m) <= MAX_UINT64 { WithListsIs(DataSum(env, m), m); }
  }

  /** An access list of 2^60 addresses costs nothing. */
  lemma ListsWrap(env: Env, m: Message)
    requires m.accessList == Some(AccessList(0x1000_0000_0000_0000, 0)) && m.authList.None?
    requires DataSum(env, m) <= MAX_UINT64
    ensures IntrinsicCost(env, m) == Some(DataSum(env, m)) && MAX_UINT64 < ListSum(m)
  {
    DataCostIs(env, m);
    WithListsIs(DataSum(env, m), m);
    assert ListSum(m) == 150 * (MAX_UINT64 + 1);
  }

  /** The tokens of the data, as EIP-7623 counts them. */
  function Tokens(data: Data): (n: nat)
  {
    data.others * TX_TOKEN_PER_NON_ZERO_BYTE + data.zeros
  }

  /** FloorDataGas, EIP-7623. */
  function FloorCost(data: Data): (r: Option<Uint64>)
    ensures r.Some? ==> TX_GAS <= r.value
  {
    var tokens := Wrap(Wrap(data.others * TX_TOKEN_PER_NON_ZERO_BYTE) + data.zeros);
    if (MAX_UINT64 - TX_GAS) / TX_COST_FLOOR_PER_TOKEN < tokens then None
    else Some(TX_GAS + tokens * TX_COST_FLOOR_PER_TOKEN)
  }

  /** The token count wraps: the floor is computed for the count modulo 2^64 and refused if that floor does not fit, and
      so it is right, when there is one, exactly if the count fits. */
  lemma FloorCostIs(data: Data)
    ensures var r, tokens := FloorCost(data), Tokens(data);
            && (r.Some? <==> TX_GAS + Wrap(tokens) * TX_COST_FLOOR_PER_TOKEN <= MAX_UINT64)
            && (r.Some? ==> r.value == TX_GAS + Wrap(tokens) * TX_COST_FLOOR_PER_TOKEN)
            && (r.Some? ==> (r.value == TX_GAS + tokens * TX_COST_FLOOR_PER_TOKEN <==> tokens <= MAX_UINT64))
  {
    WrapAdds(data.others * TX_TOKEN_PER_NON_ZERO_BYTE, data.zeros);
    assert Wrap(Tokens(data)) <= Tokens(data);
  }

  /** 2^62 bytes that are not zero have no floor beyond that of no data at all. */
  lemma FloorWraps()
    ensures FloorCost(Bytes(0, 0x4000_0000_0000_0000)) == Some(TX_GAS)
  {
  }

  /** calcRefund: the counter, capped to a fraction of the gas used. */
  function Refund(env: Env, used: nat, counter: nat): (r: nat)
    ensures r <= counter && r <= used / (if env.london then 5 else 2)
    ensures r == counter || r == used / (if env.london then 5 else 2)
  {
    var cap := used / (if env.london then REFUND_QUOTIENT_EIP3529 else REFUND_QUOTIENT);
    if counter < cap then counter else cap
  }

  /** The gas left after the refund and the data floor. */
  function GasLeft(env: Env, initial: Uint64, left: Uint64, counter: nat, floor: nat): (gas: Uint64)
    requires left <= initial && floor <= initial
    ensures gas <= initial
    ensures env.kotaro ==> floor <= initial - gas
    ensures initial - gas <= PeakGas(env, initial, left, floor) <= initial
    ensures !env.kotaro || floor <= initial - left - Refund(env, initial - left, counter) ==>
              gas == left + Refund(env, initial - left, counter)
  {
    var refunded := left + Refund(env, initial - left, counter);
    if env.kotaro && initial - refunded < floor then initial - floor else refunded
  }

  /** The gas needed to run the message, before refunds. */
  function PeakGas(env: Env, initial: Uint64, left: Uint64, floor: nat): (peak: Uint64)
    requires left <= initial && floor <= initial
  {
    if env.kotaro && initial - left < floor then floor else initial - left
  }

  /** What the two come to: what was spent, less the refund, but not less than the floor; and what was spent, but not
      less than the floor. */
  lemma GasLeftIs(env: Env, initial: Uint64, left: Uint64, counter: nat, floor: nat)
    requires left <= initial && floor <= initial && (!env.kotaro ==> floor == 0)
    ensures var spent := initial - left;
            && initial - GasLeft(env, initial, left, counter, floor)
               == Max(spent - Min(counter, spent / (if env.london then 5 else 2)), floor)
            && PeakGas(env, initial, left, floor) == Max(spent, floor)
  {
  }

  lemma GasBounds(env: Env, initial: Uint64, left: Uint64, counter: nat, floor: nat)
    requires left <= initial && floor <= initial && (!env.kotaro ==> floor == 0)
    ensures var used, peak := initial - GasLeft(env, initial, left, counter, floor), PeakGas(env, initial, left, floor);
            && floor <= used <= peak <= initial && initial - left <= peak
            && (env.london ==> peak - peak / 5 <= used)
  {
    GasLeftIs(env, initial, left, counter, floor);
  }

  // ---------------------------------------------------------------- money

  /** The conversion of an unsigned to a signed 64-bit number. */
  function ToInt64(x: Uint64): (r: int)
    ensures -0x8000_0000_0000_0000 <= r < 0x8000_0000_0000_0000 && (r == x || r + MAX_UINT64 + 1 == x)
  {
    if x < 0x8000_0000_0000_0000 then x else x - MAX_UINT64 - 1
  }

  function EffectiveTip(env: Env, m: Message): (tip: int)
  {
    if env.london then Min(m.gasTipCap, m.gasFeeCap - env.baseFee) else m.gasPrice
  }

  function FeeRecipient(env: Env): (a: Address)
  {
    if env.consortiumV2 then env.systemAddress else env.coinbase
  }

  /** The tip and the treasury's share for the gas used. */
  function Fees(env: Env, w: World, m: Message, used: Uint64): (r: World)
  {
    var tipped := w.Credit(FeeRecipient(env), used * EffectiveTip(env, m));
    if env.venoki && env.treasury.Some? then tipped.Credit(env.treasury.value, ToInt64(used) * env.baseFee) else tipped
  }

  /** returnGas and the fees, for a message that leaves `gas` of its limit. */
  function Paid(env: Env, w: World, m: Message, gas: Uint64): (r: World)
    requires gas <= m.gasLimit
  {
    Fees(env, w.Credit(m.payer, gas * m.gasPrice), m, m.gasLimit - gas)
  }

  lemma PaidTotal(env: Env, w: World, m: Message, gas: Uint64)
    requires gas <= m.gasLimit
    ensures Total(Paid(env, w, m, gas).accounts) ==
            Total(w.accounts) + gas * m.gasPrice + (m.gasLimit - gas) * EffectiveTip(env, m)
            + (if env.venoki && env.treasury.Some? then ToInt64(m.gasLimit - gas) * env.baseFee else 0)
  {
    var used := m.gasLimit - gas;
    var w1 := w.Credit(m.payer, gas * m.gasPrice);
    var w2 := w1.Credit(FeeRecipient(env), used * EffectiveTip(env, m));
    TotalCredit(w, m.payer, gas * m.gasPrice);
    TotalCredit(w1, FeeRecipient(env), used * EffectiveTip(env, m));
    if env.venoki && env.treasury.Some? { TotalCredit(w2, env.treasury.value, ToInt64(used) * env.baseFee); }
  }

  /** Who gets what: every account gets the shares of the parts it plays, however many those are. */
  lemma Shares(env: Env, w: World, m: Message, gas: Uint64, a: Address)
    requires gas <= m.gasLimit
    ensures Paid(env, w, m, gas).Balance(a) ==
            w.Balance(a)
            + (if a == m.payer then gas * m.gasPrice else 0)
            + (if a != (if env.consortiumV2 then env.systemAddress else env.coinbase) then 0
               else if env.london then (m.gasLimit - gas) * Min(m.gasTipCap, m.gasFeeCap - env.baseFee)
               else (m.gasLimit - gas) * m.gasPrice)
            + (if env.venoki && env.treasury == Some(a) then ToInt64(m.gasLimit - gas) * env.baseFee else 0)
  {
  }

  /** The money that an applied message destroys. */
  function Burn(env: Env, m: Message, used: Uint64): (amount: int)
  {
    (if env.venoki && env.treasury.Some? then used * env.baseFee - ToInt64(used) * env.baseFee else used * env.baseFee)
    + (if env.treasury.Some? then 0 else BlobFee(env, m))
  }

  lemma FeesAddUp(limit: int, gas: int, price: int, tip: int, base: int)
    requires price == base + tip
    ensures -(limit * price) + gas * price + (limit - gas) * tip == -((limit - gas) * base)
  {
  }

  /** What the design means an applied message to destroy: the base fee, unless Venoki sends it to a treasury, and
      the blob fee, unless there is a treasury. */
  function IntendedBurn(env: Env, m: Message, used: Uint64): (amount: int)
  {
    (if env.venoki && env.treasury.Some? then 0 else used * env.baseFee)
    + (if env.treasury.Some? then 0 else BlobFee(env, m))
  }

  /** The treasury's share passes through a signed 64-bit number: it is right exactly below 2^63 gas. */
  lemma BurnIsIntended(env: Env, m: Message, used: Uint64)
    ensures Burn(env, m, used) == IntendedBurn(env, m, used) <==>
            !(env.venoki && env.treasury.Some?) || used < 0x8000_0000_0000_0000 || env.baseFee == 0
  {
    if env.venoki && env.treasury.Some? && 0x8000_0000_0000_0000 <= used && 0 < env.baseFee {
      MulMono(MAX_UINT64 + 1, 1, env.baseFee);
      assert used * env.baseFee - ToInt64(used) * env.baseFee == (MAX_UINT64 + 1) * env.baseFee;
    }
  }

  /** At 2^63 gas and a base fee of one, the treasury pays 2^63 instead of getting it, and twice that is destroyed. */
  lemma TreasuryPays(env: Env, w: World, m: Message, treasury: Address)
    requires env.venoki && env.treasury == Some(treasury) && env.baseFee == 1 && m.gasLimit == 0x8000_0000_0000_0000
    requires treasury != m.payer && treasury != FeeRecipient(env)
    ensures Paid(env, w, m, 0).Balance(treasury) == w.Balance(treasury) - 0x8000_0000_0000_0000
    ensures IntendedBurn(env, m, m.gasLimit) == 0 && Burn(env, m, m.gasLimit) == MAX_UINT64 + 1
  {
    Shares(env, w, m, 0, treasury);
  }

  // ---------------------------------------------------------------- solvency

  ghost predicate Solvent(w: World)
  {
    forall a :: 0 <= w.Balance(a)
  }

  lemma CreditSolvent(w: World, a: Address, amount: int)
    requires Solvent(w) && 0 <= amount
    ensures Solvent(w.Credit(a, amount))
  {
    forall b
      ensures 0 <= w.Credit(a, amount).Balance(b)
    {
      assert 0 <= w.Balance(b);
    }
  }

  /** Settling leaves nobody in debt, below 2^63 gas. */
  lemma PaidSolvent(env: Env, w: World, m: Message, gas: Uint64)
    requires Solvent(w) && Priced(env, m) && gas <= m.gasLimit
    requires env.london ==> env.baseFee <= m.gasFeeCap
    requires m.gasLimit - gas < 0x8000_0000_0000_0000
    ensures Solvent(Paid(env, w, m, gas))
  {
    var used := m.gasLimit - gas;
    MulMono(gas, 0, m.gasPrice);
    MulMono(used, 0, EffectiveTip(env, m));
    MulMono(used, 0, env.baseFee);
    var w1 := w.Credit(m.payer, gas * m.gasPrice);
    var w2 := w1.Credit(FeeRecipient(env), used * EffectiveTip(env, m));
    CreditSolvent(w, m.payer, gas * m.gasPrice);
    CreditSolvent(w1, FeeRecipient(env), used * EffectiveTip(env, m));
    if env.venoki && env.treasury.Some? { CreditSolvent(w2, env.treasury.value, used * env.baseFee); }
  }

  // ---------------------------------------------------------------- the transition

  datatype Outcome = Outcome(world: World, gas: Uint64, failed: bool)

  /** evm.Call or evm.Create on the message: from a state and an amount of gas to the state and the gas left. */
  type Evm = (World, Uint64) -> Outcome

  ghost predicate Honest(evm: Evm)
  {
    forall w, g :: evm(w, g).gas <= g && (Solvent(w) ==> Solvent(evm(w, g).world))
  }

  /** The state that the EVM is given: gas bought and, for a call, the nonce spent and the authorizations applied. */
  function Started(env: Env, w: World, m: Message): (r: World)
  {
    var bought := Bought(env, w, m);
    if m.to.None? then bought
    else
      var counted := Counted(bought, m.from);
      if m.authList.Some? then SetCode.ApplyAll(counted, env.chainId, m.authList.value) else counted
  }

  function Counted(w: World, a: Address): (r: World)
  {
    w.Put(a, w.Get(a).(nonce := Wrap(w.Get(a).nonce + 1)))
  }

  /** What the EVM finds in an account: after buying gas, the nonce of the sender of a call is one higher, modulo 2^64,
      and every authorization that takes effect counts for its account's nonce and sets its code. */
  lemma StartedAccount(env: Env, w: World, m: Message, a: Address)
    ensures var bought, found := Bought(env, w, m).Get(a), Started(env, w, m).Get(a);
            var nonce := if m.to.Some? && a == m.from then Wrap(bought.nonce + 1) else bought.nonce;
            && found.balance == bought.balance
            && (m.to.None? || m.authList.None? ==> found == bought.(nonce := nonce))
            && (m.to.Some? && m.authList.Some? ==>
                  var applied := SetCode.Effective(Counted(Bought(env, w, m), m.from), env.chainId, m.authList.value);
                  var last := SetCode.LastOf(applied, a);
                  && found.nonce == nonce + SetCode.Uses(applied, a)
                  && (last.None? ==> found.code == bought.code)
                  && (last.Some? ==>
                        found.code == if last.value.address == 0 then NoCode else Delegation(last.value.address)))
  {
    if m.to.Some? && m.authList.Some? {
      var counted := Counted(Bought(env, w, m), m.from);
      SetCode.NonceCounts(counted, env.chainId, m.authList.value, a);
      SetCode.FinalAccount(counted, env.chainId, m.authList.value, a);
    }
  }

  lemma StartedTotal(env: Env, w: World, m: Message)
    ensures Total(Started(env, w, m).accounts) == Total(Bought(env, w, m).accounts)
  {
    var bought := Bought(env, w, m);
    if m.to.Some? {
      var counted := Counted(bought, m.from);
      TotalPut(bought, m.from, counted.Get(m.from));
      if m.authList.Some? { SetCode.TotalUnchanged(counted, env.chainId, m.authList.value); }
    }
  }

  lemma StartedSolvent(env: Env, w: World, m: Message)
    requires Solvent(Bought(env, w, m))
    ensures Solvent(Started(env, w, m))
  {
    var bought := Bought(env, w, m);
    forall a
      ensures 0 <= Started(env, w, m).Balance(a)
    {
      assert 0 <= bought.Balance(a);
      if m.to.Some? && m.authList.Some? {
        SetCode.FinalAccount(Counted(bought, m.from), env.chainId, m.authList.value, a);
      }
    }
  }

  /** Why a message cannot be applied.  That the sender can pay the value is not among the reasons. */
  function Rejection(env: Env, w: World, m: Message, pool: Uint64): (e: Option<Error>)
  {
    var refusal, shortfall := Refusal(env, w, m), Shortfall(w, m);
    if refusal.Some? then refusal
    else if shortfall.Some? then shortfall
    else if pool < m.gasLimit then Some(GasLimitReached)
    else Unfunded(env, m)
  }

  /** The checks after gas is bought. */
  function Unfunded(env: Env, m: Message): (e: Option<Error>)
  {
    UnfundedBy(env, m, IntrinsicCost(env, m), FloorCost(m.data))
  }

  function UnfundedBy(env: Env, m: Message, intrinsic: Option<Uint64>, floor: Option<Uint64>): (e: Option<Error>)
  {
    if intrinsic.None? then Some(GasUintOverflow)
    else if m.gasLimit < intrinsic.value then Some(IntrinsicGas)
    else if env.kotaro && floor.None? then Some(GasUintOverflow)
    else if env.kotaro && m.gasLimit < floor.value then Some(FloorDataGas)
    else if env.shanghai && m.to.None? && MAX_INIT_CODE_SIZE < m.data.zeros + m.data.others
    then Some(MaxInitCodeSizeExceeded)
    else None
  }

  /** The order in which the errors are looked for. */
  function Turn(e: Error): (n: nat)
  {
    match e
    case NonceTooHigh => 0
    case NonceTooLow => 1
    case NonceMax => 2
    case SenderNoEOA => 3
    case FeeCapVeryHigh => 4
    case TipVeryHigh => 5
    case TipAboveFeeCap => 6
    case FeeCapTooLow => 7
    case ExpiredSponsoredTx => 8
    case DifferentFeeCapTipCap => 9
    case BlobTxCreate => 10
    case MissingBlobHashes => 11
    case InvalidBlobVersion => 12
    case BlobFeeCapTooLow => 13
    case SetCodeTxCreate => 14
    case EmptyAuthList => 15
    case InsufficientPayerFunds => 16
    case InsufficientSenderFunds => 17
    case InsufficientFunds => 18
    case GasLimitReached => 19
    case GasUintOverflow => 20
    case IntrinsicGas => 21
    case FloorDataGas => 22
    case InsufficientFundsForTransfer => 23
    case MaxInitCodeSizeExceeded => 24
  }

  /** What each error says of the message: about the sender's account, */
  predicate AccountOffends(w: World, m: Message, e: Error)
  {
    var account := w.Get(m.from);
    !m.skipAccountChecks &&
    match e
    case NonceTooHigh => account.nonce < m.nonce
    case NonceTooLow => m.nonce < account.nonce
    case NonceMax => account.nonce == MAX_UINT64
    case SenderNoEOA => account.code.Contract?
    case _ => false
  }

  /** the fees, */
  predicate FeeOffends(env: Env, m: Message, e: Error)
  {
    match e
    case FeeCapVeryHigh => env.london && TWO_256 <= m.gasFeeCap
    case TipVeryHigh => env.london && TWO_256 <= m.gasTipCap
    case TipAboveFeeCap => env.london && m.gasFeeCap < m.gasTipCap
    case FeeCapTooLow => env.london && m.gasFeeCap < env.baseFee
    case ExpiredSponsoredTx => m.payer != m.from && 0 < m.expiredTime <= env.time
    case DifferentFeeCapTipCap => m.payer != m.from && !env.venoki && m.gasTipCap != m.gasFeeCap
    case _ => false
  }

  /** blobs and authorizations, */
  predicate ListOffends(env: Env, m: Message, e: Error)
  {
    match e
    case BlobTxCreate => m.blobs.Some? && m.to.None?
    case MissingBlobHashes => m.blobs == Some([])
    case InvalidBlobVersion => m.blobs.Some? && false in m.blobs.value
    case BlobFeeCapTooLow => env.cancun && m.blobs.Some? && m.blobs.value != [] && m.blobGasFeeCap < env.blobBaseFee
    case SetCodeTxCreate => m.authList.Some? && m.to.None?
    case EmptyAuthList => m.authList == Some([])
    case _ => false
  }

  /** the balances, */
  predicate FundsOffend(w: World, m: Message, e: Error)
  {
    match e
    case InsufficientPayerFunds => m.payer != m.from && w.Balance(m.payer) < m.gasLimit * m.gasFeeCap
    case InsufficientSenderFunds => m.payer != m.from && w.Balance(m.from) < m.value
    case InsufficientFunds =>
      && m.payer == m.from
      && var blobs := if m.blobs.Some? then |m.blobs.value| * BLOB_GAS_PER_BLOB else 0;
      w.Balance(m.from) < m.gasLimit * m.gasFeeCap + blobs * m.blobGasFeeCap + m.value
    case _ => false
  }

  /** and the gas, where the data alone comes to `sum`, the message with its lists to `cost` and its floor to `floor`.
      The floor is not looked at if the gas limit does not even cover the cost. */
  predicate GasOffends(env: Env, m: Message, sum: nat, cost: nat, floor: nat, e: Error)
  {
    match e
    case GasUintOverflow => MAX_UINT64 < sum || (env.kotaro && cost <= m.gasLimit && MAX_UINT64 < floor)
    case IntrinsicGas => m.gasLimit < cost
    case FloorDataGas => env.kotaro && m.gasLimit < floor
    case MaxInitCodeSizeExceeded => env.shanghai && m.to.None? && MAX_INIT_CODE_SIZE < m.data.zeros + m.data.others
    case _ => false
  }

  predicate Offends(env: Env, w: World, m: Message, pool: Uint64, e: Error)
  {
    || AccountOffends(w, m, e) || FeeOffends(env, m, e) || ListOffends(env, m, e) || FundsOffend(w, m, e)
    || (e.GasLimitReached? && pool < m.gasLimit)
    || GasOffends(env, m, DataSum(env, m), Wrap(DataSum(env, m) + ListSum(m)),
                  TX_GAS + Wrap(Tokens(m.data)) * TX_COST_FLOOR_PER_TOKEN, e)
  }

  lemma AccountRefusalIs(w: World, m: Message, f: Error)
    ensures var e := AccountRefusal(w, m);
            && (e.Some? ==> Turn(e.value) < 4 && AccountOffends(w, m, e.value))
            && (AccountOffends(w, m, f) ==> e.Some? && Turn(e.value) <= Turn(f))
  {
  }

  lemma FeeRefusalIs(env: Env, m: Message, f: Error)
    ensures var e := FeeRefusal(env, m);
            && (e.Some? ==> 4 <= Turn(e.value) < 10 && FeeOffends(env, m, e.value))
            && (FeeOffends(env, m, f) ==> e.Some? && Turn(e.value) <= Turn(f))
  {
  }

  lemma ListRefusalIs(env: Env, m: Message, f: Error)
    ensures var e := ListRefusal(env, m);
            && (e.Some? ==> 10 <= Turn(e.value) < 16 && ListOffends(env, m, e.value))
            && (ListOffends(env, m, f) ==> e.Some? && Turn(e.value) <= Turn(f))
  {
  }

  lemma ShortfallIs(w: World, m: Message, f: Error)
    ensures var e := Shortfall(w, m);
            && (e.Some? ==> 16 <= Turn(e.value) < 19 && FundsOffend(w, m, e.value))
            && (FundsOffend(w, m, f) ==> e.Some? && Turn(e.value) <= Turn(f))
  {
  }

  lemma UnfundedByIs(env: Env, m: Message, intrinsic: Option<Uint64>, floor: Option<Uint64>, sum: nat, cost: nat,
                     least: nat, f: Error)
    requires (intrinsic.Some? <==> sum <= MAX_UINT64) && (intrinsic.Some? ==> intrinsic.value == cost)
    requires (floor.Some? <==> least <= MAX_UINT64) && (floor.Some? ==> floor.value == least)
    ensures var e := UnfundedBy(env, m, intrinsic, floor);
            && (e.Some? ==> 20 <= Turn(e.value) && GasOffends(env, m, sum, cost, least, e.value))
            && (GasOffends(env, m, sum, cost, least, f) ==> e.Some? && Turn(e.value) <= Turn(f))
  {
  }

  lemma UnfundedIs(env: Env, m: Message, f: Error)
    ensures var e, sum := Unfunded(env, m), DataSum(env, m);
            var cost, least := Wrap(sum + ListSum(m)), TX_GAS + Wrap(Tokens(m.data)) * TX_COST_FLOOR_PER_TOKEN;
            && (e.Some? ==> 20 <= Turn(e.value) && GasOffends(env, m, sum, cost, least, e.value))
            && (GasOffends(env, m, sum, cost, least, f) ==> e.Some? && Turn(e.value) <= Turn(f))
  {
    IntrinsicCostIs(env, m);
    FloorCostIs(m.data);
    UnfundedByIs(env, m, IntrinsicCost(env, m), FloorCost(m.data), DataSum(env, m),
                 Wrap(DataSum(env, m) + ListSum(m)), TX_GAS + Wrap(Tokens(m.data)) * TX_COST_FLOOR_PER_TOKEN, f);
  }

  /** A message is turned down for the first error that applies to it, and passes if and only if none does. */
  lemma RejectionIs(env: Env, w: World, m: Message, pool: Uint64, f: Error)
    ensures var e := Rejection(env, w, m, pool);
            && (e.Some? ==> Offends(env, w, m, pool, e.value))
            && (Offends(env, w, m, pool, f) ==> e.Some? && Turn(e.value) <= Turn(f))
  {
    AccountRefusalIs(w, m, f);
    FeeRefusalIs(env, m, f);
    ListRefusalIs(env, m, f);
    ShortfallIs(w, m, f);
    UnfundedIs(env, m, f);
  }

  datatype Result = Applied(usedGas: Uint64, maxUsedGas: Uint64, failed: bool) | Rejected(error: Error)

  /** The floor that a message pays at least. */
  function Floor(env: Env, m: Message): (floor: nat)
  {
    if env.kotaro && FloorCost(m.data).Some? then FloorCost(m.data).value else 0
  }

  /** What the EVM makes of a message that passes the checks. */
  function Ran(env: Env, w: World, m: Message, evm: Evm): (r: Outcome)
    requires Unfunded(env, m).None?
  {
    evm(Started(env, w, m), m.gasLimit - IntrinsicCost(env, m).value)
  }

  predicate BuysGas(env: Env, w: World, m: Message, pool: Uint64)
  {
    Refusal(env, w, m).None? && Shortfall(w, m).None? && m.gasLimit <= pool
  }

  /** The gas used lies between the floor and the limit; the most gas held at once pays the intrinsic cost, and after
      London no more than a fifth of it is refunded. */
  predicate GasAccounted(env: Env, m: Message, r: Result)
    requires Unfunded(env, m).None? && r.Applied?
  {
    && Floor(env, m) <= r.usedGas <= r.maxUsedGas <= m.gasLimit
    && IntrinsicCost(env, m).value <= r.maxUsedGas
    && (env.london ==> r.maxUsedGas - r.maxUsedGas / 5 <= r.usedGas)
  }

  /** The gas used, from what the EVM left: what was spent, less the refund counter or the share of it that may be
      refunded, but not less than the floor. */
  predicate GasSettled(env: Env, m: Message, ran: Outcome, usedGas: nat)
  {
    && ran.gas <= m.gasLimit
    && var spent := m.gasLimit - ran.gas;
    usedGas == Max(spent - Min(ran.world.refund, spent / (if env.london then 5 else 2)), DataFloor(env, m))
  }

  /** EIP-7623, with the count of tokens modulo 2^64. */
  function DataFloor(env: Env, m: Message): (floor: nat)
  {
    if env.kotaro then TX_GAS + Wrap(Tokens(m.data)) * TX_COST_FLOOR_PER_TOKEN else 0
  }

  /** The most gas held at once: what was spent, but not less than the floor. */
  predicate PeakSettled(env: Env, m: Message, ran: Outcome, maxUsedGas: nat)
  {
    ran.gas <= m.gasLimit && maxUsedGas == Max(m.gasLimit - ran.gas, DataFloor(env, m))
  }

  /** The EVM ran on the message's gas, and the money in the world changed by what the EVM did and by the burn,
      whoever sender, payer, coinbase and treasury are. */
  ghost predicate MoneyAccounted(env: Env, w: World, m: Message, evm: Evm, r: Result, after: World)
    requires Unfunded(env, m).None? && r.Applied? && r.usedGas <= m.gasLimit
  {
    var ran := Ran(env, w, m, evm);
    && r.failed == ran.failed
    && after == Paid(env, ran.world, m, m.gasLimit - r.usedGas)
    && Total(after.accounts) - Total(w.accounts) ==
       Total(ran.world.accounts) - Total(Started(env, w, m).accounts) - Burn(env, m, r.usedGas)
    && (r.usedGas < 0x8000_0000_0000_0000 ==> Solvent(after))
  }

  class StateTransition {
    const gp: GasPool
    const env: Env
    const m: Message
    var gas: Uint64
    var initialGas: Uint64
    var world: World

    constructor (gp: GasPool, env: Env, m: Message, w: World)
      ensures this.gp == gp && this.env == env && this.m == m && world == w && gas == 0
    {
      this.gp, this.env, this.m, this.world, this.gas, this.initialGas := gp, env, m, w, 0, 0;
    }

    method BuyGas() returns (e: Option<Error>)
      requires gas == 0
      modifies this, gp
      ensures e == var shortfall := Shortfall(old(world), m);
                   if shortfall.Some? then shortfall
                   else if old(gp.gas) < m.gasLimit then Some(GasLimitReached) else None
      ensures e.Some? ==> world == old(world) && gp.gas == old(gp.gas)
      ensures e.None? ==> && world == Bought(env, old(world), m)
                          && gp.gas == old(gp.gas) - m.gasLimit && gas == initialGas == m.gasLimit
    {
      var fee, blobFee := m.gasLimit * m.gasPrice, 0;
      var check := m.gasLimit * m.gasFeeCap;
      if m.payer != m.from {
        if world.Balance(m.payer) < check { return Some(InsufficientPayerFunds); }
        if world.Balance(m.from) < m.value { return Some(InsufficientSenderFunds); }
      } else {
        if m.blobs.Some? && 0 < BlobGas(m) {
          check := check + BlobGas(m) * m.blobGasFeeCap;
          blobFee := BlobGas(m) * env.blobBaseFee;
          fee := fee + blobFee;
        }
        check := check + m.value;
        if world.Balance(m.from) < check { return Some(InsufficientFunds); }
      }
      var ok := gp.SubGas(m.gasLimit);
      if !ok { return Some(GasLimitReached); }
      gas := gas + m.gasLimit;
      initialGas := m.gasLimit;
      if env.treasury.Some? && 0 < blobFee {
        world := world.Credit(env.treasury.value, blobFee);
      }
      world := world.Credit(m.payer, -fee);
      return None;
    }

    /** The checks and the charge between buying gas and running the message. */
    method Charge() returns (e: Option<Error>, floor: nat)
      requires gas == m.gasLimit && m.value <= world.Balance(m.from)
      modifies this`gas
      ensures e == Unfunded(env, m)
      ensures e.None? ==> gas == m.gasLimit - IntrinsicCost(env, m).value && floor == Floor(env, m) <= m.gasLimit
    {
      floor := 0;
      var intrinsic := IntrinsicCost(env, m);
      if intrinsic.None? { return Some(GasUintOverflow), 0; }
      if gas < intrinsic.value { return Some(IntrinsicGas), 0; }
      if env.kotaro {
        var cost := FloorCost(m.data);
        if cost.None? { return Some(GasUintOverflow), 0; }
        floor := cost.value;
        if m.gasLimit < floor { return Some(FloorDataGas), floor; }
      }
      gas := gas - intrinsic.value;
      if 0 < m.value && world.Balance(m.from) < m.value { return Some(InsufficientFundsForTransfer), floor; }
      if env.shanghai && m.to.None? && MAX_INIT_CODE_SIZE < m.data.zeros + m.data.others {
        return Some(MaxInitCodeSizeExceeded), floor;
      }
      return None, floor;
    }

    /** The nonce, the authorizations and the EVM. */
    method Execute(evm: Evm) returns (failed: bool)
      modifies this
      ensures initialGas == old(initialGas)
      ensures var w := old(world);
              var counted := if m.to.None? then w else Counted(w, m.from);
              var started := if m.to.Some? && m.authList.Some?
                             then SetCode.ApplyAll(counted, env.chainId, m.authList.value) else counted;
              evm(started, old(gas)) == Outcome(world, gas, failed)
    {
      if m.to.Some? {
        world := Counted(world, m.from);
        if m.authList.Some? {
          world := SetCode.ApplyAuthorizations(world, env.chainId, m.authList.value);
        }
      }
      var out := evm(world, gas);
      world, gas, failed := out.world, out.gas, out.failed;
    }

    /** The refund and the data floor. */
    method SettleGas(floor: nat) returns (peak: Uint64)
      requires gas <= initialGas && floor <= initialGas
      modifies this`gas
      ensures gas == GasLeft(env, initialGas, old(gas), world.refund, floor)
      ensures peak == PeakGas(env, initialGas, old(gas), floor)
    {
      peak := initialGas - gas;
      gas := gas + Refund(env, initialGas - gas, world.refund);
      if env.kotaro {
        if initialGas - gas < floor {
          gas := initialGas - floor;
        }
        if peak < floor {
          peak := floor;
        }
      }
    }

    /** returnGas; the pool cannot overflow, since it gets back no more than it gave. */
    method ReturnGas()
      requires gp.gas + gas <= MAX_UINT64
      modifies this`world, gp
      ensures world == old(world).Credit(m.payer, gas * m.gasPrice)
      ensures gp.gas == old(gp.gas) + gas
    {
      world := world.Credit(m.payer, gas * m.gasPrice);
      var _ := gp.AddGas(gas);
    }

    /** The tip and the treasury's share. */
    method PayFees()
      requires gas <= initialGas == m.gasLimit
      modifies this`world
      ensures world == Fees(env, old(world), m, m.gasLimit - gas)
    {
      var tip := m.gasPrice;
      if env.london {
        tip := Min(m.gasTipCap, m.gasFeeCap - env.baseFee);
      }
      var used: Uint64 := initialGas - gas;
      world := world.Credit(FeeRecipient(env), used * tip);
      if env.venoki && env.treasury.Some? {
        world := world.Credit(env.treasury.value, ToInt64(used) * env.baseFee);
      }
    }

    method Settle(floor: nat) returns (peak: Uint64)
      requires gas <= initialGas == m.gasLimit && floor <= initialGas && gp.gas + initialGas <= MAX_UINT64
      modifies this`gas, this`world, gp
      ensures gas == GasLeft(env, initialGas, old(gas), old(world).refund, floor)
      ensures peak == PeakGas(env, initialGas, old(gas), floor)
      ensures world == Paid(env, old(world), m, gas)
      ensures gp.gas == old(gp.gas) + gas
    {
      peak := SettleGas(floor);
      ReturnGas();
      PayFees();
    }

    /** From the charge to the end: running the message and settling it. */
    method Run(evm: Evm, floor: nat, ghost w: World) returns (r: Result)
      requires Ordered(env) && Priced(env, m) && Honest(evm) && Solvent(w)
      requires Refusal(env, w, m).None? && Shortfall(w, m).None? && Unfunded(env, m).None?
      requires world == Bought(env, w, m) && gas == m.gasLimit - IntrinsicCost(env, m).value
      requires initialGas == m.gasLimit && floor == Floor(env, m) && gp.gas + m.gasLimit <= MAX_UINT64
      modifies this, gp
      ensures r.Applied? && GasAccounted(env, m, r)
      ensures GasSettled(env, m, Ran(env, w, m, evm), r.usedGas)
      ensures PeakSettled(env, m, Ran(env, w, m, evm), r.maxUsedGas)
      ensures gp.gas == old(gp.gas) + m.gasLimit - r.usedGas
      ensures MoneyAccounted(env, w, m, evm, r, world)
    {
      var failed := Execute(evm);
      ghost var ran := Outcome(world, gas, failed);
      assert Ran(env, w, m, evm) == ran;
      var peak := Settle(floor);
      r := Applied(initialGas - gas, peak, failed);
      GasMoved(env, m, ran, r);
      MoneyMoved(env, w, m, evm, ran, r, gas, world);
    }

    /** A message is applied exactly when no check but the last one of the balance speaks against it.  Then the block's
        gas pool loses exactly the gas used.  A message turned down before its gas is bought leaves everything as it
        was; one turned down later has lost its whole gas limit. */
    method TransitionDb(evm: Evm) returns (r: Result)
      requires gas == 0
      requires Ordered(env) && Priced(env, m) && Honest(evm) && Solvent(world)
      modifies this, gp
      ensures r.Rejected? <==> Rejection(env, old(world), m, old(gp.gas)).Some?
      ensures r.Rejected? ==> Rejection(env, old(world), m, old(gp.gas)) == Some(r.error)
      ensures r.Rejected? ==>
                if BuysGas(env, old(world), m, old(gp.gas))
                then gp.gas == old(gp.gas) - m.gasLimit && world == Bought(env, old(world), m)
                else gp.gas == old(gp.gas) && world == old(world)
      ensures r.Applied? ==> gp.gas == old(gp.gas) - r.usedGas
      ensures r.Applied? ==> GasAccounted(env, m, r)
      ensures r.Applied? ==>
                var ran := Ran(env, old(world), m, evm);
                GasSettled(env, m, ran, r.usedGas) && PeakSettled(env, m, ran, r.maxUsedGas)
      ensures r.Applied? ==> MoneyAccounted(env, old(world), m, evm, r, world)
    {
      var refusal := Refusal(env, world, m);
      if refusal.Some? { return Rejected(refusal.value); }
      var e := BuyGas();
      if e.Some? { return Rejected(e.value); }
      BuyingIsAffordable(env, old(world), m);
      var floor;
      e, floor := Charge();
      if e.Some? { return Rejected(e.value); }
      r := Run(evm, floor, old(world));
    }
  }

  /** Buying and settling take from the world exactly the burn. */
  lemma SettlementTotal(env: Env, w: World, ran: World, m: Message, used: Uint64)
    requires Ordered(env) && Priced(env, m) && used <= m.gasLimit
    requires env.london ==> env.baseFee <= m.gasFeeCap
    ensures Total(Paid(env, ran, m, m.gasLimit - used).accounts) - Total(w.accounts) ==
            Total(ran.accounts) - Total(Bought(env, w, m).accounts) - Burn(env, m, used)
  {
    var gas := m.gasLimit - used;
    BuyingTotal(env, w, m);
    PaidTotal(env, ran, m, gas);
    if env.london { PriceSplits(env, m); }
    FeesAddUp(m.gasLimit, gas, m.gasPrice, EffectiveTip(env, m), env.baseFee);
  }

  lemma FloorIs(env: Env, m: Message)
    requires Unfunded(env, m).None?
    ensures Floor(env, m) == DataFloor(env, m) <= m.gasLimit && (!env.kotaro ==> Floor(env, m) == 0)
  {
    FloorCostIs(m.data);
  }

  lemma GasMoved(env: Env, m: Message, ran: Outcome, r: Result)
    requires Unfunded(env, m).None? && ran.gas <= m.gasLimit - IntrinsicCost(env, m).value && r.Applied?
    requires Floor(env, m) <= m.gasLimit
    requires r.usedGas == m.gasLimit - GasLeft(env, m.gasLimit, ran.gas, ran.world.refund, Floor(env, m))
    requires r.maxUsedGas == PeakGas(env, m.gasLimit, ran.gas, Floor(env, m))
    ensures GasAccounted(env, m, r) && GasSettled(env, m, ran, r.usedGas) && PeakSettled(env, m, ran, r.maxUsedGas)
  {
    FloorIs(env, m);
    GasBounds(env, m.gasLimit, ran.gas, ran.world.refund, Floor(env, m));
    GasLeftIs(env, m.gasLimit, ran.gas, ran.world.refund, Floor(env, m));
  }

  lemma MoneyMoved(env: Env, w: World, m: Message, evm: Evm, ran: Outcome, r: Result, gas: Uint64, after: World)
    requires Ordered(env) && Priced(env, m) && Honest(evm) && Solvent(w)
    requires Refusal(env, w, m).None? && Shortfall(w, m).None? && Unfunded(env, m).None?
    requires ran == Ran(env, w, m, evm) && r.Applied? && r.failed == ran.failed
    requires gas <= m.gasLimit && r.usedGas == m.gasLimit - gas && after == Paid(env, ran.world, m, gas)
    ensures MoneyAccounted(env, w, m, evm, r, after)
  {
    assert m.gasLimit - r.usedGas == gas;
    SettlementTotal(env, w, ran.world, m, r.usedGas);
    StartedTotal(env, w, m);
    BuyingIsAffordable(env, w, m);
    StartedSolvent(env, w, m);
    if r.usedGas < 0x8000_0000_0000_0000 { PaidSolvent(env, ran.world, m, gas); }
  }
}
