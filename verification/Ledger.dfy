/** Transaction replay: what a list of transactions does to each account, and that nothing is made or lost. */
module Ledger {
  import opened Options
  import opened Sums

  type Address = nat

  /** Missing fields are None; addresses are already normalised. */
  datatype Tx = Tx(sender: Option<Address>, recipient: Option<Address>, value: Option<int>, nonce: nat,
                   kind: int, gasLimit: nat, gasPrice: Option<int>, maxFee: Option<int>, maxPriorityFee: Option<int>,
                   block: nat)

  /** Fee addresses of a block; an empty byte string is None. */
  datatype Header = Header(coinbase: Option<Address>, zkvm: Option<Address>)

  type Headers = map<nat, Header>

  function GasFee(tx: Tx): int {
    if tx.gasLimit == 0 then 0
    else if tx.kind == 0 then (if tx.gasPrice.Some? then tx.gasLimit * tx.gasPrice.value else 0)
    else if tx.kind == 1 || tx.kind == 2 then
      (if tx.maxFee.Some? then tx.gasLimit * tx.maxFee.value
       else if tx.maxPriorityFee.Some? then tx.gasLimit * tx.maxPriorityFee.value
       else 0)
    else 0
  }

  function ZkvmShare(fee: int): int {
    fee / 2
  }

  function CoinbaseShare(fee: int): int {
    fee / 2 + fee % 2
  }

  function Moved(tx: Tx): int {
    if tx.value.Some? && tx.value.value > 0 then tx.value.value else 0
  }

  function FeeAddresses(headers: Headers, tx: Tx): Header {
    if tx.block in headers then headers[tx.block] else Header(None, None)
  }

  /** Net effect of one transaction on one account, over its up to four roles. */
  function Effect(a: Address, tx: Tx, headers: Headers): int {
    var fees := FeeAddresses(headers, tx);
    (if tx.sender == Some(a) then -GasFee(tx) - Moved(tx) else 0) +
    (if tx.recipient == Some(a) then Moved(tx) else 0) +
    (if fees.coinbase == Some(a) then CoinbaseShare(GasFee(tx)) else 0) +
    (if fees.zkvm == Some(a) then ZkvmShare(GasFee(tx)) else 0)
  }

  function EffectOn(a: Address, headers: Headers): Tx -> int {
    (tx: Tx) => Effect(a, tx, headers)
  }

  /** Net balance change of account a over a list of transactions. */
  function Replay(a: Address, txs: seq<Tx>, headers: Headers): int {
    SumBy(txs, EffectOn(a, headers))
  }

  function SpentOn(a: Address): Tx -> int {
    (tx: Tx) => if tx.sender == Some(a) then GasFee(tx) else 0
  }

  // ----- what one transaction costs, from its fields -----

  /** The gas limit bought at some price. */
  function Bought(tx: Tx, price: int): int {
    tx.gasLimit * price
  }

  /**
   A dynamic-fee transaction is charged the maximal fee, an upper bound for every price it can end up with; the
   priority fee counts only if no maximal fee is given; a legacy one is charged its gas price; no price, no gas
   limit or an unknown kind costs nothing.
   */
  ghost predicate Charged(tx: Tx, fee: int) {
    var dynamic := tx.kind == 1 || tx.kind == 2;
    (tx.gasLimit == 0 || tx.kind < 0 || tx.kind > 2 ==> fee == 0) &&
    (tx.kind == 0 ==> fee == Bought(tx, if tx.gasPrice.Some? then tx.gasPrice.value else 0)) &&
    (dynamic && tx.maxFee.Some? ==>
       fee == Bought(tx, tx.maxFee.value) && forall price: int :: price <= tx.maxFee.value ==> Bought(tx, price) <= fee) &&
    (dynamic && tx.maxFee.None? ==> fee == Bought(tx, if tx.maxPriorityFee.Some? then tx.maxPriorityFee.value else 0))
  }

  /**
   The balance change of account a by one transaction: a sender pays fee and value, a recipient gets the value, and
   the block's two fee accounts share the fee evenly, an odd unit going to the coinbase.  Roles may coincide.
   */
  ghost predicate Moves(a: Address, tx: Tx, headers: Headers, change: int) {
    exists fee, toCoinbase, toZkvm :: ChargedAndSplit(a, tx, headers, change, fee, toCoinbase, toZkvm)
  }

  ghost predicate ChargedAndSplit(a: Address, tx: Tx, headers: Headers, change: int, fee: int, toCoinbase: int, toZkvm: int) {
    var value := if tx.value.Some? && tx.value.value > 0 then tx.value.value else 0;
    Charged(tx, fee) && toCoinbase + toZkvm == fee && 0 <= toCoinbase - toZkvm <= 1 &&
    change ==
      (if tx.sender == Some(a) then -fee - value else 0) + (if tx.recipient == Some(a) then value else 0) +
      (if tx.block in headers && headers[tx.block].coinbase == Some(a) then toCoinbase else 0) +
      (if tx.block in headers && headers[tx.block].zkvm == Some(a) then toZkvm else 0)
  }

  lemma BoughtMonotone(tx: Tx, low: int, high: int)
    requires low <= high
    ensures Bought(tx, low) <= Bought(tx, high)
  {
  }

  lemma GasFeeIsCharged(tx: Tx)
    ensures Charged(tx, GasFee(tx))
  {
    if tx.maxFee.Some? {
      forall price: int | price <= tx.maxFee.value ensures Bought(tx, price) <= Bought(tx, tx.maxFee.value) {
        BoughtMonotone(tx, price, tx.maxFee.value);
      }
    }
  }

  /** Replaying one transaction charges and moves what its fields say. */
  lemma OneTransaction(a: Address, tx: Tx, headers: Headers)
    ensures Moves(a, tx, headers, Replay(a, [tx], headers))
    ensures tx.sender == Some(a) ==> Charged(tx, SumBy([tx], SpentOn(a)))
    ensures tx.sender != Some(a) ==> SumBy([tx], SpentOn(a)) == 0
  {
    GasFeeIsCharged(tx);
    assert [tx] == [] + [tx];
    SumByPush([], tx, EffectOn(a, headers));
    SumByPush([], tx, SpentOn(a));
    assert ChargedAndSplit(a, tx, headers, Effect(a, tx, headers), GasFee(tx), CoinbaseShare(GasFee(tx)), ZkvmShare(GasFee(tx)));
  }

  datatype AccountState = AccountState(balance: int, nonce: nat, gasSpent: int)

  /** The replay loop: balance, highest outgoing nonce and gas spent of one account. */
  method CalculateAccountState(a: Address, txs: seq<Tx>, headers: Headers) returns (state: AccountState)
    ensures state.balance == Replay(a, txs, headers)
    ensures state.gasSpent == SumBy(txs, SpentOn(a))
    ensures |txs| == 1 ==> Moves(a, txs[0], headers, state.balance)
    ensures |txs| == 1 && txs[0].sender == Some(a) ==> Charged(txs[0], state.gasSpent)
    ensures forall i :: 0 <= i < |txs| && txs[i].sender == Some(a) ==> txs[i].nonce <= state.nonce
    ensures state.nonce == 0 || exists i :: 0 <= i < |txs| && txs[i].sender == Some(a) && txs[i].nonce == state.nonce
  {
    var balance, nonce, gasSpent := 0, 0, 0;
    for i := 0 to |txs|
      invariant balance == Replay(a, txs[..i], headers) && gasSpent == SumBy(txs[..i], SpentOn(a)) && nonce >= 0
      invariant forall k :: 0 <= k < i && txs[k].sender == Some(a) ==> txs[k].nonce <= nonce
      invariant nonce == 0 || exists k :: 0 <= k < i && txs[k].sender == Some(a) && txs[k].nonce == nonce
    {
      var tx := txs[i];
      assert txs[..i + 1] == txs[..i] + [tx];
      SumByPush(txs[..i], tx, EffectOn(a, headers));
      SumByPush(txs[..i], tx, SpentOn(a));
      var isOutgoing, isIncoming := tx.sender == Some(a), tx.recipient == Some(a);
      var fee := GasFee(tx);
      var half, remainder := fee / 2, fee % 2;
      var coinbaseFee, zkvmFee := half + remainder, half;
      var fees := FeeAddresses(headers, tx);
      if isOutgoing {
        if tx.nonce > nonce {
          nonce := tx.nonce;
        }
        gasSpent := gasSpent + fee;
        balance := balance - fee;
      }
      if tx.value.Some? && tx.value.value > 0 {
        if isOutgoing {
          balance := balance - tx.value.value;
        }
        if isIncoming {
          balance := balance + tx.value.value;
        }
      }
      if fees.coinbase == Some(a) {
        balance := balance + coinbaseFee;
      }
      if fees.zkvm == Some(a) {
        balance := balance + zkvmFee;
      }
    }
    assert txs[..|txs|] == txs;
    if |txs| == 1 {
      assert txs == [txs[0]];
      OneTransaction(a, txs[0], headers);
    }
    state := AccountState(balance, nonce, gasSpent);
  }

  // ----- totals over a finite set of accounts -----

  ghost function Pick(s: set<Address>): (a: Address)
    requires s != {}
    ensures a in s
  {
    var a :| a in s;
    a
  }

  ghost function Total(s: set<Address>, f: Address -> int): int
    decreases |s|
  {
    if s == {} then 0 else f(Pick(s)) + Total(s - {Pick(s)}, f)
  }

  lemma {:induction false} TotalAdds(s: set<Address>, f: Address -> int, g: Address -> int, h: Address -> int)
    requires forall a :: a in s ==> f(a) == g(a) + h(a)
    ensures Total(s, f) == Total(s, g) + Total(s, h)
    decreases |s|
  {
    if s != {} {
      TotalAdds(s - {Pick(s)}, f, g, h);
    }
  }

  /** What one role of one transaction gives to each account. */
  function Role(who: Option<Address>, amount: int): Address -> int {
    (a: Address) => if who == Some(a) then amount else 0
  }

  lemma {:induction false} TotalRole(s: set<Address>, who: Option<Address>, amount: int)
    ensures Total(s, Role(who, amount)) == if who.Some? && who.value in s then amount else 0
    decreases |s|
  {
    if s != {} {
      TotalRole(s - {Pick(s)}, who, amount);
    }
  }

  function EffectOf(tx: Tx, headers: Headers): Address -> int {
    (a: Address) => Effect(a, tx, headers)
  }

  function ReplayOf(txs: seq<Tx>, headers: Headers): Address -> int {
    (a: Address) => Replay(a, txs, headers)
  }

  predicate Contains(s: set<Address>, who: Option<Address>) {
    who.Some? ==> who.value in s
  }

  /** s holds every account that plays a role in tx. */
  predicate Participants(s: set<Address>, tx: Tx, headers: Headers) {
    Contains(s, tx.sender) && Contains(s, tx.recipient) &&
    Contains(s, FeeAddresses(headers, tx).coinbase) && Contains(s, FeeAddresses(headers, tx).zkvm)
  }

  /**
   What a transaction creates or destroys: value without a sender is minted, without a recipient burned;
   a gas share without an address is burned, gas without a payer is minted.
   */
  function Imbalance(tx: Tx, headers: Headers): int {
    var fees := FeeAddresses(headers, tx);
    (if tx.sender.Some? then -GasFee(tx) - Moved(tx) else 0) + (if tx.recipient.Some? then Moved(tx) else 0) +
    (if fees.coinbase.Some? then CoinbaseShare(GasFee(tx)) else 0) + (if fees.zkvm.Some? then ZkvmShare(GasFee(tx)) else 0)
  }

  function ImbalanceIn(headers: Headers): Tx -> int {
    (tx: Tx) => Imbalance(tx, headers)
  }

  lemma EffectTotal(s: set<Address>, tx: Tx, headers: Headers)
    requires Participants(s, tx, headers)
    ensures Total(s, EffectOf(tx, headers)) == Imbalance(tx, headers)
  {
    var fees := FeeAddresses(headers, tx);
    var paid, got := Role(tx.sender, -GasFee(tx) - Moved(tx)), Role(tx.recipient, Moved(tx));
    var toCoinbase, toZkvm := Role(fees.coinbase, CoinbaseShare(GasFee(tx))), Role(fees.zkvm, ZkvmShare(GasFee(tx)));
    var traded := (a: Address) => paid(a) + got(a);
    var shared := (a: Address) => toCoinbase(a) + toZkvm(a);
    TotalAdds(s, EffectOf(tx, headers), traded, shared);
    TotalAdds(s, traded, paid, got);
    TotalAdds(s, shared, toCoinbase, toZkvm);
    TotalRole(s, tx.sender, -GasFee(tx) - Moved(tx));
    TotalRole(s, tx.recipient, Moved(tx));
    TotalRole(s, fees.coinbase, CoinbaseShare(GasFee(tx)));
    TotalRole(s, fees.zkvm, ZkvmShare(GasFee(tx)));
  }

  lemma {:induction false} TotalZero(s: set<Address>, f: Address -> int)
    requires forall a :: a in s ==> f(a) == 0
    ensures Total(s, f) == 0
    decreases |s|
  {
    if s != {} {
      TotalZero(s - {Pick(s)}, f);
    }
  }

  /**
   Replaying a list for every account of a set that holds all participants changes the total by exactly what
   the transactions mint or burn, whatever roles coincide and however odd fees split.
   */
  lemma {:induction false} ReplayConserves(s: set<Address>, txs: seq<Tx>, headers: Headers)
    requires forall i :: 0 <= i < |txs| ==> Participants(s, txs[i], headers)
    ensures Total(s, ReplayOf(txs, headers)) == SumBy(txs, ImbalanceIn(headers))
  {
    if txs == [] {
      TotalZero(s, ReplayOf(txs, headers));
    } else {
      ReplayConserves(s, txs[1..], headers);
      EffectTotal(s, txs[0], headers);
      TotalAdds(s, ReplayOf(txs, headers), EffectOf(txs[0], headers), ReplayOf(txs[1..], headers));
    }
  }

  /** A transaction with sender, recipient and both fee addresses. */
  predicate Complete(tx: Tx, headers: Headers) {
    tx.sender.Some? && tx.recipient.Some? && FeeAddresses(headers, tx).coinbase.Some? && FeeAddresses(headers, tx).zkvm.Some?
  }

  /** Complete transactions only move money. */
  lemma CompleteReplayConserves(s: set<Address>, txs: seq<Tx>, headers: Headers)
    requires forall i :: 0 <= i < |txs| ==> Participants(s, txs[i], headers) && Complete(txs[i], headers)
    ensures Total(s, ReplayOf(txs, headers)) == 0
  {
    ReplayConserves(s, txs, headers);
    SumByConstant(txs, ImbalanceIn(headers), 0);
  }

  // ----- replay in pieces and in any order -----

  lemma ReplayConcat(a: Address, xs: seq<Tx>, ys: seq<Tx>, headers: Headers)
    ensures Replay(a, xs + ys, headers) == Replay(a, xs, headers) + Replay(a, ys, headers)
  {
    SumByConcat(xs, ys, EffectOn(a, headers));
  }

  lemma ReplayPermuted(a: Address, xs: seq<Tx>, ys: seq<Tx>, headers: Headers)
    requires multiset(xs) == multiset(ys)
    ensures Replay(a, xs, headers) == Replay(a, ys, headers)
  {
    SumByPermuted(xs, ys, EffectOn(a, headers));
  }

  /** Balances never go below zero. */
  function Clamp(x: int): nat {
    if x < 0 then 0 else x
  }

  /** The balance after reconciling ranges one after the other. */
  function InTurn(balance: nat, a: Address, ranges: seq<seq<Tx>>, headers: Headers): nat {
    if ranges == [] then balance
    else Clamp(InTurn(balance, a, ranges[..|ranges| - 1], headers) + Replay(a, ranges[|ranges| - 1], headers))
  }

  function Joined(ranges: seq<seq<Tx>>): seq<Tx> {
    if ranges == [] then [] else Joined(ranges[..|ranges| - 1]) + ranges[|ranges| - 1]
  }

  /** The balance would be below zero after the first k ranges. */
  predicate Overdrawn(balance: nat, a: Address, ranges: seq<seq<Tx>>, headers: Headers, k: nat)
    requires k <= |ranges|
  {
    balance + Replay(a, Joined(ranges[..k]), headers) < 0
  }

  lemma JoinedLast(a: Address, ranges: seq<seq<Tx>>, headers: Headers)
    requires ranges != []
    ensures Replay(a, Joined(ranges), headers) ==
            Replay(a, Joined(ranges[..|ranges| - 1]), headers) + Replay(a, ranges[|ranges| - 1], headers)
  {
    ReplayConcat(a, Joined(ranges[..|ranges| - 1]), ranges[|ranges| - 1], headers);
  }

  /** Reconciling any number of adjacent ranges in turn never ends below one combined run. */
  lemma {:induction false} RangesInTurn(balance: nat, a: Address, ranges: seq<seq<Tx>>, headers: Headers)
    ensures InTurn(balance, a, ranges, headers) >= balance + Replay(a, Joined(ranges), headers)
  {
    if ranges != [] {
      RangesInTurn(balance, a, ranges[..|ranges| - 1], headers);
      JoinedLast(a, ranges, headers);
    }
  }

  /** It ends exactly where the combined run ends if no range before the last overdraws. */
  lemma {:induction false} RangesInTurnExact(balance: nat, a: Address, ranges: seq<seq<Tx>>, headers: Headers)
    requires ranges != [] && forall k :: 0 < k < |ranges| ==> !Overdrawn(balance, a, ranges, headers, k)
    ensures InTurn(balance, a, ranges, headers) == Clamp(balance + Replay(a, Joined(ranges), headers))
  {
    var n := |ranges| - 1;
    JoinedLast(a, ranges, headers);
    if n > 0 {
      forall k | 0 < k < n ensures !Overdrawn(balance, a, ranges[..n], headers, k) {
        assert ranges[..n][..k] == ranges[..k];
        assert !Overdrawn(balance, a, ranges, headers, k);
      }
      RangesInTurnExact(balance, a, ranges[..n], headers);
      assert !Overdrawn(balance, a, ranges, headers, n);
    }
  }

  /** Two ranges: equality with the combined run exactly when the first does not clamp or the second only takes. */
  lemma TwoRangesEqualIff(balance: nat, a: Address, xs: seq<Tx>, ys: seq<Tx>, headers: Headers)
    ensures Clamp(Clamp(balance + Replay(a, xs, headers)) + Replay(a, ys, headers)) ==
            Clamp(balance + Replay(a, xs + ys, headers)) <==>
            balance + Replay(a, xs, headers) >= 0 || Replay(a, ys, headers) <= 0
  {
    ReplayConcat(a, xs, ys, headers);
  }
}
