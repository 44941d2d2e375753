/**
 * The PayPerPost contract: a registry of posts to creators, a ledger of what
 * each creator has earned and withdrawn, the withdrawal that pays a creator's
 * available balance out of the contract's token custody minus the platform
 * fee, and the owner's administration of fee, fee wallet and pause state.
 *
 * Every entry point either completes, returning the logs it emits, or reverts
 * with an error and leaves every piece of state, the token's included, as it was.
 */
module PayPerPostContract {
  import opened Storage
  import opened Erc20
  import opened Ledger

  /** The custom errors and the OpenZeppelin revert reasons a call can fail with. */
  datatype Error =
    | InvalidPostId
    | InvalidAddress
    | PostAlreadyRegistered
    | InvalidFeePercentage
    | InsufficientEarnings
    | NotOwner        // "Ownable: caller is not the owner"
    | Paused          // "Pausable: paused"
    | NotPaused       // "Pausable: not paused"
    | TransferFailed  // the token refused a transfer out of custody

  /** The logs a call emits, without their block timestamps. */
  datatype Event =
    | PostRegistered(postId: PostId, creator: Address)
    | PaymentReceived(postId: PostId, creator: Address, amount: nat)
    | WithdrawalMade(creator: Address, amount: nat, platformFee: nat, netAmount: nat)
    | PlatformFeeUpdated(oldFee: nat, newFee: nat)
    | PlatformWalletUpdated(oldWallet: Address, newWallet: Address)

  /** The outcome of a transaction. */
  datatype Receipt = Done(logs: seq<Event>) | Reverted(error: Error)

  /** What `getCreatorStats` returns. */
  datatype CreatorStats = CreatorStats(totalEarnings: nat, withdrawn: nat, available: nat)

  class PayPerPost {
    /** The custody token, the contract's own address in it, and the deployer. */
    const usdcToken: Token
    const contractAddress: Address
    const owner: Address

    var platformWallet: Address
    var platformFeePercentage: nat
    var paused: bool

    var postCreators: map<PostId, Address>
    var creatorEarnings: map<Address, nat>
    var creatorWithdrawn: map<Address, nat>
    var postEarnings: map<PostId, nat>

    /** Every payment recorded so far, in order. */
    ghost var payments: seq<Payment>

    /**
     * The ledger's invariant: the fee is within its cap; every registered post
     * has a non-empty id and a real creator; nobody has withdrawn more than they
     * earned; and earnings are exactly the sums of the payments recorded.
     */
    ghost predicate Valid()
      reads this
    {
      && platformFeePercentage <= MaxFeeBasisPoints
      && (forall id :: id in postCreators ==> id != "" && postCreators[id] != ZeroAddress)
      && (forall a :: Lookup(creatorWithdrawn, a) <= Lookup(creatorEarnings, a))
      && AllRegistered(payments, postCreators)
      && (forall a :: Lookup(creatorEarnings, a) == CreatorTotal(payments, postCreators, a))
      && (forall id :: Lookup(postEarnings, id) == PostTotal(payments, id))
    }

    /** What `creator` may still withdraw. */
    function AvailableTo(creator: Address): (available: nat)
      reads this
      requires Valid()
    {
      Lookup(creatorEarnings, creator) - Lookup(creatorWithdrawn, creator)
    }

    /** The deployment: `new PayPerPost(usdc, platformWallet, fee)` sent by `deployer`. */
    constructor (usdc: Token, wallet: Address, initialFee: nat, deployer: Address, self: Address)
      requires initialFee <= MaxFeeBasisPoints
      ensures Valid()
      ensures usdcToken == usdc && contractAddress == self && owner == deployer
      ensures platformWallet == wallet && platformFeePercentage == initialFee && !paused
      ensures postCreators == map[] && creatorEarnings == map[] && creatorWithdrawn == map[]
      ensures postEarnings == map[] && payments == []
    {
      usdcToken, contractAddress, owner := usdc, self, deployer;
      platformWallet, platformFeePercentage, paused := wallet, initialFee, false;
      postCreators, creatorEarnings, creatorWithdrawn, postEarnings := map[], map[], map[], map[];
      payments := [];
    }

    /** `registerPost(id, creator)`: anyone may register a new post to a creator. */
    method RegisterPost(id: PostId, creator: Address) returns (r: Receipt)
      requires Valid()
      modifies this
      ensures Valid()
      ensures old(paused) ==> r == Reverted(Paused)
      ensures !old(paused) && id == "" ==> r == Reverted(InvalidPostId)
      ensures !old(paused) && id != "" && creator == ZeroAddress ==> r == Reverted(InvalidAddress)
      ensures !old(paused) && id != "" && creator != ZeroAddress && id in old(postCreators) ==>
                r == Reverted(PostAlreadyRegistered)
      ensures r.Done? <==> !old(paused) && id != "" && creator != ZeroAddress && id !in old(postCreators)
      ensures r.Reverted? ==> unchanged(this)
      ensures r.Done? ==>
                && postCreators == old(postCreators)[id := creator]
                && r.logs == [PostRegistered(id, creator)]
                && unchanged(this`creatorEarnings, this`creatorWithdrawn, this`postEarnings, this`payments)
                && unchanged(this`platformWallet, this`platformFeePercentage, this`paused)
    {
      if paused {
        return Reverted(Paused);
      }
      if id == "" {
        return Reverted(InvalidPostId);
      }
      if creator == ZeroAddress {
        return Reverted(InvalidAddress);
      }
      if id in postCreators {
        return Reverted(PostAlreadyRegistered);
      }
      forall a ensures CreatorTotal(payments, postCreators[id := creator], a) == CreatorTotal(payments, postCreators, a) {
        CreatorTotalUnaffectedByNewPost(payments, postCreators, id, creator, a);
      }
      postCreators := postCreators[id := creator];
      r := Done([PostRegistered(id, creator)]);
    }

    /**
     * `recordPayment(id, amount)`: the owner credits a confirmed payment for a
     * post to the post and to its creator.
     */
    method RecordPayment(caller: Address, id: PostId, amount: nat) returns (r: Receipt)
      requires Valid()
      modifies this
      ensures Valid()
      ensures caller != owner ==> r == Reverted(NotOwner)
      ensures caller == owner && old(paused) ==> r == Reverted(Paused)
      ensures caller == owner && !old(paused) && id !in old(postCreators) ==> r == Reverted(InvalidPostId)
      ensures r.Done? <==> caller == owner && !old(paused) && id in old(postCreators)
      ensures r.Reverted? ==> unchanged(this)
      ensures r.Done? ==>
                && creatorEarnings == Credit(old(creatorEarnings), old(postCreators[id]), amount)
                && postEarnings == Credit(old(postEarnings), id, amount)
                && payments == old(payments) + [Payment(id, amount)]
                && r.logs == [PaymentReceived(id, old(postCreators[id]), amount)]
                && unchanged(this`postCreators, this`creatorWithdrawn)
                && unchanged(this`platformWallet, this`platformFeePercentage, this`paused)
    {
      if caller != owner {
        return Reverted(NotOwner);
      }
      if paused {
        return Reverted(Paused);
      }
      if id !in postCreators {
        return Reverted(InvalidPostId);
      }
      var creator := postCreators[id];
      var payment := Payment(id, amount);
      forall a ensures CreatorTotal(payments + [payment], postCreators, a)
                     == CreatorTotal(payments, postCreators, a) + (if a == creator then amount else 0) {
        assert (payments + [payment])[..|payments|] == payments;
      }
      forall p ensures PostTotal(payments + [payment], p) == PostTotal(payments, p) + (if p == id then amount else 0) {
        assert (payments + [payment])[..|payments|] == payments;
      }
      creatorEarnings := Credit(creatorEarnings, creator, amount);
      postEarnings := Credit(postEarnings, id, amount);
      payments := payments + [payment];
      r := Done([PaymentReceived(id, creator, amount)]);
    }

    /**
     * The custody balances after paying `fee` to the platform wallet and then
     * `net` to `creator`, or None when the contract's balance cannot cover them.
     */
    function Payout(creator: Address, s: Split): (paid: Option<map<Address, nat>>)
      reads this, usdcToken
    {
      var afterFee := Transferred(usdcToken.balances, contractAddress, platformWallet, s.fee);
      if afterFee.None? then None
      else Transferred(afterFee.value, contractAddress, creator, s.net)
    }

    /**
     * `withdraw()` sent by `caller`: pays the caller's whole available balance
     * out of custody, the platform fee to the platform wallet and the rest to
     * the caller, and marks it withdrawn. The fee is the one configured now.
     */
    method Withdraw(caller: Address) returns (r: Receipt)
      requires Valid()
      modifies this, usdcToken
      ensures Valid()
      ensures old(paused) ==> r == Reverted(Paused)
      ensures !old(paused) && old(AvailableTo(caller)) == 0 ==> r == Reverted(InsufficientEarnings)
      ensures !old(paused) && old(AvailableTo(caller)) > 0
                && old(Payout(caller, SplitOf(AvailableTo(caller), platformFeePercentage))).None? ==>
                r == Reverted(TransferFailed)
      ensures r.Done? <==>
                && !old(paused) && old(AvailableTo(caller)) > 0
                && old(Payout(caller, SplitOf(AvailableTo(caller), platformFeePercentage))).Some?
      ensures r.Reverted? ==> unchanged(this) && unchanged(usdcToken)
      ensures r.Done? ==>
                var available := old(AvailableTo(caller));
                var s := SplitOf(available, old(platformFeePercentage));
                && usdcToken.balances == old(Payout(caller, s)).value
                && creatorWithdrawn == Credit(old(creatorWithdrawn), caller, available)
                && r.logs == [WithdrawalMade(caller, available, s.fee, s.net)]
                && AvailableTo(caller) == 0
                && unchanged(this`postCreators, this`creatorEarnings, this`postEarnings, this`payments)
                && unchanged(this`platformWallet, this`platformFeePercentage, this`paused)
    {
      if paused {
        return Reverted(Paused);
      }
      var available := AvailableTo(caller);
      if available == 0 {
        return Reverted(InsufficientEarnings);
      }
      var s := SplitOf(available, platformFeePercentage);
      if Payout(caller, s).None? {
        return Reverted(TransferFailed);
      }
      // The balance is marked withdrawn before any token leaves custody.
      creatorWithdrawn := Credit(creatorWithdrawn, caller, available);
      var paidFee := usdcToken.Transfer(contractAddress, platformWallet, s.fee);
      var paidNet := usdcToken.Transfer(contractAddress, caller, s.net);
      r := Done([WithdrawalMade(caller, available, s.fee, s.net)]);
    }

    /** `updatePlatformFee(bp)`: the owner sets the fee, at most 10%. */
    method UpdatePlatformFee(caller: Address, newFee: nat) returns (r: Receipt)
      requires Valid()
      modifies this`platformFeePercentage
      ensures Valid()
      ensures caller != owner ==> r == Reverted(NotOwner)
      ensures caller == owner && newFee > MaxFeeBasisPoints ==> r == Reverted(InvalidFeePercentage)
      ensures r.Done? <==> caller == owner && newFee <= MaxFeeBasisPoints
      ensures platformFeePercentage == if r.Done? then newFee else old(platformFeePercentage)
      ensures r.Done? ==> r.logs == [PlatformFeeUpdated(old(platformFeePercentage), newFee)]
    {
      if caller != owner {
        return Reverted(NotOwner);
      }
      if newFee > MaxFeeBasisPoints {
        return Reverted(InvalidFeePercentage);
      }
      var oldFee := platformFeePercentage;
      platformFeePercentage := newFee;
      r := Done([PlatformFeeUpdated(oldFee, newFee)]);
    }

    /** `updatePlatformWallet(wallet)`: the owner redirects future fees. */
    method UpdatePlatformWallet(caller: Address, newWallet: Address) returns (r: Receipt)
      requires Valid()
      modifies this`platformWallet
      ensures Valid()
      ensures caller != owner ==> r == Reverted(NotOwner)
      ensures caller == owner && newWallet == ZeroAddress ==> r == Reverted(InvalidAddress)
      ensures r.Done? <==> caller == owner && newWallet != ZeroAddress
      ensures platformWallet == if r.Done? then newWallet else old(platformWallet)
      ensures r.Done? ==> r.logs == [PlatformWalletUpdated(old(platformWallet), newWallet)]
    {
      if caller != owner {
        return Reverted(NotOwner);
      }
      if newWallet == ZeroAddress {
        return Reverted(InvalidAddress);
      }
      var oldWallet := platformWallet;
      platformWallet := newWallet;
      r := Done([PlatformWalletUpdated(oldWallet, newWallet)]);
    }

    /** `pause()`: the owner stops registration, accrual and withdrawal. */
    method Pause(caller: Address) returns (r: Receipt)
      requires Valid()
      modifies this`paused
      ensures Valid()
      ensures caller != owner ==> r == Reverted(NotOwner)
      ensures caller == owner && old(paused) ==> r == Reverted(Paused)
      ensures r.Done? <==> caller == owner && !old(paused)
      ensures r.Done? ==> paused && r.logs == []
      ensures r.Reverted? ==> paused == old(paused)
    {
      if caller != owner {
        return Reverted(NotOwner);
      }
      if paused {
        return Reverted(Paused);
      }
      paused := true;
      r := Done([]);
    }

    /** `unpause()`: the owner resumes normal operation. */
    method Unpause(caller: Address) returns (r: Receipt)
      requires Valid()
      modifies this`paused
      ensures Valid()
      ensures caller != owner ==> r == Reverted(NotOwner)
      ensures caller == owner && !old(paused) ==> r == Reverted(NotPaused)
      ensures r.Done? <==> caller == owner && old(paused)
      ensures r.Done? ==> !paused && r.logs == []
      ensures r.Reverted? ==> paused == old(paused)
    {
      if caller != owner {
        return Reverted(NotOwner);
      }
      if !paused {
        return Reverted(NotPaused);
      }
      paused := false;
      r := Done([]);
    }

    /**
     * `emergencyWithdraw(amount)`: while paused, the owner takes `amount` out of
     * custody, whatever the creators are owed; the ledger is not touched.
     */
    method EmergencyWithdraw(caller: Address, amount: nat) returns (r: Receipt)
      requires Valid()
      modifies usdcToken
      ensures Valid()
      ensures caller != owner ==> r == Reverted(NotOwner)
      ensures caller == owner && !paused ==> r == Reverted(NotPaused)
      ensures caller == owner && paused && amount > old(usdcToken.BalanceOf(contractAddress)) ==>
                r == Reverted(TransferFailed)
      ensures r.Done? <==> caller == owner && paused && amount <= old(usdcToken.BalanceOf(contractAddress))
      ensures usdcToken.balances ==
                if r.Done? then Transferred(old(usdcToken.balances), contractAddress, owner, amount).value
                else old(usdcToken.balances)
      ensures r.Done? ==> r.logs == []
    {
      if caller != owner {
        return Reverted(NotOwner);
      }
      if !paused {
        return Reverted(NotPaused);
      }
      var ok := usdcToken.Transfer(contractAddress, owner, amount);
      if !ok {
        return Reverted(TransferFailed);
      }
      r := Done([]);
    }

    /** `getCreatorStats(creator)`: earned, withdrawn, and what is left to withdraw. */
    function GetCreatorStats(creator: Address): (stats: CreatorStats)
      reads this
      requires Valid()
      ensures stats.totalEarnings == Lookup(creatorEarnings, creator)
      ensures stats.withdrawn == Lookup(creatorWithdrawn, creator)
      ensures stats.withdrawn <= stats.totalEarnings
      ensures stats.available == stats.totalEarnings - stats.withdrawn
      ensures stats.totalEarnings == CreatorTotal(payments, postCreators, creator)
    {
      CreatorStats(Lookup(creatorEarnings, creator), Lookup(creatorWithdrawn, creator), AvailableTo(creator))
    }

    /** `getPostEarnings(id)`: everything ever paid for the post. */
    function GetPostEarnings(id: PostId): (earned: nat)
      reads this
      requires Valid()
      ensures earned == PostTotal(payments, id)
      ensures id !in postCreators ==> earned == 0
    {
      if id in postCreators then Lookup(postEarnings, id)
      else PostTotalOfUnregistered(payments, postCreators, id); Lookup(postEarnings, id)
    }

    /** `isPostRegistered(id)`. */
    function IsPostRegistered(id: PostId): (registered: bool)
      reads this
      requires Valid()
      ensures registered ==> id != ""
      ensures registered <==> GetPostCreator(id) != ZeroAddress
    {
      id in postCreators
    }

    /** `getPostCreator(id)`: the registered creator, or the zero address for an unknown post. */
    function GetPostCreator(id: PostId): (creator: Address)
      reads this
      requires Valid()
      ensures creator != ZeroAddress <==> id in postCreators
      ensures id in postCreators ==> creator == postCreators[id]
    {
      if id in postCreators then postCreators[id] else ZeroAddress
    }
  }
}
