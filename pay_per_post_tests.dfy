/**
 * The behaviour the PayPerPost test suite pins down, one method per case:
 * each runs the case's calls on a freshly deployed contract and states, in its
 * postcondition, the outcome the case expects. Signers are fixed addresses,
 * amounts are in the token's minor units (6 decimals).
 */
module PayPerPostTests {
  import opened Storage
  import opened Erc20
  import opened Ledger
  import opened PayPerPostContract

  const Owner: Address := 1
  const PlatformWallet: Address := 2
  const CreatorAccount: Address := 3
  const User: Address := 4
  const ContractAccount: Address := 5

  /** 1% in basis points. */
  const InitialFee: nat := 100
  /** $0.05 in the token's minor units. */
  const PostPrice: nat := 50_000
  /** The $100 minted to the contract to stand for payments already received. */
  const Funding: nat := 100_000_000

  /** The shared setup: deploy the token and the contract, and fund the contract. */
  method Deploy() returns (usdc: Token, ledger: PayPerPost)
    ensures fresh(usdc) && fresh(ledger) && ledger.Valid()
    ensures ledger.usdcToken == usdc && ledger.contractAddress == ContractAccount && ledger.owner == Owner
    ensures ledger.platformWallet == PlatformWallet && ledger.platformFeePercentage == InitialFee
    ensures !ledger.paused
    ensures ledger.postCreators == map[] && ledger.creatorEarnings == map[]
    ensures ledger.creatorWithdrawn == map[] && ledger.postEarnings == map[]
    ensures usdc.balances == map[ContractAccount := Funding]
  {
    usdc := new Token();
    ledger := new PayPerPost(usdc, PlatformWallet, InitialFee, Owner, ContractAccount);
    usdc.Mint(ContractAccount, Funding);
  }

  /** Deployment records the token, the platform wallet, the fee and the deployer as owner. */
  method DeploymentTest() returns (sameToken: bool, wallet: Address, fee: nat, owner: Address)
    ensures sameToken && wallet == PlatformWallet && fee == InitialFee && owner == Owner
  {
    var usdc, ledger := Deploy();
    sameToken := ledger.usdcToken == usdc;
    wallet, fee, owner := ledger.platformWallet, ledger.platformFeePercentage, ledger.owner;
  }

  /** Anyone may register a post; the registration is logged. */
  method RegisterPostTest() returns (r: Receipt, creator: Address)
    ensures r == Done([PostRegistered("post-1", CreatorAccount)])
    ensures creator == CreatorAccount
  {
    var usdc, ledger := Deploy();
    r := ledger.RegisterPost("post-1", CreatorAccount);
    creator := Lookup(ledger.postCreators, "post-1");
  }

  /** An empty post id is refused. */
  method RegisterEmptyIdTest() returns (r: Receipt)
    ensures r == Reverted(InvalidPostId)
  {
    var usdc, ledger := Deploy();
    r := ledger.RegisterPost("", CreatorAccount);
  }

  /** The zero address cannot own a post. */
  method RegisterZeroCreatorTest() returns (r: Receipt)
    ensures r == Reverted(InvalidAddress)
  {
    var usdc, ledger := Deploy();
    r := ledger.RegisterPost("post-1", ZeroAddress);
  }

  /**
   * A post is registered once: registering it again, to the same creator or to
   * another, is refused and leaves the first creator.
   */
  method RegisterTwiceTest() returns (sameCreator: Receipt, otherCreator: Receipt, creator: Address)
    ensures sameCreator == Reverted(PostAlreadyRegistered)
    ensures otherCreator == Reverted(PostAlreadyRegistered)
    ensures creator == CreatorAccount
  {
    var usdc, ledger := Deploy();
    var first := ledger.RegisterPost("post-1", CreatorAccount);
    sameCreator := ledger.RegisterPost("post-1", CreatorAccount);
    otherCreator := ledger.RegisterPost("post-1", User);
    creator := ledger.GetPostCreator("post-1");
  }

  /** The owner records a payment: it is credited to the creator and to the post, and logged. */
  method RecordPaymentTest() returns (r: Receipt, creatorEarned: nat, postEarned: nat)
    ensures r == Done([PaymentReceived("post-1", CreatorAccount, PostPrice)])
    ensures creatorEarned == PostPrice && postEarned == PostPrice
  {
    var usdc, ledger := Deploy();
    var registered := ledger.RegisterPost("post-1", CreatorAccount);
    r := ledger.RecordPayment(Owner, "post-1", PostPrice);
    creatorEarned := Lookup(ledger.creatorEarnings, CreatorAccount);
    postEarned := Lookup(ledger.postEarnings, "post-1");
  }

  /** A payment for an unknown post is refused. */
  method RecordPaymentUnregisteredTest() returns (r: Receipt)
    ensures r == Reverted(InvalidPostId)
  {
    var usdc, ledger := Deploy();
    var registered := ledger.RegisterPost("post-1", CreatorAccount);
    r := ledger.RecordPayment(Owner, "post-999", PostPrice);
  }

  /** Only the owner may record payments; a refused call credits nothing. */
  method RecordPaymentNotOwnerTest() returns (r: Receipt, creatorEarned: nat)
    ensures r == Reverted(NotOwner)
    ensures creatorEarned == 0
  {
    var usdc, ledger := Deploy();
    var registered := ledger.RegisterPost("post-1", CreatorAccount);
    r := ledger.RecordPayment(User, "post-1", PostPrice);
    creatorEarned := Lookup(ledger.creatorEarnings, CreatorAccount);
  }

  /** Payments accumulate. */
  method AccumulatePaymentsTest() returns (creatorEarned: nat)
    ensures creatorEarned == 2 * PostPrice
  {
    var usdc, ledger := Deploy();
    var registered := ledger.RegisterPost("post-1", CreatorAccount);
    var first := ledger.RecordPayment(Owner, "post-1", PostPrice);
    var second := ledger.RecordPayment(Owner, "post-1", PostPrice);
    creatorEarned := Lookup(ledger.creatorEarnings, CreatorAccount);
  }

  /** The setup of the withdrawal and view cases: one paid post. */
  method DeployWithOnePayment() returns (usdc: Token, ledger: PayPerPost)
    ensures fresh(usdc) && fresh(ledger) && ledger.Valid() && ledger.usdcToken == usdc
    ensures ledger.contractAddress == ContractAccount && ledger.owner == Owner
    ensures ledger.platformWallet == PlatformWallet && ledger.platformFeePercentage == InitialFee
    ensures !ledger.paused
    ensures ledger.postCreators == map["post-1" := CreatorAccount]
    ensures ledger.creatorEarnings == map[CreatorAccount := PostPrice]
    ensures ledger.postEarnings == map["post-1" := PostPrice]
    ensures ledger.creatorWithdrawn == map[]
    ensures usdc.balances == map[ContractAccount := Funding]
  {
    usdc, ledger := Deploy();
    var registered := ledger.RegisterPost("post-1", CreatorAccount);
    var paid := ledger.RecordPayment(Owner, "post-1", PostPrice);
  }

  /**
   * A withdrawal pays the creator the price less the 1% fee, pays the fee to the
   * platform wallet, logs the split and marks the whole price withdrawn.
   */
  method WithdrawTest() returns (r: Receipt, creatorGain: nat, walletGain: nat, withdrawn: nat)
    ensures r == Done([WithdrawalMade(CreatorAccount, PostPrice, 500, 49_500)])
    ensures creatorGain == PostPrice - PostPrice * InitialFee / 10000
    ensures walletGain == PostPrice * InitialFee / 10000
    ensures withdrawn == PostPrice
  {
    var usdc, ledger := DeployWithOnePayment();
    var creatorBefore, walletBefore := usdc.BalanceOf(CreatorAccount), usdc.BalanceOf(PlatformWallet);
    r := ledger.Withdraw(CreatorAccount);
    creatorGain := usdc.BalanceOf(CreatorAccount) - creatorBefore;
    walletGain := usdc.BalanceOf(PlatformWallet) - walletBefore;
    withdrawn := Lookup(ledger.creatorWithdrawn, CreatorAccount);
  }

  /** An account that earned nothing cannot withdraw. */
  method WithdrawWithoutEarningsTest() returns (r: Receipt)
    ensures r == Reverted(InsufficientEarnings)
  {
    var usdc, ledger := DeployWithOnePayment();
    r := ledger.Withdraw(User);
  }

  /** A second withdrawal finds nothing left. */
  method WithdrawTwiceTest() returns (first: Receipt, second: Receipt)
    ensures first.Done? && second == Reverted(InsufficientEarnings)
  {
    var usdc, ledger := DeployWithOnePayment();
    first := ledger.Withdraw(CreatorAccount);
    second := ledger.Withdraw(CreatorAccount);
  }

  /** The views report the one payment. */
  method ViewFunctionsTest() returns (stats: CreatorStats, postEarned: nat, known: bool, unknown: bool, creator: Address)
    ensures stats == CreatorStats(PostPrice, 0, PostPrice)
    ensures postEarned == PostPrice
    ensures known && !unknown
    ensures creator == CreatorAccount
  {
    var usdc, ledger := DeployWithOnePayment();
    stats := ledger.GetCreatorStats(CreatorAccount);
    postEarned := ledger.GetPostEarnings("post-1");
    known, unknown := ledger.IsPostRegistered("post-1"), ledger.IsPostRegistered("post-999");
    creator := ledger.GetPostCreator("post-1");
  }

  /** The owner changes the fee; the change is logged with the old value. */
  method UpdatePlatformFeeTest() returns (r: Receipt, fee: nat)
    ensures r == Done([PlatformFeeUpdated(InitialFee, 200)]) && fee == 200
  {
    var usdc, ledger := Deploy();
    r := ledger.UpdatePlatformFee(Owner, 200);
    fee := ledger.platformFeePercentage;
  }

  /** A fee above 10% is refused, and exactly 10% is accepted. */
  method UpdatePlatformFeeBoundTest() returns (tooHigh: Receipt, feeAfterRefusal: nat, atCap: Receipt)
    ensures tooHigh == Reverted(InvalidFeePercentage) && feeAfterRefusal == InitialFee
    ensures atCap.Done?
  {
    var usdc, ledger := Deploy();
    tooHigh := ledger.UpdatePlatformFee(Owner, 1001);
    feeAfterRefusal := ledger.platformFeePercentage;
    atCap := ledger.UpdatePlatformFee(Owner, 1000);
  }

  /** The owner changes the platform wallet; the change is logged with the old value. */
  method UpdatePlatformWalletTest() returns (r: Receipt, wallet: Address)
    ensures r == Done([PlatformWalletUpdated(PlatformWallet, User)]) && wallet == User
  {
    var usdc, ledger := Deploy();
    r := ledger.UpdatePlatformWallet(Owner, User);
    wallet := ledger.platformWallet;
  }

  /** Pausing sets the flag and unpausing clears it. */
  method PauseUnpauseTest() returns (pausedAfterPause: bool, pausedAfterUnpause: bool)
    ensures pausedAfterPause && !pausedAfterUnpause
  {
    var usdc, ledger := Deploy();
    var paused := ledger.Pause(Owner);
    pausedAfterPause := ledger.paused;
    var resumed := ledger.Unpause(Owner);
    pausedAfterUnpause := ledger.paused;
  }

  /** Registration is refused while paused. */
  method PausedRegistrationTest() returns (r: Receipt)
    ensures r == Reverted(Paused)
  {
    var usdc, ledger := Deploy();
    var paused := ledger.Pause(Owner);
    r := ledger.RegisterPost("post-2", CreatorAccount);
  }

  /** While paused, the owner can take $10 out of custody. */
  method EmergencyWithdrawTest() returns (r: Receipt, ownerGain: nat)
    ensures r.Done? && ownerGain == 10_000_000
  {
    var usdc, ledger := Deploy();
    var paused := ledger.Pause(Owner);
    var ownerBefore := usdc.BalanceOf(Owner);
    r := ledger.EmergencyWithdraw(Owner, 10_000_000);
    ownerGain := usdc.BalanceOf(Owner) - ownerBefore;
  }

  /**
   * Two payments of the price, withdrawn at 1%: the creator receives 99_000,
   * the platform 1_000, and a second withdrawal fails.
   */
  method TwoPaymentsScenario() returns (r: Receipt, again: Receipt, creatorGain: nat, walletGain: nat)
    ensures r == Done([WithdrawalMade(CreatorAccount, 100_000, 1_000, 99_000)])
    ensures creatorGain == 99_000 && walletGain == 1_000
    ensures again == Reverted(InsufficientEarnings)
  {
    var usdc, ledger := DeployWithOnePayment();
    var paid := ledger.RecordPayment(Owner, "post-1", PostPrice);
    assert ledger.AvailableTo(CreatorAccount) == 100_000;
    assert SplitOf(100_000, InitialFee) == Split(1_000, 99_000);
    r := ledger.Withdraw(CreatorAccount);
    assert usdc.balances == map[ContractAccount := Funding - 100_000, PlatformWallet := 1_000, CreatorAccount := 99_000];
    creatorGain := usdc.BalanceOf(CreatorAccount);
    walletGain := usdc.BalanceOf(PlatformWallet);
    again := ledger.Withdraw(CreatorAccount);
  }

  /** The fee in force at withdrawal applies to earnings accrued under an earlier fee. */
  method FeeChangeScenario() returns (r: Receipt)
    ensures r == Done([WithdrawalMade(CreatorAccount, PostPrice, 1_000, 49_000)])
  {
    var usdc, ledger := DeployWithOnePayment();
    var raised := ledger.UpdatePlatformFee(Owner, 200);
    r := ledger.Withdraw(CreatorAccount);
  }

  /**
   * Exhaustion, for any ledger and any caller: right after a withdrawal that
   * succeeds, the same caller's next withdrawal fails for want of earnings.
   */
  method WithdrawIsExhausting(ledger: PayPerPost, caller: Address) returns (first: Receipt, second: Receipt)
    requires ledger.Valid()
    modifies ledger, ledger.usdcToken
    ensures ledger.Valid()
    ensures first.Done? ==> second == Reverted(InsufficientEarnings)
    ensures !first.Done? ==> second == first
  {
    first := ledger.Withdraw(caller);
    second := ledger.Withdraw(caller);
  }
}
