# PayPerPost payment ledger, modelled in Dafny

PayPerPost is a smart contract for paid posts. Anyone registers a post id to its
creator. The owner (the deployer) records each confirmed payment for a post. The
payment is credited to the post and to its creator. A creator withdraws everything
earned and not yet withdrawn. The contract pays that amount out of its own
USDC-style token balance. The platform fee goes to the platform wallet and the
rest goes to the creator. The fee is in basis points, capped at 1000 (10%), and
rounded down. The owner also sets the fee and the wallet, pauses and unpauses the
contract, and can take funds out of custody while the contract is paused.

The Solidity contract is not part of this model. Its behaviour is what its test
suite, `contracts/test/PayPerPost.test.js`, asserts. The model follows those
tests. Where the model states more than the tests assert, the list at the end of
this section says so.

Files:

- `storage.dfy` (module `Storage`): `Option`, and Solidity mapping semantics.
  An unwritten key reads as zero (`Lookup`). `Credit` is `m[k] += amount` and
  `Debit` is `m[k] -= amount`.
- `erc20.dfy` (module `Erc20`): addresses and the custody token. `Token` is a
  class with a balance map, `BalanceOf`, `Mint` and `Transfer`. `Transferred` is EIP-20
  `transfer` as a function on the balance map. It fails when the sender holds
  too little.
- `ledger.dfy` (module `Ledger`): the pure accounting. `SplitOf` is the fee/net
  split. `CreatorTotal` and `PostTotal` sum a log of payments. The lemmas cover
  concatenation, commutativity of accrual, new registrations, and unregistered
  posts.
- `pay_per_post.dfy` (module `PayPerPostContract`): the contract as the class
  `PayPerPost`. Its fields are the contract's storage. A ghost log `payments`
  holds every payment recorded. Each entry point returns a `Receipt`: either
  `Done(logs)` or `Reverted(error)`. A reverted call leaves every field, and the
  token, unchanged. `Valid()` is the invariant that every entry point keeps:
  - the fee is at most 1000 bp;
  - every registered post has a non-empty id and a non-zero creator;
  - `creatorWithdrawn[a] <= creatorEarnings[a]` for every account;
  - every logged payment is for a registered post;
  - each creator's earnings and each post's earnings equal the sum of the
    logged payments credited to them.
- `pay_per_post_tests.dfy` (module `PayPerPostTests`): the test cases.
  - Each test method deploys a fresh token and contract. Its postcondition
    states the outcome that the test expects.
  - Several methods merge neighbouring `it` blocks that run the same calls. For
    example, `WithdrawTest` covers the four withdrawal blocks at lines 129-171.
    Each method's "## Model" row cites the lines that it covers.
  - `Deploy` and `DeployWithOnePayment` are the shared `beforeEach` setups.
  - `TwoPaymentsScenario` and `FeeChangeScenario` are extra scenarios that no
    `it` block runs.
  - `WithdrawIsExhausting` states exhaustion for every ledger and every caller.

The test's four signers are fixed addresses: owner 1, platform wallet 2,
creator 3 and user 4. The contract's own address is 5. `POST_PRICE` is 50_000
minor units (6 decimals).

`Error` holds the contract's custom errors, named as the tests expect them:
`InvalidPostId`, `InvalidAddress`, `PostAlreadyRegistered`,
`InvalidFeePercentage` and `InsufficientEarnings`. It also holds the
OpenZeppelin (version 4) revert reasons:
- `NotOwner` for "Ownable: caller is not the owner";
- `Paused` for "Pausable: paused";
- `NotPaused` for "Pausable: not paused".

Finally, `TransferFailed` stands for a token transfer that reverts.

The model states the following behaviours, but no test asserts them. The
ledger requires them, or they follow from the OpenZeppelin `Ownable` and
`Pausable` modifiers:
- pause gating of `recordPayment` and `withdraw`;
- `emergencyWithdraw` failing when not paused;
- `updatePlatformWallet` rejecting the zero address;
- the check order (owner, then pause, then arguments);
- refusal of a non-owner caller by `updatePlatformFee`, `updatePlatformWallet`,
  `pause`, `unpause` and `emergencyWithdraw`. The tests call these only as the
  owner;
- refusal of `pause` while paused ("Pausable: paused"), and of `unpause` while
  running ("Pausable: not paused");
- acceptance of a fee of exactly 1000 bp. The tests try only 1001;
- the fee in force at withdrawal applying to earnings accrued before a fee
  change (`FeeChangeScenario`);
- the two-payment withdrawal of `TwoPaymentsScenario`;
- a custody shortfall at withdrawal or emergency withdrawal failing with
  `TransferFailed` and leaving everything unchanged.

## Model

| member | source | states |
|---|---|---|
| `Storage.Credit` | contracts/test/PayPerPost.test.js:115-120 | crediting an entry raises exactly that entry by the amount and leaves every other entry as it was, so repeated payments accumulate |
| `Erc20.Transferred` | contracts/test/PayPerPost.test.js:129-150 | a transfer succeeds exactly when the sender holds the amount; the sender loses it and the receiver gains it (nothing changes when they are the same account); no other balance changes |
| `Erc20.Token.constructor` | contracts/test/PayPerPost.test.js:19-20 | a new token has no balances |
| `Erc20.Token.BalanceOf` | contracts/test/PayPerPost.test.js:130-146 | `balanceOf` reports the account's entry, and zero for an account never credited |
| `Erc20.Token.Mint` | contracts/test/PayPerPost.test.js:30-31 | minting credits the amount to the recipient only |
| `Erc20.Token.Transfer` | contracts/test/PayPerPost.test.js:129-150 | the token's transfer succeeds exactly when the sender's balance covers it, and then moves the balances as `Transferred` says; otherwise nothing changes |
| `Ledger.SplitOf` | contracts/test/PayPerPost.test.js:135-136 | fee + net equals the amount withdrawn; the fee is the floor of amount × bp / 10000 (fee·10000 ≤ amount·bp < (fee+1)·10000); the rounding favours the creator (net·10000 ≥ amount·(10000 − bp)) |
| `Ledger.CreatorTotalConcat` | contracts/test/PayPerPost.test.js:115-120 | a creator's earnings over two runs of payments are the sum of the earnings over each |
| `Ledger.PostTotalConcat` | contracts/test/PayPerPost.test.js:90-95 | a post's earnings over two runs of payments are the sum of the earnings over each |
| `Ledger.AccrualCommutes` | contracts/test/PayPerPost.test.js:115-120 | swapping two adjacent payments anywhere in the history changes no creator's and no post's total |
| `Ledger.CreatorTotalUnaffectedByNewPost` | contracts/test/PayPerPost.test.js:52-56 | registering a new post does not change any creator's earnings from payments already recorded |
| `Ledger.PostTotalOfUnregistered` | contracts/test/PayPerPost.test.js:103-107 | a post that is not registered has earned nothing, since payments are recorded only for registered posts |
| `PayPerPostContract.PayPerPost.constructor` | contracts/test/PayPerPost.test.js:22-49 | deployment records the token, the platform wallet, the fee and the deployer as owner; the contract is unpaused and its ledger is empty |
| `PayPerPostContract.PayPerPost.RegisterPost` | contracts/test/PayPerPost.test.js:52-82 | any caller can register a post; paused → "Pausable: paused"; empty id → InvalidPostId; zero creator → InvalidAddress; id already registered → PostAlreadyRegistered with the first creator kept; otherwise exactly `postCreators[id] = creator` and PostRegistered(id, creator) is logged |
| `PayPerPostContract.PayPerPost.RecordPayment` | contracts/test/PayPerPost.test.js:85-120 | non-owner → "Ownable: caller is not the owner"; unregistered id → InvalidPostId; state unchanged on failure; otherwise the amount is credited to both the post's creator and the post, and PaymentReceived(id, creator, amount) is logged |
| `PayPerPostContract.PayPerPost.Withdraw` | contracts/test/PayPerPost.test.js:123-185 | available = earned − withdrawn; zero → InsufficientEarnings; otherwise the fee at the current rate goes to the platform wallet and the net to the caller, withdrawn grows by exactly the amount available, WithdrawalMade(caller, amount, fee, net) is logged, and nothing is left available to the caller; a failed transfer reverts everything |
| `PayPerPostContract.PayPerPost.UpdatePlatformFee` | contracts/test/PayPerPost.test.js:217-232 | the owner sets the fee, logging PlatformFeeUpdated(old, new); a non-owner is refused; above 1000 bp → InvalidFeePercentage; a refused call leaves the fee unchanged |
| `PayPerPostContract.PayPerPost.UpdatePlatformWallet` | contracts/test/PayPerPost.test.js:234-243 | the owner sets the wallet, logging PlatformWalletUpdated(old, new); a non-owner is refused, and so is the zero address; a refused call leaves the wallet unchanged |
| `PayPerPostContract.PayPerPost.Pause` | contracts/test/PayPerPost.test.js:245-248 | the owner sets `paused`; a non-owner is refused, and so is pausing while already paused ("Pausable: paused"), with the flag unchanged |
| `PayPerPostContract.PayPerPost.Unpause` | contracts/test/PayPerPost.test.js:250-254 | the owner clears `paused`; a non-owner is refused, and so is unpausing while running ("Pausable: not paused"), with the flag unchanged |
| `PayPerPostContract.PayPerPost.EmergencyWithdraw` | contracts/test/PayPerPost.test.js:264-274 | while paused, the owner's token balance grows by the amount, taken from custody; a non-owner, an unpaused contract or too little custody is refused with the token unchanged; the ledger maps are not touched (its `modifies` names only the token) |
| `PayPerPostContract.PayPerPost.GetCreatorStats` | contracts/test/PayPerPost.test.js:194-200 | returns (earned, withdrawn, available) with withdrawn ≤ earned, available = earned − withdrawn, and earned equal to the sum of the creator's recorded payments |
| `PayPerPostContract.PayPerPost.GetPostEarnings` | contracts/test/PayPerPost.test.js:202-204 | a post's earnings are the sum of its recorded payments, and zero for an unregistered post |
| `PayPerPostContract.PayPerPost.IsPostRegistered` | contracts/test/PayPerPost.test.js:206-209 | true exactly for registered ids, which are non-empty and have a non-zero creator |
| `PayPerPostContract.PayPerPost.GetPostCreator` | contracts/test/PayPerPost.test.js:211-213 | the registered creator, and the zero address exactly when the post is unregistered |
| `PayPerPostTests.Deploy` | contracts/test/PayPerPost.test.js:15-32 | the common setup: a fresh contract with 100 USDC in custody |
| `PayPerPostTests.DeploymentTest` | contracts/test/PayPerPost.test.js:34-50 | token, wallet, fee 100 and owner are as deployed |
| `PayPerPostTests.RegisterPostTest` | contracts/test/PayPerPost.test.js:53-62 | registration by the creator succeeds, records the creator and logs it |
| `PayPerPostTests.RegisterEmptyIdTest` | contracts/test/PayPerPost.test.js:64-68 | an empty id is refused with InvalidPostId |
| `PayPerPostTests.RegisterZeroCreatorTest` | contracts/test/PayPerPost.test.js:70-74 | the zero creator is refused with InvalidAddress |
| `PayPerPostTests.RegisterTwiceTest` | contracts/test/PayPerPost.test.js:76-82 | re-registration is refused with PostAlreadyRegistered, both for the same creator and for another one, and the first creator stays |
| `PayPerPostTests.RecordPaymentTest` | contracts/test/PayPerPost.test.js:90-101 | one payment credits 50_000 to the creator and the post and logs PaymentReceived |
| `PayPerPostTests.RecordPaymentUnregisteredTest` | contracts/test/PayPerPost.test.js:103-107 | a payment for "post-999" is refused with InvalidPostId |
| `PayPerPostTests.RecordPaymentNotOwnerTest` | contracts/test/PayPerPost.test.js:109-113 | a non-owner's payment is refused and credits nothing |
| `PayPerPostTests.AccumulatePaymentsTest` | contracts/test/PayPerPost.test.js:115-120 | two payments credit twice the price |
| `PayPerPostTests.DeployWithOnePayment` | contracts/test/PayPerPost.test.js:123-127 | the withdrawal and view setup: one registered post paid once |
| `PayPerPostTests.WithdrawTest` | contracts/test/PayPerPost.test.js:129-171 | the creator gains price − fee (49_500), the wallet gains the fee (500), WithdrawalMade(creator, 50_000, 500, 49_500) is logged and withdrawn becomes 50_000 |
| `PayPerPostTests.WithdrawWithoutEarningsTest` | contracts/test/PayPerPost.test.js:173-177 | an account with no earnings gets InsufficientEarnings |
| `PayPerPostTests.WithdrawTwiceTest` | contracts/test/PayPerPost.test.js:179-185 | the second withdrawal gets InsufficientEarnings |
| `PayPerPostTests.WithdrawIsExhausting` | contracts/test/PayPerPost.test.js:179-185 | for any valid ledger and caller: after a successful withdrawal the next one fails with InsufficientEarnings, and after a failed one the next fails the same way |
| `PayPerPostTests.ViewFunctionsTest` | contracts/test/PayPerPost.test.js:188-213 | stats (50_000, 0, 50_000), post earnings 50_000, "post-1" registered and "post-999" not, the creator reported |
| `PayPerPostTests.UpdatePlatformFeeTest` | contracts/test/PayPerPost.test.js:217-226 | the fee becomes 200 and PlatformFeeUpdated(100, 200) is logged |
| `PayPerPostTests.UpdatePlatformFeeBoundTest` | contracts/test/PayPerPost.test.js:228-232 | 1001 bp is refused with InvalidFeePercentage and the fee is unchanged; exactly 1000 bp is accepted (the test tries only 1001) |
| `PayPerPostTests.UpdatePlatformWalletTest` | contracts/test/PayPerPost.test.js:234-243 | the wallet becomes the user's and PlatformWalletUpdated(old, new) is logged |
| `PayPerPostTests.PauseUnpauseTest` | contracts/test/PayPerPost.test.js:245-254 | pause sets `paused` and unpause clears it |
| `PayPerPostTests.PausedRegistrationTest` | contracts/test/PayPerPost.test.js:256-262 | registration while paused fails with "Pausable: paused" |
| `PayPerPostTests.EmergencyWithdrawTest` | contracts/test/PayPerPost.test.js:264-274 | while paused the owner gains exactly 10 USDC |
| `PayPerPostTests.TwoPaymentsScenario` | contracts/test/PayPerPost.test.js:115-185 | two payments of 50_000 withdrawn at 1% pay 99_000 to the creator and 1_000 to the wallet, and a second withdrawal fails (a scenario no `it` block runs) |
| `PayPerPostTests.FeeChangeScenario` | contracts/test/PayPerPost.test.js:217-220 | a fee raised to 2% after the payment applies to the whole withdrawal (fee 1_000, net 49_000); the cited test sets the fee but never withdraws |

## Left out

- Block timestamps are left out of the logged events. The Hardhat and ethers machinery around the tests (async calls, signers, `parseUnits`) is left out too.
- Integers are unbounded. uint256 overflow would revert at 2^256, but the amounts the tests use are far below that.
- Reentrancy is left out: Dafny runs methods sequentially, so an external callback cannot happen. `Withdraw` marks the balance withdrawn before it moves any token, as the ledger requires.
- `transferOwnership` and `renounceOwnership` are left out; the tests never change the owner.
- The `Paused` and `Unpaused` events are left out; the tests do not check them.
- The token keeps only balances and transfer. Approvals, `transferFrom`, decimals, name and the zero-address checks of a full ERC-20 are left out, because the mock token's code is not part of this model.
- `usdcToken()` returns the token's address in Solidity. The model holds the token object itself.
- PayPerPost.constructor requires the initial fee to be at most 1000 bp instead of modelling a deployment that reverts. The contract's constructor checks are not part of this model, and the tests deploy at 100 bp.
- Deployment scripting, the web front end and authentication (`contracts/scripts/deploy.js`, `src/`) are not part of this model. They are network I/O and UI configuration with no ledger logic.
