/**
 * The pure accounting behind the PayPerPost ledger: how a creator's available
 * balance is split between the platform fee and the creator's net amount, and
 * what the recorded earnings amount to as sums over the payments recorded.
 */
module Ledger {
  import opened Storage
  import opened Erc20

  /** An opaque content identifier. */
  type PostId = string

  /** Fees are expressed in basis points: 1/10000 of an amount. */
  const BasisPointsDenominator: nat := 10000

  /** The platform fee may not exceed 10% (1000 basis points). */
  const MaxFeeBasisPoints: nat := 1000

  /** The two parts a withdrawal of `fee + net` is paid out in. */
  datatype Split = Split(fee: nat, net: nat)

  /**
   * The withdrawal split: `fee = available * feeBp / 10000`, rounded down,
   * and the creator receives the rest. The fee is the largest whole amount
   * not exceeding the exact percentage, so rounding always favours the creator.
   */
  function SplitOf(available: nat, feeBp: nat): (s: Split)
    requires feeBp <= BasisPointsDenominator
    ensures s.fee + s.net == available
    ensures s.fee * BasisPointsDenominator <= available * feeBp < (s.fee + 1) * BasisPointsDenominator
    ensures s.net * BasisPointsDenominator >= available * (BasisPointsDenominator - feeBp)
  {
    var fee := available * feeBp / BasisPointsDenominator;
    Split(fee, available - fee)
  }

  /** A payment recorded against a post. */
  datatype Payment = Payment(postId: PostId, amount: nat)

  /** What `log` credits to `creator`, through the posts `creators` registers to them. */
  function CreatorTotal(log: seq<Payment>, creators: map<PostId, Address>, creator: Address): (total: nat)
  {
    if log == [] then 0
    else
      var last := log[|log| - 1];
      CreatorTotal(log[..|log| - 1], creators, creator)
        + (if last.postId in creators && creators[last.postId] == creator then last.amount else 0)
  }

  /** What `log` credits to the post `id`. */
  function PostTotal(log: seq<Payment>, id: PostId): (total: nat)
  {
    if log == [] then 0
    else
      var last := log[|log| - 1];
      PostTotal(log[..|log| - 1], id) + (if last.postId == id then last.amount else 0)
  }

  /** Every payment in `log` is against a post `creators` registers. */
  ghost predicate AllRegistered(log: seq<Payment>, creators: map<PostId, Address>)
  {
    forall i :: 0 <= i < |log| ==> log[i].postId in creators
  }

  /** A creator's total over two stretches of payments is the sum of the two. */
  lemma {:induction false} CreatorTotalConcat(a: seq<Payment>, b: seq<Payment>, creators: map<PostId, Address>, creator: Address)
    ensures CreatorTotal(a + b, creators, creator) == CreatorTotal(a, creators, creator) + CreatorTotal(b, creators, creator)
    decreases |b|
  {
    if b == [] {
      assert a + b == a;
    } else {
      CreatorTotalConcat(a, b[..|b| - 1], creators, creator);
      assert (a + b)[..|a + b| - 1] == a + b[..|b| - 1];
    }
  }

  /** A post's total over two stretches of payments is the sum of the two. */
  lemma {:induction false} PostTotalConcat(a: seq<Payment>, b: seq<Payment>, id: PostId)
    ensures PostTotal(a + b, id) == PostTotal(a, id) + PostTotal(b, id)
    decreases |b|
  {
    if b == [] {
      assert a + b == a;
    } else {
      PostTotalConcat(a, b[..|b| - 1], id);
      assert (a + b)[..|a + b| - 1] == a + b[..|b| - 1];
    }
  }

  /**
   * Accrual commutes: recording two payments in either order credits every
   * creator and every post the same total.
   */
  lemma AccrualCommutes(before: seq<Payment>, x: Payment, y: Payment, after: seq<Payment>,
                        creators: map<PostId, Address>, creator: Address, id: PostId)
    ensures CreatorTotal(before + [x, y] + after, creators, creator)
         == CreatorTotal(before + [y, x] + after, creators, creator)
    ensures PostTotal(before + [x, y] + after, id) == PostTotal(before + [y, x] + after, id)
  {
    CreatorTotalConcat(before + [x, y], after, creators, creator);
    CreatorTotalConcat(before + [y, x], after, creators, creator);
    CreatorTotalConcat(before, [x, y], creators, creator);
    CreatorTotalConcat(before, [y, x], creators, creator);
    PostTotalConcat(before + [x, y], after, id);
    PostTotalConcat(before + [y, x], after, id);
    PostTotalConcat(before, [x, y], id);
    PostTotalConcat(before, [y, x], id);
  }

  /**
   * Registering a new post changes no creator's total over payments made
   * before it existed: they are all against posts already registered.
   */
  lemma {:induction false} CreatorTotalUnaffectedByNewPost(log: seq<Payment>, creators: map<PostId, Address>,
                                                          id: PostId, owner: Address, creator: Address)
    requires id !in creators
    requires AllRegistered(log, creators)
    ensures CreatorTotal(log, creators[id := owner], creator) == CreatorTotal(log, creators, creator)
    decreases |log|
  {
    if log != [] {
      CreatorTotalUnaffectedByNewPost(log[..|log| - 1], creators, id, owner, creator);
    }
  }

  /** A post nobody registered has earned nothing. */
  lemma {:induction false} PostTotalOfUnregistered(log: seq<Payment>, creators: map<PostId, Address>, id: PostId)
    requires AllRegistered(log, creators)
    requires id !in creators
    ensures PostTotal(log, id) == 0
    decreases |log|
  {
    if log != [] {
      PostTotalOfUnregistered(log[..|log| - 1], creators, id);
    }
  }
}
