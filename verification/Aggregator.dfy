/** Aggregation of signed receipts into a cumulative voucher. Signature recovery enters as its
    result: a signer, or nothing when recovery failed. */
module Aggregator {
  import opened Basics
  import opened Ledger
  import opened Signature

  datatype Receipt = Receipt(tuple: Tuple, timestampNs: nat, value: int)

  datatype SignedReceipt = SignedReceipt(message: Receipt, signature: Sig, signer: Option<Address>)

  datatype Aggregate = Aggregate(tuple: Tuple, timestampNs: nat, value: int)

  datatype SignedAggregate = SignedAggregate(message: Aggregate, signer: Option<Address>)

  datatype AggregateError =
    | NoReceipts | DuplicateSignature | RecoveryFailed | InvalidSigner | RavSignerMismatch | InvalidTimestamp
    | CollectionMismatch | PayerMismatch | ServiceProviderMismatch | DataServiceMismatch | AggregateOverflow
    | SigningFailed

  const MAX_UINT128: nat := U128 - 1

  // ---- The sum ----

  function Base(previous: Option<SignedAggregate>): int {
    if previous.Some? then previous.value.message.value else 0
  }

  function BaseTime(previous: Option<SignedAggregate>): nat {
    if previous.Some? then previous.value.message.timestampNs else 0
  }

  function Total(rs: seq<SignedReceipt>): int {
    if rs == [] then 0 else Total(rs[..|rs| - 1]) + rs[|rs| - 1].message.value
  }

  function Latest(rs: seq<SignedReceipt>, start: nat): nat {
    if rs == [] then start
    else
      var before, t := Latest(rs[..|rs| - 1], start), rs[|rs| - 1].message.timestampNs;
      if t > before then t else before
  }

  /** Some running sum passes the bound. */
  predicate Overflows(rs: seq<SignedReceipt>, base: int) {
    rs != [] && (Overflows(rs[..|rs| - 1], base) || base + Total(rs) > MAX_UINT128)
  }

  function Aggregated(rs: seq<SignedReceipt>, previous: Option<SignedAggregate>): Result<Aggregate, AggregateError>
    requires rs != []
  {
    if Overflows(rs, Base(previous)) then Err(AggregateOverflow)
    else Ok(Aggregate(rs[0].message.tuple, Latest(rs, BaseTime(previous)), Base(previous) + Total(rs)))
  }

  /** `aggregate`. */
  method SumReceipts(receipts: seq<SignedReceipt>, previous: Option<SignedAggregate>)
    returns (result: Result<Aggregate, AggregateError>)
    requires receipts != []
    ensures result == Aggregated(receipts, previous)
  {
    var timestampMax := 0;
    var valueAggregate := 0;
    if previous.Some? {
      timestampMax := previous.value.message.timestampNs;
      valueAggregate := previous.value.message.value;
    }
    for i := 0 to |receipts|
      invariant valueAggregate == Base(previous) + Total(receipts[..i])
      invariant timestampMax == Latest(receipts[..i], BaseTime(previous))
      invariant !Overflows(receipts[..i], Base(previous))
    {
      assert receipts[..i + 1][..i] == receipts[..i];
      var newValue := valueAggregate + receipts[i].message.value;
      if newValue > MAX_UINT128 {
        OverflowStays(receipts, i + 1, Base(previous));
        return Err(AggregateOverflow);
      }
      valueAggregate := newValue;
      if receipts[i].message.timestampNs > timestampMax {
        timestampMax := receipts[i].message.timestampNs;
      }
    }
    assert receipts[..|receipts|] == receipts;
    result := Ok(Aggregate(receipts[0].message.tuple, timestampMax, valueAggregate));
  }

  lemma {:induction false} TotalConcat(a: seq<SignedReceipt>, b: seq<SignedReceipt>)
    ensures Total(a + b) == Total(a) + Total(b)
  {
    if b == [] {
      assert a + b == a;
    } else {
      assert (a + b)[..|a + b| - 1] == a + b[..|b| - 1];
      TotalConcat(a, b[..|b| - 1]);
    }
  }

  lemma {:induction false} LatestConcat(a: seq<SignedReceipt>, b: seq<SignedReceipt>, start: nat)
    ensures Latest(a + b, start) == Latest(b, Latest(a, start))
  {
    if b == [] {
      assert a + b == a;
    } else {
      assert (a + b)[..|a + b| - 1] == a + b[..|b| - 1];
      LatestConcat(a, b[..|b| - 1], start);
    }
  }

  lemma {:induction false} OverflowsConcat(a: seq<SignedReceipt>, b: seq<SignedReceipt>, base: int)
    ensures Overflows(a + b, base) <==> Overflows(a, base) || Overflows(b, base + Total(a))
  {
    if b == [] {
      assert a + b == a;
    } else {
      assert (a + b)[..|a + b| - 1] == a + b[..|b| - 1];
      OverflowsConcat(a, b[..|b| - 1], base);
      TotalConcat(a, b);
    }
  }

  lemma OverflowStays(rs: seq<SignedReceipt>, k: nat, base: int)
    requires k <= |rs| && Overflows(rs[..k], base)
    ensures Overflows(rs, base)
  {
    OverflowsConcat(rs[..k], rs[k..], base);
    assert rs[..k] + rs[k..] == rs;
  }

  /** Aggregating a concatenation is aggregating the second part onto the voucher of the first,
      including when either fails. */
  lemma AggregateConcat(a: seq<SignedReceipt>, b: seq<SignedReceipt>, previous: Option<SignedAggregate>,
                        signer: Option<Address>)
    requires a != [] && b != [] && a[0].message.tuple == b[0].message.tuple
    ensures Aggregated(a + b, previous) ==
            match Aggregated(a, previous)
            case Err(e) => Err(e)
            case Ok(first) => Aggregated(b, Some(SignedAggregate(first, signer)))
  {
    OverflowsConcat(a, b, Base(previous));
    TotalConcat(a, b);
    LatestConcat(a, b, BaseTime(previous));
  }

  predicate NonNegative(rs: seq<SignedReceipt>) {
    forall r <- rs :: r.message.value >= 0
  }

  lemma {:induction false} OverflowIsTotal(rs: seq<SignedReceipt>, base: int)
    requires rs != [] && NonNegative(rs)
    ensures Overflows(rs, base) <==> base + Total(rs) > MAX_UINT128
  {
    if |rs| > 1 {
      OverflowIsTotal(rs[..|rs| - 1], base);
    }
  }

  /** For non-negative receipts aggregation fails exactly when the total does not fit 128 bits. */
  lemma OverflowIffTotal(rs: seq<SignedReceipt>, previous: Option<SignedAggregate>)
    requires rs != [] && NonNegative(rs)
    ensures Aggregated(rs, previous).Err? <==> Base(previous) + Total(rs) > MAX_UINT128
  {
    OverflowIsTotal(rs, Base(previous));
  }

  // ---- The checks before it ----

  function SignersProblem(rs: seq<SignedReceipt>, accepted: set<Address>): Option<AggregateError> {
    if rs == [] then None
    else
      var before := SignersProblem(rs[..|rs| - 1], accepted);
      if before.Some? then before
      else match rs[|rs| - 1].signer
        case None => Some(RecoveryFailed)
        case Some(s) => if s in accepted then None else Some(InvalidSigner)
  }

  function RavSignerProblem(previous: Option<SignedAggregate>, accepted: set<Address>): Option<AggregateError> {
    if previous.None? then None
    else match previous.value.signer
      case None => Some(RecoveryFailed)
      case Some(s) => if s in accepted then None else Some(RavSignerMismatch)
  }

  function TupleProblem(t: Tuple, u: Tuple): Option<AggregateError> {
    if t.collectionId != u.collectionId then Some(CollectionMismatch)
    else if t.payer != u.payer then Some(PayerMismatch)
    else if t.serviceProvider != u.serviceProvider then Some(ServiceProviderMismatch)
    else if t.dataService != u.dataService then Some(DataServiceMismatch)
    else None
  }

  function ConsistencyProblem(rs: seq<SignedReceipt>): Option<AggregateError> {
    if |rs| < 2 then None
    else
      var before := ConsistencyProblem(rs[..|rs| - 1]);
      if before.Some? then before else TupleProblem(rs[|rs| - 1].message.tuple, rs[0].message.tuple)
  }

  function Signatures(rs: seq<SignedReceipt>): seq<Sig> {
    seq(|rs|, i requires 0 <= i < |rs| => rs[i].signature)
  }

  predicate AllAfter(rs: seq<SignedReceipt>, previous: Option<SignedAggregate>) {
    previous.Some? ==> forall r <- rs :: r.message.timestampNs > previous.value.message.timestampNs
  }

  /** The first check that fails, in the order they are made. */
  function Problem(rs: seq<SignedReceipt>, previous: Option<SignedAggregate>, accepted: set<Address>)
    : Option<AggregateError>
  {
    if rs == [] then Some(NoReceipts)
    else if !AllDistinct(Signatures(rs)) then Some(DuplicateSignature)
    else if SignersProblem(rs, accepted).Some? then SignersProblem(rs, accepted)
    else if RavSignerProblem(previous, accepted).Some? then RavSignerProblem(previous, accepted)
    else if !AllAfter(rs, previous) then Some(InvalidTimestamp)
    else if ConsistencyProblem(rs).Some? then ConsistencyProblem(rs)
    else if previous.Some? then TupleProblem(rs[0].message.tuple, previous.value.message.tuple)
    else None
  }

  function Judged(rs: seq<SignedReceipt>, previous: Option<SignedAggregate>, accepted: set<Address>)
    : Result<Aggregate, AggregateError>
  {
    var problem := Problem(rs, previous, accepted);
    if problem.Some? then Err(problem.value) else Aggregated(rs, previous)
  }

  class ReceiptAggregator {
    const acceptedSigners: set<Address>
    const signerKey: Address

    constructor (signerKey: Address, acceptedSigners: set<Address>)
      ensures this.signerKey == signerKey && this.acceptedSigners == acceptedSigners
    {
      this.signerKey, this.acceptedSigners := signerKey, acceptedSigners;
    }

    method VerifyReceiptSigners(receipts: seq<SignedReceipt>) returns (problem: Option<AggregateError>)
      ensures problem == SignersProblem(receipts, acceptedSigners)
    {
      for i := 0 to |receipts|
        invariant SignersProblem(receipts[..i], acceptedSigners).None?
      {
        assert receipts[..i + 1][..i] == receipts[..i];
        if receipts[i].signer.None? || receipts[i].signer.value !in acceptedSigners {
          problem := Some(if receipts[i].signer.None? then RecoveryFailed else InvalidSigner);
          SignersProblemStays(receipts, i + 1);
          return;
        }
      }
      assert receipts[..|receipts|] == receipts;
      problem := None;
    }

    lemma {:induction false} SignersProblemStays(rs: seq<SignedReceipt>, k: nat)
      requires k <= |rs| && SignersProblem(rs[..k], acceptedSigners).Some?
      ensures SignersProblem(rs, acceptedSigners) == SignersProblem(rs[..k], acceptedSigners)
    {
      if k < |rs| {
        assert rs[..|rs| - 1][..k] == rs[..k];
        SignersProblemStays(rs[..|rs| - 1], k);
      } else {
        assert rs[..k] == rs;
      }
    }

    method CheckReceiptTimestamps(receipts: seq<SignedReceipt>, previous: Option<SignedAggregate>) returns (ok: bool)
      ensures ok == AllAfter(receipts, previous)
    {
      if previous.None? {
        return true;
      }
      for i := 0 to |receipts|
        invariant forall k :: 0 <= k < i ==> receipts[k].message.timestampNs > previous.value.message.timestampNs
      {
        if receipts[i].message.timestampNs <= previous.value.message.timestampNs {
          return false;
        }
      }
      ok := true;
    }

    method ValidateReceiptConsistency(receipts: seq<SignedReceipt>) returns (problem: Option<AggregateError>)
      ensures problem == ConsistencyProblem(receipts)
    {
      if |receipts| == 0 {
        return None;
      }
      for i := 1 to |receipts|
        invariant ConsistencyProblem(receipts[..i]).None?
      {
        assert receipts[..i + 1][..i] == receipts[..i];
        var p := TupleProblem(receipts[i].message.tuple, receipts[0].message.tuple);
        if p.Some? {
          ConsistencyProblemStays(receipts, i + 1);
          return p;
        }
      }
      assert receipts[..|receipts|] == receipts;
      problem := None;
    }

    lemma {:induction false} ConsistencyProblemStays(rs: seq<SignedReceipt>, k: nat)
      requires k <= |rs| && ConsistencyProblem(rs[..k]).Some?
      ensures ConsistencyProblem(rs) == ConsistencyProblem(rs[..k])
    {
      if k < |rs| {
        assert rs[..|rs| - 1][..k] == rs[..k];
        ConsistencyProblemStays(rs[..|rs| - 1], k);
      } else {
        assert rs[..k] == rs;
      }
    }

    /** `AggregateReceipts`; the result is signed with this aggregator's key, if signing works. */
    method AggregateReceipts(receipts: seq<SignedReceipt>, previous: Option<SignedAggregate>, signs: bool)
      returns (result: Result<SignedAggregate, AggregateError>)
      ensures result == match Judged(receipts, previous, acceptedSigners)
                        case Err(e) => Err(e)
                        case Ok(message) =>
                          if signs then Ok(SignedAggregate(message, Some(signerKey))) else Err(SigningFailed)
    {
      if |receipts| == 0 {
        return Err(NoReceipts);
      }
      var unique := CheckSignaturesUnique(Signatures(receipts));
      if !unique {
        return Err(DuplicateSignature);
      }
      var problem := VerifyReceiptSigners(receipts);
      if problem.Some? {
        return Err(problem.value);
      }
      problem := RavSignerProblem(previous, acceptedSigners);
      if problem.Some? {
        return Err(problem.value);
      }
      var after := CheckReceiptTimestamps(receipts, previous);
      if !after {
        return Err(InvalidTimestamp);
      }
      problem := ValidateReceiptConsistency(receipts);
      if problem.Some? {
        return Err(problem.value);
      }
      if previous.Some? {
        problem := TupleProblem(receipts[0].message.tuple, previous.value.message.tuple);
        if problem.Some? {
          return Err(problem.value);
        }
      }
      var sum := SumReceipts(receipts, previous);
      match sum {
        case Err(e) => return Err(e);
        case Ok(message) =>
          result := if signs then Ok(SignedAggregate(message, Some(signerKey))) else Err(SigningFailed);
      }
    }
  }

  // ---- Chains of calls ----

  /** The voucher after aggregating batch after batch, each onto the one before; none if a call failed. */
  function Chained(batches: seq<seq<SignedReceipt>>, previous: Option<SignedAggregate>, accepted: set<Address>,
                   key: Address)
    : Option<Option<SignedAggregate>>
  {
    if batches == [] then Some(previous)
    else match Chained(batches[..|batches| - 1], previous, accepted, key)
      case None => None
      case Some(voucher) =>
        match Judged(batches[|batches| - 1], voucher, accepted)
        case Err(_) => None
        case Ok(message) => Some(Some(SignedAggregate(message, Some(key))))
  }

  function Flat(batches: seq<seq<SignedReceipt>>): seq<SignedReceipt> {
    if batches == [] then [] else Flat(batches[..|batches| - 1]) + batches[|batches| - 1]
  }

  lemma {:induction false} LatestCovers(rs: seq<SignedReceipt>, start: nat)
    ensures start <= Latest(rs, start)
    ensures forall r <- rs :: r.message.timestampNs <= Latest(rs, start)
  {
    if rs != [] {
      LatestCovers(rs[..|rs| - 1], start);
      assert forall r <- rs :: r in rs[..|rs| - 1] || r == rs[|rs| - 1];
    }
  }

  lemma {:induction false} SignersIff(rs: seq<SignedReceipt>, accepted: set<Address>)
    ensures SignersProblem(rs, accepted).None? <==> forall r <- rs :: r.signer.Some? && r.signer.value in accepted
  {
    if rs != [] {
      SignersIff(rs[..|rs| - 1], accepted);
      assert forall r <- rs :: r in rs[..|rs| - 1] || r == rs[|rs| - 1];
      assert rs[|rs| - 1] in rs && forall r <- rs[..|rs| - 1] :: r in rs;
    }
  }

  lemma {:induction false} ConsistencyIff(rs: seq<SignedReceipt>)
    requires rs != []
    ensures ConsistencyProblem(rs).None? <==> forall r <- rs :: r.message.tuple == rs[0].message.tuple
  {
    if |rs| > 1 {
      ConsistencyIff(rs[..|rs| - 1]);
      assert rs[..|rs| - 1][0] == rs[0];
      assert forall r <- rs :: r in rs[..|rs| - 1] || r == rs[|rs| - 1];
      assert rs[|rs| - 1] in rs && forall r <- rs[..|rs| - 1] :: r in rs;
    }
  }

  /** The checks pass exactly for a non-empty batch of distinctly signed receipts by accepted signers,
      all on one tuple, all later than the previous voucher, which is on that tuple by an accepted signer. */
  lemma ChecksIff(rs: seq<SignedReceipt>, previous: Option<SignedAggregate>, accepted: set<Address>)
    ensures Problem(rs, previous, accepted).None? <==>
            && rs != [] && AllDistinct(Signatures(rs))
            && (forall r <- rs :: r.signer.Some? && r.signer.value in accepted)
            && (forall r <- rs :: r.message.tuple == rs[0].message.tuple)
            && AllAfter(rs, previous)
            && (previous.Some? ==>
                  && previous.value.signer.Some? && previous.value.signer.value in accepted
                  && previous.value.message.tuple == rs[0].message.tuple)
  {
    SignersIff(rs, accepted);
    if rs != [] {
      ConsistencyIff(rs);
    }
  }

  /** What a successful call returns. */
  lemma JudgedOk(rs: seq<SignedReceipt>, previous: Option<SignedAggregate>, accepted: set<Address>)
    requires Judged(rs, previous, accepted).Ok?
    ensures var message := Judged(rs, previous, accepted).value;
            && AllAfter(rs, previous)
            && message.value == Base(previous) + Total(rs) <= MAX_UINT128
            && message.timestampNs == Latest(rs, BaseTime(previous))
            && BaseTime(previous) <= message.timestampNs
            && (forall r <- rs :: r.message.timestampNs <= message.timestampNs)
            && (previous.Some? ==> message.tuple == previous.value.message.tuple)
  {
    LatestCovers(rs, BaseTime(previous));
  }

  /** Along a chain of successful calls the voucher's timestamp covers every receipt so far and its
      value is the exact sum. */
  lemma {:induction false} ChainCovers(batches: seq<seq<SignedReceipt>>, previous: Option<SignedAggregate>,
                                       accepted: set<Address>, key: Address)
    requires Chained(batches, previous, accepted, key).Some?
    ensures var voucher := Chained(batches, previous, accepted, key).value;
            && Base(voucher) == Base(previous) + Total(Flat(batches))
            && (batches != [] ==> voucher.Some? && voucher.value.message.value <= MAX_UINT128)
            && (forall r <- Flat(batches) :: r.message.timestampNs <= BaseTime(voucher))
  {
    if batches != [] {
      var n := |batches| - 1;
      ChainCovers(batches[..n], previous, accepted, key);
      var before := Chained(batches[..n], previous, accepted, key).value;
      TotalConcat(Flat(batches[..n]), batches[n]);
      JudgedOk(batches[n], before, accepted);
    }
  }

  lemma {:induction false} InFlat(batches: seq<seq<SignedReceipt>>, k: nat)
    requires k < |batches|
    ensures forall r <- batches[k] :: r in Flat(batches)
  {
    if k < |batches| - 1 {
      InFlat(batches[..|batches| - 1], k);
    }
  }

  predicate Before(a: seq<SignedReceipt>, b: seq<SignedReceipt>) {
    forall r <- a, q <- b :: r.message.timestampNs < q.message.timestampNs
  }

  lemma AfterVoucher(rs: seq<SignedReceipt>, early: seq<SignedReceipt>, voucher: SignedAggregate)
    requires AllAfter(rs, Some(voucher)) && forall r <- early :: r.message.timestampNs <= voucher.message.timestampNs
    ensures Before(early, rs) && forall r <- rs :: r !in early
  {
  }

  /** Batches of a chain lie in disjoint, increasing timestamp ranges, so no receipt is counted in two. */
  lemma {:induction false} ChainDisjoint(batches: seq<seq<SignedReceipt>>, previous: Option<SignedAggregate>,
                                         accepted: set<Address>, key: Address, a: nat, b: nat)
    requires Chained(batches, previous, accepted, key).Some? && a < b < |batches|
    ensures Before(batches[a], batches[b])
    ensures forall r <- batches[b] :: r !in batches[a]
  {
    var n := |batches| - 1;
    var front := batches[..n];
    if b < n {
      ChainDisjoint(front, previous, accepted, key, a, b);
    } else {
      var voucher := Chained(front, previous, accepted, key).value;
      ChainCovers(front, previous, accepted, key);
      JudgedOk(batches[n], voucher, accepted);
      InFlat(front, a);
      assert forall r <- batches[a] :: r.message.timestampNs <= voucher.value.message.timestampNs;
      AfterVoucher(batches[b], batches[a], voucher.value);
    }
  }
}
