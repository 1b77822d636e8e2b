/** The BB84 quantum key distribution simulation: the sender prepares one of
    four states per round, the receiver measures each in a random basis, the
    rounds whose bases agree are sifted into a shared key, the error rate is
    estimated by injected noise, and the final key is cut by a fixed overhead.
    Every random draw of the simulation is an input sequence here. */
module BB84 {
  import opened Bits

  /** Basis 0 is the computational basis |0>, |1>; any other basis value is
      treated as the Hadamard basis |+>, |->, exactly as the simulator's
      `if basis == 0 ... else ...` does. */
  const Computational := 0
  const Hadamard := 1

  /** Qubits in the simulated run. */
  const DefaultQubits := 125
  /** Sifted bits sampled by the error estimate. */
  const DefaultTestBits := 25
  /** Bits given up for the unmodelled error correction and privacy amplification. */
  const Overhead := 10
  /** Probability that a noise trial of the error estimate counts as an error. */
  const ChannelErrorProbability: real := 0.02

  /** The four prepared states: amplitudes (1,0), (0,1), (1,1)/sqrt 2 and (1,-1)/sqrt 2. */
  datatype PreparedState = Zero | One | Plus | Minus

  /** The sender's encoding table: the (bit, basis) pair picks one of the four states. */
  function Encode(bit: int, basis: int): (st: PreparedState)
    ensures IsBit(bit) && IsBit(basis) ==> BitOf(st) == bit && BasisOf(st) == basis
    ensures basis == Computational <==> st in {Zero, One}
  {
    if basis == Computational then (if bit == 0 then Zero else One)
    else (if bit == 0 then Plus else Minus)
  }

  /** The bit a prepared state carries. */
  function BitOf(st: PreparedState): (b: int) {
    if st in {Zero, Plus} then 0 else 1
  }

  /** The basis a prepared state was encoded in. */
  function BasisOf(st: PreparedState): (basis: int) {
    if st in {Zero, One} then Computational else Hadamard
  }

  /** The encoding table is a bijection between (bit, basis) pairs and states. */
  lemma EncodeRoundTrip(st: PreparedState)
    ensures Encode(BitOf(st), BasisOf(st)) == st
  {
  }

  /** |amplitude[0]|^2, the chance of outcome 0 in the computational basis. */
  function Prob0(st: PreparedState): (p: real) {
    match st
    case Zero => 1.0
    case One => 0.0
    case Plus => 0.5
    case Minus => 0.5
  }

  /** `QuantumState.measure(basis)`. In the computational basis the outcome is
      0 exactly when the uniform sample lies below |amplitude[0]|^2. In the
      Hadamard basis the outcome depends on the floating-point value of the
      transformed amplitude, so it is the given oracle comparison
      `hadamardBelow` (true means the sample fell below it, giving 0). */
  function Measure(st: PreparedState, basis: int, sample: real, hadamardBelow: bool): (m: int)
    ensures IsBit(m)
    ensures basis == Computational ==> (m == 0 <==> sample < Prob0(st))
    ensures basis != Computational ==> m == Outcome(hadamardBelow)
  {
    if basis == Computational then (if sample < Prob0(st) then 0 else 1)
    else Outcome(hadamardBelow)
  }

  /** A state prepared in the computational basis and measured in it yields the
      prepared bit, whatever the sample in [0, 1) drawn by `random.random()`. */
  lemma ComputationalMeasurementIsExact(bit: int, sample: real, hadamardBelow: bool)
    requires IsBit(bit)
    requires 0.0 <= sample < 1.0
    ensures Measure(Encode(bit, Computational), Computational, sample, hadamardBelow) == bit
  {
  }

  /** What the sender's generator yields: a prepared state and its round index. */
  datatype Transmission = Transmission(state: PreparedState, id: int)

  /** The states the receiver measures, one per round, in round order. */
  function Measurements(stream: seq<Transmission>, bases: seq<int>, samples: seq<real>,
                        hadamardDraws: seq<bool>): (ms: seq<int>)
    requires |bases| == |stream| && |samples| == |stream| && |hadamardDraws| == |stream|
    ensures |ms| == |stream| && AllBits(ms)
  {
    seq(|stream|, i requires 0 <= i < |stream| =>
      Measure(stream[i].state, bases[i], samples[i], hadamardDraws[i]))
  }

  /** The rounds i < n whose bases agree, in increasing order: the rounds kept when
      the two parties compare bases in public. */
  function MatchingRounds(aliceBases: seq<int>, bobBases: seq<int>, n: nat): (rounds: seq<nat>)
    requires n <= |aliceBases| && n <= |bobBases|
  {
    if n == 0 then []
    else MatchingRounds(aliceBases, bobBases, n - 1)
         + (if aliceBases[n - 1] == bobBases[n - 1] then [n - 1] else [])
  }

  /** The sifted key of the first n rounds: the sender's bit of each round whose
      bases agree, in round order. */
  function Sift(aliceBits: seq<int>, aliceBases: seq<int>, bobBases: seq<int>, n: nat): (key: seq<int>)
    requires n <= |aliceBits| && n <= |aliceBases| && n <= |bobBases|
  {
    if n == 0 then []
    else Sift(aliceBits, aliceBases, bobBases, n - 1)
         + (if aliceBases[n - 1] == bobBases[n - 1] then [aliceBits[n - 1]] else [])
  }

  /** A round is among the matching rounds exactly when it precedes n and its
      bases agree, and the matching rounds are listed in strictly increasing order. */
  lemma {:induction false} MatchingRoundsExact(aliceBases: seq<int>, bobBases: seq<int>, n: nat)
    requires n <= |aliceBases| && n <= |bobBases|
    ensures forall i: nat :: i in MatchingRounds(aliceBases, bobBases, n) <==>
              i < n && aliceBases[i] == bobBases[i]
    ensures forall j, k :: 0 <= j < k < |MatchingRounds(aliceBases, bobBases, n)| ==>
              MatchingRounds(aliceBases, bobBases, n)[j] < MatchingRounds(aliceBases, bobBases, n)[k]
  {
    if n > 0 {
      MatchingRoundsExact(aliceBases, bobBases, n - 1);
      var prev := MatchingRounds(aliceBases, bobBases, n - 1);
      forall j | 0 <= j < |prev|
        ensures prev[j] < n - 1
      {
        assert prev[j] in prev;
      }
    }
  }

  /** The k-th sifted bit is the sender's bit of the k-th matching round. */
  lemma {:induction false} SiftFollowsMatchingRounds(aliceBits: seq<int>, aliceBases: seq<int>,
                                                     bobBases: seq<int>, n: nat)
    requires n <= |aliceBits| && n <= |aliceBases| && n <= |bobBases|
    ensures |Sift(aliceBits, aliceBases, bobBases, n)| == |MatchingRounds(aliceBases, bobBases, n)|
    ensures forall k :: 0 <= k < |Sift(aliceBits, aliceBases, bobBases, n)| ==>
              MatchingRounds(aliceBases, bobBases, n)[k] < n &&
              Sift(aliceBits, aliceBases, bobBases, n)[k]
                == aliceBits[MatchingRounds(aliceBases, bobBases, n)[k]]
  {
    if n > 0 {
      SiftFollowsMatchingRounds(aliceBits, aliceBases, bobBases, n - 1);
    }
  }

  /** The sifted key never has more bits than there were rounds, and holds only bits. */
  lemma {:induction false} SiftBounds(aliceBits: seq<int>, aliceBases: seq<int>, bobBases: seq<int>, n: nat)
    requires n <= |aliceBits| && n <= |aliceBases| && n <= |bobBases|
    ensures |Sift(aliceBits, aliceBases, bobBases, n)| <= n
    ensures AllBits(aliceBits) ==> AllBits(Sift(aliceBits, aliceBases, bobBases, n))
  {
    if n > 0 {
      SiftBounds(aliceBits, aliceBases, bobBases, n - 1);
    }
  }

  /** When the bases agree in every round, sifting keeps every bit; when they
      agree in none, it keeps nothing. */
  lemma {:induction false} SiftExtremes(aliceBits: seq<int>, aliceBases: seq<int>, bobBases: seq<int>, n: nat)
    requires n <= |aliceBits| && n <= |aliceBases| && n <= |bobBases|
    ensures (forall i :: 0 <= i < n ==> aliceBases[i] == bobBases[i]) ==>
              Sift(aliceBits, aliceBases, bobBases, n) == aliceBits[..n]
    ensures (forall i :: 0 <= i < n ==> aliceBases[i] != bobBases[i]) ==>
              Sift(aliceBits, aliceBases, bobBases, n) == []
  {
    if n > 0 {
      SiftExtremes(aliceBits, aliceBases, bobBases, n - 1);
      assert aliceBits[..n] == aliceBits[..n - 1] + [aliceBits[n - 1]];
    }
  }

  /** In every round where both parties chose the computational basis, the
      receiver's measurement equals the sender's bit. */
  lemma ComputationalRoundsAgree(aliceBits: seq<int>, aliceBases: seq<int>, bobBases: seq<int>,
                                 samples: seq<real>, hadamardDraws: seq<bool>)
    requires |aliceBases| == |aliceBits| && |bobBases| == |aliceBits|
    requires |samples| == |aliceBits| && |hadamardDraws| == |aliceBits|
    requires AllBits(aliceBits)
    requires forall i :: 0 <= i < |samples| ==> 0.0 <= samples[i] < 1.0
    ensures var stream := seq(|aliceBits|, i requires 0 <= i < |aliceBits| =>
                              Transmission(Encode(aliceBits[i], aliceBases[i]), i));
            forall i :: 0 <= i < |aliceBits| && aliceBases[i] == Computational && bobBases[i] == Computational ==>
              Measurements(stream, bobBases, samples, hadamardDraws)[i] == aliceBits[i]
  {
  }

  /** The outcome of an error estimate: the ratio errors/sampled, or the
      ZeroDivisionError raised when zero bits are sampled. */
  datatype Qber = Rate(errors: int, sampled: int) | ZeroDivisionError

  /** The ratio as a number. */
  function RateValue(q: Qber): (v: real)
    requires q.Rate? && q.sampled != 0
  {
    q.errors as real / q.sampled as real
  }

  /** How many of the first k noise draws fall below the channel error probability. */
  function CountErrors(noise: seq<real>, k: nat): (errors: int)
    requires k <= |noise|
  {
    if k == 0 then 0
    else CountErrors(noise, k - 1) + (if noise[k - 1] < ChannelErrorProbability then 1 else 0)
  }

  /** Between none and all of the trials inject an error; a noiseless channel
      injects none and a channel that always flips injects one per trial. */
  lemma {:induction false} CountErrorsBounds(noise: seq<real>, k: nat)
    requires k <= |noise|
    ensures 0 <= CountErrors(noise, k) <= k
    ensures (forall i :: 0 <= i < k ==> noise[i] >= ChannelErrorProbability) ==> CountErrors(noise, k) == 0
    ensures (forall i :: 0 <= i < k ==> noise[i] < ChannelErrorProbability) ==> CountErrors(noise, k) == k
  {
    if k > 0 {
      CountErrorsBounds(noise, k - 1);
    }
  }

  /** A ratio of an error count over a non-zero sample size lies in [0, 1] when
      the count is at most the sample size (for a negative size, when it is 0). */
  lemma RateInUnitInterval(errors: int, sampled: int)
    requires sampled != 0
    requires 0 <= errors <= RangeLen(sampled)
    ensures 0.0 <= RateValue(Rate(errors, sampled)) <= 1.0
  {
  }

  /** The final-key length after subtracting the reconciliation overhead, never negative. */
  function FinalKeyLength(siftedLength: int): (len: int) {
    Max(0, siftedLength - Overhead)
  }

  /** The key returned by the run: `shared_key[:final_key_length]` when that
      length is positive, and the empty list otherwise. */
  function FinalKey(sharedKey: seq<int>, siftedLength: int): (key: seq<int>)
    ensures key <= sharedKey
    ensures |key| == Min(|sharedKey|, FinalKeyLength(siftedLength))
    ensures siftedLength <= Overhead ==> key == []
    ensures AllBits(sharedKey) ==> AllBits(key)
  {
    if FinalKeyLength(siftedLength) > 0 then PyPrefix(sharedKey, FinalKeyLength(siftedLength)) else []
  }

  /** Applied to the key's own length, the finalizer keeps the first
      length - 10 bits, or nothing when at most 10 bits were sifted. */
  lemma FinalKeyOfSiftedKey(sharedKey: seq<int>)
    ensures |FinalKey(sharedKey, |sharedKey|)| == Max(0, |sharedKey| - Overhead)
    ensures |sharedKey| > Overhead ==> FinalKey(sharedKey, |sharedKey|) == sharedKey[..|sharedKey| - Overhead]
    ensures |sharedKey| <= Overhead ==> FinalKey(sharedKey, |sharedKey|) == []
  {
  }

  /** One protocol run's records: per-round parallel lists that grow one entry
      per round, and the sifted key. */
  class Protocol {
    const numQubits: int
    var aliceBits: seq<int>
    var aliceBases: seq<int>
    var bobBases: seq<int>
    var bobMeasurements: seq<int>
    var sharedKey: seq<int>

    constructor (numQubits: int)
      ensures this.numQubits == numQubits
      ensures aliceBits == [] && aliceBases == [] && bobBases == [] && bobMeasurements == []
      ensures sharedKey == []
    {
      this.numQubits := numQubits;
      aliceBits, aliceBases, bobBases, bobMeasurements := [], [], [], [];
      sharedKey := [];
    }

    /** The sender's preparation: per round, a random bit and a random basis are
        recorded and encoded, and the state is sent with its round index.
        `bitDraws` and `basisDraws` are the `randint(0, 1)` draws, one per round. */
    method PrepareQubits(bitDraws: seq<int>, basisDraws: seq<int>) returns (stream: seq<Transmission>)
      requires |bitDraws| == RangeLen(numQubits) && |basisDraws| == RangeLen(numQubits)
      requires AllBits(bitDraws) && AllBits(basisDraws)
      modifies this`aliceBits, this`aliceBases
      ensures aliceBits == old(aliceBits) + bitDraws
      ensures aliceBases == old(aliceBases) + basisDraws
      ensures |stream| == RangeLen(numQubits)
      ensures forall i :: 0 <= i < |stream| ==>
                stream[i] == Transmission(Encode(bitDraws[i], basisDraws[i]), i)
    {
      stream := [];
      for i := 0 to RangeLen(numQubits)
        invariant aliceBits == old(aliceBits) + bitDraws[..i]
        invariant aliceBases == old(aliceBases) + basisDraws[..i]
        invariant |stream| == i
        invariant forall j :: 0 <= j < i ==> stream[j] == Transmission(Encode(bitDraws[j], basisDraws[j]), j)
      {
        var bit := bitDraws[i];
        var basis := basisDraws[i];
        aliceBits := aliceBits + [bit];
        aliceBases := aliceBases + [basis];
        var state;
        if basis == Computational {
          state := if bit == 0 then Zero else One;
        } else {
          state := if bit == 0 then Plus else Minus;
        }
        stream := stream + [Transmission(state, i)];
      }
      assert bitDraws[..RangeLen(numQubits)] == bitDraws;
      assert basisDraws[..RangeLen(numQubits)] == basisDraws;
    }

    /** The receiver's measurement: per received qubit, a random basis is drawn
        and recorded and the qubit is measured in it, and the qubit's id is
        passed on unchanged. */
    method MeasureQubits(stream: seq<Transmission>, basisDraws: seq<int>, samples: seq<real>,
                         hadamardDraws: seq<bool>) returns (ids: seq<int>)
      requires |basisDraws| == |stream| && |samples| == |stream| && |hadamardDraws| == |stream|
      requires AllBits(basisDraws)
      modifies this`bobBases, this`bobMeasurements
      ensures bobBases == old(bobBases) + basisDraws
      ensures bobMeasurements == old(bobMeasurements) + Measurements(stream, basisDraws, samples, hadamardDraws)
      ensures |ids| == |stream| && forall i :: 0 <= i < |ids| ==> ids[i] == stream[i].id
    {
      ids := [];
      for i := 0 to |stream|
        invariant bobBases == old(bobBases) + basisDraws[..i]
        invariant bobMeasurements == old(bobMeasurements)
                    + Measurements(stream[..i], basisDraws[..i], samples[..i], hadamardDraws[..i])
        invariant |ids| == i && forall j :: 0 <= j < i ==> ids[j] == stream[j].id
      {
        var bobBasis := basisDraws[i];
        bobBases := bobBases + [bobBasis];
        var measurement := Measure(stream[i].state, bobBasis, samples[i], hadamardDraws[i]);
        bobMeasurements := bobMeasurements + [measurement];
        ids := ids + [stream[i].id];
        assert Measurements(stream[..i + 1], basisDraws[..i + 1], samples[..i + 1], hadamardDraws[..i + 1])
            == Measurements(stream[..i], basisDraws[..i], samples[..i], hadamardDraws[..i]) + [measurement];
      }
      assert stream[..|stream|] == stream;
      assert basisDraws[..|stream|] == basisDraws;
      assert samples[..|stream|] == samples;
      assert hadamardDraws[..|stream|] == hadamardDraws;
    }

    /** Sifting: appends the sender's bit of every round whose bases agree, in
        round order, to the shared key (which is not cleared first), and returns
        the key's new length. */
    method SiftKey() returns (siftedLength: nat)
      requires |aliceBits| >= RangeLen(numQubits) && |aliceBases| >= RangeLen(numQubits)
      requires |bobBases| >= RangeLen(numQubits)
      modifies this`sharedKey
      ensures sharedKey == old(sharedKey) + Sift(aliceBits, aliceBases, bobBases, RangeLen(numQubits))
      ensures siftedLength == |sharedKey|
      ensures siftedLength == |old(sharedKey)| + |MatchingRounds(aliceBases, bobBases, RangeLen(numQubits))|
      ensures siftedLength <= |old(sharedKey)| + RangeLen(numQubits)
    {
      for i := 0 to RangeLen(numQubits)
        invariant sharedKey == old(sharedKey) + Sift(aliceBits, aliceBases, bobBases, i)
      {
        if aliceBases[i] == bobBases[i] {
          sharedKey := sharedKey + [aliceBits[i]];
        }
      }
      siftedLength := |sharedKey|;
      SiftFollowsMatchingRounds(aliceBits, aliceBases, bobBases, RangeLen(numQubits));
      SiftBounds(aliceBits, aliceBases, bobBases, RangeLen(numQubits));
    }

    /** The error-rate estimate: the worst case 1.0 when the key is shorter than
        the sample; otherwise one noise trial per sampled bit, an error whenever
        the draw falls below the channel error probability, and the ratio of
        errors to `testBits` (a ZeroDivisionError when `testBits` is 0). The key
        is read, never changed. */
    method EstimateErrorRate(testBits: int, noiseDraws: seq<real>) returns (qber: Qber)
      requires |noiseDraws| >= RangeLen(testBits)
      ensures |sharedKey| < testBits ==> qber == Rate(1, 1)
      ensures |sharedKey| >= testBits && testBits == 0 ==> qber == ZeroDivisionError
      ensures |sharedKey| >= testBits && testBits != 0 ==>
                qber == Rate(CountErrors(noiseDraws, RangeLen(testBits)), testBits)
      ensures qber.Rate? ==> qber.sampled != 0 && 0.0 <= RateValue(qber) <= 1.0
    {
      if |sharedKey| < testBits {
        qber := Rate(1, 1);
        assert RateValue(qber) == 1.0;
        return;
      }
      var errorCount := 0;
      var trials := RangeLen(Min(testBits, |sharedKey|));
      assert trials == RangeLen(testBits);
      for i := 0 to trials
        invariant errorCount == CountErrors(noiseDraws, i)
      {
        if noiseDraws[i] < ChannelErrorProbability {
          errorCount := errorCount + 1;
        }
      }
      if testBits == 0 {
        qber := ZeroDivisionError;
      } else {
        CountErrorsBounds(noiseDraws, trials);
        RateInUnitInterval(errorCount, testBits);
        qber := Rate(errorCount, testBits);
      }
    }
  }

  /** The complete simulation with 125 qubits: prepare, measure, sift, estimate
      the error rate on 25 bits, and return the first sifted length - 10 bits
      of the key (with the estimate, which the run computes but does not use). */
  method RunSimulation(bitDraws: seq<int>, basisDraws: seq<int>, bobBasisDraws: seq<int>,
                       samples: seq<real>, hadamardDraws: seq<bool>, noiseDraws: seq<real>)
    returns (key: seq<int>, qber: Qber)
    requires |bitDraws| == DefaultQubits && |basisDraws| == DefaultQubits
    requires |bobBasisDraws| == DefaultQubits && |samples| == DefaultQubits
    requires |hadamardDraws| == DefaultQubits && |noiseDraws| >= DefaultTestBits
    requires AllBits(bitDraws) && AllBits(basisDraws) && AllBits(bobBasisDraws)
    ensures var sifted := Sift(bitDraws, basisDraws, bobBasisDraws, DefaultQubits);
            key <= sifted && |key| == Max(0, |sifted| - Overhead) && AllBits(key)
    ensures var sifted := Sift(bitDraws, basisDraws, bobBasisDraws, DefaultQubits);
            qber == if |sifted| < DefaultTestBits then Rate(1, 1)
                    else Rate(CountErrors(noiseDraws, DefaultTestBits), DefaultTestBits)
  {
    var bb84 := new Protocol(DefaultQubits);
    var stream := bb84.PrepareQubits(bitDraws, basisDraws);
    var ids := bb84.MeasureQubits(stream, bobBasisDraws, samples, hadamardDraws);
    assert bb84.aliceBits == bitDraws && bb84.aliceBases == basisDraws && bb84.bobBases == bobBasisDraws;
    var siftedLength := bb84.SiftKey();
    ghost var sifted := Sift(bitDraws, basisDraws, bobBasisDraws, DefaultQubits);
    assert bb84.sharedKey == sifted && siftedLength == |sifted|;
    SiftBounds(bitDraws, basisDraws, bobBasisDraws, DefaultQubits);
    qber := bb84.EstimateErrorRate(DefaultTestBits, noiseDraws);
    key := FinalKey(bb84.sharedKey, siftedLength);
  }
}
