/** The whole-register random-bit generator: each measurement call measures
    every qubit once, and calls are repeated until enough bits are gathered,
    after which the surplus is cut off. The clock-driven sampling of each qubit
    is an oracle: a draw says whether the sample fell below the probability of 0. */
module QuantumRng {
  import opened Bits

  /** How many measurement calls the extend-until-enough loop makes:
      ceil(numBits / numQubits), and none when no bits are asked for. */
  function RoundsNeeded(numBits: int, numQubits: int): (rounds: nat)
    requires numBits <= 0 || numQubits > 0
    ensures numBits <= 0 ==> rounds == 0
    ensures numBits > 0 ==> rounds * numQubits >= numBits > (rounds - 1) * numQubits
  {
    if numBits <= 0 then 0
    else
      CeilingDivision(numBits, numQubits);
      FloorDiv(numBits + numQubits - 1, numQubits)
  }

  /** The results of the first k measurement calls, concatenated in call order;
      call r measures the qubits with the oracle draws `roundDraws[r]`. */
  function RoundResults(roundDraws: seq<seq<bool>>, numQubits: nat, k: nat): (bits: seq<int>)
    requires k <= |roundDraws|
    requires forall r :: 0 <= r < |roundDraws| ==> |roundDraws[r]| >= numQubits
  {
    if k == 0 then []
    else RoundResults(roundDraws, numQubits, k - 1) + Outcomes(roundDraws[k - 1][..numQubits])
  }

  /** Every call contributes one bit per qubit, and earlier calls' results are
      a prefix of later ones'. */
  lemma {:induction false} RoundResultsShape(roundDraws: seq<seq<bool>>, numQubits: nat, j: nat, k: nat)
    requires j <= k <= |roundDraws|
    requires forall r :: 0 <= r < |roundDraws| ==> |roundDraws[r]| >= numQubits
    ensures |RoundResults(roundDraws, numQubits, k)| == k * numQubits
    ensures RoundResults(roundDraws, numQubits, j) <= RoundResults(roundDraws, numQubits, k)
    ensures AllBits(RoundResults(roundDraws, numQubits, k))
  {
    if k > 0 {
      RoundResultsShape(roundDraws, numQubits, if j < k then j else k - 1, k - 1);
      assert k * numQubits == (k - 1) * numQubits + numQubits;
    }
  }

  /** While fewer than `bound` bits are collected in whole calls, fewer calls
      were made than the number that covers `bound`. */
  lemma FewerRounds(k: nat, m: nat, n: nat, bound: int)
    requires n > 0 && k * n < bound <= m * n
    ensures k < m
  {
  }

  /** A number of calls that covers `bound`, but not more than the least such
      number, is that least number. */
  lemma ExactRounds(k: nat, m: nat, n: nat, bound: int)
    requires n > 0 && k <= m && k * n >= bound > (m - 1) * n
    ensures k == m
  {
  }

  class QuantumRng {
    const numQubits: int

    constructor (numQubits: int)
      ensures this.numQubits == numQubits
    {
      this.numQubits := numQubits;
    }

    /** One measurement of the register: one bit per qubit in qubit order, each 0
        exactly when its draw fell below the probability of 0. */
    method QuantumMeasurement(draws: seq<bool>) returns (results: seq<int>)
      requires |draws| >= RangeLen(numQubits)
      ensures |results| == RangeLen(numQubits) && AllBits(results)
      ensures forall i :: 0 <= i < |results| ==> (results[i] == 0 <==> draws[i])
      ensures results == Outcomes(draws[..RangeLen(numQubits)])
    {
      results := [];
      for qubit := 0 to RangeLen(numQubits)
        invariant results == Outcomes(draws[..qubit])
      {
        var result := if draws[qubit] then 0 else 1;
        OutcomesExtend(draws, qubit);
        results := results + [result];
      }
    }

    /** Extends the collected bits by whole register measurements while fewer
        than `numBits` are collected, then keeps the first `numBits`. Without
        qubits the loop would never end, so bits may be asked for only when
        there are qubits. `roundDraws[r]` are the oracle draws of call r, and
        `calls` is the number of measurement calls the loop makes. */
    method GenerateRandomBits(numBits: int, roundDraws: seq<seq<bool>>) returns (bits: seq<int>, ghost calls: nat)
      requires numBits <= 0 || numQubits > 0
      requires |roundDraws| >= RoundsNeeded(numBits, numQubits)
      requires forall r :: 0 <= r < |roundDraws| ==> |roundDraws[r]| >= RangeLen(numQubits)
      ensures |bits| == RangeLen(numBits) && AllBits(bits)
      ensures calls == RoundsNeeded(numBits, numQubits)
      ensures bits <= RoundResults(roundDraws, RangeLen(numQubits), calls)
    {
      var n := RangeLen(numQubits);
      var m := RoundsNeeded(numBits, numQubits);
      var allBits: seq<int> := [];
      var made := 0;
      while |allBits| < numBits
        invariant made <= m
        invariant allBits == RoundResults(roundDraws, n, made)
        invariant |allBits| == made * n
        decreases numBits - |allBits|
      {
        FewerRounds(made, m, n, numBits);
        var quantumBits := QuantumMeasurement(roundDraws[made]);
        allBits := allBits + quantumBits;
        assert (made + 1) * n == made * n + n;
        made := made + 1;
      }
      if numBits > 0 {
        ExactRounds(made, m, n, numBits);
      }
      RoundResultsShape(roundDraws, n, made, m);
      bits := PyPrefix(allBits, numBits);
      calls := made;
    }
  }
}
