/** The per-qubit random-bit generator: one state per qubit, collected in
    rounds of at most one measurement per qubit until the requested number of
    bits is reached. The clock-driven sampling of each measurement is an
    oracle: a draw says whether the sample fell below the probability of 0. */
module QuantumRngFixed {
  import opened Bits

  /** The per-qubit amplitude vectors: (1,1)/sqrt 2 as created, then (1,0) or
      (0,1) once a measurement has collapsed it. */
  datatype QubitState = EqualSuperposition | Collapsed0 | Collapsed1

  /** The state a measurement with the given outcome leaves behind. */
  function CollapsedTo(outcome: int): (st: QubitState)
    ensures st != EqualSuperposition
    ensures st == Collapsed0 <==> outcome == 0
  {
    if outcome == 0 then Collapsed0 else Collapsed1
  }

  /** The list position Python's `l[i]` refers to: a negative index counts from the end. */
  function PyIndex(i: int, len: nat): (p: nat)
    requires -(len as int) <= i < len
    ensures p < len
    ensures 0 <= i ==> p == i
    ensures i < 0 ==> p == len + i
  {
    if i < 0 then len + i else i
  }

  /** The states after the measurements with the given outcomes (the k-th
      measurement is of qubit k mod numQubits), applied in order to `states`. */
  function Collapse(states: seq<QubitState>, outcomes: seq<int>, numQubits: int): (r: seq<QubitState>)
    requires outcomes == [] || 0 < numQubits <= |states|
    ensures |r| == |states|
    decreases |outcomes|
  {
    if outcomes == [] then states
    else
      var k := |outcomes| - 1;
      Collapse(states, outcomes[..k], numQubits)[k % numQubits := CollapsedTo(outcomes[k])]
  }

  lemma MulAtLeast(n: nat, t: int)
    requires 0 < n && t > 0
    ensures n * t >= n
  {
    assert n * t == n * (t - 1) + n;
  }

  /** Position k = n * r + i with 0 <= i < n measures qubit i. */
  lemma ModOfPosition(k: int, r: nat, i: nat, n: nat)
    requires 0 < n && i < n && k == n * r + i
    ensures k % n == i
  {
    var q, m := k / n, k % n;
    assert k == n * q + m && 0 <= m < n;
    var t := r - q;
    assert n * t == m - i;
    if t > 0 {
      MulAtLeast(n, t);
    } else if t < 0 {
      MulAtLeast(n, -t);
    }
  }

  /** Two measurement positions of one qubit less than n apart are the same. */
  lemma SameQubitWithinRound(j: nat, k: nat, n: nat)
    requires 0 < n && j <= k < j + n && j % n == k % n
    ensures j == k
  {
    var q, m, d := j / n, j % n, k - j;
    assert j == n * q + m && 0 <= m < n;
    if m + d < n {
      ModOfPosition(k, q, m + d, n);
    } else {
      assert k == n * (q + 1) + (m + d - n);
      ModOfPosition(k, q + 1, m + d - n, n);
    }
  }

  /** The qubit of position k is below n and, being a remainder, at most k. */
  lemma QubitOfPosition(k: nat, n: nat)
    requires 0 < n
    ensures k % n < n && k % n <= k
  {
  }

  /** A qubit that no measurement touched (its index is past the measurements
      made or past the first numQubits entries) keeps its state. */
  lemma {:induction false} CollapseUntouched(states: seq<QubitState>, outcomes: seq<int>, numQubits: int, q: nat)
    requires outcomes == [] || 0 < numQubits <= |states|
    requires q < |states| && (q >= |outcomes| || q >= numQubits)
    ensures Collapse(states, outcomes, numQubits)[q] == states[q]
  {
    if outcomes != [] {
      var last := |outcomes| - 1;
      QubitOfPosition(last, numQubits);
      CollapseUntouched(states, outcomes[..last], numQubits, q);
    }
  }

  /** A qubit holds the state left by its LAST measurement: the one at a
      position k whose next position for the same qubit, k + numQubits, lies
      past the measurements made. */
  lemma {:induction false} CollapseLastMeasurement(states: seq<QubitState>, outcomes: seq<int>, numQubits: int, k: nat)
    requires 0 < numQubits <= |states|
    requires k < |outcomes| <= k + numQubits
    ensures k % numQubits < |states|
    ensures Collapse(states, outcomes, numQubits)[k % numQubits] == CollapsedTo(outcomes[k])
  {
    QubitOfPosition(k, numQubits);
    var last := |outcomes| - 1;
    if k < last {
      if last % numQubits == k % numQubits {
        SameQubitWithinRound(k, last, numQubits);
      }
      CollapseLastMeasurement(states, outcomes[..last], numQubits, k);
    }
  }

  /** Measuring qubit k mod numQubits as the next one only touches that entry. */
  lemma CollapseStep(states: seq<QubitState>, outcomes: seq<int>, numQubits: int, bit: int)
    requires 0 < numQubits <= |states|
    ensures Collapse(states, outcomes + [bit], numQubits)
         == Collapse(states, outcomes, numQubits)[|outcomes| % numQubits := CollapsedTo(bit)]
  {
  }

  /** `n` freshly created qubit states. */
  function FreshStates(n: nat): (r: seq<QubitState>)
    ensures |r| == n && forall i :: 0 <= i < n ==> r[i] == EqualSuperposition
  {
    seq(n, _ => EqualSuperposition)
  }

  /** The number of bits `generate_random_bits(numBits)` collects: all requested
      ones when there are qubits, none otherwise. */
  function BitsCollected(numBits: int, numQubits: int): (count: nat) {
    if numQubits > 0 then RangeLen(numBits) else 0
  }

  /** The length guard of the inner loop: while fewer than `numBits` bits are
      collected, the count equals the measurement position and one more bit
      is collected; once `numBits` are collected, the count stays. */
  lemma GuardStep(numBits: int, numQubits: int, count: nat, position: nat)
    requires numQubits > 0 && count == Min(BitsCollected(numBits, numQubits), position)
    ensures count < numBits ==> count == position && count + 1 == Min(BitsCollected(numBits, numQubits), position + 1)
    ensures count >= numBits ==> count == Min(BitsCollected(numBits, numQubits), position + 1)
  {
  }

  class QuantumRng {
    const numQubits: int
    var quantumStates: seq<QubitState>

    constructor (numQubits: int)
      ensures this.numQubits == numQubits && quantumStates == []
    {
      this.numQubits := numQubits;
      quantumStates := [];
    }

    /** Appends one equal-superposition state per qubit. */
    method CreateQuantumStates()
      modifies this`quantumStates
      ensures quantumStates == old(quantumStates) + FreshStates(RangeLen(numQubits))
    {
      for i := 0 to RangeLen(numQubits)
        invariant quantumStates == old(quantumStates) + FreshStates(i)
      {
        quantumStates := quantumStates + [EqualSuperposition];
      }
    }

    /** Measures one qubit: the outcome is 0 exactly when the sample fell below
        the probability of 0, and the qubit's entry is overwritten by the
        collapsed state; every other entry stays as it was. */
    method QuantumMeasurement(qubitIndex: int, belowProb0: bool) returns (result: int)
      requires -|quantumStates| <= qubitIndex < |quantumStates|
      modifies this`quantumStates
      ensures IsBit(result) && (result == 0 <==> belowProb0)
      ensures quantumStates == old(quantumStates)[PyIndex(qubitIndex, |old(quantumStates)|) := CollapsedTo(result)]
    {
      result := if belowProb0 then 0 else 1;
      var at := PyIndex(qubitIndex, |quantumStates|);
      if result == 0 {
        quantumStates := quantumStates[at := Collapsed0];
      } else {
        quantumStates := quantumStates[at := Collapsed1];
      }
    }

    /** Collects `numBits` bits in ceil(numBits / numQubits) rounds; in each round
        the qubits are measured in index order while fewer than `numBits` bits are
        collected. The states are created only if there are none yet. `draws` are
        the oracle comparisons of the successive measurements. */
    method GenerateRandomBits(numBits: int, draws: seq<bool>) returns (bits: seq<int>)
      requires numQubits != 0
      requires quantumStates == [] || |quantumStates| >= numQubits
      requires |draws| >= BitsCollected(numBits, numQubits)
      modifies this`quantumStates
      ensures bits == Outcomes(draws[..BitsCollected(numBits, numQubits)])
      ensures var start := if old(quantumStates) == [] then FreshStates(RangeLen(numQubits))
                           else old(quantumStates);
              quantumStates == Collapse(start, bits, numQubits)
      ensures |quantumStates| == if old(quantumStates) == [] then RangeLen(numQubits) else |old(quantumStates)|
    {
      if quantumStates == [] {
        CreateQuantumStates();
      }
      ghost var start := quantumStates;
      assert start == if old(quantumStates) == [] then FreshStates(RangeLen(numQubits)) else old(quantumStates);
      assert |start| >= numQubits;
      ghost var perRound := if numQubits > 0 then numQubits else 0;
      ghost var total := BitsCollected(numBits, numQubits);
      var allBits: seq<int> := [];
      var measurementsNeeded := FloorDiv(numBits + numQubits - 1, numQubits);
      var measurementRound := 0;
      ghost var done := 0;
      while measurementRound < measurementsNeeded
        invariant 0 <= measurementRound && done == measurementRound * perRound
        invariant measurementRound <= measurementsNeeded || measurementRound == 0
        invariant |allBits| == Min(total, done)
        invariant allBits == Outcomes(draws[..|allBits|])
        invariant |quantumStates| == |start|
        invariant quantumStates == Collapse(start, allBits, numQubits)
      {
        var roundBits: seq<int> := [];
        for qubitIdx := 0 to RangeLen(numQubits)
          invariant |allBits| == Min(total, done + qubitIdx)
          invariant |roundBits| <= qubitIdx
          invariant allBits == Outcomes(draws[..|allBits|])
          invariant |quantumStates| == |start|
          invariant quantumStates == Collapse(start, allBits, numQubits)
        {
          GuardStep(numBits, numQubits, |allBits|, done + qubitIdx);
          if |allBits| < numBits {
            ModOfPosition(|allBits|, measurementRound, qubitIdx, numQubits);
            var bit := QuantumMeasurement(qubitIdx, draws[|allBits|]);
            roundBits := roundBits + [bit];
            CollapseStep(start, allBits, numQubits, bit);
            OutcomesExtend(draws, |allBits|);
            allBits := allBits + [bit];
          }
        }
        assert (measurementRound + 1) * perRound == measurementRound * perRound + perRound;
        done := done + perRound;
        measurementRound := measurementRound + 1;
      }
      assert |allBits| == total by {
        if numQubits > 0 && numBits > 0 {
          CeilingDivision(numBits, numQubits);
          assert measurementRound == measurementsNeeded;
        }
      }
      bits := PyPrefix(allBits, numBits);
      assert bits == allBits;
    }
  }
}
