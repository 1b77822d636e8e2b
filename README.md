# BB84 key distribution and quantum random-bit generators, modelled in Dafny

This project models three Python programs from an educational repository.

- `bb84_quantum.py` simulates the BB84 quantum key distribution scheme of
  Bennett and Brassard (1984). The sender draws a random bit and a random basis
  per round and encodes the pair into one of four states. The receiver draws a
  random basis per round and measures the state in it. Sifting keeps the
  sender's bit wherever the two bases agree. The error rate is estimated by
  injecting simulated channel noise. The final key is the sifted key cut by a
  fixed overhead of 10 bits.
- `quantum_rng_fixed.py` collects random bits from per-qubit states. It uses
  a nested loop over rounds and qubits, bounded by a ceiling division and
  guarded so that it never collects more than the requested number of bits.
  Each measurement overwrites its qubit's state in place.
- `quantum_rng.py` collects random bits by measuring the whole register over
  and over until enough bits are gathered, then cuts off the surplus.

Every random draw is an input sequence, so every property is proved for every
possible sequence of draws.

- `random.randint(0, 1)` results are integers required to be 0 or 1.
- The uniform sample of a computational-basis measurement in BB84 is a real
  number. `Measure`, `MeasureQubits` and `RunSimulation` accept any real.
  Only `ComputationalMeasurementIsExact` and `ComputationalRoundsAgree`
  require the samples to lie in [0, 1), the range of `random.random()`.
- The channel-noise test `random.random() < 0.02` of the error estimate is a
  sequence of reals, each compared with the constant
  `ChannelErrorProbability` (0.02).
- The Hadamard-basis measurement and the clock-driven comparisons of both
  generators are abstract boolean oracles. A `true` draw means the sample fell
  below the probability of outcome 0, so it gives 0.

The BB84 records (`alice_bits`, `alice_bases`, `bob_bases`,
`bob_measurements`, `shared_key`) are `seq` fields of the class
`BB84.Protocol`, and the methods append to them exactly as the loops do. The
per-qubit generator's list of qubit states is the `seq` field
`QuantumRngFixed.QuantumRng.quantumStates`, which its methods overwrite by
index. The whole-register generator `QuantumRng.QuantumRng` keeps only its
qubit count: its one other attribute is the full state vector, which nothing
reads. The prepared states form the enumeration `Zero | One |
Plus | Minus`. The error-rate estimate is the pair `Rate(errors, sampled)`, or
`ZeroDivisionError`.

Modules: `Bits` (bits, and Python's `range` length, floor division `//` and
slice `[:n]`), `BB84`, `QuantumRngFixed` and `QuantumRng`.

Facts about the code that the model keeps:

- `bb84_quantum.py` raises no error for zero or negative `num_qubits`. Each
  `range` is then empty. The generators differ: `quantum_rng_fixed.py` divides
  by `num_qubits` (line 55), so a count of 0 raises ZeroDivisionError, and in
  `quantum_rng.py` a count of 0 never leaves the loop of lines 47-50.
- Nothing enforces the order of the phases.
- States are not validated on construction.
- The error estimate never reads the key's bits. It only counts noise draws.

## Model

| member | source | states |
|---|---|---|
| `Bits.FloorDiv` | quantum_rng_fixed.py:55 | Python's `//` rounds toward minus infinity for either sign of divisor |
| `Bits.CeilingDivision` | quantum_rng_fixed.py:55 | for `num_qubits > 0` and `num_bits >= 0`, `(num_bits + num_qubits - 1) // num_qubits` is the ceiling: enough rounds cover `num_bits`, and one fewer does not |
| `Bits.RangeLen` | bb84_quantum.py:41 | the number of iterations of Python's `range(n)`: `n`, or 0 for a negative `n`; every modelled `for` loop runs this many times (also bb84_quantum.py:77, 95, quantum_rng_fixed.py:22, 57, 61 and quantum_rng.py:31) |
| `Bits.PyPrefix` | quantum_rng_fixed.py:73 | `s[:n]` is a prefix of `s`; its length is `min(n, len)`, or `len + n` (at least 0) for a negative `n` |
| `Bits.Outcome` | quantum_rng_fixed.py:37 | `0 if sample < p else 1` is a bit, and it is 0 exactly when the sample fell below `p` |
| `Bits.Outcomes` | quantum_rng.py:30-35 | one bit per draw, in draw order, each 0 exactly when its draw fell below the threshold |
| `Bits.OutcomesExtend` | quantum_rng.py:31-34 | outcomes are computed draw by draw: one more draw appends its outcome |
| `BB84.Encode` | bb84_quantum.py:51-54 | the encoding table: basis 0 gives `Zero`/`One`, any other basis gives `Plus`/`Minus`; on bits the state determines the bit and the basis again |
| `BB84.EncodeRoundTrip` | bb84_quantum.py:51-54 | each of the four states is the encoding of its own bit and basis, so the table is a bijection |
| `BB84.Measure` | bb84_quantum.py:17-26 | the result is always a bit; in basis 0 it is 0 exactly when the sample is below the squared amplitude of 0; otherwise it is the oracle outcome |
| `BB84.Prob0` | bb84_quantum.py:20 | the squared amplitude of 0 for each prepared state: 1 for `Zero`, 0 for `One`, one half for `Plus` and `Minus`; `ComputationalMeasurementIsExact` depends only on the first two |
| `BB84.ComputationalMeasurementIsExact` | bb84_quantum.py:19-21 | a state prepared and measured in the computational basis gives the prepared bit for every sample in [0, 1) |
| `BB84.ComputationalRoundsAgree` | bb84_quantum.py:41-71 | in every round where both parties chose basis 0, the receiver's measurement equals the sender's bit |
| `BB84.Measurements` | bb84_quantum.py:62-69 | one measurement per received state, in stream order, each a bit; `MeasureQubits` appends exactly these to `bob_measurements` |
| `BB84.MatchingRounds` | bb84_quantum.py:77-78 | the rounds kept by the basis comparison; `MatchingRoundsExact` characterises them |
| `BB84.Sift` | bb84_quantum.py:77-79 | the bits the sifting loop appends; `SiftFollowsMatchingRounds`, `SiftBounds` and `SiftExtremes` characterise them, and `SiftKey` is proved to append exactly these |
| `BB84.MatchingRoundsExact` | bb84_quantum.py:77-79 | a round is kept exactly when it is below `num_qubits` and its bases agree, and kept rounds are strictly increasing |
| `BB84.SiftFollowsMatchingRounds` | bb84_quantum.py:77-79 | the k-th sifted bit is `alice_bits` at the k-th matching round, and there are exactly as many sifted bits as matching rounds |
| `BB84.SiftBounds` | bb84_quantum.py:77-85 | the sifted key has at most `num_qubits` bits, and only bits |
| `BB84.SiftExtremes` | bb84_quantum.py:77-79 | bases agreeing in every round keep all of `alice_bits`; bases agreeing in none keep nothing |
| `BB84.CountErrors` | bb84_quantum.py:94-97 | the number of errors the noise loop counts; `CountErrorsBounds` bounds it, and `EstimateErrorRate` is proved to count exactly these |
| `BB84.CountErrorsBounds` | bb84_quantum.py:94-97 | the error count of k trials is between 0 and k; it is 0 when no draw is below 0.02 and k when every draw is |
| `BB84.RateValue` | bb84_quantum.py:99 | the value of `error_count / test_bits` for a non-zero `test_bits`; the [0, 1] bounds of `RateInUnitInterval` and `EstimateErrorRate` are stated on it |
| `BB84.RateInUnitInterval` | bb84_quantum.py:99 | `error_count / test_bits` lies in [0, 1] for a non-zero `test_bits` of either sign whenever `0 <= error_count <= max(0, test_bits)` |
| `BB84.FinalKeyLength` | bb84_quantum.py:127 | the sifted length less the 10-bit overhead, never negative; `FinalKey` is proved to return exactly this many bits of a long enough key |
| `BB84.FinalKey` | bb84_quantum.py:127-135 | the returned key is a prefix of the shared key of length `min(len, max(0, sifted - 10))`, and it is empty when at most 10 bits were sifted |
| `BB84.FinalKeyOfSiftedKey` | bb84_quantum.py:127-135 | with the key's own length, the final key is its first `len - 10` bits, or empty when `len <= 10` |
| `BB84.Protocol.constructor` | bb84_quantum.py:29-35 | a protocol starts with all five records empty |
| `BB84.Protocol.PrepareQubits` | bb84_quantum.py:41-56 | appends exactly one bit and one basis per round, and yields the encoded state with round index i, in order |
| `BB84.Protocol.MeasureQubits` | bb84_quantum.py:62-71 | appends exactly one basis and one measurement per qubit received, in order, and passes every qubit id on unchanged |
| `BB84.Protocol.SiftKey` | bb84_quantum.py:77-85 | appends the sifted bits to the key without clearing it and returns the new length: the old length plus the number of matching rounds, which is at most `num_qubits` more |
| `BB84.Protocol.EstimateErrorRate` | bb84_quantum.py:87-101 | 1.0 for a key shorter than `test_bits`; ZeroDivisionError for `test_bits = 0`; otherwise errors among exactly `test_bits` noise trials over `test_bits`, a value in [0, 1]; the key is never changed |
| `BB84.RunSimulation` | bb84_quantum.py:103-135 | the 125-qubit run returns a prefix of the sifted key of length `max(0, sifted - 10)`, with the error estimate over 25 trials, or 1.0 for a short key |
| `QuantumRngFixed.PyIndex` | quantum_rng_fixed.py:40-43 | the list position of Python's `l[i]`, where a negative index counts from the end |
| `QuantumRngFixed.CollapsedTo` | quantum_rng_fixed.py:40-43 | outcome 0 collapses the qubit to (1,0), and any other outcome to (0,1) |
| `QuantumRngFixed.Collapse` | quantum_rng_fixed.py:57-64 | applying the k-th measurement to qubit k mod `num_qubits`, in order, keeps the number of states |
| `QuantumRngFixed.CollapseUntouched` | quantum_rng_fixed.py:57-64 | a qubit that no measurement reached keeps its state |
| `QuantumRngFixed.CollapseLastMeasurement` | quantum_rng_fixed.py:57-64 | every measured qubit holds the state left by its last measurement |
| `QuantumRngFixed.BitsCollected` | quantum_rng_fixed.py:55-73 | the number of bits `generate_random_bits` returns: `num_bits` (at least 0) for a positive qubit count, 0 for a negative one; it is the length in `GenerateRandomBits`' ensures |
| `QuantumRngFixed.FreshStates` | quantum_rng_fixed.py:22-26 | `n` created qubits, every one in the equal superposition |
| `QuantumRngFixed.QuantumRng.constructor` | quantum_rng_fixed.py:14-16 | a generator starts with no qubit states |
| `QuantumRngFixed.QuantumRng.CreateQuantumStates` | quantum_rng_fixed.py:18-26 | appends one (1,1)/sqrt 2 state per qubit to the list |
| `QuantumRngFixed.QuantumRng.QuantumMeasurement` | quantum_rng_fixed.py:28-45 | returns 0 or 1, overwrites the measured entry (a Python index) with the collapsed state, and leaves every other entry unchanged |
| `QuantumRngFixed.QuantumRng.GenerateRandomBits` | quantum_rng_fixed.py:47-73 | returns exactly `num_bits` bits for a positive `num_qubits` (none for `num_bits <= 0`, and none for a negative `num_qubits`), in measurement order; states are created only when there are none, so the list never grows; the new states are those collapses |
| `QuantumRng.RoundsNeeded` | quantum_rng.py:47-50 | ceil(`num_bits / num_qubits`), or 0 when `num_bits <= 0`: the least call count whose `num_qubits` multiple covers `num_bits`; `GenerateRandomBits` is proved to make exactly this many calls |
| `QuantumRng.RoundResults` | quantum_rng.py:47-50 | the bits of the first k measurement calls, concatenated in call order; `RoundResultsShape` characterises them |
| `QuantumRng.RoundResultsShape` | quantum_rng.py:47-50 | after k calls there are exactly `k * num_qubits` bits, and earlier calls' results are a prefix of later ones' |
| `QuantumRng.QuantumRng.constructor` | quantum_rng.py:12-14 | a generator records its qubit count |
| `QuantumRng.QuantumRng.QuantumMeasurement` | quantum_rng.py:26-40 | returns exactly `num_qubits` bits in qubit order, each 0 exactly when its draw fell below the probability of 0 |
| `QuantumRng.QuantumRng.GenerateRandomBits` | quantum_rng.py:42-55 | returns exactly `num_bits` bits (none for `num_bits <= 0`); the loop makes exactly ceil(`num_bits / num_qubits`) measurement calls, and the bits are a prefix of their results in call order |

## Left out

- `server.js`: an HTTP server that returns static HTML; it is I/O with no protocol logic.
- Console output, file writing, `time.sleep` and `time.ctime`: these are I/O.
- numpy complex arithmetic: normalisation with `np.linalg.norm` and the Hadamard matrix product. The four prepared states and the three generator states are enumerations that stand for their amplitude vectors.
- The clock-driven noise (`time.time_ns()`, `time.time()`, `np.sin`) and the float thresholds it feeds: each such comparison is a boolean oracle draw.
- The `2^125`-element state vector built by `quantum_rng.py`'s constructor (line 21): nothing reads it, and it cannot be allocated, so for the run's own 125 qubits the constructor raises before any bit is generated. A negative count makes `2**num_qubits` a float, which `np.ones` refuses as a shape. `QuantumRng.QuantumRng` therefore stands for a generator that the source can build only for small non-negative counts.
- `generate_secure_random` in both generators: it calls SHA3-512 from `hashlib`, a foreign library.
- The `run_quantum_rng` and `run_quantum_rng_fixed` drivers (quantum_rng.py:70-104, quantum_rng_fixed.py:88-123): they build a 125-qubit generator, call the left-out `generate_secure_random` five times and the modelled `generate_random_bits(1024)`, then print, count ones and write a file.
- Statistical claims (a sifted length near half the rounds, 50/50 outcomes on a basis mismatch, about 2% errors): they are not properties of a single run.
- Python generator laziness: `PrepareQubits` returns the whole stream and `MeasureQubits` consumes it. The order of appends and the per-round alignment are the same as with the interleaved generators.
- The interleaving of different kinds of draws from the one global `random` source: each kind of draw is its own input sequence.
- `BB84.Measure`: the Hadamard-basis outcome is an oracle, because numpy's probabilities for `+` and `-` are only close to 1 and 0. No determinism is claimed for basis 1.
- `BB84.Prob0`: the computational-basis probability of `Plus` and `Minus` is written as exactly 0.5, while numpy computes a value within rounding of it. No lemma depends on that value.
- `BB84.Protocol.SiftKey`: it requires each record to hold at least `num_qubits` entries. The IndexError that shorter records raise partway through the loop is not modelled.
- `QuantumRngFixed.QuantumRng.GenerateRandomBits`: it requires `num_qubits != 0`, because Python raises ZeroDivisionError at line 55. It also requires the state list to be empty or to hold at least `num_qubits` entries. The class never holds any other list: `create_quantum_states` appends `num_qubits` entries (lines 22-26), the generator calls it only on an empty list (lines 51-52), and a measurement never changes the length. A non-empty list shorter than `num_qubits`, reachable only by assigning the attribute from outside, is not modelled.
- `QuantumRngFixed.QuantumRng.QuantumMeasurement`: an index outside the list raises IndexError. That case is excluded by the precondition.
- `QuantumRng.QuantumRng.GenerateRandomBits`: it requires `num_qubits > 0` whenever bits are asked for, because otherwise the loop never ends.
- Default arguments: `num_qubits=125` (bb84_quantum.py:29, quantum_rng_fixed.py:14, quantum_rng.py:12), `test_bits=25` (bb84_quantum.py:87) and `num_bits=256` (quantum_rng_fixed.py:47, quantum_rng.py:42). Every model operation takes these values as explicit arguments. `RunSimulation` passes 125 and 25, as the run does.
