# GKPO canonicalisation, reducibility flags and adapters in Dafny

This project models the reference implementation of GKPO, a JSON schema that
describes a preference-optimisation objective (score, weight, reference,
link, loss, beta, penalties, dataset operations, provenance). It covers four
parts of that implementation:

- `canonicalize_and_hash` and its helpers. It fills in defaults, normalises
  the weight and the penalties, and classifies the document as inside or
  outside the reducible family R. It also builds the hashed projection
  (every float rounded to six decimals, keys sorted at every depth) and
  writes `opal_hash` into the provenance.
- The DPO and RRHF adapters, which convert to and from GKPO and refuse
  documents outside R.
- The equivalence report's `_flatten`, `_dict_diff` and exit code.
- The repository's three round-trip tests.

The modules follow the source files:

| module | file |
|---|---|
| `JsonValue`, `Wrappers`, `StrOrder` | JSON values as Python holds them, Python's `dict` operations, string order |
| `Rounding` | `_round_num`, `_round_all_numbers` |
| `KeySort` | `_sorted_obj` |
| `Sorting` | Python's stable `list.sort(key=...)` |
| `Weight` | `_canonicalize_weight` |
| `Penalties` | `_canonical_sort_penalties` |
| `Reducibility` | `_infer_reducibility` |
| `Canonicalization`, `CanonicalLaws`, `Idempotence` | `canonicalize_and_hash` and what it promises |
| `Adapters`, `Dpo`, `Rrhf` | `adapters/dpo.py`, `adapters/rrhf.py` |
| `Examples` | the reference-shift test |
| `Equivalence` | `equivalence_demo.py` |

How Python is represented:

- **Documents.** A JSON document is the datatype `Json`. A mapping is a list
  of entries in insertion order. `Lookup` takes the first entry with a
  key. `Set` and `SetDefault` behave like Python's item assignment and
  `setdefault`.
- **Exceptions.** Every exception the code can raise becomes an `Err`: a
  `TypeError` for a built-in failure, or `Irreducible` for the adapters'
  `ValueError`.
- **Floats.** Floats are exact reals. `_round_num` is round-half-even of
  the exact value at the sixth decimal, which is what Python's `:.6f`
  formatting does.
- **Hashing.** SHA-256 over the compact JSON encoding is a parameter
  `digest: Json -> string` applied to the serial. A lemma that needs
  distinct hashes assumes only that the digest does not collide on the
  two serials it compares (`Separates`), never that it is injective on all
  values, which no function from `Json` to `string` can be.
- **Loops and results.** Each loop in the source is a method. It is proved
  equal to a function, and the properties are proved about that function.
  `Canonicalize` returns the new document, the serial, the hash and the
  caller's mapping after the call. The caller's mapping is returned because
  the source writes `opal_hash` into the caller's own provenance dictionary.

## Model

Where a row's member is a lemma or a method, its states cell first names the function that models the source lines.

| member | source | states |
|---|---|---|
| Rounding.RoundNum | gkpo.py:9-14 | only floats change; a float becomes a six-decimal value within half a unit of the sixth decimal of the input |
| Rounding.RoundClose | gkpo.py:13 | about `Round`: rounding moves a value by at most 5e-7 |
| Rounding.RoundIdempotent | gkpo.py:13 | about `Round`: rounding a rounded value changes nothing |
| Rounding.RoundAllShape | gkpo.py:16-21 | about `RoundAll`: rounding a document keeps its shape (kinds, keys, lengths) and leaves only six-decimal floats |
| Rounding.RoundAllIdempotent | gkpo.py:16-21 | about `RoundAll`: rounding a document twice is rounding it once |
| KeySort.SortedObjIsKeySorted | gkpo.py:23-28 | about `SortedObj`: after key sorting, every mapping at every depth is in ascending key order |
| KeySort.SortedObjStrict | gkpo.py:23-28 | about `SortedObj`: on a document with distinct keys, the keys at every depth are strictly ascending and still distinct |
| KeySort.SortedObjKeepsEntries | gkpo.py:23-28 | about `SortedObj`: key sorting keeps a mapping's key set and its entries (each value key-sorted); lists keep length and order; scalars are unchanged |
| KeySort.SortedObjIdempotent | gkpo.py:23-28 | about `SortedObj`: key sorting twice is key sorting once |
| Weight.CanonWeight | gkpo.py:33-43 | fails exactly when the weight is not a mapping or a constant form's constant is not a number; form defaults to "constant"; a constant form gets the rounded constant (default 1.0); other keys pass through |
| Weight.CanonWeightFactors | gkpo.py:41-42 | about `CanonWeight`: a list of factors becomes a sorted permutation of the strings of its elements; any other factors value passes through |
| Weight.CanonWeightIdempotent | gkpo.py:33-43 | about `CanonWeight`: normalising a normalised weight returns it unchanged |
| Penalties.NormalizePenaltySpec | gkpo.py:47-53 | about `NormalizePenalty`: an entry fails exactly when `dict()` refuses it (anything but a mapping or an empty list or string); lambda is rounded; a meta mapping gets its keys in order with the same entries; every other key is kept |
| Penalties.SortPenaltiesSpec | gkpo.py:45-55 | about `SortPenalties`: fails exactly when the value is truthy but not a list, or an entry is neither a mapping nor empty; otherwise the result is a permutation of the normalised entries, sorted by the string of the name, stable among equal names, each entry normalised |
| Penalties.SortPenaltiesIdempotent | gkpo.py:45-55 | about `SortPenalties`: normalising normalised penalties gives them back unchanged |
| Penalties.NormalizeAllErrPrefix | gkpo.py:47-53 | about `NormalizeAll`: the first entry that fails decides the error, whatever follows it |
| Penalties.CanonicalSortPenalties | gkpo.py:45-55 | about `SortPenalties`: the copy, normalise and sort loop computes the normalised, sorted penalties |
| Sorting.StableSort | gkpo.py:54 | about `SortBy`: the in-order insertion sort returns a sorted permutation of its input that keeps equal keys in input order |
| Sorting.SortByPerm | gkpo.py:54 | about `SortBy`: sorting keeps the multiset of entries and the length |
| Sorting.SortBySorted | gkpo.py:54 | about `SortBy`: the sort's result is ordered by its key |
| Sorting.SortByStable | gkpo.py:54 | about `SortBy`: for every key value, the entries carrying it keep their input order |
| Reducibility.ReasonsSpec | gkpo.py:58-68 | about `Reasons`: each reason is present exactly when its check fired, at most once, in the fixed order; no reason exactly when no check fired |
| Reducibility.ClassifySpec | gkpo.py:57-69 | about `Classify`: inside_R iff no reasons; reference_shift iff the reference form is neither fixed_zero nor fixed_scalar; score_dependent_weight iff the weight form is score_dependent; non_additive_gate iff some scanned entry is gated |
| Reducibility.GateScanFirst | gkpo.py:65-68 | about `GateScan`: the scan reports a gate exactly when some entry is gated and every entry before it reads as ungated |
| Reducibility.GateScanSpec | gkpo.py:65-68 | about `GateScan`: a completed scan reports whether some entry is gated |
| Reducibility.ClassifyEvidence | gkpo.py:69 | about `Classify`: the witness is the caller's reducibility witness, or an empty mapping |
| Reducibility.ClassifyCongruence | gkpo.py:57-69 | about `Classify`: the classification depends only on the reference, weight and penalties entries and the claimed witness |
| Reducibility.InferReducibility | gkpo.py:57-69 | about `Classify`: the loop with its early break computes the classification |
| Canonicalization.PrepareSpec | gkpo.py:72-81 | about `Prepare`: defaults are added only where a key is absent; weight and penalties are always replaced by their normalised forms; other keys are untouched; fails exactly when normalising weight or penalties fails |
| Canonicalization.FillDefaults | gkpo.py:72-81 | about `Prepare`: the sequence of assignments and `setdefault` calls computes the prepared document |
| Canonicalization.FinishSpec | gkpo.py:85-104 | about `Finish`: the serial is stored under `_canonical_serial`; the hash is the digest of the serial and is added to provenance; other keys are kept; the caller's mapping changes only in its own provenance |
| Canonicalization.CanonicalizeSpec | gkpo.py:71-104 | about `Canonicalize`: the reducibility record is always recomputed; provenance gains `opal_hash` = digest of the serial; every other key is as prepared; the caller's mapping changes only in its provenance |
| Canonicalization.SerialKeys | gkpo.py:85-99 | about `SerialOf`: the serial holds exactly the eleven projected keys in strictly ascending order; each holds the rounded, key-sorted value (null when missing) |
| Canonicalization.SerialProvenance | gkpo.py:96-99 | about `SerialOf`: the serial's provenance holds only method, citations and notes, each rounded and key-sorted, null when missing |
| Canonicalization.SerialNormal | gkpo.py:98-99 | about `SerialOf`: the serial is key-sorted at every depth and holds only six-decimal floats |
| Canonicalization.CanonicalizeAndHash | gkpo.py:71-104 | about `Canonicalize`: the method as written computes the canonical result |
| CanonicalLaws.CanonicalizeSteps | gkpo.py:71-104 | about `Canonicalize`: canonicalisation fails with the first failing step's error; otherwise the hash is the digest of the projection of the classified document |
| CanonicalLaws.CanonicalizeCongruence | gkpo.py:85-101 | about `Canonicalize`: documents that agree on the projected keys, the witness and the kept provenance fields get the same serial and the same hash, or the same error |
| CanonicalLaws.OrderIgnored | gkpo.py:85-101 | about `Canonicalize`: the hash does not depend on the order of the caller's keys |
| CanonicalLaws.OtherKeysIgnored | gkpo.py:85-101 | about `Canonicalize`: a key outside the projection (such as an old `_canonical_serial`) does not change the hash |
| CanonicalLaws.StaleHashIgnored | gkpo.py:96-102 | about `Canonicalize`: an old `opal_hash` in the provenance does not change the hash |
| CanonicalLaws.ClaimedReducibilityIgnored | gkpo.py:82-83 | about `Canonicalize`: a claimed `inside_R` or `reasons` does not change the hash |
| Idempotence.CanonicalizeIdempotent | gkpo.py:71-104 | about `Canonicalize`: canonicalising a canonical document returns the same document, serial and hash, and leaves the mapping passed in as it was |
| Adapters.RejectionOfCanonical | adapters/dpo.py:21-23 | about `Rejection`: a canonical document is refused exactly when its recomputed record lists a reason; the error carries those reasons |
| Dpo.DpoToGkpoSpec | adapters/dpo.py:5-18 | about `DpoToGkpo`: the conversion always succeeds; the result is inside R with the given delta_ref as a fixed scalar reference, the given beta, no penalties, and provenance naming DPO with the given or default citations |
| Dpo.DpoReadSpec | adapters/dpo.py:24-26 | about `DpoRead`: a configuration read back holds the number under the reference's value (default 0.0), the beta (default 1.0), and the loss and link (or their defaults) |
| Dpo.GkpoToDpoRefuses | adapters/dpo.py:20-23 | about `GkpoToDpo`: a document is refused exactly when its recomputed record is outside R, with those reasons; a canonicalisation failure is passed on |
| Dpo.GkpoToDpoReads | adapters/dpo.py:20-26 | about `GkpoToDpo`: a configuration comes from a document inside R and holds the caller's reference value, beta, loss and link, or their defaults |
| Dpo.DpoRoundTrip | tests/test_roundtrip.py:6-10 | about `DpoToGkpo`, `GkpoToDpo`: DPO to GKPO, canonicalised again, back to DPO returns the same delta_ref and beta exactly, with logistic loss and identity link |
| Rrhf.MapEach | adapters/rrhf.py:13 | the entry conversion succeeds exactly when every entry converts, with one result per entry; otherwise it fails with the first entry's error |
| Rrhf.RrhfToGkpoSpec | adapters/rrhf.py:5-18 | about `RrhfToGkpo`: fails exactly when some entry lacks a name or lambda or has a non-numeric lambda; otherwise the result is inside R, its penalties are the entries with rounded lambdas sorted stably by name, and provenance names RRHF |
| Rrhf.RrhfReadSpec | adapters/rrhf.py:24-25 | about `RrhfRead`: reads back each stored entry's name and lambda, the reference value (default 0.0) and beta (default 1.0) |
| Rrhf.GkpoToRrhfRefuses | adapters/rrhf.py:20-23 | about `GkpoToRrhf`: a document is refused exactly when its recomputed record is outside R, with those reasons; a canonicalisation failure is passed on |
| Rrhf.GkpoToRrhfReads | adapters/rrhf.py:20-25 | about `GkpoToRrhf`: a configuration comes from a document inside R and holds the stored penalties, the caller's reference value and beta, or their defaults |
| Rrhf.RrhfRoundTrip | adapters/rrhf.py:5-25 | about `RrhfToGkpo`, `GkpoToRrhf`: RRHF to GKPO and back, with or without another canonicalisation, returns the entries with rounded lambdas sorted by name, the given delta_ref and the given beta |
| Rrhf.DpoRrhfDiffer | adapters/rrhf.py:15 | about `DpoToGkpo`, `RrhfToGkpo`: a DPO document and an RRHF document never have the same serial, so their hashes differ whenever the digest does not collide on those two serials |
| Rrhf.HashTestDiffers | tests/test_roundtrip.py:12-15 | about `DpoToGkpo`, `RrhfToGkpo`: the test's DPO and RRHF documents have different serials, so different `opal_hash` values whenever the digest does not collide on those two serials |
| Rrhf.HashTestSeparable | tests/test_roundtrip.py:12-15 | about `DpoToGkpo`, `RrhfToGkpo`: some digest gives the test's two documents different `opal_hash` values, so the hypothesis above can be met |
| Examples.ShiftTestFlagged | tests/test_roundtrip.py:17-20 | about `Canonicalize`: the test's own document gives a record outside R with reference_shift as its only reason |
| Examples.ReferenceShiftFlagged | tests/test_roundtrip.py:17-20 | about `Canonicalize`: any document with a per_prompt reference, a constant weight and no penalties, reducibility or provenance canonicalises outside R with the single reason reference_shift and an empty witness |
| Equivalence.Flatten | equivalence_demo.py:28-37 | about `Flattened`: the loop with its recursive calls and `update` computes the flattening |
| Equivalence.FlattenedKeys | equivalence_demo.py:28-37 | about `Flattened`: the flattening has each path once, and its paths are the paths of the document's leaves |
| Equivalence.FlattenedAt | equivalence_demo.py:28-37 | about `Flattened`: each path maps to its leaf; a path reached twice keeps the later leaf |
| Equivalence.LeavesAreLeaves | equivalence_demo.py:33-36 | about `Leaves`: every flattened value is a list or a scalar, never a mapping |
| Equivalence.LeavesUnderPrefix | equivalence_demo.py:32 | about `Leaves`: under a non-empty prefix, every path of a mapping extends the prefix and a dot |
| Equivalence.DictDiff | equivalence_demo.py:39-49 | about `Diff`: the loop over the sorted union of paths computes the diff |
| Equivalence.DiffSpec | equivalence_demo.py:39-49 | about `Diff`: the diff lists, in strictly ascending order, exactly the unignored paths of either side whose values differ under Python's `==`, each side's value or the missing marker |
| Equivalence.DiffSelf | equivalence_demo.py:47 | about `Diff`: a document diffed against itself gives no differences |
| Equivalence.HashRead | equivalence_demo.py:65-66 | about `HashOf`: the hash read from a canonical document is the digest of its serial |
| Equivalence.ExitCodeSpec | equivalence_demo.py:79-97 | about `ExitCode`: the report fails only when a document cannot be canonicalised; it exits 0 exactly when the hashes are equal, else 1; when the digest does not collide on the two serials, 0 exactly when the serials are equal |
| Equivalence.CongruentEquivalent | equivalence_demo.py:62-79 | about `ExitCode`: documents that agree on the projected keys, the witness and the kept provenance fields are reported equivalent |

## Left out

- SHA-256, `_json_compact` and the `json.loads` that rebuilds `_canonical_serial` are not modelled. The digest is a parameter and the stored serial is the serial value itself. Where a lemma needs distinct hashes, its hypothesis is that the digest does not collide on the two serials at hand.
- Rounding.RoundNum: rounds the exact real value. The nearest-double conversion done by `float(...)` is not modelled, and neither are NaN and infinities.
- `float()` of a string, and `dict()` of a list of pairs, are not modelled. Both are treated as a `TypeError`.
- Penalties given as a truthy value that is not a list (a string or a mapping, which Python would iterate) are treated as a `TypeError`.
- `str()` of a value that is not a string (used as a sort key for names and factors) is a stand-in: None, booleans and integers print as in Python; floats, lists and mappings get a fixed text.
- The adapters' `delta_ref` and `beta` arguments are reals. `float()` of other argument types is not modelled.
- The command-line entry points are not modelled: `main` of gkpo.py and the argument parsing, file loading, printing and 120-character truncation of the equivalence report. The report is modelled by its diff and its exit code.
- The scripts under `stress/` are not modelled. They only call the modelled functions on fixed documents.
- `_canonical_sort_penalties` (gkpo.py:51-52) sorts only the top level of a penalty's `meta`, and the model follows the code. The serial is still key-sorted at every depth by `_sorted_obj`.
