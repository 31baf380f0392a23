# Oracle consensus and smart-contract pipeline, modelled in Dafny

This project models the core of an NLP-to-blockchain healthcare pipeline. Three Python scripts make up that core:

- **Oracle nodes** (`simulate_decentralized_oracle_network.py`). Each node takes the tokens an entity extractor produced for a medical report and classifies each token in a fixed priority order. A case-insensitive substring hit on the drug list gives DRUG at 0.95. Otherwise a hit on the symptom list gives SYMPTOM at 0.90. Otherwise the extractor's own label gives that label at 0.85, kept only if 0.85 reaches the confidence threshold. Anything else is dropped. A node packages its list with metadata, hashes the package and signs the hash. It abstains (returns `None`) when no token validates.
- **Consensus round.** The round succeeds when enough nodes did not abstain (a participation threshold). It takes the first non-abstaining node's data as canonical and collects every such node's hash and signature in submission order. When it fails, a **human-in-the-loop** step supplies a fixed corrected record signed off as `HITL_001`. The network's `main` uses exactly one of the two.
- **Stand-alone oracle** (`code/simulate_oracle.py`). It has the same classifier with a caller-chosen threshold and its own metadata envelope.
- **Smart contract** (`code/simulate_smart_contract.py`). It stores a record's digest in a module-level on-chain dict. It re-verifies a presented record against that digest. Only on verified data does it run an exact-match rule: some SYMPTOM entity is a headache synonym and some DRUG entity is an approved drug. When the rule matches, it reports the first synonym and the first drug in keyword order.

## Modules

- `Common`: `Option` and `Result`.
- `Text`: ASCII `lower()` and the substring test `p in s`.
- `Records`: the entity and record types, the hashing primitives and the digest.
- `Validation`: the classifier shared by both validators, and its specification `Validated`.
- `OracleNetwork`: the class `OracleNode`, the consensus round, the human fallback and the run in `main`.
- `Oracle`: the stand-alone validator and its envelope.
- `SmartContract`: verification, the rule engine and the class `Chain`, which holds `on_chain_data`.

## Modelling choices

- **Confidences** are integer hundredths: 95, 90 and 85, with threshold 70.
- **Records.** `Records.Package.entities` stands for the entity list under whichever key the file uses: `entities` in the network file and in the human correction, `raw_entities` in the single oracle, `valid_entities` in the smart contract. Every other key of a record is an entry of `Package.fields`.
- **Hashing and signing.** `hashlib.sha256(...).hexdigest()` and `json.dumps(..., sort_keys=True)` are uninterpreted functions carried by `Records.Crypto`. A digest is `sha256(dumps(record))`, and a signature is `sha256(hash + private_key)`, as the code computes them. Properties that need collision resistance assume it explicitly through `Records.CollisionFree`.
- **Clocks and inputs.** Every `datetime.now()` reading is a parameter. The extractor's document is a parameter: a sequence of `(text, entType)` tokens, with `""` for a token without an extractor label.
- **Purity.** `verify_hash` and `execute_smart_contract` are Dafny functions, so they cannot change the presented record or the on-chain store. The store is written only by `SmartContract.Chain.StoreOnChain`, and by `SmartContract.RunSimulation` through it.
- **Where the code does less than one might expect.** The model follows the code in each of these cases:
  - The threshold is consulted only for extractor labels, so vocabulary matches are kept at any threshold (`Validation.ThresholdGatesOnlyExtractorLabels`). A DRUG entity at 0.95 is kept under a threshold above 0.95, and a SYMPTOM entity at 0.90 under a threshold above 0.90.
  - Consensus counts participation, not agreement on content. The docstring of `consensus_mechanism` speaks of "2-out-of-3 agreement" and the comment before the filter of nodes that "agree on non-empty data" (simulate_decentralized_oracle_network.py:110 and 119). The code only counts outputs that are not None and takes the first one's data.
  - `store_on_chain` overwrites whatever the store held under its four keys; nothing keeps an earlier commitment.
  - `execute_smart_contract` lowers the entity text but compares it with the keyword lists exactly. The comment promises "any variation of headache or pain" (code/simulate_smart_contract.py:54). The code accepts only the four listed words, so "severe headache" or "Headache." does not match.

## Model

| member | source | states |
|---|---|---|
| `Text.Lower` | simulate_decentralized_oracle_network.py:34 | `lower()` keeps the length and folds each character independently (ASCII letters only) |
| `Text.ContainsIffOccurs` | simulate_decentralized_oracle_network.py:36 | the left-to-right substring test holds iff the needle occurs at some position of the haystack |
| `Records.DigestBindsRecord` | simulate_decentralized_oracle_network.py:71-73 | equal records get equal digests, and with collision-free primitives only equal records do |
| `Validation.TokenPriority` | simulate_decentralized_oracle_network.py:36-57 | on one token the four outcomes are exclusive and in priority order. A drug hit gives DRUG/0.95. SYMPTOM/0.90 needs a symptom hit and no drug hit. The extractor label at 0.85 needs no vocabulary hit, a non-empty label and 0.85 at least the threshold. Otherwise the token is dropped (each case as an if-and-only-if) |
| `Validation.DrugHitWinsRegardless` | simulate_decentralized_oracle_network.py:36-41 | a drug hit decides the outcome whatever the symptom list, the extractor label or the threshold |
| `Validation.ValidatedAppend` | simulate_decentralized_oracle_network.py:31-59 | the validated list of a concatenation is the concatenation of the lists: tokens are classified one by one, in order |
| `Validation.Classify` | simulate_decentralized_oracle_network.py:33-57 | one token's outcome keeps the token's text, and the token is dropped iff it hits neither vocabulary and has no extractor label or 0.85 is below the threshold |
| `Validation.Validated` | code/simulate_oracle.py:25-60 | the list both validators build from a document, one classification per token in token order, with at most one entity per token |
| `Validation.ValidatedSound` | code/simulate_oracle.py:25-60 | every entity returned is the classification of some token, with that token's text |
| `Validation.ValidatedComplete` | code/simulate_oracle.py:25-60 | every token that classifies to an entity contributes it |
| `Validation.ValidatedConfidence` | simulate_decentralized_oracle_network.py:50-57 | with a threshold of at most 0.85 every retained confidence reaches the threshold (so at the system threshold 0.7 all do). Above 0.85 only DRUG/0.95 and SYMPTOM/0.90 entities remain |
| `Validation.ThresholdGatesOnlyExtractorLabels` | code/simulate_oracle.py:28-58 | every threshold up to 0.85 yields the same list, and any threshold above it yields that list minus the extractor-labelled entities, so vocabulary matches are kept at every threshold |
| `OracleNetwork.OracleNode.constructor` | simulate_decentralized_oracle_network.py:25-27 | a node holds the id and key it was created with, for good |
| `OracleNetwork.OracleNode.ValidateEntities` | simulate_decentralized_oracle_network.py:29-59 | the loop builds exactly `Validated(doc, drugs, symptoms, 0.7)` |
| `OracleNetwork.OracleNode.Process` | simulate_decentralized_oracle_network.py:79-101 | returns None iff no token validates. Otherwise the output carries the node's own id and the non-empty validated list with the node's metadata. Its hash is the digest of that data and its signature is `sha256(hash + key)` |
| `OracleNetwork.OracleNode.EnrichWithMetadata` | simulate_decentralized_oracle_network.py:61-69 | the list is stored unchanged under exactly the timestamp, source, node id and status keys, with the node's own id, the source "NLP Module" and the status "validated" |
| `OracleNetwork.EnvelopeNamesNode` | simulate_decentralized_oracle_network.py:61-73 | with collision-free primitives, two nodes with different ids never produce the same digest, even over the same list and clock reading |
| `OracleNetwork.OracleNode.SignHash` | simulate_decentralized_oracle_network.py:75-77 | with a collision-free hash, the signature of a digest determines the node's key: no other key signs that digest alike |
| `OracleNetwork.SignatureBindsKey` | simulate_decentralized_oracle_network.py:75-77 | with a collision-free hash, nodes with different keys never produce the same signature for one digest |
| `OracleNetwork.ValidResponsesMembers` | simulate_decentralized_oracle_network.py:120 | the valid responses are exactly the outputs that are not None |
| `OracleNetwork.ValidResponsesAppend` | simulate_decentralized_oracle_network.py:120 | filtering distributes over concatenation, so submission order is kept |
| `OracleNetwork.ValidResponsesLength` | simulate_decentralized_oracle_network.py:115-122 | there are never more valid responses than outputs, so the early length check never changes the outcome |
| `OracleNetwork.FirstValidResponse` | simulate_decentralized_oracle_network.py:126 | the first valid response is the output of the first node, in submission order, that did not abstain |
| `OracleNetwork.ConsensusMechanismAsWritten` | simulate_decentralized_oracle_network.py:108-132 | the code as written raises iff the threshold is at most 0 and no node produced entities. When it returns a package, at least `threshold` nodes took part |
| `OracleNetwork.AbstainingRoundRaisesAtThresholdZero` | simulate_decentralized_oracle_network.py:122-126 | as written, three abstaining nodes under threshold 0 pass the guard and index an empty list |
| `OracleNetwork.ConsensusMechanism` | simulate_decentralized_oracle_network.py:108-132 | succeeds iff at least `threshold` outputs (and at least one) are not None. The final package is the data of the first such output. The hashes and signatures are those of all such outputs, in submission order, with equal lengths |
| `OracleNetwork.AsWrittenAgreesOutsideEmptyRound` | simulate_decentralized_oracle_network.py:115-132 | except in a round where every node abstained under a threshold of at most 0, the code as written returns exactly what the guarded version returns and never raises. So it agrees at every threshold of at least 1, and at any threshold once some node did not abstain |
| `OracleNetwork.ConsensusHashesCommitToData` | simulate_decentralized_oracle_network.py:124-128 | when every output was hashed honestly, each aggregated hash is the digest of its node's data, and the first one is the digest of the final package |
| `OracleNetwork.TriggerHumanInTheLoop` | simulate_decentralized_oracle_network.py:135-162 | the correction is non-empty, every confidence in it is strictly above the system threshold, and it is signed off under the validator id `HITL_001`, an `HITL_` id, not a node id |
| `OracleNetwork.HumanCorrectionIgnoresInputs` | simulate_decentralized_oracle_network.py:150-160 | the correction depends on neither the report text nor the node outputs: it is always the same four entities |
| `OracleNetwork.FinalData` | simulate_decentralized_oracle_network.py:204-211 | the record handed on is either the data of some node that did not abstain or the human correction |
| `OracleNetwork.ConsensusOrHuman` | simulate_decentralized_oracle_network.py:204-211 | the final record is the first non-abstaining node's data when enough nodes took part, and the human correction otherwise |
| `OracleNetwork.RunNetwork` | simulate_decentralized_oracle_network.py:189-215 | the three fixed nodes process the same tokens in order. Consensus runs with threshold 2. The chosen record's digest is returned and added to it under `final_hash` |
| `Oracle.ValidateNlpEntities` | code/simulate_oracle.py:14-60 | the loop builds exactly `Validated(doc, drugs, symptoms, threshold)`, so at most one entity per token. Above 0.85 only DRUG and SYMPTOM entities are returned |
| `Oracle.DefaultThresholdKeepsConfident` | code/simulate_oracle.py:14 | at the default threshold of 0.7, every entity returned has a confidence of at least 0.7 |
| `Oracle.EnrichWithMetadata` | code/simulate_oracle.py:63-74 | the list is stored unchanged, beside exactly the timestamp, institution, patient id and status keys, with the institution "CHU Alger", the patient id "PAT_123456" and the status "Oracle validation passed" |
| `Oracle.GenerateHashDeterministic` | code/simulate_oracle.py:77-82 | with a fixed clock reading, two envelopes hash alike iff their entity lists are equal (under collision-free primitives) |
| `SmartContract.VerifyHash` | code/simulate_smart_contract.py:17-32 | the record whose digest was stored verifies. With collision-free primitives, a record that verifies is the only record with that stored hash |
| `SmartContract.LoweredTexts` | code/simulate_smart_contract.py:51-52 | a word is in the list iff some entity with that label lowers to exactly that word |
| `SmartContract.FirstKeyword` | code/simulate_smart_contract.py:62-63 | returns None iff no keyword was found. Otherwise it returns the first keyword, in keyword order, that was found |
| `SmartContract.ExecuteSmartContract` | code/simulate_smart_contract.py:35-70 | halts iff the digest does not verify, before any entity is read. On verified data it triggers iff some SYMPTOM entity is exactly a headache synonym and some DRUG entity is exactly an approved drug. The reported pair is the first synonym and the first drug in keyword order that occur |
| `SmartContract.TamperedRecordHalts` | code/simulate_smart_contract.py:17-46 | with collision-free primitives, any record other than the committed one fails `verify_hash` and halts the contract |
| `SmartContract.OtherLabelsIgnored` | code/simulate_smart_contract.py:51-52 | two committed records with the same DRUG and SYMPTOM entities get the same decision, wherever and however often the entities occur. So entities with other labels never change the decision |
| `SmartContract.ReportsFirstKeywordPair` | code/simulate_smart_contract.py:62-63 | a record with "headaches" but not "headache" among its symptoms, and with "ibuprofen", reports the pair ("headaches", "ibuprofen") |
| `SmartContract.SimulationReimburses` | code/simulate_smart_contract.py:93-114 | the script's own record, checked against its own digest, triggers with ("headaches", "ibuprofen") |
| `SmartContract.Chain.constructor` | code/simulate_smart_contract.py:14 | the on-chain store starts empty |
| `SmartContract.Chain.StoreOnChain` | code/simulate_smart_contract.py:73-89 | returns the record's digest and writes the hash, timestamp, status and contract address over whatever was there. The digest it returns verifies the record |
| `SmartContract.RunSimulation` | code/simulate_smart_contract.py:106-119 | the store afterwards is the old one with the hash of the example record, the timestamp, the stored status and the contract address written over it. Executing the contract against the stored hash returns true |

## Findings

| source | as written | input that shows it | evidently intended | confidence | as-written member | corrected member |
|---|---|---|---|---|---|---|
| simulate_decentralized_oracle_network.py:122-126 | the only guard before `valid_responses[0]` is `len(valid_responses) >= threshold` | `consensus_mechanism([None, None, None], threshold=0)`: no node produced entities, the guard holds with 0 >= 0, and indexing the empty list raises `IndexError` | a round in which every node abstained fails (returns None) and goes to human review | not executed; high that it raises, medium that a threshold of 0 is meant to be accepted | `OracleNetwork.ConsensusMechanismAsWritten`, `OracleNetwork.AbstainingRoundRaisesAtThresholdZero` | `OracleNetwork.ConsensusMechanism` (agreement on every other input: `OracleNetwork.AsWrittenAgreesOutsideEmptyRound`) |

## Left out

- Python's `str.lower()` applies full Unicode case mapping. `Text.Lower` folds only ASCII `A`-`Z`.
- SHA-256, `json.dumps(sort_keys=True)` and the string encoding are uninterpreted functions. Collision resistance is never proved; it is only a stated premise (`Records.CollisionFree`). That premise is an idealisation: it makes `sha256` injective on all strings, which no fixed-length digest is (a hex digest has only 16^64 values). The lemmas that assume it hold for the symbolic hash, not for real SHA-256. They are `Records.DigestBindsRecord`, `OracleNetwork.EnvelopeNamesNode`, `OracleNetwork.OracleNode.SignHash`, `OracleNetwork.SignatureBindsKey`, `Oracle.GenerateHashDeterministic`, the second ensures of `SmartContract.VerifyHash` and `SmartContract.TamperedRecordHalts`. The serialised key names are not modelled either: `entities`, `raw_entities` and `valid_entities` share one field.
- Floating-point confidences are integer hundredths, so a threshold between two hundredths (say 0.855) cannot be written.
- `OracleNetwork.OracleNode.Process`: the `except` branch (lines 103-105) is not modelled. Nothing in the modelled body raises, so the model returns None only for an empty validated list.
- `datetime.now()` readings are parameters.
- The spaCy model, `nlp(text)` and the report text in each `main` are outside the model. The token sequence and the text are inputs.
- All `print`/`pprint` output and the JSON file writes are left out. This includes the discrepancy listing inside `trigger_human_in_the_loop` and the log of the matched pair in `execute_smart_contract`; the matched pair is returned instead.
- `OracleNetwork.RunNetwork` returns the final record as a new value. In the code, `final_data` is the same dict object as the first valid node's `data`, so adding `final_hash` also changes that node's output. Nothing reads it afterwards.
- The default argument values (`threshold=2`, `confidence_threshold=0.7`) are not modelled as defaults. `OracleNetwork.RUN_THRESHOLD` and `Oracle.DEFAULT_CONFIDENCE_THRESHOLD` hold them.
- The `main` of code/simulate_oracle.py is left out. It only chains validation, enrichment and hashing, then prints and writes a file.
- Missing keys are not modelled. A record without an entity list, or an entity without `text` or `label`, would raise `KeyError` in the code; the model's record type always has these.
- code/medical_nlp_extractor.py is not part of this model. It is a script around the external extractor.
- There is no concurrency to model: the nodes run in a sequential loop, and the store has no locking.
