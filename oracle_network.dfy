/**
 * The decentralised oracle network: nodes that validate, package, hash and sign
 * the extractor's tokens; the participation-threshold consensus over their
 * outputs; the human-in-the-loop fallback; and the run that picks one of the two.
 */
module OracleNetwork {
  import opened Common
  import opened Records
  import opened Validation

  const CUSTOM_DRUGS: seq<string> := ["ibuprofen", "paracetamol", "aspirin", "naproxen", "penicillin"]
  const CUSTOM_SYMPTOMS: seq<string> := ["headache", "fever", "cough", "fatigue", "nausea"]

  /** System threshold 0.7, in hundredths. */
  const CONFIDENCE_THRESHOLD: int := 70

  /** The threshold the run passes to the consensus round. */
  const RUN_THRESHOLD: int := 2

  /** A node's output dict `{"node_id", "data", "hash", "signature"}`. */
  datatype Attestation = Attestation(nodeId: string, data: Package, hash: string, signature: string)

  /** The dict a successful consensus round returns. */
  datatype ConsensusResult = ConsensusResult(
    consensus: string,
    finalPackage: Package,
    aggregatedHashes: seq<string>,
    signatures: seq<string>)

  /** The digest and signature of an output are the ones its node computes over its data with its key. */
  ghost predicate Attests(crypto: Crypto, a: Attestation, privateKey: string) {
    && a.hash == Digest(crypto, a.data)
    && a.signature == crypto.sha256(a.hash + privateKey)
  }

  class OracleNode {
    const nodeId: string
    const privateKey: string

    constructor (nodeId: string, privateKey: string)
      ensures this.nodeId == nodeId && this.privateKey == privateKey
    {
      this.nodeId := nodeId;
      this.privateKey := privateKey;
    }

    /** `validate_entities`: classifies every token against the given vocabularies at CONFIDENCE_THRESHOLD. */
    method ValidateEntities(doc: seq<Token>, customDrugs: seq<string>, customSymptoms: seq<string>) returns (validated: seq<Entity>)
      ensures validated == Validated(doc, customDrugs, customSymptoms, CONFIDENCE_THRESHOLD)
    {
      validated := [];
      for i := 0 to |doc|
        invariant validated == Validated(doc[..i], customDrugs, customSymptoms, CONFIDENCE_THRESHOLD)
      {
        ValidatedStep(doc, i, customDrugs, customSymptoms, CONFIDENCE_THRESHOLD);
        var token := doc[i];
        var lowerText := Text.Lower(token.text);
        if exists drug :: drug in customDrugs && Text.Contains(lowerText, drug) {
          validated := validated + [Entity(token.text, DRUG_LABEL, DRUG_CONFIDENCE)];
        } else if exists symptom :: symptom in customSymptoms && Text.Contains(lowerText, symptom) {
          validated := validated + [Entity(token.text, SYMPTOM_LABEL, SYMPTOM_CONFIDENCE)];
        } else if token.entType != "" {
          var confidence := EXTRACTOR_CONFIDENCE;
          if confidence >= CONFIDENCE_THRESHOLD {
            validated := validated + [Entity(token.text, token.entType, confidence)];
          }
        }
      }
      assert doc[..|doc|] == doc;
    }

    /** `enrich_with_metadata`: the entity list under `entities`, plus the node's metadata. */
    function EnrichWithMetadata(validatedEntities: seq<Entity>, timestamp: string): (r: Package)
      ensures r.entities == validatedEntities
      ensures r.fields.Keys == {"timestamp", "source", "node_id", "status"}
      ensures r.fields["node_id"] == nodeId && r.fields["timestamp"] == timestamp
      ensures r.fields["source"] == "NLP Module" && r.fields["status"] == "validated"
    {
      Package(validatedEntities, map[
        "timestamp" := timestamp,
        "source" := "NLP Module",
        "node_id" := nodeId,
        "status" := "validated"])
    }

    /** `sign_hash`: the digest concatenated with the node's key, hashed again. */
    function SignHash(crypto: Crypto, h: string): (r: string)
      ensures CollisionFree(crypto) ==> forall key :: crypto.sha256(h + key) == r ==> key == privateKey
    {
      assert forall key :: (h + key)[|h|..] == key;
      crypto.sha256(h + privateKey)
    }

    /** What `process` returns for a document, a clock reading and the hashing primitives. */
    function Output(doc: seq<Token>, crypto: Crypto, timestamp: string): Option<Attestation> {
      var entities := Validated(doc, CUSTOM_DRUGS, CUSTOM_SYMPTOMS, CONFIDENCE_THRESHOLD);
      if entities == [] then None
      else
        var enriched := EnrichWithMetadata(entities, timestamp);
        var h := Digest(crypto, enriched);
        Some(Attestation(nodeId, enriched, h, SignHash(crypto, h)))
    }

    /**
     * `process`: abstains (None) exactly when no token validates; otherwise its
     * output carries this node's id, the non-empty entity list with this node's
     * metadata, the digest of that data and this node's signature of the digest.
     */
    method Process(doc: seq<Token>, crypto: Crypto, timestamp: string) returns (result: Option<Attestation>)
      ensures result == Output(doc, crypto, timestamp)
      ensures result.None? <==> Validated(doc, CUSTOM_DRUGS, CUSTOM_SYMPTOMS, CONFIDENCE_THRESHOLD) == []
      ensures result.Some? ==>
                && result.value.nodeId == nodeId
                && result.value.data.entities == Validated(doc, CUSTOM_DRUGS, CUSTOM_SYMPTOMS, CONFIDENCE_THRESHOLD)
                && result.value.data.entities != []
                && result.value.data.fields["node_id"] == nodeId
                && result.value.data.fields["timestamp"] == timestamp
                && Attests(crypto, result.value, privateKey)
    {
      var entities := ValidateEntities(doc, CUSTOM_DRUGS, CUSTOM_SYMPTOMS);
      if entities == [] {
        return None;
      }
      var enriched := EnrichWithMetadata(entities, timestamp);
      var h := Digest(crypto, enriched);
      var signature := SignHash(crypto, h);
      result := Some(Attestation(nodeId, enriched, h, signature));
    }
  }

  /**
   * The envelope names its node, so with collision-free primitives two nodes
   * with different ids never produce the same digest, even over the same list
   * and clock reading.
   */
  lemma EnvelopeNamesNode(crypto: Crypto, a: OracleNode, b: OracleNode, entities: seq<Entity>, timestamp: string)
    requires CollisionFree(crypto) && a.nodeId != b.nodeId
    ensures Digest(crypto, a.EnrichWithMetadata(entities, timestamp)) != Digest(crypto, b.EnrichWithMetadata(entities, timestamp))
  {
    DigestBindsRecord(crypto, a.EnrichWithMetadata(entities, timestamp), b.EnrichWithMetadata(entities, timestamp));
  }

  /** Two nodes with different keys never sign a digest alike, if the hash has no collisions. */
  lemma SignatureBindsKey(crypto: Crypto, h: string, a: OracleNode, b: OracleNode)
    requires CollisionFree(crypto) && a.privateKey != b.privateKey
    ensures a.SignHash(crypto, h) != b.SignHash(crypto, h)
  {
    assert (h + a.privateKey)[|h|..] == a.privateKey;
    assert (h + b.privateKey)[|h|..] == b.privateKey;
  }

  /** `[o for o in oracle_outputs if o is not None]`. */
  function ValidResponses(outputs: seq<Option<Attestation>>): seq<Attestation>
    decreases |outputs|
  {
    if outputs == [] then []
    else (if outputs[0].Some? then [outputs[0].value] else []) + ValidResponses(outputs[1..])
  }

  /** The responses are exactly the outputs that are not None. */
  lemma {:induction false} ValidResponsesMembers(outputs: seq<Option<Attestation>>)
    ensures forall a :: a in ValidResponses(outputs) <==> Some(a) in outputs
    decreases |outputs|
  {
    if outputs != [] {
      ValidResponsesMembers(outputs[1..]);
      assert outputs == [outputs[0]] + outputs[1..];
    }
  }

  /** Filtering keeps submission order: it distributes over concatenation. */
  lemma {:induction false} ValidResponsesAppend(a: seq<Option<Attestation>>, b: seq<Option<Attestation>>)
    ensures ValidResponses(a + b) == ValidResponses(a) + ValidResponses(b)
    decreases |a|
  {
    if a != [] {
      assert (a + b)[1..] == a[1..] + b;
      ValidResponsesAppend(a[1..], b);
    } else {
      assert a + b == b;
    }
  }

  /** There are never more responses than outputs. */
  lemma {:induction false} ValidResponsesLength(outputs: seq<Option<Attestation>>)
    ensures |ValidResponses(outputs)| <= |outputs|
    decreases |outputs|
  {
    if outputs != [] {
      ValidResponsesLength(outputs[1..]);
    }
  }

  /** The first response is the output of the first node that did not abstain. */
  lemma {:induction false} FirstValidResponse(outputs: seq<Option<Attestation>>)
    requires ValidResponses(outputs) != []
    ensures exists i :: 0 <= i < |outputs| && outputs[i] == Some(ValidResponses(outputs)[0])
                        && forall j :: 0 <= j < i ==> outputs[j].None?
    decreases |outputs|
  {
    if outputs[0].None? {
      FirstValidResponse(outputs[1..]);
      var i :| 0 <= i < |outputs[1..]| && outputs[1..][i] == Some(ValidResponses(outputs[1..])[0])
               && forall j :: 0 <= j < i ==> outputs[1..][j].None?;
      assert outputs[i + 1] == Some(ValidResponses(outputs)[0]);
      assert forall j :: 0 <= j < i + 1 ==> outputs[j].None? by {
        forall j | 0 <= j < i + 1 ensures outputs[j].None? {
          if j > 0 { assert outputs[j] == outputs[1..][j - 1]; }
        }
      }
    } else {
      assert outputs[0] == Some(ValidResponses(outputs)[0]);
    }
  }

  function Hashes(responses: seq<Attestation>): seq<string> {
    seq(|responses|, i requires 0 <= i < |responses| => responses[i].hash)
  }

  function Signatures(responses: seq<Attestation>): seq<string> {
    seq(|responses|, i requires 0 <= i < |responses| => responses[i].signature)
  }

  function Approve(valid: seq<Attestation>): ConsensusResult
    requires valid != []
  {
    ConsensusResult("success", valid[0].data, Hashes(valid), Signatures(valid))
  }

  /**
   * `consensus_mechanism` exactly as written: when the threshold is at most zero
   * and every node abstained, the guard `len(valid) >= threshold` holds and
   * `valid_responses[0]` indexes an empty list.
   */
  function ConsensusMechanismAsWritten(oracleOutputs: seq<Option<Attestation>>, threshold: int): (r: Result<Option<ConsensusResult>>)
    ensures r.Err? <==> threshold <= 0 && ValidResponses(oracleOutputs) == []
    ensures r.Ok? && r.value.Some? ==> |ValidResponses(oracleOutputs)| >= threshold
  {
    if |oracleOutputs| < threshold then Ok(None)
    else
      var valid := ValidResponses(oracleOutputs);
      if |valid| >= threshold then
        if valid == [] then Err("IndexError: list index out of range")
        else Ok(Some(Approve(valid)))
      else Ok(None)
  }

  /** All nodes abstaining under threshold 0 makes the round raise instead of returning None. */
  lemma AbstainingRoundRaisesAtThresholdZero()
    ensures ConsensusMechanismAsWritten([None, None, None], 0).Err?
  {
    var abstain: seq<Option<Attestation>> := [None, None, None];
    assert ValidResponses(abstain) == [] by {
      assert abstain[1..][1..][1..] == [];
    }
  }

  /**
   * `consensus_mechanism` with the empty round guarded: a round succeeds iff at
   * least `threshold` nodes (and at least one) did not abstain; the canonical
   * package is the data of the first such node in submission order; the hashes
   * and signatures of all such nodes are kept, in submission order.
   */
  function ConsensusMechanism(oracleOutputs: seq<Option<Attestation>>, threshold: int): (r: Option<ConsensusResult>)
    ensures r.Some? <==> |ValidResponses(oracleOutputs)| >= threshold && ValidResponses(oracleOutputs) != []
    ensures r.Some? ==>
              exists i :: 0 <= i < |oracleOutputs| && oracleOutputs[i].Some?
                          && (forall j :: 0 <= j < i ==> oracleOutputs[j].None?)
                          && r.value.finalPackage == oracleOutputs[i].value.data
    ensures r.Some? ==>
              && |r.value.aggregatedHashes| == |r.value.signatures| == |ValidResponses(oracleOutputs)|
              && forall k :: 0 <= k < |r.value.aggregatedHashes| ==>
                   r.value.aggregatedHashes[k] == ValidResponses(oracleOutputs)[k].hash
                   && r.value.signatures[k] == ValidResponses(oracleOutputs)[k].signature
  {
    ValidResponsesLength(oracleOutputs);
    if |oracleOutputs| < threshold then None
    else
      var valid := ValidResponses(oracleOutputs);
      if |valid| >= threshold && valid != [] then
        FirstValidResponse(oracleOutputs);
        Some(Approve(valid))
      else None
  }

  /**
   * Outside the empty round at a threshold of at most 0 the guard never fires
   * and the two versions agree; in particular they agree at every positive
   * threshold, and at any threshold once some node did not abstain.
   */
  lemma AsWrittenAgreesOutsideEmptyRound(oracleOutputs: seq<Option<Attestation>>, threshold: int)
    requires !(threshold <= 0 && ValidResponses(oracleOutputs) == [])
    ensures ConsensusMechanismAsWritten(oracleOutputs, threshold) == Ok(ConsensusMechanism(oracleOutputs, threshold))
  {
  }

  /**
   * When every output was produced honestly, each aggregated hash is the digest
   * of the data it came with, and the canonical package is the one the first
   * aggregated hash commits to.
   */
  lemma ConsensusHashesCommitToData(crypto: Crypto, oracleOutputs: seq<Option<Attestation>>, threshold: int)
    requires forall i :: 0 <= i < |oracleOutputs| && oracleOutputs[i].Some? ==>
               oracleOutputs[i].value.hash == Digest(crypto, oracleOutputs[i].value.data)
    requires ConsensusMechanism(oracleOutputs, threshold).Some?
    ensures var r := ConsensusMechanism(oracleOutputs, threshold).value;
            && r.aggregatedHashes != []
            && r.aggregatedHashes[0] == Digest(crypto, r.finalPackage)
            && forall k :: 0 <= k < |r.aggregatedHashes| ==>
                 r.aggregatedHashes[k] == Digest(crypto, ValidResponses(oracleOutputs)[k].data)
  {
    var valid := ValidResponses(oracleOutputs);
    ValidResponsesMembers(oracleOutputs);
    forall k | 0 <= k < |valid| ensures valid[k].hash == Digest(crypto, valid[k].data) {
      assert valid[k] in valid;
      var i :| 0 <= i < |oracleOutputs| && oracleOutputs[i] == Some(valid[k]);
    }
  }

  const HITL_VALIDATOR_ID: string := "HITL_001"

  /** The correction the human validator applies, whatever the nodes said. */
  const CORRECTED_ENTITIES: seq<Entity> := [
    Entity("MRI", "PROCEDURE", 98),
    Entity("headache", "SYMPTOM", 95),
    Entity("fatigue", "SYMPTOM", 93),
    Entity("ibuprofen", "DRUG", 97)]

  /**
   * `trigger_human_in_the_loop`: the text and the node outputs are only shown to
   * the reviewer; the record is the fixed correction, signed off under an
   * `HITL_` identifier, every entity above the system threshold.
   */
  function TriggerHumanInTheLoop(inputText: string, oracleOutputs: seq<Option<Attestation>>, timestamp: string): (r: Package)
    ensures r.entities != [] && forall e :: e in r.entities ==> e.confidence > CONFIDENCE_THRESHOLD
    ensures "validator_id" in r.fields && r.fields["validator_id"] == HITL_VALIDATOR_ID
    ensures |r.fields["validator_id"]| >= 5 && r.fields["validator_id"][..5] == "HITL_"
    ensures "node_id" !in r.fields
  {
    Package(CORRECTED_ENTITIES, map[
      "correction_reason" := "Low confidence in NLP extraction for 'MRI'",
      "validator_id" := HITL_VALIDATOR_ID,
      "timestamp" := timestamp])
  }

  /** The correction depends on nothing but the clock. */
  lemma HumanCorrectionIgnoresInputs(text1: string, text2: string, outputs1: seq<Option<Attestation>>, outputs2: seq<Option<Attestation>>, timestamp: string)
    ensures TriggerHumanInTheLoop(text1, outputs1, timestamp) == TriggerHumanInTheLoop(text2, outputs2, timestamp)
    ensures TriggerHumanInTheLoop(text1, outputs1, timestamp).entities == CORRECTED_ENTITIES
  {
  }

  /** The record the run hands on: the consensus package, or the human correction when consensus failed. */
  function FinalData(text: string, oracleOutputs: seq<Option<Attestation>>, threshold: int, hitlTimestamp: string): (r: Package)
    ensures || (exists a :: a in ValidResponses(oracleOutputs) && r == a.data)
            || r == TriggerHumanInTheLoop(text, oracleOutputs, hitlTimestamp)
  {
    match ConsensusMechanism(oracleOutputs, threshold)
    case Some(result) => result.finalPackage
    case None => TriggerHumanInTheLoop(text, oracleOutputs, hitlTimestamp)
  }

  /**
   * Exactly one source supplies the final record: the first non-abstaining node's
   * data when enough nodes took part, the human correction otherwise.
   */
  lemma ConsensusOrHuman(text: string, oracleOutputs: seq<Option<Attestation>>, threshold: int, hitlTimestamp: string)
    ensures var valid := ValidResponses(oracleOutputs);
            FinalData(text, oracleOutputs, threshold, hitlTimestamp) ==
              if |valid| >= threshold && valid != [] then valid[0].data
              else TriggerHumanInTheLoop(text, oracleOutputs, hitlTimestamp)
  {
  }

  /**
   * The run in `main`: three nodes process the same tokens one after another,
   * the consensus round runs with threshold 2, the chosen record is hashed and
   * the hash is added to it under `final_hash`.
   */
  method RunNetwork(text: string, doc: seq<Token>, crypto: Crypto, stamps: seq<string>, hitlTimestamp: string)
    returns (oracles: seq<OracleNode>, oracleResults: seq<Option<Attestation>>, finalData: Package, finalHash: string)
    requires |stamps| == 3
    ensures |oracles| == 3
    ensures oracles[0].nodeId == "Oracle_A" && oracles[0].privateKey == "priv_key_A_123"
    ensures oracles[1].nodeId == "Oracle_B" && oracles[1].privateKey == "priv_key_B_456"
    ensures oracles[2].nodeId == "Oracle_C" && oracles[2].privateKey == "priv_key_C_789"
    ensures |oracleResults| == 3
    ensures forall i :: 0 <= i < 3 ==> oracleResults[i] == oracles[i].Output(doc, crypto, stamps[i])
    ensures var chosen := FinalData(text, oracleResults, RUN_THRESHOLD, hitlTimestamp);
            && finalHash == Digest(crypto, chosen)
            && finalData == chosen.(fields := chosen.fields["final_hash" := finalHash])
  {
    var a := new OracleNode("Oracle_A", "priv_key_A_123");
    var b := new OracleNode("Oracle_B", "priv_key_B_456");
    var c := new OracleNode("Oracle_C", "priv_key_C_789");
    oracles := [a, b, c];
    oracleResults := [];
    for i := 0 to |oracles|
      invariant |oracleResults| == i
      invariant forall j :: 0 <= j < i ==> oracleResults[j] == oracles[j].Output(doc, crypto, stamps[j])
    {
      var result := oracles[i].Process(doc, crypto, stamps[i]);
      oracleResults := oracleResults + [result];
    }
    var consensusResult := ConsensusMechanism(oracleResults, RUN_THRESHOLD);
    var chosen: Package;
    if consensusResult.Some? {
      chosen := consensusResult.value.finalPackage;
    } else {
      chosen := TriggerHumanInTheLoop(text, oracleResults, hitlTimestamp);
    }
    finalHash := Digest(crypto, chosen);
    finalData := chosen.(fields := chosen.fields["final_hash" := finalHash]);
  }
}
