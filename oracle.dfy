/**
 * The stand-alone AI oracle: validation of the extractor's tokens with a
 * caller-chosen confidence threshold, and the metadata envelope that is hashed
 * before transmission.
 */
module Oracle {
  import opened Records
  import opened Validation

  const CUSTOM_DRUGS: seq<string> := ["ibuprofen", "paracetamol", "aspirin", "naproxen", "penicillin"]
  const CUSTOM_SYMPTOMS: seq<string> := ["headache", "fever", "cough", "fatigue", "nausea"]

  /** The default of `confidence_threshold`, 0.7 in hundredths. */
  const DEFAULT_CONFIDENCE_THRESHOLD: int := 70

  /** At the default threshold every confidence returned reaches the threshold. */
  lemma DefaultThresholdKeepsConfident(doc: seq<Token>)
    ensures forall e :: e in Validated(doc, CUSTOM_DRUGS, CUSTOM_SYMPTOMS, DEFAULT_CONFIDENCE_THRESHOLD) ==>
              e.confidence >= DEFAULT_CONFIDENCE_THRESHOLD
  {
    ValidatedConfidence(doc, CUSTOM_DRUGS, CUSTOM_SYMPTOMS, DEFAULT_CONFIDENCE_THRESHOLD);
  }

  /**
   * `validate_nlp_entities`: one pass over the tokens, appending at most one
   * entity per token; the threshold is consulted only for the extractor label.
   */
  method ValidateNlpEntities(doc: seq<Token>, confidenceThreshold: int) returns (validatedEntities: seq<Entity>)
    ensures validatedEntities == Validated(doc, CUSTOM_DRUGS, CUSTOM_SYMPTOMS, confidenceThreshold)
    ensures |validatedEntities| <= |doc|
    ensures confidenceThreshold > EXTRACTOR_CONFIDENCE ==>
              forall e :: e in validatedEntities ==> e.kind == DRUG_LABEL || e.kind == SYMPTOM_LABEL
  {
    validatedEntities := [];
    for i := 0 to |doc|
      invariant validatedEntities == Validated(doc[..i], CUSTOM_DRUGS, CUSTOM_SYMPTOMS, confidenceThreshold)
    {
      ValidatedStep(doc, i, CUSTOM_DRUGS, CUSTOM_SYMPTOMS, confidenceThreshold);
      var token := doc[i];
      var lowerText := Text.Lower(token.text);
      if exists drug :: drug in CUSTOM_DRUGS && Text.Contains(lowerText, drug) {
        var kind, confidence := DRUG_LABEL, DRUG_CONFIDENCE;
        validatedEntities := validatedEntities + [Entity(token.text, kind, confidence)];
      } else if exists symptom :: symptom in CUSTOM_SYMPTOMS && Text.Contains(lowerText, symptom) {
        var kind, confidence := SYMPTOM_LABEL, SYMPTOM_CONFIDENCE;
        validatedEntities := validatedEntities + [Entity(token.text, kind, confidence)];
      } else if token.entType != "" {
        var kind, confidence := token.entType, EXTRACTOR_CONFIDENCE;
        if confidence >= confidenceThreshold {
          validatedEntities := validatedEntities + [Entity(token.text, kind, confidence)];
        }
      }
    }
    assert doc[..|doc|] == doc;
    ValidatedConfidence(doc, CUSTOM_DRUGS, CUSTOM_SYMPTOMS, confidenceThreshold);
  }

  /** `enrich_with_metadata`: the list under `raw_entities`, with the institution's metadata. */
  function EnrichWithMetadata(validatedEntities: seq<Entity>, timestamp: string): (r: Package)
    ensures r.entities == validatedEntities
    ensures r.fields.Keys == {"timestamp", "institution", "patient_id", "status"}
    ensures r.fields["timestamp"] == timestamp
    ensures r.fields["institution"] == "CHU Alger" && r.fields["patient_id"] == "PAT_123456"
    ensures r.fields["status"] == "Oracle validation passed"
  {
    Package(validatedEntities, map[
      "timestamp" := timestamp,
      "institution" := "CHU Alger",
      "patient_id" := "PAT_123456",
      "status" := "Oracle validation passed"])
  }

  /**
   * `generate_hash` is a function of the enriched record alone: two envelopes
   * around the same list and clock reading hash alike, and, with collision-free
   * primitives, different lists never do.
   */
  lemma GenerateHashDeterministic(crypto: Crypto, list1: seq<Entity>, list2: seq<Entity>, timestamp: string)
    requires CollisionFree(crypto)
    ensures (Digest(crypto, EnrichWithMetadata(list1, timestamp)) == Digest(crypto, EnrichWithMetadata(list2, timestamp)))
      <==> (list1 == list2)
  {
    DigestBindsRecord(crypto, EnrichWithMetadata(list1, timestamp), EnrichWithMetadata(list2, timestamp));
  }
}
