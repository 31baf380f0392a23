/**
 * The simulated smart contract: the on-chain store that records the digest of
 * an off-chain record, the integrity check against it, and the reimbursement
 * rule that fires only on verified data.
 */
module SmartContract {
  import opened Common
  import opened Text
  import opened Records

  const CONTRACT_ADDRESS: string := "0x1234567890abcdef1234567890abcdef12345678"
  const STORED_STATUS: string := "Data hash stored on-chain"

  /** Synonyms of the symptom side and drugs of the drug side of the rule, in the order they are searched. */
  const HEADACHE_KEYWORDS: seq<string> := ["headache", "headaches", "pain", "migraine"]
  const DRUG_KEYWORDS: seq<string> := ["ibuprofen", "paracetamol", "aspirin"]

  /** `verify_hash`: the recomputed digest of the off-chain record equals the stored one. */
  function VerifyHash(crypto: Crypto, dataOffChain: Package, storedHash: string): (r: bool)
    ensures storedHash == Digest(crypto, dataOffChain) ==> r
    ensures r && CollisionFree(crypto) ==>
              forall other :: Digest(crypto, other) == storedHash ==> other == dataOffChain
  {
    Digest(crypto, dataOffChain) == storedHash
  }

  /** Some entity with this label whose lowered text is exactly `word`. */
  predicate HasEntity(entities: seq<Entity>, kind: string, word: string) {
    exists e :: e in entities && e.kind == kind && Lower(e.text) == word
  }

  /** `[ent["text"].lower() for ent in entities if ent["label"] == kind]`. */
  function LoweredTexts(entities: seq<Entity>, kind: string): (r: seq<string>)
    ensures forall word :: word in r <==> HasEntity(entities, kind, word)
    decreases |entities|
  {
    if entities == [] then []
    else
      var rest := LoweredTexts(entities[1..], kind);
      assert forall e :: e in entities <==> e == entities[0] || e in entities[1..];
      if entities[0].kind == kind then [Lower(entities[0].text)] + rest else rest
  }

  /** `next((k for k in keywords if k in found), None)`: the first keyword, in keyword order, that was found. */
  function FirstKeyword(keywords: seq<string>, found: seq<string>): (r: Option<string>)
    ensures r.None? <==> forall k :: k in keywords ==> k !in found
    ensures r.Some? ==> exists i :: 0 <= i < |keywords| && keywords[i] == r.value && r.value in found
                                    && forall j :: 0 <= j < i ==> keywords[j] !in found
    decreases |keywords|
  {
    if keywords == [] then None
    else if keywords[0] in found then Some(keywords[0])
    else
      var r := FirstKeyword(keywords[1..], found);
      assert forall k :: k in keywords <==> k == keywords[0] || k in keywords[1..];
      if r.Some? then
        var i :| 0 <= i < |keywords[1..]| && keywords[1..][i] == r.value && r.value in found
                 && forall j :: 0 <= j < i ==> keywords[1..][j] !in found;
        assert keywords[i + 1] == r.value;
        assert forall j :: 0 <= j < i + 1 ==> keywords[j] !in found by {
          forall j | 0 <= j < i + 1 ensures keywords[j] !in found {
            if j > 0 { assert keywords[j] == keywords[1..][j - 1]; }
          }
        }
        r
      else r
  }

  /** `k` is the first keyword of the list that some entity with this label spells exactly. */
  ghost predicate FirstMatching(keywords: seq<string>, entities: seq<Entity>, kind: string, k: string) {
    exists i :: 0 <= i < |keywords| && keywords[i] == k && HasEntity(entities, kind, k)
                && forall j :: 0 <= j < i ==> !HasEntity(entities, kind, keywords[j])
  }

  /**
   * What a contract run decides. The source returns `True` exactly for
   * `Reimbursement` and reports the matched pair; both other outcomes return `False`.
   */
  datatype Execution = IntegrityFailure | NoMatch | Reimbursement(matchedHeadache: string, matchedDrug: string)

  /**
   * `execute_smart_contract`: the integrity gate comes first; on verified data
   * reimbursement is triggered iff a SYMPTOM entity is exactly a headache synonym
   * and a DRUG entity is exactly an approved drug (case-insensitive on the
   * entity), and the pair reported is the first synonym and the first drug in
   * keyword order that occur.
   */
  function ExecuteSmartContract(crypto: Crypto, dataOffChain: Package, storedHash: string): (r: Execution)
    ensures r == IntegrityFailure <==> !VerifyHash(crypto, dataOffChain, storedHash)
    ensures r.Reimbursement? <==>
              && VerifyHash(crypto, dataOffChain, storedHash)
              && (exists k :: k in HEADACHE_KEYWORDS && HasEntity(dataOffChain.entities, "SYMPTOM", k))
              && (exists d :: d in DRUG_KEYWORDS && HasEntity(dataOffChain.entities, "DRUG", d))
    ensures r.Reimbursement? ==>
              && FirstMatching(HEADACHE_KEYWORDS, dataOffChain.entities, "SYMPTOM", r.matchedHeadache)
              && FirstMatching(DRUG_KEYWORDS, dataOffChain.entities, "DRUG", r.matchedDrug)
  {
    if !VerifyHash(crypto, dataOffChain, storedHash) then IntegrityFailure
    else
      var drugs := LoweredTexts(dataOffChain.entities, "DRUG");
      var symptoms := LoweredTexts(dataOffChain.entities, "SYMPTOM");
      var hasHeadache := exists symptom :: symptom in HEADACHE_KEYWORDS && symptom in symptoms;
      var hasDrug := exists drug :: drug in DRUG_KEYWORDS && drug in drugs;
      if hasHeadache && hasDrug then
        var matchedHeadache := FirstKeyword(HEADACHE_KEYWORDS, symptoms);
        var matchedDrug := FirstKeyword(DRUG_KEYWORDS, drugs);
        Reimbursement(matchedHeadache.value, matchedDrug.value)
      else NoMatch
  }

  /**
   * A record that differs from the committed one never reaches the rule, if the
   * hashing primitives have no collisions.
   */
  lemma TamperedRecordHalts(crypto: Crypto, committed: Package, presented: Package)
    requires CollisionFree(crypto) && presented != committed
    ensures !VerifyHash(crypto, presented, Digest(crypto, committed))
    ensures ExecuteSmartContract(crypto, presented, Digest(crypto, committed)) == IntegrityFailure
  {
    DigestBindsRecord(crypto, presented, committed);
  }

  /** Two keywords that are both first to match are the same keyword. */
  lemma FirstMatchingUnique(keywords: seq<string>, entities: seq<Entity>, kind: string, k1: string, k2: string)
    requires FirstMatching(keywords, entities, kind, k1) && FirstMatching(keywords, entities, kind, k2)
    ensures k1 == k2
  {
    var i1 :| 0 <= i1 < |keywords| && keywords[i1] == k1 && HasEntity(entities, kind, k1)
              && forall j :: 0 <= j < i1 ==> !HasEntity(entities, kind, keywords[j]);
    var i2 :| 0 <= i2 < |keywords| && keywords[i2] == k2 && HasEntity(entities, kind, k2)
              && forall j :: 0 <= j < i2 ==> !HasEntity(entities, kind, keywords[j]);
    if i1 < i2 {
      assert false;
    } else if i2 < i1 {
      assert false;
    }
  }

  /**
   * Entities with labels other than DRUG and SYMPTOM are never consulted, nor is
   * the position or repetition of any entity: two committed records with the
   * same DRUG and SYMPTOM entities get the same decision.
   */
  lemma OtherLabelsIgnored(crypto: Crypto, d1: Package, d2: Package)
    requires forall e: Entity :: e.kind == "SYMPTOM" || e.kind == "DRUG" ==> (e in d1.entities <==> e in d2.entities)
    ensures ExecuteSmartContract(crypto, d1, Digest(crypto, d1)) == ExecuteSmartContract(crypto, d2, Digest(crypto, d2))
  {
    forall kind, word | kind == "SYMPTOM" || kind == "DRUG"
      ensures HasEntity(d1.entities, kind, word) == HasEntity(d2.entities, kind, word)
    {
      if HasEntity(d1.entities, kind, word) {
        var x :| x in d1.entities && x.kind == kind && Lower(x.text) == word;
        assert x in d2.entities;
      }
      if HasEntity(d2.entities, kind, word) {
        var x :| x in d2.entities && x.kind == kind && Lower(x.text) == word;
        assert x in d1.entities;
      }
    }
    var r1 := ExecuteSmartContract(crypto, d1, Digest(crypto, d1));
    var r2 := ExecuteSmartContract(crypto, d2, Digest(crypto, d2));
    if r1.Reimbursement? {
      FirstMatchingUnique(HEADACHE_KEYWORDS, d2.entities, "SYMPTOM", r1.matchedHeadache, r2.matchedHeadache);
      FirstMatchingUnique(DRUG_KEYWORDS, d2.entities, "DRUG", r1.matchedDrug, r2.matchedDrug);
    }
  }

  /**
   * On a verified record whose symptoms include "headaches" but not "headache"
   * and whose drugs include "ibuprofen", the pair reported is
   * ("headaches", "ibuprofen"): keyword order decides, not entity order.
   */
  lemma ReportsFirstKeywordPair(crypto: Crypto, data: Package)
    requires HasEntity(data.entities, "SYMPTOM", "headaches") && !HasEntity(data.entities, "SYMPTOM", "headache")
    requires HasEntity(data.entities, "DRUG", "ibuprofen")
    ensures ExecuteSmartContract(crypto, data, Digest(crypto, data)) == Reimbursement("headaches", "ibuprofen")
  {
    var es := data.entities;
    var r := ExecuteSmartContract(crypto, data, Digest(crypto, data));
    assert HEADACHE_KEYWORDS[1] == "headaches" && DRUG_KEYWORDS[0] == "ibuprofen";
    assert r.Reimbursement?;
    assert FirstMatching(HEADACHE_KEYWORDS, es, "SYMPTOM", "headaches") by {
      assert HEADACHE_KEYWORDS[0] == "headache";
    }
    assert FirstMatching(DRUG_KEYWORDS, es, "DRUG", "ibuprofen");
    FirstMatchingUnique(HEADACHE_KEYWORDS, es, "SYMPTOM", r.matchedHeadache, "headaches");
    FirstMatchingUnique(DRUG_KEYWORDS, es, "DRUG", r.matchedDrug, "ibuprofen");
  }

  /** The record the simulation stores and then presents to the contract. */
  const OFF_CHAIN_DATA: Package := Package([
    Entity("headaches", "SYMPTOM", 90),
    Entity("fatigue", "SYMPTOM", 90),
    Entity("ibuprofen", "DRUG", 95)], map[
    "timestamp" := "2025-07-14T12:34:56Z",
    "institution" := "CHU Alger",
    "patient_id" := "PAT_123456",
    "status" := "Oracle validation passed"])

  /** The simulation's record has the plural synonym among its symptoms ... */
  lemma OffChainDataHasPluralSynonym()
    ensures HasEntity(OFF_CHAIN_DATA.entities, "SYMPTOM", "headaches")
  {
    var es := OFF_CHAIN_DATA.entities;
    LowerOfLowercase(es[0].text);
    assert es[0] in es;
  }

  /** ... but not the singular one ... */
  lemma OffChainDataLacksSingularSynonym()
    ensures !HasEntity(OFF_CHAIN_DATA.entities, "SYMPTOM", "headache")
  {
    forall e | e in OFF_CHAIN_DATA.entities && e.kind == "SYMPTOM" ensures |Lower(e.text)| != |"headache"| {
    }
  }

  /** ... and the first approved drug among its drugs. */
  lemma OffChainDataHasIbuprofen()
    ensures HasEntity(OFF_CHAIN_DATA.entities, "DRUG", "ibuprofen")
  {
    var es := OFF_CHAIN_DATA.entities;
    LowerOfLowercase(es[2].text);
    assert es[2] in es;
  }

  /**
   * On the simulation's record the committed digest passes the gate and the rule
   * fires with ("headaches", "ibuprofen"): "headache" is searched first, but only
   * the plural is present.
   */
  lemma SimulationReimburses(crypto: Crypto)
    ensures ExecuteSmartContract(crypto, OFF_CHAIN_DATA, Digest(crypto, OFF_CHAIN_DATA)) == Reimbursement("headaches", "ibuprofen")
  {
    OffChainDataHasPluralSynonym();
    OffChainDataLacksSingularSynonym();
    OffChainDataHasIbuprofen();
    ReportsFirstKeywordPair(crypto, OFF_CHAIN_DATA);
  }

  /** The module-level `on_chain_data` dict, as an object with one map-valued field. */
  class Chain {
    var onChainData: map<string, string>

    constructor ()
      ensures onChainData == map[]
    {
      onChainData := map[];
    }

    /**
     * `store_on_chain`: returns the record's digest and writes it, the clock
     * reading, the status and the contract address, overwriting whatever an
     * earlier call stored under those keys; the returned digest verifies the record.
     */
    method StoreOnChain(crypto: Crypto, dataOffChain: Package, timestamp: string) returns (storedHash: string)
      modifies this
      ensures storedHash == Digest(crypto, dataOffChain)
      ensures onChainData == old(onChainData)["hash" := storedHash]["timestamp" := timestamp]
                               ["status" := STORED_STATUS]["contract_address" := CONTRACT_ADDRESS]
      ensures "hash" in onChainData && onChainData["hash"] == storedHash
      ensures "contract_address" in onChainData && onChainData["contract_address"] == CONTRACT_ADDRESS
      ensures VerifyHash(crypto, dataOffChain, storedHash)
    {
      var inputStr := crypto.dumps(dataOffChain);
      storedHash := crypto.sha256(inputStr);
      onChainData := onChainData["hash" := storedHash];
      onChainData := onChainData["timestamp" := timestamp];
      onChainData := onChainData["status" := STORED_STATUS];
      onChainData := onChainData["contract_address" := CONTRACT_ADDRESS];
    }
  }

  /** The simulation: store the record's digest on chain, then run the contract against it. */
  method RunSimulation(chain: Chain, crypto: Crypto, timestamp: string) returns (result: bool)
    modifies chain
    ensures chain.onChainData == old(chain.onChainData)["hash" := Digest(crypto, OFF_CHAIN_DATA)]["timestamp" := timestamp]
                                   ["status" := STORED_STATUS]["contract_address" := CONTRACT_ADDRESS]
    ensures "hash" in chain.onChainData && chain.onChainData["hash"] == Digest(crypto, OFF_CHAIN_DATA)
    ensures result
  {
    var storedHash := chain.StoreOnChain(crypto, OFF_CHAIN_DATA, timestamp);
    SimulationReimburses(crypto);
    assert storedHash == Digest(crypto, OFF_CHAIN_DATA);
    result := ExecuteSmartContract(crypto, OFF_CHAIN_DATA, storedHash).Reimbursement?;
  }
}
