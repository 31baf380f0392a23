/**
 * The JSON records that flow between the oracle nodes, the consensus round
 * and the smart contract, and the hashing applied to them.
 */
module Records {

  /**
   * One validated entity `{"text", "label", "confidence"}`; `kind` is the
   * `label` key (a reserved word here). The confidence is
   * kept in hundredths: 0.95 is 95.
   */
  datatype Entity = Entity(text: string, kind: string, confidence: nat)

  /**
   * A record that is hashed: its entity list and its string-valued metadata.
   * `entities` stands for the key `entities` (oracle network and human
   * correction), `raw_entities` (single oracle) and `valid_entities` (smart
   * contract); `fields` holds every other key (timestamp, node_id, status, ...).
   */
  datatype Package = Package(entities: seq<Entity>, fields: map<string, string>)

  /**
   * The hashing primitives, left uninterpreted: `sha256` is
   * `hashlib.sha256(s.encode()).hexdigest()` and `dumps` is
   * `json.dumps(data, sort_keys=True)`.
   */
  datatype Crypto = Crypto(sha256: string -> string, dumps: Package -> string)

  /** `sha256(json.dumps(data, sort_keys=True))`: the digest every file computes over a record. */
  function Digest(crypto: Crypto, data: Package): string {
    crypto.sha256(crypto.dumps(data))
  }

  /** The idealisation under which a digest identifies its record: no collisions in either primitive. */
  ghost predicate CollisionFree(crypto: Crypto) {
    && (forall x: string, y: string :: crypto.sha256(x) == crypto.sha256(y) ==> x == y)
    && (forall p: Package, q: Package :: crypto.dumps(p) == crypto.dumps(q) ==> p == q)
  }

  /**
   * The digest is a function of the record (equal records, equal digests) and,
   * for collision-free primitives, it also tells records apart.
   */
  lemma DigestBindsRecord(crypto: Crypto, p: Package, q: Package)
    requires CollisionFree(crypto)
    ensures Digest(crypto, p) == Digest(crypto, q) <==> p == q
  {
  }
}
