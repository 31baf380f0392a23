/**
 * The token classifier shared by both validators (`validate_entities` of an
 * oracle node and the stand-alone `validate_nlp_entities`): vocabulary first,
 * then the extractor's own label, else nothing.
 */
module Validation {
  import opened Common
  import opened Text
  import opened Records

  /** One token of the extractor's output: its text and its entity label (`""` when it has none). */
  datatype Token = Token(text: string, entType: string)

  const DRUG_LABEL: string := "DRUG"
  const SYMPTOM_LABEL: string := "SYMPTOM"

  /** Fixed confidences, in hundredths. */
  const DRUG_CONFIDENCE: nat := 95
  const SYMPTOM_CONFIDENCE: nat := 90
  const EXTRACTOR_CONFIDENCE: nat := 85

  /** `any(term in text.lower() for term in vocab)`: some vocabulary term is a substring of the lowered text. */
  predicate Mentions(vocab: seq<string>, text: string) {
    exists term :: term in vocab && Contains(Lower(text), term)
  }

  /** What one token contributes, if anything. */
  function Classify(t: Token, drugs: seq<string>, symptoms: seq<string>, threshold: int): (r: Option<Entity>)
    ensures r.Some? ==> r.value.text == t.text
    ensures r.None? <==> (!Mentions(drugs, t.text) && !Mentions(symptoms, t.text)
                          && (t.entType == "" || EXTRACTOR_CONFIDENCE < threshold))
  {
    if Mentions(drugs, t.text) then Some(Entity(t.text, DRUG_LABEL, DRUG_CONFIDENCE))
    else if Mentions(symptoms, t.text) then Some(Entity(t.text, SYMPTOM_LABEL, SYMPTOM_CONFIDENCE))
    else if t.entType != "" && EXTRACTOR_CONFIDENCE >= threshold then Some(Entity(t.text, t.entType, EXTRACTOR_CONFIDENCE))
    else None
  }

  function Emit(r: Option<Entity>): seq<Entity> {
    if r.Some? then [r.value] else []
  }

  /** The list a validator builds: one classification per token, appended in token order. */
  function Validated(doc: seq<Token>, drugs: seq<string>, symptoms: seq<string>, threshold: int): (r: seq<Entity>)
    ensures |r| <= |doc|
    decreases |doc|
  {
    if doc == [] then []
    else Validated(doc[..|doc| - 1], drugs, symptoms, threshold) + Emit(Classify(doc[|doc| - 1], drugs, symptoms, threshold))
  }

  /** One more token of a document: the list grows by that token's classification. */
  lemma ValidatedStep(doc: seq<Token>, i: nat, drugs: seq<string>, symptoms: seq<string>, threshold: int)
    requires i < |doc|
    ensures Validated(doc[..i + 1], drugs, symptoms, threshold) ==
              Validated(doc[..i], drugs, symptoms, threshold) + Emit(Classify(doc[i], drugs, symptoms, threshold))
  {
    assert doc[..i + 1][..i] == doc[..i];
  }

  /**
   * On a one-token document the four outcomes are exclusive and ordered by
   * priority: a drug hit always gives DRUG/0.95; SYMPTOM/0.90 needs a symptom hit
   * and no drug hit; the extractor label with 0.85 needs no vocabulary hit, a
   * non-empty label and 0.85 at least the threshold; otherwise the token is dropped.
   */
  lemma TokenPriority(t: Token, drugs: seq<string>, symptoms: seq<string>, threshold: int)
    ensures (Validated([t], drugs, symptoms, threshold) == [Entity(t.text, DRUG_LABEL, DRUG_CONFIDENCE)])
      <==> (Mentions(drugs, t.text))
    ensures (Validated([t], drugs, symptoms, threshold) == [Entity(t.text, SYMPTOM_LABEL, SYMPTOM_CONFIDENCE)])
      <==> (!Mentions(drugs, t.text) && Mentions(symptoms, t.text))
    ensures (Validated([t], drugs, symptoms, threshold) == [Entity(t.text, t.entType, EXTRACTOR_CONFIDENCE)])
      <==> (!Mentions(drugs, t.text) && !Mentions(symptoms, t.text) && t.entType != "" && EXTRACTOR_CONFIDENCE >= threshold)
    ensures (Validated([t], drugs, symptoms, threshold) == [])
      <==> (!Mentions(drugs, t.text) && !Mentions(symptoms, t.text) && (t.entType == "" || EXTRACTOR_CONFIDENCE < threshold))
  {
    assert [t][..0] == [];
    var r := Classify(t, drugs, symptoms, threshold);
    assert Validated([t], drugs, symptoms, threshold) == Emit(r);
    assert DRUG_LABEL != SYMPTOM_LABEL by { assert DRUG_LABEL[0] != SYMPTOM_LABEL[0]; }
  }

  /**
   * A drug hit decides the outcome alone: the symptom list, the extractor label
   * and the threshold make no difference.
   */
  lemma DrugHitWinsRegardless(t: Token, t': Token, drugs: seq<string>, symptoms: seq<string>, symptoms': seq<string>, threshold: int, threshold': int)
    requires t.text == t'.text && Mentions(drugs, t.text)
    ensures Classify(t, drugs, symptoms, threshold) == Classify(t', drugs, symptoms', threshold')
  {
  }

  /** Validation distributes over concatenation: every token is classified on its own, in order. */
  lemma {:induction false} ValidatedAppend(a: seq<Token>, b: seq<Token>, drugs: seq<string>, symptoms: seq<string>, threshold: int)
    ensures Validated(a + b, drugs, symptoms, threshold) == Validated(a, drugs, symptoms, threshold) + Validated(b, drugs, symptoms, threshold)
    decreases |b|
  {
    if b == [] {
      assert a + b == a;
    } else {
      var b' := b[..|b| - 1];
      assert (a + b)[..|a + b| - 1] == a + b';
      assert (a + b)[|a + b| - 1] == b[|b| - 1];
      ValidatedAppend(a, b', drugs, symptoms, threshold);
    }
  }

  /** Every entity in the list is the classification of some token of the document, and keeps that token's text. */
  lemma {:induction false} ValidatedSound(doc: seq<Token>, drugs: seq<string>, symptoms: seq<string>, threshold: int)
    ensures forall e :: e in Validated(doc, drugs, symptoms, threshold) ==>
              exists t :: t in doc && t.text == e.text && Classify(t, drugs, symptoms, threshold) == Some(e)
    decreases |doc|
  {
    if doc != [] {
      var init := doc[..|doc| - 1];
      ValidatedSound(init, drugs, symptoms, threshold);
      forall e | e in Validated(doc, drugs, symptoms, threshold)
        ensures exists t :: t in doc && t.text == e.text && Classify(t, drugs, symptoms, threshold) == Some(e)
      {
        if e in Validated(init, drugs, symptoms, threshold) {
          var t :| t in init && t.text == e.text && Classify(t, drugs, symptoms, threshold) == Some(e);
          assert t in doc;
        } else {
          assert doc[|doc| - 1] in doc;
        }
      }
    }
  }

  /** Every token that classifies to an entity contributes it to the list. */
  lemma {:induction false} ValidatedComplete(doc: seq<Token>, drugs: seq<string>, symptoms: seq<string>, threshold: int)
    ensures forall t :: t in doc && Classify(t, drugs, symptoms, threshold).Some? ==>
              Classify(t, drugs, symptoms, threshold).value in Validated(doc, drugs, symptoms, threshold)
    decreases |doc|
  {
    if doc != [] {
      var init := doc[..|doc| - 1];
      ValidatedComplete(init, drugs, symptoms, threshold);
      forall t | t in doc && Classify(t, drugs, symptoms, threshold).Some?
        ensures Classify(t, drugs, symptoms, threshold).value in Validated(doc, drugs, symptoms, threshold)
      {
        if t != doc[|doc| - 1] {
          var i :| 0 <= i < |doc| && doc[i] == t;
          assert t in init by { assert init[i] == t; }
        }
      }
    }
  }

  /**
   * Confidence and threshold: with a threshold of at most 0.85 every retained
   * entity reaches it; above 0.85 only DRUG and SYMPTOM entities remain, and
   * they are kept even when their own confidence is below the threshold.
   */
  lemma ValidatedConfidence(doc: seq<Token>, drugs: seq<string>, symptoms: seq<string>, threshold: int)
    ensures threshold <= EXTRACTOR_CONFIDENCE ==>
              forall e :: e in Validated(doc, drugs, symptoms, threshold) ==> e.confidence >= threshold
    ensures threshold > EXTRACTOR_CONFIDENCE ==>
              forall e :: e in Validated(doc, drugs, symptoms, threshold) ==>
                (e.kind == DRUG_LABEL && e.confidence == DRUG_CONFIDENCE) || (e.kind == SYMPTOM_LABEL && e.confidence == SYMPTOM_CONFIDENCE)
  {
    ValidatedSound(doc, drugs, symptoms, threshold);
  }

  /** The entities that did not come from the extractor-label branch. */
  function VocabularyMatches(es: seq<Entity>): seq<Entity>
    decreases |es|
  {
    if es == [] then []
    else VocabularyMatches(es[..|es| - 1]) + (if es[|es| - 1].confidence == EXTRACTOR_CONFIDENCE then [] else [es[|es| - 1]])
  }

  /**
   * The threshold only gates the extractor-label branch: every threshold up to
   * 0.85 gives the same list, and any threshold above it gives that list with
   * the extractor-labelled entities removed, so vocabulary matches survive
   * every threshold.
   */
  lemma {:induction false} ThresholdGatesOnlyExtractorLabels(doc: seq<Token>, drugs: seq<string>, symptoms: seq<string>, threshold: int)
    ensures Validated(doc, drugs, symptoms, threshold) ==
              if threshold <= EXTRACTOR_CONFIDENCE then Validated(doc, drugs, symptoms, EXTRACTOR_CONFIDENCE)
              else VocabularyMatches(Validated(doc, drugs, symptoms, EXTRACTOR_CONFIDENCE))
    decreases |doc|
  {
    if doc != [] {
      var init := doc[..|doc| - 1];
      var last := doc[|doc| - 1];
      ThresholdGatesOnlyExtractorLabels(init, drugs, symptoms, threshold);
      TokenThresholdGate(last, drugs, symptoms, threshold);
      if threshold > EXTRACTOR_CONFIDENCE {
        VocabularyMatchesAppend(Validated(init, drugs, symptoms, EXTRACTOR_CONFIDENCE),
                                Emit(Classify(last, drugs, symptoms, EXTRACTOR_CONFIDENCE)));
      }
    }
  }

  /** The one-token case of the gate. */
  lemma TokenThresholdGate(t: Token, drugs: seq<string>, symptoms: seq<string>, threshold: int)
    ensures Emit(Classify(t, drugs, symptoms, threshold)) ==
              if threshold <= EXTRACTOR_CONFIDENCE then Emit(Classify(t, drugs, symptoms, EXTRACTOR_CONFIDENCE))
              else VocabularyMatches(Emit(Classify(t, drugs, symptoms, EXTRACTOR_CONFIDENCE)))
  {
    var e := Emit(Classify(t, drugs, symptoms, EXTRACTOR_CONFIDENCE));
    if e != [] {
      assert e[..0] == [];
    }
  }

  lemma {:induction false} VocabularyMatchesAppend(a: seq<Entity>, b: seq<Entity>)
    requires |b| <= 1
    ensures VocabularyMatches(a + b) == VocabularyMatches(a) + VocabularyMatches(b)
  {
    if b == [] {
      assert a + b == a;
    } else {
      assert (a + b)[..|a + b| - 1] == a;
      assert b[..0] == [];
    }
  }
}
