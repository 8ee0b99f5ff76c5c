/**
 * model.py: the lazily loaded resources (embedder, FAISS index over the
 * department descriptions, department names, optional classifier) behind a
 * load-once guard, and the hybrid recommendation built on them.
 */
module ModelResources {
  import opened Wrappers
  import opened PyDict
  import opened HybridMerge

  /** The departments of the knowledge base, in the order their descriptions are indexed. */
  const KnowledgeDepartments: seq<string> := [
    "Emergency Medicine", "General Medicine", "Cardiology", "Neurology", "Dermatology",
    "Orthopedics", "Pediatrics", "Psychiatry", "Gastroenterology", "Pulmonology",
    "Urology", "Nephrology", "Endocrinology", "Oncology", "ENT", "Ophthalmology", "Gynecology"]

  const HybridSystem: string := "Hybrid Semantic + ML Engine"
  const SemanticSystem: string := "Semantic Knowledge Engine"

  /** The sentence embedder, opaque: text to vector. */
  datatype Embedder = Embedder(encode: string -> seq<real>)

  /** A fitted classifier: its class labels and `predict_proba` on one embedding, both opaque. */
  datatype Classifier = Classifier(classes: seq<string>, predictProba: seq<real> -> seq<real>)

  /** `predict_proba` gives one probability per class. */
  ghost predicate ClassifierShape(c: Classifier) {
    forall e :: |c.predictProba(e)| == |c.classes|
  }

  /**
   * Where `load_resources` raises, if it does: building the embedder
   * (model.py:50), encoding the descriptions (55), building the index
   * (58-59) or unpickling the classifier (63). None of these is guarded,
   * and every global assigned before the failing step keeps its value.
   */
  datatype LoadFailure = NoFailure | EmbedderFails | EncodeFails | IndexFails | ClassifierFails

  /**
   * What loading finds: the embedder, its vectors for the department
   * descriptions, the pickled classifier if its file exists, and the step
   * that raises, if any.
   */
  datatype Environment = Environment(
    embedder: Embedder,
    knowledgeVectors: seq<seq<real>>,
    classifierFile: Option<Classifier>,
    failure: LoadFailure)

  /** `{"System": ..., "Top 3 Recommendations": [...]}`. */
  datatype Recommendation = Recommendation(system: string, top: seq<Scored>)

  /**
   * The recommendation once the resources are loaded: without a classifier
   * the semantic results as they are, with one the merged top three.
   */
  method Recommend(classifier: Option<Classifier>, embedding: seq<real>, semantic: seq<Scored>)
    returns (reply: Recommendation)
    requires classifier.Some? ==> ClassifierShape(classifier.value)
    ensures classifier.None? ==> reply == Recommendation(SemanticSystem, semantic)
    ensures classifier.Some? ==> reply.system == HybridSystem
    ensures classifier.Some? ==> |reply.top| <= 3 && NonIncreasing(reply.top) && DistinctKeys(reply.top)
    ensures classifier.Some? ==> forall e :: e in reply.top ==>
      e.key in Keys(semantic) || e.key in classifier.value.classes
    ensures classifier.Some? ==>
      HybridRanking(semantic, classifier.value.classes, classifier.value.predictProba(embedding), reply.top)
  {
    if classifier.None? {
      return Recommendation(SemanticSystem, semantic);
    }
    var c := classifier.value;
    var top := RankHybrid(semantic, c.classes, c.predictProba(embedding));
    reply := Recommendation(HybridSystem, top);
  }

  /** The module's globals, all None until the first call loads them. */
  class Resources {
    var embedder: Option<Embedder>
    var faissIndex: Option<seq<seq<real>>>
    var departmentNames: Option<seq<string>>
    var classifier: Option<Classifier>

    /**
     * The names are set first, so they are there once the embedder is; a
     * loaded classifier answers one probability per class. The index may be
     * missing even with the embedder set: a load that failed half-way.
     */
    ghost predicate Valid()
      reads this
    {
      && (embedder.Some? ==> departmentNames == Some(KnowledgeDepartments))
      && (classifier.Some? ==> ClassifierShape(classifier.value))
    }

    /**
     * The globals after a first load from env: those assigned before the
     * failing step hold their new value, the others what they held before.
     */
    ghost predicate AfterLoad(env: Environment, index0: Option<seq<seq<real>>>, classifier0: Option<Classifier>)
      reads this
    {
      && departmentNames == Some(KnowledgeDepartments)
      && embedder == (if env.failure == EmbedderFails then None else Some(env.embedder))
      && faissIndex == (if env.failure in {NoFailure, ClassifierFails} then Some(env.knowledgeVectors) else index0)
      && classifier == (if env.failure == NoFailure then env.classifierFile else classifier0)
    }

    constructor()
      ensures embedder.None? && faissIndex.None? && departmentNames.None? && classifier.None?
      ensures Valid()
    {
      embedder := None;
      faissIndex := None;
      departmentNames := None;
      classifier := None;
    }

    /**
     * `load_resources`: does nothing once the embedder is set; otherwise
     * assigns the globals in the source's order and stops at the step that
     * raises (raised is the exception leaving the call).
     */
    method LoadResources(env: Environment) returns (raised: bool)
      requires Valid()
      requires env.classifierFile.Some? ==> ClassifierShape(env.classifierFile.value)
      modifies this
      ensures Valid()
      ensures old(embedder).Some? ==> unchanged(this) && !raised
      ensures old(embedder).None? ==>
        raised == (env.failure != NoFailure) && AfterLoad(env, old(faissIndex), old(classifier))
    {
      if embedder.Some? {
        return false;
      }
      departmentNames := Some(KnowledgeDepartments);
      if env.failure == EmbedderFails {
        return true;
      }
      embedder := Some(env.embedder);
      if env.failure == EncodeFails || env.failure == IndexFails {
        return true;
      }
      faissIndex := Some(env.knowledgeVectors);
      if env.failure == ClassifierFails {
        return true;
      }
      classifier := env.classifierFile;
      raised := false;
    }

    /**
     * `hybrid_predict`: load the resources, look the symptoms up in the
     * index (search stands for the FAISS k=3 query with its normalised
     * confidences), and recommend from the hits and the classifier. None
     * when the load raises or the index is missing (`None.search` raises).
     */
    method HybridPredict(env: Environment, search: seq<real> -> seq<Neighbour>, symptoms: string)
      returns (reply: Option<Recommendation>)
      requires Valid()
      requires env.classifierFile.Some? ==> ClassifierShape(env.classifierFile.value)
      requires forall q :: HitsInRange(search(q), KnowledgeDepartments)
      modifies this
      ensures Valid()
      ensures old(embedder).Some? ==> unchanged(this)
      ensures old(embedder).None? ==> AfterLoad(env, old(faissIndex), old(classifier))
      ensures reply.Some? <==> (old(embedder).Some? || env.failure == NoFailure) && embedder.Some? && faissIndex.Some?
      ensures reply.Some? ==>
        var embedding := embedder.value.encode(symptoms);
        var semantic := SemanticResults(KnowledgeDepartments, search(embedding));
        && (classifier.None? ==> reply.value == Recommendation(SemanticSystem, semantic))
        && (classifier.Some? ==>
              && reply.value.system == HybridSystem
              && HybridRanking(semantic, classifier.value.classes, classifier.value.predictProba(embedding), reply.value.top))
    {
      var raised := LoadResources(env);
      if raised || faissIndex.None? {
        return None;
      }
      var embedding := embedder.value.encode(symptoms);
      var semantic := SemanticResults(departmentNames.value, search(embedding));
      var r := Recommend(classifier, embedding, semantic);
      reply := Some(r);
    }
  }

  /** A second load changes nothing: the guard makes loading idempotent. */
  method LoadTwice(r: Resources, first: Environment, second: Environment)
    requires r.Valid() && r.embedder.None?
    requires first.failure == NoFailure
    requires first.classifierFile.Some? ==> ClassifierShape(first.classifierFile.value)
    requires second.classifierFile.Some? ==> ClassifierShape(second.classifierFile.value)
    modifies r
    ensures r.embedder == Some(first.embedder) && r.classifier == first.classifierFile
    ensures r.faissIndex == Some(first.knowledgeVectors)
  {
    var _ := r.LoadResources(first);
    var _ := r.LoadResources(second);
  }

  /**
   * A first load that fails after setting the embedder but before the index
   * leaves the guard set for good: every later prediction raises, whatever
   * the environment is by then.
   */
  method FailedLoadIsPermanent(r: Resources, first: Environment, later: Environment,
                               search: seq<real> -> seq<Neighbour>, s1: string, s2: string)
    returns (reply1: Option<Recommendation>, reply2: Option<Recommendation>)
    requires r.Valid() && r.embedder.None? && r.faissIndex.None?
    requires first.failure in {EncodeFails, IndexFails}
    requires first.classifierFile.Some? ==> ClassifierShape(first.classifierFile.value)
    requires later.classifierFile.Some? ==> ClassifierShape(later.classifierFile.value)
    requires forall q :: HitsInRange(search(q), KnowledgeDepartments)
    modifies r
    ensures reply1.None? && reply2.None?
  {
    reply1 := r.HybridPredict(first, search, s1);
    reply2 := r.HybridPredict(later, search, s2);
  }

  /**
   * A classifier whose unpickling raises is never retried: after that first
   * failed call the service answers with the semantic results alone.
   */
  method FailedClassifierIsSilent(r: Resources, first: Environment, later: Environment,
                                  search: seq<real> -> seq<Neighbour>, s1: string, s2: string)
    returns (reply1: Option<Recommendation>, reply2: Option<Recommendation>)
    requires r.Valid() && r.embedder.None? && r.classifier.None?
    requires first.failure == ClassifierFails
    requires first.classifierFile.Some? ==> ClassifierShape(first.classifierFile.value)
    requires later.classifierFile.Some? ==> ClassifierShape(later.classifierFile.value)
    requires forall q :: HitsInRange(search(q), KnowledgeDepartments)
    modifies r
    ensures reply1.None?
    ensures reply2 == Some(Recommendation(SemanticSystem,
      SemanticResults(KnowledgeDepartments, search(first.embedder.encode(s2)))))
  {
    reply1 := r.HybridPredict(first, search, s1);
    reply2 := r.HybridPredict(later, search, s2);
  }
}
