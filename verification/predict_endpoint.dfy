/**
 * main_combined.py `hybrid_predict_logic` and POST /predict: the merged
 * department ranking, the emergency guard in front of it, and the padding
 * of the ranking to three entries before it is logged. The padding appends
 * to the very list the reply then returns.
 */
module PredictEndpoint {
  import opened Wrappers
  import opened PyDict
  import opened HybridMerge
  import opened ModelResources
  import Analytics

  /** What running the classifier gave: no classifier loaded, an exception, or its probabilities. */
  datatype ClassifierRun = NoClassifier | ClassifierFailed | Probabilities(classes: seq<string>, probs: seq<real>)

  /** `{"System": ..., "Top 3 Recommendations": [...]}` */
  datatype HybridReply = HybridReply(system: string, top: seq<Scored>)

  const ErrorSystem: string := "Error"

  /**
   * `hybrid_predict_logic`: "Error" with nothing when the embedder or the
   * index is missing; otherwise the semantic hits (weighted 0.6) merged with
   * the classifier's top three (weighted 0.4, none when it is missing or
   * fails), ranked, top three kept. The System label follows whether a
   * classifier is loaded, not whether it produced anything.
   */
  method HybridPredictLogic(engineReady: bool, hits: seq<Neighbour>, run: ClassifierRun) returns (reply: HybridReply)
    requires HitsInRange(hits, KnowledgeDepartments)
    requires run.Probabilities? ==> |run.probs| == |run.classes|
    ensures !engineReady ==> reply == HybridReply(ErrorSystem, [])
    ensures engineReady ==> reply.system == if run.NoClassifier? then SemanticSystem else HybridSystem
    ensures engineReady ==> |reply.top| <= 3 && NonIncreasing(reply.top) && DistinctKeys(reply.top)
    ensures engineReady && !run.Probabilities? ==>
      var semantic := SemanticResults(KnowledgeDepartments, hits);
      && |reply.top| == Min(3, |FirstOccurrences(Keys(semantic))|)
      && forall e :: e in reply.top ==>
           e.key in Keys(semantic) && LastScore(semantic, e.key).Some? && e.val == SemanticWeight * LastScore(semantic, e.key).value
    ensures engineReady && !run.Probabilities? ==> TopOfMerge(SemanticResults(KnowledgeDepartments, hits), [], reply.top)
    ensures engineReady && run.Probabilities? ==>
      HybridRanking(SemanticResults(KnowledgeDepartments, hits), run.classes, run.probs, reply.top)
  {
    if !engineReady {
      return HybridReply(ErrorSystem, []);
    }
    var semantic := SemanticResults(KnowledgeDepartments, hits);
    var top;
    if run.Probabilities? {
      top := RankHybrid(semantic, run.classes, run.probs);
    } else {
      top := RankSemantic(semantic);
    }
    reply := HybridReply(if run.NoClassifier? then SemanticSystem else HybridSystem, top);
  }

  /** The filler `{"Department": "None", "Final Confidence (%)": 0.0}`. */
  const NonePad: Scored := Pair("None", 0.0)

  /** The list after padding: the original entries, then fillers up to three entries. */
  function Padded(s: seq<Scored>): (r: seq<Scored>)
    ensures |r| == if |s| >= 3 then |s| else 3
    ensures r[..|s|] == s
    ensures forall i :: |s| <= i < |r| ==> r[i] == NonePad
    decreases 3 - |s|
  {
    if |s| >= 3 then s else Padded(s + [NonePad])
  }

  /** The recommendation list both the reply and the log refer to. */
  class RecommendationList {
    var items: seq<Scored>

    constructor(items: seq<Scored>)
      ensures this.items == items
    {
      this.items := items;
    }

    /** `while len(top3) < 3: top3.append(filler)` */
    method PadToThree()
      modifies this
      ensures items == Padded(old(items))
    {
      while |items| < 3
        invariant Padded(items) == Padded(old(items))
        decreases 3 - |items|
      {
        items := items + [NonePad];
      }
    }
  }

  /** A stored PredictionLog row. */
  datatype PredictionLog = PredictionLog(
    symptoms: string,
    department1: string, confidence1: real,
    department2: string, confidence2: real,
    department3: string, confidence3: real,
    emergency: bool)

  function LogOf(symptoms: string, top: seq<Scored>): PredictionLog
    requires |top| >= 3
  {
    PredictionLog(symptoms, top[0].key, top[0].val, top[1].key, top[1].val, top[2].key, top[2].val, false)
  }

  /** The row as the analytics read it back. */
  function AsLogRow(log: PredictionLog): Analytics.LogRow {
    Analytics.LogRow(Some(log.department1), Some(log.department2), Some(log.department3), log.emergency)
  }

  /** The /predict reply. */
  datatype PredictReply =
    | EmergencyReply
    | Recommendations(system: string, top: seq<Scored>)

  /**
   * POST /predict: the emergency guard answers alone; otherwise the hybrid
   * result is padded and logged when the database session opens (an
   * exception before the padding leaves the list as it was), and the reply
   * returns the same list, padding included.
   */
  method Predict(emergency: bool, symptoms: string, result: HybridReply, sessionOpens: bool)
    returns (reply: PredictReply, log: Option<PredictionLog>)
    ensures emergency ==> reply == EmergencyReply && log.None?
    ensures !emergency ==> reply.Recommendations? && reply.system == result.system
    ensures !emergency && sessionOpens ==> reply.top == Padded(result.top) && log == Some(LogOf(symptoms, reply.top))
    ensures !emergency && !sessionOpens ==> reply.top == result.top && log.None?
    ensures !emergency ==> |reply.top| >= |result.top| && reply.top[..|result.top|] == result.top
  {
    if emergency {
      return EmergencyReply, None;
    }
    var top3 := new RecommendationList(result.top);
    log := None;
    if sessionOpens {
      top3.PadToThree();
      log := Some(LogOf(symptoms, top3.items));
    }
    reply := Recommendations(result.system, top3.items);
  }

  /**
   * The rows /predict writes are never flagged, so the dashboard's
   * emergency count over them stays 0 (the emergency reply logs nothing).
   */
  lemma PredictedRowsNoEmergency(calls: seq<(string, seq<Scored>)>)
    requires forall i :: 0 <= i < |calls| ==> |calls[i].1| >= 3
    ensures Analytics.Emergencies(seq(|calls|, i requires 0 <= i < |calls| => AsLogRow(LogOf(calls[i].0, calls[i].1)))) == 0
  {
    var logs := seq(|calls|, i requires 0 <= i < |calls| => AsLogRow(LogOf(calls[i].0, calls[i].1)));
    Analytics.NoFlaggedRows(logs);
  }

  /** The key at position i as a list, empty past the end. */
  function KeyAt(top: seq<Scored>, i: nat): seq<string> {
    if i < |top| then [top[i].key] else []
  }

  lemma KeysUpToThree(top: seq<Scored>)
    requires |top| <= 3
    ensures Keys(top) == KeyAt(top, 0) + KeyAt(top, 1) + KeyAt(top, 2)
  {
    if |top| == 1 {
      assert Keys(top) == [top[0].key];
    } else if |top| == 2 {
      assert Keys(top) == [top[0].key, top[1].key];
    } else if |top| == 3 {
      assert Keys(top) == [top[0].key, top[1].key, top[2].key];
    }
  }

  /** Each slot of a padded list counts its own department, or nothing when it is a filler. */
  lemma PaddedSlotCounted(top: seq<Scored>, i: nat)
    requires |top| <= 3 && i < 3
    requires forall e :: e in top ==> e.key != "" && e.key != "None"
    ensures Analytics.CountedSlot(Some(Padded(top)[i].key)) == KeyAt(top, i)
  {
    var padded := Padded(top);
    if i < |top| {
      assert padded[..|top|][i] == top[i];
      assert top[i] in top;
    }
  }

  /**
   * A logged prediction contributes to the analytics exactly its real
   * departments: the fillers are never counted.
   */
  lemma LoggedDepartmentsCounted(symptoms: string, top: seq<Scored>)
    requires |top| <= 3
    requires forall e :: e in top ==> e.key != "" && e.key != "None"
    ensures Analytics.Slots([AsLogRow(LogOf(symptoms, Padded(top)))]) == Keys(top)
  {
    var padded := Padded(top);
    var row := AsLogRow(LogOf(symptoms, padded));
    Analytics.SlotsOfOneRow(row);
    PaddedSlotCounted(top, 0);
    PaddedSlotCounted(top, 1);
    PaddedSlotCounted(top, 2);
    KeysUpToThree(top);
  }
}
