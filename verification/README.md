# Medical-Analyser triage rules in Dafny

This project models the decision logic of the Medical-Analyser triage
back end and proves properties of it. The back end is a set of Python
scripts and a FastAPI service. The machine-learning parts (sentence
embeddings, FAISS search, the scikit-learn classifier and risk model, the
language-model calls) stay opaque: they are function-typed parameters or
plain inputs. What is modelled is the logic around them:

- **Risk tiers** (`Inference`). `assign_risk_rule` has a High cascade,
  then a Medium cascade, otherwise Low. `predict_risk` forces High on
  extreme vitals, falls back to the rule when a model file is missing,
  and otherwise feeds the model the mean arterial pressure. The module
  also models the keyword routing of `assign_department`, with its random
  fallback as a nondeterministic choice, and the batch loop of
  inference.py.
- **test_inference.py** (`TestInference`). The same override and
  fallback, plus the loop that aligns a one-row frame to the training
  columns and the fixed sample-patient check. Its copies of
  `assign_risk_rule` and `assign_department` are the same text as
  inference.py's. Both scripts therefore use the single definition in
  `Inference`, so the two are equal on every input by construction.
- **Synthetic data** (`SyntheticPatients`). The generation loop draws
  every random value as a nondeterministic choice in its range. Each row
  is labelled by the risk rule without the heart-rate test and by the
  keyword routing with a four-department fallback.
- **Safety override** (`SafetyOverride`). `predict_risk_logic` in
  main_combined.py checks critical vitals (a value that is `None` or `0`
  is skipped), then critical keywords, then an opaque embedding flag,
  before the triage model is consulted.
- **Hybrid ranking** (`HybridMerge`, `ModelResources`,
  `PredictEndpoint`). A dict holds 0.6 × the semantic confidence and
  adds 0.4 × the ML confidence of the classifier's three most probable
  classes. It is sorted by score, descending and stably, and cut to
  three. model.py adds the load-once resource guard (a class with the
  module's globals as fields). POST /predict pads the list to three in
  place and logs it.
- **Analytics** (`Analytics`). GET /analytics counts departments over
  the three slots of every logged prediction.
- **Nearest hospital** (`NearestHospital`). GET /nearest-hospital takes
  the first Google result when there is one, otherwise the closest
  Overpass element; the distance function is uninterpreted.
- **Small endpoint logic** (`ApiKey`, `ChatOcr`). The `API_KEY` file
  parse, the `/chat` message coalescing and status codes, and the
  `/ocr` dispatch by file extension.

Python dicts are modelled as insertion-ordered sequences of pairs
(`PyDict`). String methods are in `PyStr`: case folding covers ASCII
letters, and `strip()` removes what `str.isspace()` accepts. Floats are
`real`.

## Model

| member | source | states |
|---|---|---|
| Inference.RiskRuleTiers | inference.py:86-97 | The rule answers High iff systolic > 140, diastolic > 90, temperature > 38.0 or heart rate > 140. It answers Medium iff not High and systolic > 130, diastolic > 85 or temperature > 37.5. It answers Low iff none of these holds. |
| Inference.RiskRuleMonotone | inference.py:92-97 | Raising any vitals never lowers the tier. |
| Inference.MeanArterialPressure | inference.py:56 | (systolic + 2·diastolic)/3 lies between the smaller and the larger of the two pressures, whichever is larger. When diastolic < systolic it lies strictly between them, and when they are equal it equals both. |
| Inference.OverrideIsHigh | inference.py:44-45 | Temperature > 103 or heart rate > 140 gives High, whatever model and encoder are loaded. |
| Inference.FallbackIsRule | inference.py:50-51 | With the model or the encoder missing, the prediction equals the rule on every patient. The override agrees with the rule there. |
| Inference.ModelDecides | inference.py:56-84 | With both artifacts and no override, the answer is the model's on [age, mean arterial pressure, heart rate, temperature] and the encoded categories. |
| Inference.AssignDepartment | inference.py:99-109 | The department is the keyword cascade's when a keyword matches, else one of General Medicine, Emergency or Neurology. |
| Inference.KeywordPrecedence | inference.py:101-107 | Cardiology iff chest/heart. Neurology iff headache/dizziness without chest/heart. General Medicine iff fever/cough without the earlier keywords. No keyword iff none of them. All tests are on the lower-cased text. |
| Inference.CardiacKeywordWins | inference.py:101-103 | With chest or heart present, Cardiology is the only possible outcome. |
| Inference.FallbackOutcomes | inference.py:108-109 | With no keyword, each of the three fallback departments is possible. |
| Inference.RoutingIgnoresCase | inference.py:101 | Texts equal up to letter case are routed alike. |
| Inference.RunInference | inference.py:119-132 | One risk and one department per row, in row order. Each risk is `predict_risk` of its row, and each department is an outcome of its row's routing. |
| TestInference.AddMissingColumns | test_inference.py:50-52 | Every training column ends up present. Existing columns keep their value; missing training columns get 0; no other column is added. |
| TestInference.AlignToTraining | test_inference.py:49-55 | After alignment and projection, the keys are exactly the training columns in training order. Each value is the row's own, or 0 when the row lacked it. |
| TestInference.PredictRisk | test_inference.py:31-58 | High on temperature > 103 or heart rate > 140. Otherwise the rule when the model or the columns are missing, else the model on the aligned row. |
| TestInference.SampleRouting | test_inference.py:88-101 | "Chest pain" is routed to Cardiology. |
| TestInference.CheckSamplePatient | test_inference.py:88-101 | The sample patient is High and Cardiology, whatever artifacts are loaded. |
| SyntheticPatients.SymptomNamesClean | generate_synthetic_patients_large.py:6 | The symptom names are pairwise distinct and hold no comma. |
| SyntheticPatients.JoinedDrawIsValid | generate_synthetic_patients_large.py:15 | Joining one to three names drawn at distinct indices gives a string that splits back into one to three distinct listed names. |
| SyntheticPatients.DrawSymptoms | generate_synthetic_patients_large.py:15 | Every draw is a comma-join of one to three distinct listed symptoms. |
| SyntheticPatients.GenerateRecord | generate_synthetic_patients_large.py:13-40 | Every field lies in its drawn range, and the temperature is in tenths. The risk label is the generator's cascade, and the department is a routing outcome with the four-department fallback. |
| SyntheticPatients.GenerateDataset | generate_synthetic_patients_large.py:10-40 | n rows, numbered from 1, each well formed. |
| SyntheticPatients.LabelIsRiskRule | generate_synthetic_patients_large.py:22-27 | With heart rate ≤ 140, the generator's label equals `assign_risk_rule`. |
| SyntheticPatients.GeneratedRowsAgreeWithRule | generate_synthetic_patients_large.py:18-27 | On every generated row the label equals the rule and the override never fires. Without artifacts, `predict_risk` reproduces the label. |
| SyntheticPatients.NauseaMatchesNoKeyword | generate_synthetic_patients_large.py:29-36 | "Nausea" matches none of the six keywords. |
| SyntheticPatients.NauseaMayBeLabelledCardiology | generate_synthetic_patients_large.py:36-37 | A row with only Nausea is a valid draw and may be labelled Cardiology, unlike in inference.py. |
| SafetyOverride.PredictRiskLogic | main_combined.py:282-341 | "High Risk" iff a flag is set. With no flag and the model or encoder missing, "Model not loaded". A model answer needs both artifacts and both pressures. |
| SafetyOverride.CriticalVitalsIffOutOfBand | main_combined.py:286-289 | The vitals flag is set iff some given, non-zero vital leaves its band: heart rate 40..120, systolic 90..180, temperature ≤ 39.5. |
| SafetyOverride.FalsyVitalsNeverTrigger | main_combined.py:287-289 | Vitals that are None or 0 never set the flag. |
| SafetyOverride.DefaultsAreCalm | main_combined.py:114-122 | The declared default vitals set no flag, so a default request is overridden only by its words. |
| SafetyOverride.KeywordsIgnoreCase | main_combined.py:298 | The keyword flag ignores letter case. |
| SafetyOverride.ChestPainIsHighRisk | main_combined.py:293-305 | "Sudden CHEST PAIN" answers "High Risk" whatever the vitals and models. |
| SafetyOverride.MissingPressureIsError | main_combined.py:312-341 | Without a flag and with both artifacts loaded, a missing blood pressure answers "Error". |
| SafetyOverride.ModelSeesMeanPressure | main_combined.py:312-338 | Otherwise the answer is the model's on the row carrying the mean arterial pressure, for any pair of pressures (none is validated). The mean lies between the smaller and the larger pressure. |
| ApiKey.ParseLine | main_combined.py:30-33 | A line without `API_KEY=` is its own key. A line with it yields a key without '='. |
| ApiKey.KeyBetweenEquals | main_combined.py:30-31 | With the marker present, the key is the text between the first '=' and the next '=' (or the end). |
| ApiKey.KeyLine | main_combined.py:30-31 | `API_KEY=<k>` yields k when k has no '='. |
| ApiKey.KeyFile | main_combined.py:29-31 | A file `API_KEY=<k>` with k not ending in white space yields k after stripping. |
| ApiKey.LoadApiKey | main_combined.py:26-44 | The key comes from `API_KEY` when it exists, else from `../API_KEY`. It is None iff neither exists. |
| ChatOcr.FirstTruthy | main_combined.py:586 | The result is Some iff some field is non-empty. It is then the first non-empty field. |
| ChatOcr.Chat | main_combined.py:576-635 | 503 iff no client. 422 iff a client and no non-empty field. 500 iff the language-model call on the coalesced message raised. 502 iff it returned empty or missing content. Otherwise the JSON reply is that content stripped. |
| ChatOcr.MessageFieldFirst | main_combined.py:586 | A non-empty `message` wins over the other fields. |
| ChatOcr.EmptyFieldsSkipped | main_combined.py:586-589 | Empty `message` and `prompt` fall through to `text`. |
| ChatOcr.UploadKindOf | main_combined.py:469-492 | PDF iff the lower-cased name ends in .pdf. Image iff it does not and ends in .png, .jpg or .jpeg. |
| ChatOcr.OcrAsWritten | main_combined.py:465-521 | 503 without a client. An unsupported type answers 500. |
| ChatOcr.OcrUnsupportedAnswers500 | main_combined.py:517-521 | "notes.txt" is unsupported. The code as written answers 500 for it; the corrected dispatch answers 400. |
| ChatOcr.Ocr | main_combined.py:465-521 | 503 without a client. With a client, 400 iff the type is unsupported. |
| ChatOcr.OcrAgreesOnSupported | main_combined.py:471-521 | On supported types, and without a client, the two dispatches agree. |
| ChatOcr.UpperCaseExtension | main_combined.py:469-472 | "SCAN.PDF" is dispatched as a PDF. |
| PyDict.PutGet | main_combined.py:403 | After `d[k] = v`, k maps to v and every other key keeps its value. |
| PyDict.PutKeys | main_combined.py:403 | Assignment keeps the key order and appends a new key at the end. |
| HybridMerge.LastScoreSome | main_combined.py:402-403 | A department has a semantic score iff it is listed, with the last listing winning. |
| HybridMerge.SemanticStep | main_combined.py:402-403 | One more semantic item keeps the dict equal to 0.6 × the last score of each listed department, keys in first-seen order. |
| HybridMerge.MlStep | main_combined.py:406-410 | One more ML item keeps the dict equal to the merged score of each department listed in either list. |
| HybridMerge.MergeScores | main_combined.py:399-410 | After both loops, the keys are the departments of both lists in first-seen order, without repeats. Each one maps to 0.6·semantic + 0.4·(sum of its ML confidences). |
| HybridMerge.InsertPermutes | main_combined.py:419 | Insertion adds exactly the inserted item. |
| HybridMerge.InsertSorted | main_combined.py:419 | Insertion into a score-descending list keeps it descending. |
| HybridMerge.InsertStable | main_combined.py:419 | The inserted item goes before its ties. |
| HybridMerge.SortSorted | main_combined.py:419 | The sort is non-increasing in score. |
| HybridMerge.SortPermutes | main_combined.py:419 | The sort is a permutation of its input. |
| HybridMerge.SortStable | main_combined.py:419 | For every score, the items with that score keep their input order. |
| HybridMerge.SortCorrect | main_combined.py:419 | Sorted, a permutation and stable together. |
| HybridMerge.SortedPrefix | main_combined.py:419 | A prefix of the sort is sorted and drawn from the input. No item left out beats one kept, and ties keep their input order. |
| HybridMerge.Top3 | main_combined.py:419 | `[:3]` of the sort keeps min(3, n) items, non-increasing, drawn from the input. No item left out beats one kept, and the earliest ties are kept. |
| HybridMerge.TopScores | main_combined.py:419-426 | Each kept department is listed and carries its merged score. |
| HybridMerge.TopDistinct | main_combined.py:419-426 | No department is kept twice. |
| HybridMerge.TopDominates | main_combined.py:419-426 | No department left out has a higher merged score than one kept. |
| HybridMerge.TopOfMerged | main_combined.py:419-426 | The top three of the merged dict: min(3, number of departments) entries, sorted, distinct, each with its merged score, none beaten by one left out. |
| HybridMerge.TopIndices | model.py:86 | `argsort[::-1][:k]` returns min(k, n) distinct indices, highest probability first. Every index left out has a probability no higher than any chosen one. |
| HybridMerge.MaxPosition | model.py:86 | The first position of a highest probability among the remaining indices. |
| HybridMerge.SemanticResults | main_combined.py:365-370 | One item per hit, in hit order, each naming a knowledge department. |
| HybridMerge.MlItems | main_combined.py:390-394 | One item per chosen class, naming a classifier class. |
| HybridMerge.HybridTop3 | main_combined.py:399-426 | The merge followed by the top three. |
| HybridMerge.RankHybrid | main_combined.py:384-426 | With probabilities: at most three, sorted, distinct, each from the semantic list or the classes. For some top-three choice of classes, it is exactly the top three of the dict merged from the semantic items and those classes' items. It has min(3, number of departments) entries, each with its merged score, and none is beaten by a department left out. |
| HybridMerge.RankSemantic | main_combined.py:399-426 | With no ML items: exactly the top three of the dict merged from the semantic items, in stable-sort order. Each kept department is worth 0.6 × its last semantic score, and none left out scores higher. |
| ModelResources.Recommend | model.py:84-109 | Without a classifier, the semantic results unchanged under "Semantic Knowledge Engine". With one, "Hybrid Semantic + ML Engine" and exactly the top three of the merge of the semantic results with the classifier's three most probable classes. |
| ModelResources.Resources.constructor | model.py:13-16 | All four globals start as None. |
| ModelResources.Resources.LoadResources | model.py:19-65 | Once the embedder is set, nothing changes. Otherwise the globals are assigned in order: names, embedder, index, classifier. A step that raises leaves the later ones as they were, and the call raises. |
| ModelResources.Resources.HybridPredict | model.py:68-109 | Loads once. It raises when that load raises or the index is missing. Otherwise it answers the semantic results, or the top three of their merge with the classifier's items. |
| ModelResources.FailedLoadIsPermanent | model.py:19-73 | A first load that fails after setting the embedder but before the index makes every later prediction raise. |
| ModelResources.FailedClassifierIsSilent | model.py:19-109 | A classifier whose unpickling raises is never retried: later predictions are semantic-only. |
| ModelResources.LoadTwice | model.py:22-23 | A second load with a different environment leaves the first load's resources. |
| PredictEndpoint.HybridPredictLogic | main_combined.py:353-432 | "Error" with nothing when the engine is missing. The label follows whether a classifier is loaded. At most three sorted, distinct departments. With probabilities, exactly the top three of the merge with the classifier's three most probable classes; otherwise exactly the top three, in stable-sort order, of the dict merged from the semantic items alone, each at 0.6 × its score. |
| PredictEndpoint.Padded | main_combined.py:705-706 | Length ≥ 3, the original entries as prefix, the rest ("None", 0.0). |
| PredictEndpoint.RecommendationList.constructor | main_combined.py:703 | The list holds the result's recommendations. |
| PredictEndpoint.RecommendationList.PadToThree | main_combined.py:705-706 | The list in place becomes its padded form. |
| PredictEndpoint.Predict | main_combined.py:686-730 | An emergency answers alone and logs nothing. Otherwise the reply returns the same list that was padded and logged; without a session the list is unpadded and nothing is logged. |
| PredictEndpoint.PaddedSlotCounted | main_combined.py:703-717 | A padded slot counts its department, or nothing when it is a filler. |
| PredictEndpoint.PredictedRowsNoEmergency | main_combined.py:708-738 | Every row /predict logs has `emergency=False`, so the dashboard's emergency count over such rows is 0. |
| PredictEndpoint.LoggedDepartmentsCounted | main_combined.py:703-746 | A logged prediction contributes exactly its real departments to the analytics; the fillers never count. |
| Analytics.CountedSlot | main_combined.py:745 | A slot counts at most one department, never "" or "None". |
| Analytics.Slots | main_combined.py:742-745 | At most three counted departments per row, never "" or "None". |
| Analytics.SlotsOfOneRow | main_combined.py:744-745 | A row's counted departments are those of its three slots in order. |
| Analytics.CountStep | main_combined.py:746 | `counter[d] = counter.get(d, 0) + 1` counts one more d. The keys stay distinct in first-seen order, and the total grows by one. |
| Analytics.BumpCounts | main_combined.py:744-746 | Looking at one slot counts it exactly when it is counted. |
| Analytics.BumpAllCounts | main_combined.py:744-746 | Looking at a row's slots counts exactly its counted departments. |
| Analytics.CountSlots | main_combined.py:744-746 | The inner loop computes the fold of the slot step. |
| Analytics.DepartmentFrequency | main_combined.py:741-746 | Each department's count is its number of occurrences in the slots. The keys are the counted departments in first-seen order. The counts sum to at most 3 × the number of rows. |
| Analytics.Emergencies | main_combined.py:738 | The emergency count is at most the number of rows. |
| Analytics.NoFlaggedRows | main_combined.py:738 | Rows none of which is flagged count no emergency. |
| Analytics.AnalyticsEndpoint | main_combined.py:735-753 | The total is the number of rows. Counts are occurrences; no key is "" or "None"; every key counts at least one; the sum is at most 3 × rows. |
| Analytics.PaddingNotCounted | main_combined.py:745 | A row padded from one recommendation counts only that department. |
| NearestHospital.Closest | main_combined.py:828-842 | None iff no element has coordinates. Otherwise the first element at the least distance, with that distance. |
| NearestHospital.NearestHospitalEndpoint | main_combined.py:756-861 | The first Google result when the key is set and the search answers OK with a place id. Otherwise an Overpass error becomes a server error, and the fixed messages cover a non-200 status, no elements and no coordinates. Else the first closest element with its tags. |
| NearestHospital.FirstClosestUnique | main_combined.py:840-842 | The first closest element is unique: on ties the earliest wins. |

## Left out

- ASCII only: `lower()` maps only ASCII letters; Unicode case mapping is not modelled. `strip()` removes every character `str.isspace()` accepts.
- Printing and logging (the warnings, the progress lines, "High Risk detected", the DB-failure message) have no effect on results and are not modelled.
- Opaque components: the sentence embedder, FAISS search, `check_emergency`'s similarity test, the triage model and encoder, the scikit-learn classifier and the Groq/LLM calls are opaque. They are parameters or booleans.
- Index hits: the FAISS hits are assumed to name stored vectors (`HitsInRange`). FAISS's -1 "no result" index is not modelled.
- Float arithmetic: `haversine` is an uninterpreted function. The score normalisation 1/(1+d), `round(…, 2)`, NaN and infinities are not modelled. Confidences and distances are `real`, and the Overpass loop's initial infinity is None.
- I/O: SQLAlchemy sessions, CSV reading and writing, `pd.get_dummies`, and file reads other than a missing `API_KEY` file are not modelled. The one-hot frame is an input.
- Ties in `np.argsort`: numpy's order among equal probabilities is not fixed. `HybridMerge.TopIndices` promises any highest-first choice, not numpy's.
- "Similar Past Cases" in `hybrid_predict_logic` (main_combined.py:372-382) only echoes the case index's hits into the reply, and is not modelled.
- POST /nearest-hospital (main_combined.py:523), POST /triage (main_combined.py:126), /health, /stt and /explain are thin wrappers around the modelled logic or an external service, and are not modelled.
- main2.py, test_key.py and train_classifier.py are not part of this model.
- The department knowledge texts are not modelled; only their names and their order are kept.
- PredictEndpoint.Predict: a failure of `db.add` or `db.commit` after the padding is not modelled. A session that opens pads and logs.
- NearestHospital.NearestHospitalEndpoint: a Google result without coordinates, which raises and falls back to Overpass, is not modelled. Result coordinates are taken as present.
- ModelResources.Resources.LoadResources: an index built but left empty by a failing `add` (model.py:58-59) is modelled as an index that stays None. Searching an empty FAISS index answers index -1 and is not modelled.
- Analytics.AnalyticsEndpoint: the three queries at main_combined.py:737-739 are modelled as reading one snapshot of the log. A row written between them, which makes the total, the emergency count and the frequencies disagree, is not modelled.
- Exceptions from the risk model or the encoder in inference.py and test_inference.py are not modelled. Neither script catches them, so one ends the run; those models are total functions to a tier here. main_combined.py catches them, and `SafetyOverride` models that failure as "Error".
- SyntheticPatients.GenerateRecord: `round(random.uniform(36.0, 40.0), 1)` is drawn as a whole number of tenths in 36.0..40.0. Floating-point rounding is not modelled.

## Findings

| source | as written | input that shows it | evidently intended | confidence | as-written member | corrected member |
|---|---|---|---|---|---|---|
| main_combined.py:517-521 | The 400 "Unsupported file type" HTTPException is raised inside the `try` whose `except Exception` turns it into a 500 "OCR failed". | an upload named "notes.txt" | an unsupported file type answers 400 | not executed | ChatOcr.OcrAsWritten, ChatOcr.OcrUnsupportedAnswers500 | ChatOcr.Ocr |
