/**
 * main_combined.py GET /analytics: totals over the prediction log and a
 * counter of how often each department fills one of a row's three
 * department slots, "None" and empty slots excluded.
 */
module Analytics {
  import opened Wrappers
  import opened PyDict

  /** One stored PredictionLog row, as far as the analytics read it; a slot may be NULL. */
  datatype LogRow = LogRow(department1: Option<string>, department2: Option<string>, department3: Option<string>, emergency: bool)

  /** `dept and dept != "None"` */
  predicate Counted(dept: Option<string>) {
    dept.Some? && dept.value != "" && dept.value != "None"
  }

  /** The counted departments of one slot. */
  function CountedSlot(dept: Option<string>): (r: seq<string>)
    ensures |r| <= 1 && forall d :: d in r ==> d != "" && d != "None"
  {
    if Counted(dept) then [dept.value] else []
  }

  /** The counted slots among ds, in order. */
  function CountedOf(ds: seq<Option<string>>): (r: seq<string>)
    ensures |r| <= |ds|
    ensures forall d :: d in r ==> d != "" && d != "None"
  {
    if ds == [] then []
    else CountedOf(ds[..|ds| - 1]) + CountedSlot(ds[|ds| - 1])
  }

  function SlotsOf(log: LogRow): seq<Option<string>> {
    [log.department1, log.department2, log.department3]
  }

  /** Every counted department slot of the logs, row by row. */
  function Slots(logs: seq<LogRow>): (r: seq<string>)
    ensures |r| <= 3 * |logs|
    ensures forall d :: d in r ==> d != "" && d != "None"
  {
    if logs == [] then []
    else Slots(logs[..|logs| - 1]) + CountedOf(SlotsOf(logs[|logs| - 1]))
  }

  lemma CountedOfThree(a: Option<string>, b: Option<string>, c: Option<string>)
    ensures CountedOf([a, b, c]) == CountedSlot(a) + CountedSlot(b) + CountedSlot(c)
  {
    assert [a][..0] == [];
    assert CountedOf([a]) == CountedSlot(a);
    assert [a, b][..1] == [a];
    assert CountedOf([a, b]) == CountedSlot(a) + CountedSlot(b);
    assert [a, b, c][..2] == [a, b];
  }

  /** The counted departments of a single row. */
  lemma SlotsOfOneRow(log: LogRow)
    ensures Slots([log]) == CountedSlot(log.department1) + CountedSlot(log.department2) + CountedSlot(log.department3)
  {
    assert [log][..0] == [];
    CountedOfThree(log.department1, log.department2, log.department3);
  }

  /** The counter has counted exactly the departments of seen. */
  ghost predicate Counts(counter: seq<Pair<nat>>, seen: seq<string>) {
    && DistinctKeys(counter)
    && Keys(counter) == FirstOccurrences(seen)
    && (forall d :: GetOr0(counter, d) == multiset(seen)[d])
    && Total(counter) == |seen|
  }

  /** `department_counter[dept] = department_counter.get(dept, 0) + 1` counts one more department. */
  lemma CountStep(counter: seq<Pair<nat>>, seen: seq<string>, d: string)
    requires Counts(counter, seen)
    ensures Counts(Put(counter, d, GetOr0(counter, d) + 1), seen + [d])
  {
    var n := GetOr0(counter, d) + 1;
    var next := Put(counter, d, n);
    assert DistinctKeys(next) by {
      PutDistinct(counter, d, n);
    }
    assert Keys(next) == FirstOccurrences(seen + [d]) by {
      FirstOccurrencesSame(seen);
      FirstOccurrencesSnoc(seen, d);
      PutKeys(counter, d, n);
    }
    assert Total(next) == |seen + [d]| by {
      PutTotal(counter, d, n);
    }
    forall e ensures GetOr0(next, e) == multiset(seen + [d])[e] {
      PutGet(counter, d, n, e);
    }
  }

  /** The counter after one slot is looked at. */
  function Bump(counter: seq<Pair<nat>>, dept: Option<string>): seq<Pair<nat>> {
    if Counted(dept) then Put(counter, dept.value, GetOr0(counter, dept.value) + 1) else counter
  }

  lemma BumpCounts(counter: seq<Pair<nat>>, seen: seq<string>, slots: seq<Option<string>>, j: nat)
    requires j < |slots| && Counts(counter, seen + CountedOf(slots[..j]))
    ensures Counts(Bump(counter, slots[j]), seen + CountedOf(slots[..j + 1]))
  {
    var before := seen + CountedOf(slots[..j]);
    assert CountedOf(slots[..j + 1]) == CountedOf(slots[..j]) + CountedSlot(slots[j]) by {
      assert slots[..j + 1][..j] == slots[..j];
    }
    if Counted(slots[j]) {
      assert seen + CountedOf(slots[..j + 1]) == before + [slots[j].value];
      CountStep(counter, before, slots[j].value);
    } else {
      assert seen + CountedOf(slots[..j + 1]) == before;
    }
  }

  /** The counter after the slots are looked at, one after the other. */
  function BumpAll(counter: seq<Pair<nat>>, slots: seq<Option<string>>): seq<Pair<nat>> {
    if slots == [] then counter
    else Bump(BumpAll(counter, slots[..|slots| - 1]), slots[|slots| - 1])
  }

  /** Looking at the slots counts exactly their counted departments. */
  lemma {:induction false} BumpAllCounts(counter: seq<Pair<nat>>, seen: seq<string>, slots: seq<Option<string>>)
    requires Counts(counter, seen)
    ensures Counts(BumpAll(counter, slots), seen + CountedOf(slots))
  {
    if slots == [] {
      assert seen + CountedOf(slots) == seen;
    } else {
      var j := |slots| - 1;
      BumpAllCounts(counter, seen, slots[..j]);
      BumpCounts(BumpAll(counter, slots[..j]), seen, slots, j);
      assert slots[..j + 1] == slots;
    }
  }

  /** The inner loop over one row's three slots. */
  method CountSlots(counter: seq<Pair<nat>>, slots: seq<Option<string>>) returns (next: seq<Pair<nat>>)
    ensures next == BumpAll(counter, slots)
  {
    next := counter;
    assert slots[..0] == [];
    for j := 0 to |slots|
      invariant next == BumpAll(counter, slots[..j])
    {
      var dept := slots[j];
      assert slots[..j + 1][..j] == slots[..j];
      if Counted(dept) {
        next := Put(next, dept.value, GetOr0(next, dept.value) + 1);
      }
    }
    assert slots[..|slots|] == slots;
  }

  lemma SlotsStep(logs: seq<LogRow>, i: nat)
    requires i < |logs|
    ensures Slots(logs[..i + 1]) == Slots(logs[..i]) + CountedOf(SlotsOf(logs[i]))
  {
    assert logs[..i + 1][..i] == logs[..i];
  }

  /** The counter loop over the logs and their three slots. */
  method DepartmentFrequency(logs: seq<LogRow>) returns (counter: seq<Pair<nat>>)
    ensures DistinctKeys(counter)
    ensures Keys(counter) == FirstOccurrences(Slots(logs))
    ensures forall d :: GetOr0(counter, d) == multiset(Slots(logs))[d]
    ensures Total(counter) == |Slots(logs)| <= 3 * |logs|
  {
    counter := [];
    assert logs[..0] == [];
    for i := 0 to |logs|
      invariant Counts(counter, Slots(logs[..i]))
    {
      SlotsStep(logs, i);
      BumpAllCounts(counter, Slots(logs[..i]), SlotsOf(logs[i]));
      counter := CountSlots(counter, SlotsOf(logs[i]));
    }
    assert logs[..|logs|] == logs;
  }

  /** The reply: total rows, emergency rows and the department counter. */
  datatype AnalyticsReply = AnalyticsReply(total: nat, emergencies: nat, frequency: seq<Pair<nat>>)

  function Emergencies(logs: seq<LogRow>): (n: nat)
    ensures n <= |logs|
  {
    if logs == [] then 0 else Emergencies(logs[1..]) + (if logs[0].emergency then 1 else 0)
  }

  /** Rows none of which is flagged give an emergency count of 0. */
  lemma {:induction false} NoFlaggedRows(logs: seq<LogRow>)
    requires forall i :: 0 <= i < |logs| ==> !logs[i].emergency
    ensures Emergencies(logs) == 0
  {
    if logs != [] {
      NoFlaggedRows(logs[1..]);
    }
  }

  method AnalyticsEndpoint(logs: seq<LogRow>) returns (reply: AnalyticsReply)
    ensures reply.total == |logs| && reply.emergencies == Emergencies(logs) <= |logs|
    ensures forall d :: GetOr0(reply.frequency, d) == multiset(Slots(logs))[d]
    ensures forall d :: d in Keys(reply.frequency) ==> d != "None" && d != "" && GetOr0(reply.frequency, d) > 0
    ensures Total(reply.frequency) <= 3 * |logs|
  {
    var counter := DepartmentFrequency(logs);
    FirstOccurrencesSame(Slots(logs));
    reply := AnalyticsReply(|logs|, Emergencies(logs), counter);
  }

  /** Padding entries ("None") never reach the counter: a row padded from one recommendation counts once. */
  lemma PaddingNotCounted(d: string)
    requires d != "" && d != "None"
    ensures Slots([LogRow(Some(d), Some("None"), Some("None"), false)]) == [d]
  {
    var log := LogRow(Some(d), Some("None"), Some("None"), false);
    var ds := SlotsOf(log);
    assert ds[..2][..1] == ds[..1] && ds[..1][..0] == [];
    assert CountedOf(ds[..1]) == [d];
    assert CountedOf(ds[..2]) == [d];
    assert ds[..2] == ds[..|ds| - 1];
    assert CountedOf(ds) == [d];
    assert [log][..0] == [];
  }
}
