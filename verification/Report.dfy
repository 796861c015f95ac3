/** The totals of an evaluation report and its class rows (`compute_metrics`, `_class_row`). */
module Report {
  import opened Wrappers
  import opened PersonState
  import opened Sampling

  datatype Record = Record(groundTruth: string, predicted: Option<Classification>, error: Option<string>)

  const LIVE_LABEL := "LIVE"

  const LABEL_TO_CLASSIFICATION: map<string, Classification> := map[
    LIVE_LABEL := LIVE,
    "SCREEN_MOBILE" := SCREEN_REPLAY, "SCREEN_TABLET" := SCREEN_REPLAY, "SCREEN_LAPTOP" := SCREEN_REPLAY,
    "SCREEN_MONITOR" := SCREEN_REPLAY, "SCREEN_DISPLAY" := SCREEN_REPLAY,
    "PRINT_PHOTO" := PRINT_ATTACK, "PRINT_NEWSPAPER" := PRINT_ATTACK, "PRINT_MAGAZINE" := PRINT_ATTACK
  ]

  predicate IsError(r: Record) {
    r.error.Some?
  }

  predicate IsUncertain(r: Record) {
    !IsError(r) && r.predicted == Some(UNCERTAIN_CLASS)
  }

  predicate IsConclusive(r: Record) {
    !IsError(r) && r.predicted != Some(UNCERTAIN_CLASS)
  }

  predicate IsCorrect(r: Record) {
    && !IsError(r) && !IsUncertain(r) && r.predicted.Some?
    && r.groundTruth in LABEL_TO_CLASSIFICATION && r.predicted.value == LABEL_TO_CLASSIFICATION[r.groundTruth]
  }

  /** Judging a conclusive record of a label outside the table is a key error. */
  predicate Classifiable(r: Record) {
    IsError(r) || IsUncertain(r) || r.predicted.None? || r.groundTruth in LABEL_TO_CLASSIFICATION
  }

  predicate PredictedLive(r: Record) {
    r.predicted == Some(LIVE)
  }

  predicate SpoofToLive(r: Record) {
    r.groundTruth != LIVE_LABEL && PredictedLive(r)
  }

  predicate LiveAccepted(r: Record) {
    r.groundTruth == LIVE_LABEL && !IsError(r) && PredictedLive(r)
  }

  predicate Genuine(r: Record) {
    r.groundTruth == LIVE_LABEL
  }

  predicate Spoof(r: Record) {
    !Genuine(r)
  }

  /** The class the label of a record stands for. */
  function Expected(name: string): Option<Classification> {
    if name == "LIVE" then Some(LIVE)
    else if name in {"SCREEN_MOBILE", "SCREEN_TABLET", "SCREEN_LAPTOP", "SCREEN_MONITOR", "SCREEN_DISPLAY"} then
      Some(SCREEN_REPLAY)
    else if name in {"PRINT_PHOTO", "PRINT_NEWSPAPER", "PRINT_MAGAZINE"} then Some(PRINT_ATTACK)
    else None
  }

  /** How a record counts: an error is nothing else, an undecided one is uncertain, and the rest is right or wrong. */
  lemma RecordTable(r: Record)
    ensures IsError(r) <==> r.error.Some?
    ensures IsUncertain(r) <==> r.error.None? && r.predicted == Some(UNCERTAIN_CLASS)
    ensures IsConclusive(r) <==> r.error.None? && r.predicted != Some(UNCERTAIN_CLASS)
    ensures IsCorrect(r) <==> r.error.None? && r.predicted.Some? && r.predicted == Expected(r.groundTruth)
    ensures PredictedLive(r) <==> r.predicted == Some(LIVE)
    ensures SpoofToLive(r) <==> r.groundTruth != "LIVE" && r.predicted == Some(LIVE)
    ensures LiveAccepted(r) <==> r.groundTruth == "LIVE" && r.error.None? && r.predicted == Some(LIVE)
    ensures Genuine(r) <==> r.groundTruth == "LIVE"
    ensures Classifiable(r) <==>
      r.error.Some? || r.predicted in {None, Some(UNCERTAIN_CLASS)} || Expected(r.groundTruth).Some?
  {
    LabelTable(r.groundTruth);
  }

  lemma LabelTable(name: string)
    ensures name in LABEL_TO_CLASSIFICATION <==> Expected(name).Some?
    ensures name in LABEL_TO_CLASSIFICATION ==> Expected(name) == Some(LABEL_TO_CLASSIFICATION[name])
  {}

  datatype ClassRow = ClassRow(name: string, n: nat, correct: nat, uncertain: nat, errors: nat, spoofToLive: nat)

  datatype Totals = Totals(
    sampleCount: nat, rows: seq<ClassRow>, liveTotal: nat, liveAccept: nat, spoofTotal: nat, spoofAcceptedAsLive: nat,
    predictedLive: nat, conclusive: nat, uncertain: nat, errors: nat)

  // ---------------------------------------------------------------- counting

  function Tally<T>(items: seq<T>, p: T -> bool): (n: nat)
    ensures n <= |items|
  {
    if items == [] then 0
    else Tally(items[..|items| - 1], p) + if p(items[|items| - 1]) then 1 else 0
  }

  lemma TallyAppend<T>(items: seq<T>, x: T, p: T -> bool)
    ensures Tally(items + [x], p) == Tally(items, p) + if p(x) then 1 else 0
  {
    assert (items + [x])[..|items|] == items;
  }

  method CountThose<T>(items: seq<T>, p: T -> bool) returns (n: nat)
    ensures n == Tally(items, p)
  {
    n := 0;
    for i := 0 to |items|
      invariant n == Tally(items[..i], p)
    {
      assert items[..i + 1] == items[..i] + [items[i]];
      TallyAppend(items[..i], items[i], p);
      n := n + if p(items[i]) then 1 else 0;
    }
    assert items[..|items|] == items;
  }

  function GroundTruth(): Record -> string {
    (r: Record) => r.groundTruth
  }

  /** What the groups of `order` count together. */
  function TallyOfGroups(records: seq<Record>, order: seq<string>, p: Record -> bool): nat {
    if order == [] then 0
    else TallyOfGroups(records, order[..|order| - 1], p) + Tally(ByKey(records, GroundTruth(), order[|order| - 1]), p)
  }

  lemma {:induction false} GroupsOfAppended(records: seq<Record>, r: Record, order: seq<string>, p: Record -> bool)
    requires Distinct(order)
    ensures TallyOfGroups(records + [r], order, p) ==
            TallyOfGroups(records, order, p) + if r.groundTruth in order && p(r) then 1 else 0
  {
    if order != [] {
      var rest, last := order[..|order| - 1], order[|order| - 1];
      GroupsOfAppended(records, r, rest, p);
      assert order == rest + [last];
      assert last !in rest;
      assert Tally(ByKey(records + [r], GroundTruth(), last), p) ==
             Tally(ByKey(records, GroundTruth(), last), p) + (if r.groundTruth == last && p(r) then 1 else 0) by {
        ByKeyAppend(records, r, GroundTruth(), last);
        TallyAppend(ByKey(records, GroundTruth(), last), r, p);
      }
    }
  }

  lemma {:induction false} GroupsCountEverything(records: seq<Record>, order: seq<string>, p: Record -> bool)
    requires Distinct(order) && forall r :: r in records ==> r.groundTruth in order
    ensures TallyOfGroups(records, order, p) == Tally(records, p)
    decreases |records|, |order|
  {
    if records == [] {
      if order != [] {
        GroupsCountEverything(records, order[..|order| - 1], p);
      }
    } else {
      var rest, last := records[..|records| - 1], records[|records| - 1];
      assert records == rest + [last];
      GroupsCountEverything(rest, order, p);
      GroupsOfAppended(rest, last, order, p);
      TallyAppend(rest, last, p);
    }
  }

  lemma {:induction false} TallyAgrees<T(!new)>(items: seq<T>, p: T -> bool, q: T -> bool)
    requires forall x :: x in items ==> p(x) == q(x)
    ensures Tally(items, p) == Tally(items, q)
  {
    if items != [] {
      TallyAgrees(items[..|items| - 1], p, q);
    }
  }

  lemma {:induction false} TallyIs<T(!new)>(items: seq<T>, p: T -> bool, all: bool)
    requires forall x :: x in items ==> p(x) == all
    ensures Tally(items, p) == if all then |items| else 0
  {
    if items != [] {
      TallyIs(items[..|items| - 1], p, all);
    }
  }

  lemma {:induction false} TallyOfConcatenation<T>(a: seq<T>, b: seq<T>, p: T -> bool)
    ensures Tally(a + b, p) == Tally(a, p) + Tally(b, p)
  {
    if b == [] {
      assert a + b == a;
    } else {
      var rest, last := b[..|b| - 1], b[|b| - 1];
      assert a + b == (a + rest) + [last];
      TallyOfConcatenation(a, rest, p);
      TallyAppend(a + rest, last, p);
    }
  }

  // ---------------------------------------------------------------- the report

  function Sum(rows: seq<ClassRow>, f: ClassRow -> nat): nat {
    if rows == [] then 0 else Sum(rows[..|rows| - 1], f) + f(rows[|rows| - 1])
  }

  function RowOf(name: string, records: seq<Record>): ClassRow {
    ClassRow(name, |records|, Tally(records, IsCorrect), Tally(records, IsUncertain), Tally(records, IsError),
             if name != LIVE_LABEL then Tally(records, PredictedLive) else 0)
  }

  method MakeRow(name: string, records: seq<Record>) returns (row: ClassRow)
    ensures row == RowOf(name, records)
  {
    var correct := CountThose(records, IsCorrect);
    var uncertain := CountThose(records, IsUncertain);
    var errors := CountThose(records, IsError);
    var spoofToLive := 0;
    if name != LIVE_LABEL {
      spoofToLive := CountThose(records, PredictedLive);
    }
    return ClassRow(name, |records|, correct, uncertain, errors, spoofToLive);
  }

  predicate RowsOf(rows: seq<ClassRow>, records: seq<Record>, order: seq<string>) {
    |rows| == |order| && forall i :: 0 <= i < |order| ==> rows[i] == RowOf(order[i], ByKey(records, GroundTruth(), order[i]))
  }

  lemma GroupSpoofs(records: seq<Record>, g: string)
    ensures Tally(ByKey(records, GroundTruth(), g), SpoofToLive) == RowOf(g, ByKey(records, GroundTruth(), g)).spoofToLive
    ensures Tally(ByKey(records, GroundTruth(), g), Spoof) == if g != LIVE_LABEL then |ByKey(records, GroundTruth(), g)| else 0
  {
    var group := ByKey(records, GroundTruth(), g);
    forall r | r in group ensures r.groundTruth == g {
      Members(records, GroundTruth(), g, r);
    }
    TallyIs(group, Spoof, g != LIVE_LABEL);
    if g != LIVE_LABEL {
      TallyAgrees(group, SpoofToLive, PredictedLive);
    } else {
      TallyIs(group, SpoofToLive, false);
    }
  }

  /** Each column of the rows adds up to what its records count. */
  lemma {:induction false} ColumnsAddUp(rows: seq<ClassRow>, records: seq<Record>, order: seq<string>)
    requires RowsOf(rows, records, order)
    ensures Sum(rows, (r: ClassRow) => r.n) == TallyOfGroups(records, order, (r: Record) => true)
    ensures Sum(rows, (r: ClassRow) => r.correct) == TallyOfGroups(records, order, IsCorrect)
    ensures Sum(rows, (r: ClassRow) => r.uncertain) == TallyOfGroups(records, order, IsUncertain)
    ensures Sum(rows, (r: ClassRow) => r.errors) == TallyOfGroups(records, order, IsError)
    ensures Sum(rows, (r: ClassRow) => r.spoofToLive) == TallyOfGroups(records, order, SpoofToLive)
  {
    if order != [] {
      var last := order[|order| - 1];
      ColumnsAddUp(rows[..|rows| - 1], records, order[..|order| - 1]);
      GroupSpoofs(records, last);
      TallyIs(ByKey(records, GroundTruth(), last), (r: Record) => true, true);
    }
  }

  /** The totals count the records, and every one of them is the sum of its column. */
  predicate Conserves(t: Totals, records: seq<Record>) {
    && t.sampleCount == |records| == Sum(t.rows, (r: ClassRow) => r.n)
    && t.uncertain == Tally(records, IsUncertain) == Sum(t.rows, (r: ClassRow) => r.uncertain)
    && t.errors == Tally(records, IsError) == Sum(t.rows, (r: ClassRow) => r.errors)
    && t.spoofAcceptedAsLive == Tally(records, SpoofToLive) == Sum(t.rows, (r: ClassRow) => r.spoofToLive)
    && t.liveTotal == Tally(records, Genuine) && t.spoofTotal == Tally(records, Spoof)
    && t.liveAccept == Tally(records, LiveAccepted) && t.predictedLive == Tally(records, PredictedLive)
    && t.conclusive == Tally(records, IsConclusive)
  }

  /** Consequences for the rates of the report: each numerator fits its denominator. */
  predicate RatesAreProportions(t: Totals) {
    && t.liveTotal + t.spoofTotal == t.sampleCount
    && t.conclusive + t.uncertain + t.errors == t.sampleCount
    && Sum(t.rows, (r: ClassRow) => r.correct) <= t.conclusive
    && t.liveAccept <= t.liveTotal && t.spoofAcceptedAsLive <= t.spoofTotal
    && t.liveAccept + t.spoofAcceptedAsLive <= t.predictedLive
  }

  lemma {:induction false} RecordsPartition(records: seq<Record>)
    ensures Tally(records, Genuine) + Tally(records, Spoof) == |records|
    ensures Tally(records, IsConclusive) + Tally(records, IsUncertain) + Tally(records, IsError) == |records|
    ensures Tally(records, IsCorrect) <= Tally(records, IsConclusive)
    ensures Tally(records, LiveAccepted) <= Tally(records, Genuine) && Tally(records, SpoofToLive) <= Tally(records, Spoof)
    ensures Tally(records, LiveAccepted) + Tally(records, SpoofToLive) <= Tally(records, PredictedLive)
  {
    if records != [] {
      RecordsPartition(records[..|records| - 1]);
    }
  }

  lemma {:induction false} LiveGroup(records: seq<Record>)
    ensures |ByKey(records, GroundTruth(), LIVE_LABEL)| == Tally(records, Genuine)
    ensures Tally(ByKey(records, GroundTruth(), LIVE_LABEL), LiveAccepted) == Tally(records, LiveAccepted)
  {
    if records != [] {
      var rest, last := records[..|records| - 1], records[|records| - 1];
      assert records == rest + [last];
      LiveGroup(rest);
      ByKeyAppend(rest, last, GroundTruth(), LIVE_LABEL);
      if last.groundTruth == LIVE_LABEL {
        TallyAppend(ByKey(rest, GroundTruth(), LIVE_LABEL), last, LiveAccepted);
      }
    }
  }

  /** The records of the other classes, class by class. */
  method SpoofRecords(groups: map<string, seq<Record>>, seen: seq<string>, ghost records: seq<Record>)
    returns (spoof: seq<Record>)
    requires forall g :: g in seen ==> g in groups && groups[g] == ByKey(records, GroundTruth(), g)
    ensures |spoof| == TallyOfGroups(records, seen, Spoof)
    ensures Tally(spoof, PredictedLive) == TallyOfGroups(records, seen, SpoofToLive)
  {
    spoof := [];
    for i := 0 to |seen|
      invariant |spoof| == TallyOfGroups(records, seen[..i], Spoof)
      invariant Tally(spoof, PredictedLive) == TallyOfGroups(records, seen[..i], SpoofToLive)
    {
      assert seen[..i + 1][..i] == seen[..i];
      GroupSpoofs(records, seen[i]);
      if seen[i] != LIVE_LABEL {
        TallyOfConcatenation(spoof, groups[seen[i]], PredictedLive);
        spoof := spoof + groups[seen[i]];
      }
    }
    assert seen[..|seen|] == seen;
  }

  /** `order` is the sorted list of the labels. */
  method ComputeMetrics(records: seq<Record>, order: seq<string>) returns (t: Totals)
    requires ListsKeys(order, records, GroundTruth()) && forall r :: r in records ==> Classifiable(r)
    ensures RowsOf(t.rows, records, order)
    ensures Conserves(t, records) && RatesAreProportions(t)
  {
    var groups, seen := GroupBy(records, GroundTruth());
    var rows := [];
    for i := 0 to |order|
      invariant RowsOf(rows, records, order[..i])
    {
      var row := MakeRow(order[i], groups[order[i]]);
      rows := rows + [row];
    }
    assert order[..|order|] == order;
    var live := if LIVE_LABEL in groups then groups[LIVE_LABEL] else [];
    var liveAccept := CountThose(live, LiveAccepted);
    var spoof := SpoofRecords(groups, seen, records);
    var spoofAccepted := CountThose(spoof, PredictedLive);
    var conclusive := CountThose(records, IsConclusive);
    var uncertain := CountThose(records, IsUncertain);
    var errors := CountThose(records, IsError);
    var predictedLive := CountThose(records, PredictedLive);
    t := Totals(|records|, rows, |live|, liveAccept, |spoof|, spoofAccepted, predictedLive, conclusive, uncertain, errors);
    assert live == ByKey(records, GroundTruth(), LIVE_LABEL);
    LiveGroup(records);
    TotalsAgree(rows, records, order, seen);
    RecordsPartition(records);
  }

  lemma TotalsAgree(rows: seq<ClassRow>, records: seq<Record>, order: seq<string>, seen: seq<string>)
    requires ListsKeys(order, records, GroundTruth()) && ListsKeys(seen, records, GroundTruth()) && RowsOf(rows, records, order)
    ensures Sum(rows, (r: ClassRow) => r.n) == |records|
    ensures Sum(rows, (r: ClassRow) => r.correct) == Tally(records, IsCorrect)
    ensures Sum(rows, (r: ClassRow) => r.uncertain) == Tally(records, IsUncertain)
    ensures Sum(rows, (r: ClassRow) => r.errors) == Tally(records, IsError)
    ensures Sum(rows, (r: ClassRow) => r.spoofToLive) == Tally(records, SpoofToLive) == TallyOfGroups(records, seen, SpoofToLive)
    ensures TallyOfGroups(records, seen, Spoof) == Tally(records, Spoof)
  {
    ColumnsAddUp(rows, records, order);
    KeysListed(order, records, GroundTruth());
    KeysListed(seen, records, GroundTruth());
    GroupsCountEverything(records, order, (r: Record) => true);
    TallyIs(records, (r: Record) => true, true);
    GroupsCountEverything(records, order, IsCorrect);
    GroupsCountEverything(records, order, IsUncertain);
    GroupsCountEverything(records, order, IsError);
    GroupsCountEverything(records, order, SpoofToLive);
    GroupsCountEverything(records, seen, SpoofToLive);
    GroupsCountEverything(records, seen, Spoof);
  }
}
