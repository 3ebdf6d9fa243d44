/** gen_ids.py: the submission id of each raw feature line, built from
    fixed field positions. */
module GenIds {
  import opened Wrappers
  import opened Text
  import FullFeatures
  import Registry

  /** `record[lo:hi]`: Python slicing, clamped to the record. */
  function Slice(record: seq<string>, lo: nat, hi: nat): (s: seq<string>)
    requires lo <= hi
    ensures |s| == if |record| <= lo then 0 else if |record| <= hi then |record| - lo else hi - lo
    ensures forall i :: 0 <= i < |s| ==> s[i] == record[lo + i]
  {
    if |record| <= lo then [] else if |record| <= hi then record[lo..] else record[lo..hi]
  }

  /** `generate_id(record)`: store, dept and the `-`-joined fields 4 to 6
      (as many as there are), joined by `_`; `IndexError` for a record of
      fewer than two fields. */
  function GenerateId(record: seq<string>): (r: Result<string>)
    ensures r.Failure? <==> |record| < 2
    ensures r.Failure? ==> r.error == IndexError
  {
    if |record| < 2 then Failure(IndexError)
    else Success(Join([record[0], record[1], Join(Slice(record, 4, 7), "-")], "_"))
  }

  /** `generate_ids`: one id per line of the file, each line split on `,`
      with its line terminator still attached; the first line that raises
      ends the comprehension. */
  function GenerateIds(lines: seq<string>): (r: Result<seq<string>>)
    ensures r.Success? ==> |r.value| == |lines|
    ensures r.Failure? ==> r.error == IndexError
    decreases |lines|
  {
    if |lines| == 0 then Success([])
    else
      var prev :- GenerateIds(lines[..|lines| - 1]);
      var id :- GenerateId(Split(lines[|lines| - 1], ','));
      Success(prev + [id])
  }

  /** A record of at least seven fields gives
      `r[0] + "_" + r[1] + "_" + r[4] + "-" + r[5] + "-" + r[6]`, the fields
      copied verbatim. */
  lemma GenerateIdFormula(record: seq<string>)
    requires |record| >= 7
    ensures GenerateId(record) ==
      Success(record[0] + "_" + record[1] + "_" + record[4] + "-" + record[5] + "-" + record[6])
  {
    var date := Slice(record, 4, 7);
    assert date == [record[4], record[5], record[6]];
    JoinThree(record[4], record[5], record[6], "-");
    JoinThree(record[0], record[1], Join(date, "-"), "_");
    assert record[0] + "_" + record[1] + "_" + (record[4] + "-" + record[5] + "-" + record[6])
      == record[0] + "_" + record[1] + "_" + record[4] + "-" + record[5] + "-" + record[6];
  }

  /** A record with no date fields still gets an id, ending in `_`; one of
      fewer than two fields raises `IndexError`. */
  lemma GenerateIdShort(record: seq<string>)
    requires |record| <= 4
    ensures |record| < 2 ==> GenerateId(record) == Failure(IndexError)
    ensures |record| >= 2 ==> GenerateId(record) == Success(record[0] + "_" + record[1] + "_")
  {
    if |record| >= 2 {
      assert Slice(record, 4, 7) == [];
      assert Join([], "-") == "";
      JoinThree(record[0], record[1], "", "_");
      assert record[0] + "_" + record[1] + "_" + "" == record[0] + "_" + record[1] + "_";
    }
  }

  /** Only fields 0, 1, 4, 5 and 6 affect the id: records of at least seven
      fields that agree on those get the same id. */
  lemma GenerateIdFields(r: seq<string>, s: seq<string>)
    requires |r| >= 7 && |s| >= 7
    requires r[0] == s[0] && r[1] == s[1] && r[4] == s[4] && r[5] == s[5] && r[6] == s[6]
    ensures GenerateId(r) == GenerateId(s)
  {
    GenerateIdFormula(r);
    GenerateIdFormula(s);
  }

  /** Under the full layout (at least the seventeen test fields) the id
      encodes store, dept and the year, month and day fields, and, when
      those hold no separator, splits back into them. */
  lemma GenerateIdDecodes(record: seq<string>)
    requires |record| >= FullFeatures.TEST_FIELD_COUNT
    requires forall i :: 0 <= i < 7 ==> '_' !in record[i] && '-' !in record[i]
    ensures GenerateId(record).Success?
    ensures var parts := Split(GenerateId(record).value, '_');
      && |parts| == 3 && parts[0] == record[FullFeatures.STORE_ID] && parts[1] == record[FullFeatures.DEPT_ID]
      && Split(parts[2], '-') == [record[FullFeatures.YEAR], record[FullFeatures.MONTH], record[FullFeatures.DAY]]
  {
    var date := Slice(record, 4, 7);
    assert date == [record[4], record[5], record[6]];
    var dateText := record[4] + "-" + record[5] + "-" + record[6];
    JoinThree(record[4], record[5], record[6], "-");
    SplitThree(record[4], record[5], record[6], '-');
    assert forall c :: c in dateText ==> c == '-' || c in record[4] || c in record[5] || c in record[6];
    JoinThree(record[0], record[1], dateText, "_");
    SplitThree(record[0], record[1], dateText, '_');
  }

  /** Raw fields written as the integers of store, dept and a `Y-MM-DD`
      date give the same id as the per-dept predictor generates from the
      numeric features. */
  lemma GenerateIdAgreesWithPredictor(record: seq<string>, storeId: int, deptId: int, year: nat, month: nat, day: nat)
    requires |record| >= 7
    requires record[0] == IntToString(storeId) && record[1] == IntToString(deptId)
    requires record[4] == IntToString(year)
    requires record[5] == ZFill(IntToString(month), 2) && record[6] == ZFill(IntToString(day), 2)
    ensures GenerateId(record) == Success(Registry.IdText(storeId, deptId, year as real, month as real, day as real))
  {
    GenerateIdFormula(record);
    assert Trunc(year as real) == year;
    assert Trunc(month as real) == month;
    assert Trunc(day as real) == day;
    var date := Registry.DateText(year, month, day);
    assert date == record[4] + "-" + record[5] + "-" + record[6];
    assert Registry.DateText(Trunc(year as real), Trunc(month as real), Trunc(day as real)) == date;
    assert Registry.IdText(storeId, deptId, year as real, month as real, day as real)
      == record[0] + "_" + record[1] + "_" + date;
    assert record[0] + "_" + record[1] + "_" + date
      == record[0] + "_" + record[1] + "_" + record[4] + "-" + record[5] + "-" + record[6];
  }

  /** The ids are produced exactly when every line has at least two fields,
      one per line and in line order. */
  lemma GenerateIdsPerLine(lines: seq<string>)
    ensures GenerateIds(lines).Success? <==> forall i :: 0 <= i < |lines| ==> 2 <= |Split(lines[i], ',')|
    ensures GenerateIds(lines).Failure? ==> GenerateIds(lines).error == IndexError
    ensures GenerateIds(lines).Success? ==>
      && |GenerateIds(lines).value| == |lines|
      && forall i :: 0 <= i < |lines| ==> GenerateId(Split(lines[i], ',')) == Success(GenerateIds(lines).value[i])
  {
    GenerateIdsSucceed(lines);
    GenerateIdsInLineOrder(lines);
  }

  lemma {:induction false} GenerateIdsSucceed(lines: seq<string>)
    ensures GenerateIds(lines).Success? <==> forall i :: 0 <= i < |lines| ==> 2 <= |Split(lines[i], ',')|
    ensures GenerateIds(lines).Failure? ==> GenerateIds(lines).error == IndexError
    decreases |lines|
  {
    if |lines| > 0 {
      var init := lines[..|lines| - 1];
      GenerateIdsSucceed(init);
      assert forall i :: 0 <= i < |init| ==> init[i] == lines[i];
    }
  }

  lemma {:induction false} GenerateIdsInLineOrder(lines: seq<string>)
    ensures GenerateIds(lines).Success? ==>
      && |GenerateIds(lines).value| == |lines|
      && forall i :: 0 <= i < |lines| ==> GenerateId(Split(lines[i], ',')) == Success(GenerateIds(lines).value[i])
    decreases |lines|
  {
    if |lines| > 0 && GenerateIds(lines).Success? {
      var init := lines[..|lines| - 1];
      GenerateIdsInLineOrder(init);
      var prev := GenerateIds(init);
      var id := GenerateId(Split(lines[|lines| - 1], ','));
      assert prev.Success? && id.Success?;
      var ids := prev.value + [id.value];
      assert GenerateIds(lines).value == ids;
      forall i | 0 <= i < |lines|
        ensures GenerateId(Split(lines[i], ',')) == Success(ids[i])
      {
        if i < |init| {
          assert init[i] == lines[i] && ids[i] == prev.value[i];
        }
      }
    }
  }

  /** A line whose seventh field is its last keeps the line terminator in
      the day part of its id. */
  lemma GenerateIdKeepsTerminator(fields: seq<string>, end: string)
    requires |fields| == 7
    ensures var record := fields[..6] + [fields[6] + end];
      GenerateId(record) == Success(fields[0] + "_" + fields[1] + "_" + fields[4] + "-" + fields[5] + "-" + fields[6] + end)
  {
    var record := fields[..6] + [fields[6] + end];
    GenerateIdFormula(record);
    assert record[0] == fields[0] && record[1] == fields[1];
    assert record[4] == fields[4] && record[5] == fields[5] && record[6] == fields[6] + end;
    var head := fields[0] + "_" + fields[1] + "_" + fields[4] + "-" + fields[5] + "-";
    assert record[0] + "_" + record[1] + "_" + record[4] + "-" + record[5] + "-" + record[6] == head + (fields[6] + end);
    assert head + (fields[6] + end) == head + fields[6] + end;
  }
}
