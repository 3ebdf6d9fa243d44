/** What the two feature extractors share: reading one field of every
    record through a transformer, and bookkeeping for runs of such transforms. */
module Columns {
  import opened Wrappers
  import opened Records
  import opened Transformers
  import opened Matrices

  /** A fill-with-0 number transformer (`NumberTransformer(fill_value=0)`,
      `MonthTransformer` or `DayTransformer`) on field `k`. */
  function NumberField(records: seq<seq<string>>, normalize: bool, rule: NormRule, k: nat): Result<seq<real>>
    requires HasFields(records, k + 1)
  {
    Finish(normalize, rule, NumberColumn(ColumnOf(records, k), 0.0))
  }

  /** `markdown_transformer.transform` on field `k`. */
  function MarkdownField(records: seq<seq<string>>, normalize: bool, k: nat): Result<seq<real>>
    requires HasFields(records, k + 1)
  {
    MarkdownTransform(normalize, ColumnOf(records, k))
  }

  /** How one of the stateless columns is transformed: by a fill-with-0
      number transformer with the given `do_normalize`, or by the markdown
      transformer. */
  datatype ColumnKind = NumberKind(rule: NormRule) | MarkdownKind

  /** The transform of field `k` of every record. */
  function FieldTransform(records: seq<seq<string>>, normalize: bool, k: nat, kind: ColumnKind): Result<seq<real>>
    requires HasFields(records, k + 1)
  {
    match kind
    case NumberKind(rule) => NumberField(records, normalize, rule, k)
    case MarkdownKind => MarkdownField(records, normalize, k)
  }

  /** The transforms of the listed fields, in list order. */
  function FieldResults(records: seq<seq<string>>, normalize: bool, specs: seq<(nat, ColumnKind)>): (r: seq<Result<seq<real>>>)
    requires forall j :: 0 <= j < |specs| ==> HasFields(records, specs[j].0 + 1)
    ensures |r| == |specs|
  {
    seq(|specs|, j requires 0 <= j < |specs| => FieldTransform(records, normalize, specs[j].0, specs[j].1))
  }

  /** The transforms `lo .. hi` all succeed. */
  predicate AllSucceed(results: seq<Result<seq<real>>>, lo: nat, hi: nat)
    requires lo <= hi <= |results|
  {
    forall j :: lo <= j < hi ==> results[j].Success?
  }

  /** The outputs of the transforms `lo .. hi`. */
  function Values(results: seq<Result<seq<real>>>, lo: nat, hi: nat): (vs: seq<seq<real>>)
    requires lo <= hi <= |results| && AllSucceed(results, lo, hi)
    ensures |vs| == hi - lo && forall j :: lo <= j < hi ==> vs[j - lo] == results[j].value
  {
    seq(hi - lo, j requires 0 <= j < hi - lo => results[lo + j].value)
  }

  /** Five transforms in a row that all succeeded. */
  lemma ValuesOfFive(results: seq<Result<seq<real>>>, lo: nat)
    requires lo + 5 <= |results|
    requires results[lo].Success? && results[lo + 1].Success? && results[lo + 2].Success?
    requires results[lo + 3].Success? && results[lo + 4].Success?
    ensures AllSucceed(results, lo, lo + 5)
    ensures Values(results, lo, lo + 5) ==
      [results[lo].value, results[lo + 1].value, results[lo + 2].value, results[lo + 3].value, results[lo + 4].value]
  {
    ValuesOfSuccesses(results, lo,
      [results[lo].value, results[lo + 1].value, results[lo + 2].value, results[lo + 3].value, results[lo + 4].value]);
  }

  /** A run of transforms that produced the columns `vs` all succeeded,
      and its outputs are `vs`. */
  lemma ValuesOfSuccesses(results: seq<Result<seq<real>>>, lo: nat, vs: seq<seq<real>>)
    requires lo + |vs| <= |results|
    requires forall j :: 0 <= j < |vs| ==> results[lo + j] == Success(vs[j])
    ensures AllSucceed(results, lo, lo + |vs|) && Values(results, lo, lo + |vs|) == vs
  {
    forall j | lo <= j < lo + |vs|
      ensures results[j].Success?
    {
      assert results[lo + (j - lo)] == Success(vs[j - lo]);
    }
    var run := Values(results, lo, lo + |vs|);
    assert forall j :: 0 <= j < |vs| ==> run[j] == results[lo + j].value;
  }

  /** Outputs of adjacent runs of transforms concatenate. */
  lemma ValuesSplit(results: seq<Result<seq<real>>>, lo: nat, mid: nat, hi: nat)
    requires lo <= mid <= hi <= |results| && AllSucceed(results, lo, hi)
    ensures Values(results, lo, hi) == Values(results, lo, mid) + Values(results, mid, hi)
  {
    var whole, left, right := Values(results, lo, hi), Values(results, lo, mid), Values(results, mid, hi);
    assert forall j :: 0 <= j < hi - lo ==> whole[j] == (left + right)[j];
  }

  /** A number column has one entry per record when it succeeds. */
  lemma NumberFieldLength(records: seq<seq<string>>, normalize: bool, rule: NormRule, k: nat)
    requires HasFields(records, k + 1)
    ensures NumberField(records, normalize, rule, k).Success? ==>
      |NumberField(records, normalize, rule, k).value| == |records|
  {
    FinishLength(normalize, rule, NumberColumn(ColumnOf(records, k), 0.0));
  }

  /** A markdown column has one entry per record when it succeeds. */
  lemma MarkdownFieldLength(records: seq<seq<string>>, normalize: bool, k: nat)
    requires HasFields(records, k + 1)
    ensures MarkdownField(records, normalize, k).Success? ==>
      |MarkdownField(records, normalize, k).value| == |records|
  {
    var col := ColumnOf(records, k);
    if MarkdownColumn(col).Success? {
      FinishLength(normalize, MinMax, MarkdownColumn(col).value);
    }
  }

  /** Each listed transform has one entry per record when it succeeds. */
  lemma FieldResultsLength(records: seq<seq<string>>, normalize: bool, specs: seq<(nat, ColumnKind)>)
    requires forall j :: 0 <= j < |specs| ==> HasFields(records, specs[j].0 + 1)
    ensures forall j :: 0 <= j < |specs| && FieldResults(records, normalize, specs)[j].Success? ==>
      |FieldResults(records, normalize, specs)[j].value| == |records|
  {
    forall j | 0 <= j < |specs|
      ensures FieldResults(records, normalize, specs)[j].Success? ==>
        |FieldResults(records, normalize, specs)[j].value| == |records|
    {
      var (k, kind) := specs[j];
      match kind
      case NumberKind(rule) => NumberFieldLength(records, normalize, rule, k);
      case MarkdownKind => MarkdownFieldLength(records, normalize, k);
    }
  }

  /** A carry-forward column has one entry per value when it succeeds. */
  lemma CarriedLength(normalize: bool, values: seq<string>, fill: real)
    ensures var r := Finish(normalize, MinMax, CarryForward(values, fill).0);
      r.Success? ==> |r.value| == |values|
  {
    CarryForwardSpec(values, fill);
    FinishLength(normalize, MinMax, CarryForward(values, fill).0);
  }

  lemma BooleanTransformLength(normalize: bool, values: seq<string>)
    ensures BooleanTransform(normalize, values).Success? ==> |BooleanTransform(normalize, values).value| == |values|
  {
    if BooleanColumn(values).Success? {
      FinishLength(normalize, MinMax, BooleanColumn(values).value);
    }
  }
}
