/** The column transformers of the feature extractors: each turns one column of
    raw strings into numbers, optionally followed by normalization.

    The Python source declares the same classes twice, once in
    extract_features.py and once in extract_dept_features.py, with identical
    bodies (extract_dept_features.py has no one-hot, month or day transformer);
    this module states them once and both extractors use it.

    The Python class hierarchy (a `Transformer` base class whose `transform`
    calls the subclass's `_transform`, and two subclasses that only override
    `do_normalize`) becomes one class per encoding rule, each with a
    `RawTransform` (`_transform`) and a `Transform`; the overridden
    `do_normalize` of `MonthTransformer`/`DayTransformer` becomes a `NormRule`
    handed to `NumberTransformer`. */
module Transformers {
  import opened Wrappers
  import opened Text

  // ---------------------------------------------------------------------------
  // normalization (`Transformer.do_normalize` and its two overrides)

  /** Which `do_normalize` a transformer uses. */
  datatype NormRule =
    | MinMax      // the base class: (v - min) / (max - min), zeros for a constant column
    | Month       // MonthTransformer: v / 12
    | Day         // DayTransformer: v / 31

  function Divisor(rule: NormRule): real
    requires !rule.MinMax?
  {
    if rule.Month? then 12.0 else 31.0
  }

  /** Smallest entry. */
  function Min(s: seq<real>): real
    requires |s| > 0
  {
    if |s| == 1 then s[0]
    else
      var t := Min(s[1..]);
      if s[0] <= t then s[0] else t
  }

  /** Largest entry. */
  function Max(s: seq<real>): real
    requires |s| > 0
  {
    if |s| == 1 then s[0]
    else
      var t := Max(s[1..]);
      if s[0] >= t then s[0] else t
  }

  /** `Min` and `Max` are entries of the array, and every entry lies between them. */
  lemma {:induction false} MinMaxBounds(s: seq<real>)
    requires |s| > 0
    ensures Min(s) in s && Max(s) in s
    ensures forall i :: 0 <= i < |s| ==> Min(s) <= s[i] <= Max(s)
    decreases |s|
  {
    if |s| > 1 {
      MinMaxBounds(s[1..]);
      forall i | 1 <= i < |s|
        ensures Min(s[1..]) <= s[i] <= Max(s[1..])
      {
        assert s[i] == s[1..][i - 1];
      }
    }
  }

  /** One entry of a min-max normalized array whose extremes are `lo` and `hi`. */
  function Rescale(v: real, lo: real, hi: real): real
  {
    if hi == lo then 0.0 else (v - lo) / (hi - lo)
  }

  /** `Transformer.do_normalize` on a 1-D array. `max()` of an empty array
      raises `ValueError`. */
  function NormalizeColumn(values: seq<real>): (r: Result<seq<real>>)
    ensures r.Failure? ==> r.error == ValueError
    ensures r.Success? ==> |r.value| == |values|
  {
    if |values| == 0 then Failure(ValueError)
    else
      var lo, hi := Min(values), Max(values);
      Success(seq(|values|, i requires 0 <= i < |values| => Rescale(values[i], lo, hi)))
  }

  /** All entries of a matrix, row after row. */
  function Flatten(m: seq<seq<real>>): seq<real>
  {
    if |m| == 0 then [] else m[0] + Flatten(m[1..])
  }

  /** `Transformer.do_normalize` on a 2-D array: the extremes are taken over
      every entry. */
  function NormalizeMatrix(m: seq<seq<real>>): Result<seq<seq<real>>>
  {
    var flat := Flatten(m);
    if |flat| == 0 then Failure(ValueError)
    else
      var lo, hi := Min(flat), Max(flat);
      Success(seq(|m|, i requires 0 <= i < |m| =>
        seq(|m[i]|, j requires 0 <= j < |m[i]| => Rescale(m[i][j], lo, hi))))
  }

  /** The `do_normalize` the rule selects, on a 1-D array. */
  function Normalize(rule: NormRule, values: seq<real>): Result<seq<real>>
  {
    if rule.MinMax? then NormalizeColumn(values)
    else Success(seq(|values|, i requires 0 <= i < |values| => values[i] / Divisor(rule)))
  }

  /** `Transformer.transform` after `_transform` produced `raw`. */
  function Finish(normalize: bool, rule: NormRule, raw: seq<real>): Result<seq<real>>
  {
    if normalize then Normalize(rule, raw) else Success(raw)
  }

  /** `transform` keeps the length of the column; only min-max normalization
      of an empty column fails. */
  lemma FinishLength(normalize: bool, rule: NormRule, raw: seq<real>)
    ensures Finish(normalize, rule, raw).Success? <==> !normalize || !rule.MinMax? || |raw| > 0
    ensures Finish(normalize, rule, raw).Success? ==> |Finish(normalize, rule, raw).value| == |raw|
  {
  }

  /** Without normalization `transform` hands back exactly what `_transform` produced. */
  lemma FinishWithoutNormalize(rule: NormRule, raw: seq<real>)
    ensures Finish(false, rule, raw) == Success(raw)
  {
  }

  /** Min-max normalization fails exactly on an empty column, keeps the
      length and stays within [0, 1]. */
  lemma NormalizeColumnInUnitInterval(values: seq<real>)
    ensures NormalizeColumn(values).Success? <==> |values| > 0
    ensures NormalizeColumn(values).Success? ==>
      && |NormalizeColumn(values).value| == |values|
      && forall i :: 0 <= i < |values| ==> 0.0 <= NormalizeColumn(values).value[i] <= 1.0
  {
    if |values| > 0 {
      MinMaxBounds(values);
      var lo, hi := Min(values), Max(values);
      var r := NormalizeColumn(values).value;
      forall i | 0 <= i < |r|
        ensures 0.0 <= r[i] <= 1.0
      {
        if hi != lo {
          DivUnit(values[i] - lo, hi - lo);
        }
      }
    }
  }

  /** Min-max normalization keeps the order of entries. */
  lemma NormalizeColumnMonotone(values: seq<real>, i: nat, j: nat)
    requires i < |values| && j < |values| && values[i] <= values[j]
    ensures NormalizeColumn(values).value[i] <= NormalizeColumn(values).value[j]
  {
    MinMaxBounds(values);
    var lo, hi := Min(values), Max(values);
    if hi != lo {
      DivMono(values[i] - lo, values[j] - lo, hi - lo);
    }
  }

  /** Min-max normalization sends the minimum to 0 and, in a non-constant
      column, the maximum to 1. */
  lemma NormalizeColumnExtremes(values: seq<real>, i: nat)
    requires i < |values|
    ensures values[i] == Min(values) ==> NormalizeColumn(values).value[i] == 0.0
    ensures values[i] == Max(values) && Min(values) < Max(values) ==> NormalizeColumn(values).value[i] == 1.0
  {
    var lo, hi := Min(values), Max(values);
    assert NormalizeColumn(values).value[i] == Rescale(values[i], lo, hi);
    RescaleEnds(lo, hi);
  }

  lemma RescaleEnds(lo: real, hi: real)
    ensures Rescale(lo, lo, hi) == 0.0
    ensures lo < hi ==> Rescale(hi, lo, hi) == 1.0
  {
    if lo < hi {
      DivSelf(hi - lo);
    }
  }

  lemma DivSelf(d: real)
    requires d > 0.0
    ensures d / d == 1.0
  {
    assert (d / d) * d == d;
  }

  lemma DivUnit(a: real, d: real)
    requires 0.0 <= a <= d && d > 0.0
    ensures 0.0 <= a / d <= 1.0
  {
    assert (a / d) * d == a;
    assert (1.0 - a / d) * d == d - a;
  }

  lemma DivMono(a: real, b: real, d: real)
    requires a <= b && d > 0.0
    ensures a / d <= b / d
  {
    assert (b / d - a / d) * d == b - a;
  }

  /** A constant column normalizes to all zeros. */
  lemma NormalizeConstantColumn(values: seq<real>)
    requires |values| > 0
    requires forall i :: 0 <= i < |values| ==> values[i] == values[0]
    ensures NormalizeColumn(values) == Success(seq(|values|, _ => 0.0))
  {
    MinMaxBounds(values);
    assert Min(values) == values[0] == Max(values);
    var r := NormalizeColumn(values).value;
    var zeros := seq(|values|, _ => 0.0);
    assert forall i :: 0 <= i < |values| ==> r[i] == 0.0 == zeros[i];
    assert r == zeros;
  }

  /** Every entry of a matrix occurs in its flattening, and nothing else does. */
  lemma {:induction false} FlattenMembers(m: seq<seq<real>>, x: real)
    ensures x in Flatten(m) <==> exists i, j :: 0 <= i < |m| && 0 <= j < |m[i]| && m[i][j] == x
  {
    if |m| > 0 {
      FlattenMembers(m[1..], x);
      if x in Flatten(m[1..]) {
        var i, j :| 0 <= i < |m[1..]| && 0 <= j < |m[1..][i]| && m[1..][i][j] == x;
        assert m[i + 1][j] == x;
      }
      if exists i, j :: 0 <= i < |m| && 0 <= j < |m[i]| && m[i][j] == x {
        var i, j :| 0 <= i < |m| && 0 <= j < |m[i]| && m[i][j] == x;
        if i == 0 {
          assert x in m[0];
        } else {
          assert m[1..][i - 1][j] == x;
        }
      }
    }
  }

  // ---------------------------------------------------------------------------
  // NumberTransformer (and MonthTransformer, DayTransformer)

  /** `float(value)`, or the fill value when `float` raises `ValueError`. */
  function ParseOr(s: string, fill: real): real
  {
    match ParseNum(s)
    case Some(x) => x
    case None => fill
  }

  /** `NumberTransformer._transform` as a value: every entry is its value
      as a number, or the fill value where `float` raises. */
  function NumberColumn(values: seq<string>, fill: real): (col: seq<real>)
    ensures |col| == |values|
    ensures forall i :: 0 <= i < |values| ==>
      if ParseNum(values[i]).Some? then col[i] == ParseNum(values[i]).value else col[i] == fill
  {
    seq(|values|, i requires 0 <= i < |values| => ParseOr(values[i], fill))
  }

  /** Parse-or-fixed-fill. The fill value is fixed at construction. */
  class NumberTransformer {
    const fillVal: real
    const normalize: bool
    const rule: NormRule

    /** `NumberTransformer(fill_value, normalize)` for `rule == MinMax`,
        `MonthTransformer(normalize)` and `DayTransformer(normalize)` (fill 0)
        for the other two rules. */
    constructor (fillValue: real, normalize: bool, rule: NormRule)
      ensures this.fillVal == fillValue && this.normalize == normalize && this.rule == rule
    {
      this.fillVal := fillValue;
      this.normalize := normalize;
      this.rule := rule;
    }

    /** `_transform`: every value parsed, every unparsable value replaced by the fill value. */
    method RawTransform(values: seq<string>) returns (r: seq<real>)
      ensures |r| == |values|
      ensures forall k :: 0 <= k < |values| && ParseNum(values[k]).Some? ==> r[k] == ParseNum(values[k]).value
      ensures forall k :: 0 <= k < |values| && ParseNum(values[k]).None? ==> r[k] == fillVal
    {
      var a := new real[|values|](_ => 0.0);
      var i := 0;
      while i < |values|
        invariant 0 <= i <= |values|
        invariant forall k :: 0 <= k < i ==> a[k] == ParseOr(values[k], fillVal)
      {
        match ParseNum(values[i]) {
          case Some(x) => a[i] := x;
          case None => a[i] := fillVal;
        }
        i := i + 1;
      }
      r := a[..];
    }

    /** `transform`: `_transform`, then `do_normalize` when the flag is set. */
    method Transform(values: seq<string>) returns (r: Result<seq<real>>)
      ensures r == Finish(normalize, rule, NumberColumn(values, fillVal))
      ensures !normalize ==> r.Success? && |r.value| == |values|
    {
      var raw := RawTransform(values);
      assert raw == NumberColumn(values, fillVal);
      r := Finish(normalize, rule, raw);
    }
  }

  // ---------------------------------------------------------------------------
  // MarkdownTransformer

  /** One markdown cell: `NA` is 0, anything else goes through `float()`
      (numpy's assignment of a string into a float array); `None` where that raises. */
  function MarkdownValue(s: string): Option<real>
  {
    if s == "NA" then Some(0.0) else ParseNum(s)
  }

  /** `MarkdownTransformer._transform` as a value: `NA` reads as 0, and
      only an entry that is neither `NA` nor a number raises `ValueError`. */
  function MarkdownColumn(values: seq<string>): (r: Result<seq<real>>)
    ensures r.Failure? <==> exists i :: 0 <= i < |values| && values[i] != "NA" && ParseNum(values[i]).None?
    ensures r.Failure? ==> r.error == ValueError
    ensures r.Success? ==> |r.value| == |values|
    ensures r.Success? ==> forall i :: 0 <= i < |values| && values[i] == "NA" ==> r.value[i] == 0.0
    ensures r.Success? ==> forall i :: 0 <= i < |values| && values[i] != "NA" ==> Some(r.value[i]) == ParseNum(values[i])
  {
    if forall i :: 0 <= i < |values| ==> MarkdownValue(values[i]).Some? then
      Success(seq(|values|, i requires 0 <= i < |values| => MarkdownValue(values[i]).value))
    else Failure(ValueError)
  }

  /** `MarkdownTransformer.transform` as a value. */
  function MarkdownTransform(normalize: bool, values: seq<string>): Result<seq<real>>
  {
    match MarkdownColumn(values)
    case Failure(e) => Failure(e)
    case Success(raw) => Finish(normalize, MinMax, raw)
  }

  /** `NA` is 0, everything else must parse. */
  class MarkdownTransformer {
    const normalize: bool

    constructor (normalize: bool)
      ensures this.normalize == normalize
    {
      this.normalize := normalize;
    }

    /** `_transform`: fails with `ValueError` as soon as a non-`NA` token does not parse. */
    method RawTransform(values: seq<string>) returns (r: Result<seq<real>>)
      ensures r.Success? <==> forall k :: 0 <= k < |values| ==> MarkdownValue(values[k]).Some?
      ensures r.Failure? ==> r.error == ValueError
      ensures r.Success? ==> |r.value| == |values|
      ensures r.Success? ==> forall k :: 0 <= k < |values| && values[k] == "NA" ==> r.value[k] == 0.0
      ensures r.Success? ==> forall k :: 0 <= k < |values| && values[k] != "NA" ==> Some(r.value[k]) == ParseNum(values[k])
    {
      var a := new real[|values|](_ => 0.0);
      var i := 0;
      while i < |values|
        invariant 0 <= i <= |values|
        invariant forall k :: 0 <= k < i ==> MarkdownValue(values[k]) == Some(a[k])
      {
        if values[i] == "NA" {
          a[i] := 0.0;
        } else {
          match ParseNum(values[i]) {
            case Some(x) => a[i] := x;
            case None =>
              assert MarkdownValue(values[i]).None?;
              return Failure(ValueError);
          }
        }
        i := i + 1;
      }
      r := Success(a[..]);
    }

    /** `transform`. */
    method Transform(values: seq<string>) returns (r: Result<seq<real>>)
      ensures r == MarkdownTransform(normalize, values)
    {
      var raw := RawTransform(values);
      if raw.Failure? {
        return Failure(raw.error);
      }
      assert raw.value == MarkdownColumn(values).value;
      r := Finish(normalize, MinMax, raw.value);
    }
  }

  // ---------------------------------------------------------------------------
  // BooleanEncoder

  /** Strictly `TRUE` is 1 and `FALSE` is 0. */
  function BooleanValue(s: string): Option<real>
  {
    if s == "TRUE" then Some(1.0) else if s == "FALSE" then Some(0.0) else None
  }

  /** `BooleanEncoder._transform` as a value: `TRUE` is 1 and `FALSE` is 0;
      any other entry raises `ValueError`. */
  function BooleanColumn(values: seq<string>): (r: Result<seq<real>>)
    ensures r.Success? <==> forall i :: 0 <= i < |values| ==> values[i] == "TRUE" || values[i] == "FALSE"
    ensures r.Failure? ==> r.error == ValueError
    ensures r.Success? ==> |r.value| == |values|
    ensures r.Success? ==> forall i :: 0 <= i < |values| ==> r.value[i] == if values[i] == "TRUE" then 1.0 else 0.0
  {
    if forall i :: 0 <= i < |values| ==> BooleanValue(values[i]).Some? then
      Success(seq(|values|, i requires 0 <= i < |values| => BooleanValue(values[i]).value))
    else Failure(ValueError)
  }

  /** `BooleanEncoder.transform` as a value. */
  function BooleanTransform(normalize: bool, values: seq<string>): Result<seq<real>>
  {
    match BooleanColumn(values)
    case Failure(e) => Failure(e)
    case Success(raw) => Finish(normalize, MinMax, raw)
  }

  /** `TRUE`/`FALSE` only; anything else raises `ValueError`. */
  class BooleanEncoder {
    const normalize: bool

    constructor (normalize: bool)
      ensures this.normalize == normalize
    {
      this.normalize := normalize;
    }

    /** `_transform`. */
    method RawTransform(values: seq<string>) returns (r: Result<seq<real>>)
      ensures r.Success? <==> forall k :: 0 <= k < |values| ==> values[k] == "TRUE" || values[k] == "FALSE"
      ensures r.Failure? ==> r.error == ValueError
      ensures r.Success? ==> |r.value| == |values|
      ensures r.Success? ==> forall k :: 0 <= k < |values| ==> r.value[k] == if values[k] == "TRUE" then 1.0 else 0.0
    {
      var a := new real[|values|](_ => 0.0);
      var i := 0;
      while i < |values|
        invariant 0 <= i <= |values|
        invariant forall k :: 0 <= k < i ==> BooleanValue(values[k]) == Some(a[k])
      {
        if values[i] == "TRUE" {
          a[i] := 1.0;
        } else if values[i] == "FALSE" {
          a[i] := 0.0;
        } else {
          return Failure(ValueError);
        }
        i := i + 1;
      }
      r := Success(a[..]);
    }

    /** `transform`. */
    method Transform(values: seq<string>) returns (r: Result<seq<real>>)
      ensures r == BooleanTransform(normalize, values)
    {
      var raw := RawTransform(values);
      if raw.Failure? {
        assert BooleanColumn(values).Failure?;
        return Failure(raw.error);
      }
      assert raw.value == BooleanColumn(values).value;
      r := Finish(normalize, MinMax, raw.value);
    }
  }

  // ---------------------------------------------------------------------------
  // NonZeroNumTransformer

  /** `NonZeroNumTransformer._transform` as a value: the output column and the
      fill value it leaves behind, starting from fill value `fill`. */
  function CarryForward(values: seq<string>, fill: real): (r: (seq<real>, real))
    ensures |r.0| == |values|
    ensures r.1 == if |values| == 0 then fill else r.0[|values| - 1]
    decreases |values|
  {
    if |values| == 0 then ([], fill)
    else
      var prev := CarryForward(values[..|values| - 1], fill);
      var y := ParseOr(values[|values| - 1], prev.1);
      (prev.0 + [y], y)
  }

  /** Carry-forward, element by element: a parsable value is emitted as
      parsed; an unparsable one repeats the previous output, or the starting
      fill value at position 0; the fill value left behind is the last output
      (the starting one for an empty column). */
  lemma {:induction false} CarryForwardSpec(values: seq<string>, fill: real)
    ensures |CarryForward(values, fill).0| == |values|
    ensures |values| > 0 ==> CarryForward(values, fill).0[0] == ParseOr(values[0], fill)
    ensures forall i :: 0 < i < |values| ==>
      CarryForward(values, fill).0[i] == ParseOr(values[i], CarryForward(values, fill).0[i - 1])
    ensures CarryForward(values, fill).1 ==
      if |values| == 0 then fill else CarryForward(values, fill).0[|values| - 1]
  {
    if |values| > 0 {
      var n := |values|;
      var init := values[..n - 1];
      CarryForwardSpec(init, fill);
      var prev := CarryForward(init, fill);
      var full := CarryForward(values, fill);
      assert full == (prev.0 + [ParseOr(values[n - 1], prev.1)], ParseOr(values[n - 1], prev.1));
      forall i | 0 <= i < n
        ensures full.0[i] == ParseOr(values[i], if i == 0 then fill else full.0[i - 1])
      {
        if i < n - 1 {
          assert init[i] == values[i];
          assert full.0[i] == prev.0[i];
          if i > 0 {
            assert prev.0[i] == ParseOr(init[i], prev.0[i - 1]);
            assert full.0[i - 1] == prev.0[i - 1];
          } else {
            assert prev.0[i] == ParseOr(init[i], fill);
          }
        } else if i > 0 {
          assert full.0[i - 1] == prev.0[n - 2];
        }
      }
    }
  }

  /** Two successive calls on one instance behave like one call on the
      concatenated columns: the state a call leaves is where the next starts. */
  lemma {:induction false} CarryForwardAppend(a: seq<string>, b: seq<string>, fill: real)
    ensures var first := CarryForward(a, fill);
            var second := CarryForward(b, first.1);
            CarryForward(a + b, fill) == (first.0 + second.0, second.1)
    decreases |b|
  {
    if |b| > 0 {
      var n := |b|;
      var whole, init := a + b, b[..n - 1];
      CarryForwardAppend(a, init, fill);
      assert whole[..|whole| - 1] == a + init;
      assert whole[|whole| - 1] == b[n - 1];
      var first := CarryForward(a, fill);
      var mid := CarryForward(init, first.1);
      var y := ParseOr(b[n - 1], mid.1);
      assert CarryForward(b, first.1) == (mid.0 + [y], y);
      assert CarryForward(whole, fill) == ((first.0 + mid.0) + [y], y);
      assert (first.0 + mid.0) + [y] == first.0 + (mid.0 + [y]);
    } else {
      assert a + b == a;
      assert CarryForward(a, fill).0 + [] == CarryForward(a, fill).0;
    }
  }

  /** While nothing has parsed yet, the column repeats the fill value the
      call started from: whatever an earlier call (on another column, or
      another file) last parsed. */
  lemma {:induction false} CarryForwardUnparsedPrefix(values: seq<string>, fill: real, i: nat)
    requires i < |values|
    requires forall k :: 0 <= k <= i ==> ParseNum(values[k]).None?
    ensures CarryForward(values, fill).0[i] == fill
  {
    CarryForwardSpec(values, fill);
    if i > 0 {
      CarryForwardUnparsedPrefix(values, fill, i - 1);
    }
  }

  /** Parse-or-carry-forward; the fill value is instance state that every
      call reads and updates. */
  class NonZeroNumTransformer {
    var fillVal: real
    const normalize: bool

    constructor (fillValue: real, normalize: bool)
      ensures this.fillVal == fillValue && this.normalize == normalize
    {
      this.fillVal := fillValue;
      this.normalize := normalize;
    }

    /** `_transform`: the carry-forward column, and `fill_val` updated on every successful parse. */
    method RawTransform(values: seq<string>) returns (r: seq<real>)
      modifies this
      ensures (r, fillVal) == CarryForward(values, old(fillVal))
    {
      var a := new real[|values|](_ => 0.0);
      var i := 0;
      while i < |values|
        invariant 0 <= i <= |values|
        invariant (a[..i], fillVal) == CarryForward(values[..i], old(fillVal))
      {
        assert values[..i + 1][..i] == values[..i];
        match ParseNum(values[i]) {
          case Some(x) =>
            a[i] := x;
            fillVal := x;
          case None =>
            a[i] := fillVal;
        }
        assert a[..i + 1] == a[..i] + [a[i]];
        i := i + 1;
      }
      assert values[..i] == values;
      assert a[..i] == a[..];
      r := a[..];
    }

    /** `transform`. */
    method Transform(values: seq<string>) returns (r: Result<seq<real>>)
      modifies this
      ensures fillVal == CarryForward(values, old(fillVal)).1
      ensures r == Finish(normalize, MinMax, CarryForward(values, old(fillVal)).0)
    {
      var raw := RawTransform(values);
      r := Finish(normalize, MinMax, raw);
    }
  }

  // ---------------------------------------------------------------------------
  // OneHotEncoder

  /** The distinct values of a column in first-seen order (the keys of
      `encodings`, ordered by the index each received). */
  function Vocabulary(values: seq<string>): (voc: seq<string>)
    ensures NoDuplicates(voc)
    ensures forall x :: x in voc <==> x in values
    decreases |values|
  {
    if |values| == 0 then []
    else
      var v := Vocabulary(values[..|values| - 1]);
      if values[|values| - 1] in v then v else v + [values[|values| - 1]]
  }

  /** Position of the first occurrence of `x` in `s`. */
  function IndexOf(s: seq<string>, x: string): (k: nat)
    requires x in s
    ensures k < |s| && s[k] == x && x !in s[..k]
  {
    if s[0] == x then 0 else 1 + IndexOf(s[1..], x)
  }

  /** The indicator row of width `width` with its 1 at `k`. */
  function IndicatorRow(width: nat, k: nat): seq<real>
  {
    seq(width, j => if j == k then 1.0 else 0.0)
  }

  /** `OneHotEncoder._transform` as a value: one indicator row per value,
      the 1 at the value's first-seen index. */
  function OneHot(values: seq<string>): (m: seq<seq<real>>)
    ensures |m| == |values|
    ensures forall i :: 0 <= i < |m| ==> |m[i]| == |Vocabulary(values)|
  {
    var voc := Vocabulary(values);
    seq(|values|, i requires 0 <= i < |values| =>
      IndicatorRow(|voc|, IndexOf(voc, values[i])))
  }

  predicate NoDuplicates(s: seq<string>)
  {
    forall i, j :: 0 <= i < j < |s| ==> s[i] != s[j]
  }

  /** Extending a column only appends to its vocabulary. */
  lemma VocabularyGrows(values: seq<string>, x: string)
    ensures Vocabulary(values + [x]) == if x in Vocabulary(values) then Vocabulary(values) else Vocabulary(values) + [x]
  {
    assert (values + [x])[..|values|] == values;
  }

  /** One more value of the column only appends to the vocabulary of the
      values before it. */
  lemma VocabularyOfPrefix(values: seq<string>, i: nat)
    requires i < |values|
    ensures Vocabulary(values[..i + 1]) ==
      if values[i] in Vocabulary(values[..i]) then Vocabulary(values[..i]) else Vocabulary(values[..i]) + [values[i]]
  {
    assert values[..i + 1] == values[..i] + [values[i]];
    VocabularyGrows(values[..i], values[i]);
  }

  /** Indices into a sequence are unaffected by appending to it. */
  lemma IndexOfAppend(s: seq<string>, x: string, y: string)
    requires y in s
    ensures IndexOf(s + [x], y) == IndexOf(s, y)
  {
    var k := IndexOf(s, y);
    assert (s + [x])[..k] == s[..k];
    IndexOfUnique(s + [x], y, k);
  }

  /** The first occurrence is the only index before which `x` does not occur. */
  lemma IndexOfUnique(s: seq<string>, x: string, k: nat)
    requires k < |s| && s[k] == x && x !in s[..k]
    ensures IndexOf(s, x) == k
  {
  }

  /** Giving a new value the next index keeps the encodings the first-seen
      index of every value in the grown vocabulary. */
  lemma EncodingsExtend(encodings: map<string, nat>, voc: seq<string>, value: string)
    requires forall x :: x in encodings <==> x in voc
    requires forall x :: x in encodings ==> encodings[x] == IndexOf(voc, x)
    requires value !in voc
    ensures forall x :: x in encodings[value := |voc|] <==> x in voc + [value]
    ensures forall x :: x in encodings[value := |voc|] ==> encodings[value := |voc|][x] == IndexOf(voc + [value], x)
  {
    forall x | x in encodings
      ensures IndexOf(voc + [value], x) == IndexOf(voc, x)
    {
      IndexOfAppend(voc, value, x);
    }
    assert (voc + [value])[..|voc|] == voc;
    IndexOfUnique(voc + [value], value, |voc|);
  }

  /** A distinct-value count: in a sequence without duplicates, the length is
      the number of distinct elements. */
  lemma {:induction false} DistinctCount(s: seq<string>)
    requires NoDuplicates(s)
    ensures |set x | x in s| == |s|
  {
    if |s| > 0 {
      var t := s[..|s| - 1];
      DistinctCount(t);
      assert s == t + [s[|s| - 1]];
      assert (set x | x in s) == (set x | x in t) + {s[|s| - 1]};
      assert s[|s| - 1] !in t;
    }
  }

  /** The rank of a value is the number of distinct values seen before its
      first occurrence. */
  lemma {:induction false} RankIsFirstSeen(values: seq<string>, i: nat)
    requires i < |values| && values[i] !in values[..i]
    ensures IndexOf(Vocabulary(values), values[i]) == |Vocabulary(values[..i])|
    decreases |values|
  {
    var n := |values|;
    if i == n - 1 {
      assert values == values[..i] + [values[i]];
      VocabularyGrows(values[..i], values[i]);
      IndexOfUnique(Vocabulary(values), values[i], |Vocabulary(values[..i])|);
    } else {
      var init := values[..n - 1];
      assert init[..i] == values[..i];
      RankIsFirstSeen(init, i);
      assert values == init + [values[n - 1]];
      VocabularyGrows(init, values[n - 1]);
      assert values[i] in init;
      if values[n - 1] !in Vocabulary(init) {
        IndexOfAppend(Vocabulary(init), values[n - 1], values[i]);
      }
    }
  }

  /** One-hot output has one row per value, each as wide as the number of
      distinct values in the column. */
  lemma OneHotWidth(values: seq<string>)
    ensures |OneHot(values)| == |values|
    ensures forall i :: 0 <= i < |values| ==> |OneHot(values)[i]| == |set x | x in values|
  {
    var voc := Vocabulary(values);
    DistinctCount(voc);
    assert (set x | x in voc) == (set x | x in values);
  }

  /** Row `i` of the one-hot output holds exactly one 1, at the first-seen
      index of `values[i]`, and zeros elsewhere. */
  lemma OneHotRowIsIndicator(values: seq<string>, i: nat)
    requires i < |values|
    ensures var row, k := OneHot(values)[i], IndexOf(Vocabulary(values), values[i]);
      && k < |row| && row[k] == 1.0
      && (forall j :: 0 <= j < |row| && j != k ==> row[j] == 0.0)
  {
  }

  /** Two one-hot rows are equal exactly when their values are. */
  lemma OneHotRowsEqual(values: seq<string>, i: nat, j: nat)
    requires i < |values| && j < |values|
    ensures OneHot(values)[i] == OneHot(values)[j] <==> values[i] == values[j]
  {
    var voc := Vocabulary(values);
    var m := OneHot(values);
    var ki, kj := IndexOf(voc, values[i]), IndexOf(voc, values[j]);
    if m[i] == m[j] {
      assert m[i][ki] == 1.0;
      assert m[j][ki] == 1.0;
      assert ki == kj;
    }
  }

  /** A column of distinct values is its own vocabulary. */
  lemma {:induction false} VocabularyOfDistinct(values: seq<string>)
    requires NoDuplicates(values)
    ensures Vocabulary(values) == values
    decreases |values|
  {
    if |values| > 0 {
      var init, last := values[..|values| - 1], values[|values| - 1];
      assert values == init + [last];
      VocabularyOfDistinct(init);
      VocabularyGrows(init, last);
      assert last !in init by {
        forall k | 0 <= k < |init| ensures init[k] != last {
          assert values[k] == init[k];
        }
      }
    }
  }

  /** Distinct values encode as the identity matrix: value `i` gets the
      indicator row with its 1 at `i`. */
  lemma OneHotOfDistinct(values: seq<string>)
    requires NoDuplicates(values)
    ensures |OneHot(values)| == |values|
    ensures forall i :: 0 <= i < |values| ==> OneHot(values)[i] == IndicatorRow(|values|, i)
  {
    VocabularyOfDistinct(values);
    forall i | 0 <= i < |values|
      ensures OneHot(values)[i] == IndicatorRow(|values|, i)
    {
      assert values[i] !in values[..i] by {
        forall k | 0 <= k < i ensures values[..i][k] != values[i] {
          assert values[..i][k] == values[k];
        }
      }
      IndexOfUnique(values, values[i], i);
    }
  }

  /** Five pairwise distinct values. */
  predicate Distinct5(a: string, b: string, c: string, d: string, e: string)
  {
    a != b && a != c && a != d && a != e && b != c && b != d && b != e
    && c != d && c != e && d != e
  }

  /** A value not yet seen is appended to the vocabulary. */
  lemma VocabularyAddsNew(values: seq<string>, voc: seq<string>, x: string)
    requires Vocabulary(values) == voc && x !in voc
    ensures Vocabulary(values + [x]) == voc + [x]
  {
    VocabularyGrows(values, x);
  }

  /** A value already seen leaves the vocabulary as it is. */
  lemma VocabularyKeepsSeen(values: seq<string>, voc: seq<string>, x: string)
    requires Vocabulary(values) == voc && x in voc
    ensures Vocabulary(values + [x]) == voc
  {
    VocabularyGrows(values, x);
  }

  /** Three new distinct values are appended in order. */
  lemma VocabularyAddsThree(values: seq<string>, voc: seq<string>, c: string, d: string, e: string)
    requires Vocabulary(values) == voc && c !in voc && d !in voc && e !in voc
    requires c != d && c != e && d != e
    ensures Vocabulary(values + [c, d, e]) == voc + [c, d, e]
  {
    VocabularyAddsNew(values, voc, c);
    VocabularyAddsNew(values + [c], voc + [c], d);
    VocabularyAddsNew(values + [c] + [d], voc + [c] + [d], e);
    assert values + [c] + [d] + [e] == values + [c, d, e];
    assert voc + [c] + [d] + [e] == voc + [c, d, e];
  }

  /** Two values already seen leave the vocabulary as it is. */
  lemma VocabularyKeepsTwo(values: seq<string>, voc: seq<string>, x: string, y: string)
    requires Vocabulary(values) == voc && x in voc && y in voc
    ensures Vocabulary(values + [x, y]) == voc
  {
    VocabularyKeepsSeen(values, voc, x);
    VocabularyKeepsSeen(values + [x], voc, y);
    assert values + [x] + [y] == values + [x, y];
  }

  /** The column `a, b, a` of two distinct values has the vocabulary `a, b`. */
  lemma VocabularyOfRepeatHead(a: string, b: string)
    requires a != b
    ensures Vocabulary([a, b, a]) == [a, b]
  {
    assert Vocabulary([a]) == [a] by {
      assert [a][..0] == [];
    }
    VocabularyAddsNew([a], [a], b);
    assert [a] + [b] == [a, b];
    VocabularyKeepsSeen([a, b], [a, b], a);
    assert [a, b] + [a] == [a, b, a];
  }

  /** The column `a, b, a, c, d, e, d, b` of five distinct values has the
      vocabulary `a, b, c, d, e`. */
  lemma VocabularyOfRepeats(a: string, b: string, c: string, d: string, e: string)
    requires Distinct5(a, b, c, d, e)
    ensures Vocabulary([a, b, a, c, d, e, d, b]) == [a, b, c, d, e]
  {
    var head := [a, b, a];
    VocabularyOfRepeatHead(a, b);
    VocabularyAddsThree(head, [a, b], c, d, e);
    assert [a, b] + [c, d, e] == [a, b, c, d, e];
    VocabularyKeepsTwo(head + [c, d, e], [a, b, c, d, e], d, b);
    assert head + [c, d, e] + [d, b] == [a, b, a, c, d, e, d, b];
  }

  /** In `a, b, c, d, e` of distinct values, each value is at its own place. */
  lemma IndexOfFive(a: string, b: string, c: string, d: string, e: string)
    requires Distinct5(a, b, c, d, e)
    ensures IndexOf([a, b, c, d, e], a) == 0 && IndexOf([a, b, c, d, e], b) == 1
    ensures IndexOf([a, b, c, d, e], c) == 2 && IndexOf([a, b, c, d, e], d) == 3
    ensures IndexOf([a, b, c, d, e], e) == 4
  {
    var voc := [a, b, c, d, e];
    assert voc[..1] == [a] && voc[..2] == [a, b] && voc[..3] == [a, b, c] && voc[..4] == [a, b, c, d];
    IndexOfUnique(voc, a, 0);
    IndexOfUnique(voc, b, 1);
    IndexOfUnique(voc, c, 2);
    IndexOfUnique(voc, d, 3);
    IndexOfUnique(voc, e, 4);
  }

  /** The five indicator rows of width 5. */
  lemma IndicatorRowsOfFive()
    ensures IndicatorRow(5, 0) == [1.0, 0.0, 0.0, 0.0, 0.0]
    ensures IndicatorRow(5, 1) == [0.0, 1.0, 0.0, 0.0, 0.0]
    ensures IndicatorRow(5, 2) == [0.0, 0.0, 1.0, 0.0, 0.0]
    ensures IndicatorRow(5, 3) == [0.0, 0.0, 0.0, 1.0, 0.0]
    ensures IndicatorRow(5, 4) == [0.0, 0.0, 0.0, 0.0, 1.0]
  {
  }

  /** Five distinct values encode as the 5 x 5 identity. */
  lemma OneHotOfFive(a: string, b: string, c: string, d: string, e: string)
    requires Distinct5(a, b, c, d, e)
    ensures OneHot([a, b, c, d, e]) ==
      [[1.0, 0.0, 0.0, 0.0, 0.0],
       [0.0, 1.0, 0.0, 0.0, 0.0],
       [0.0, 0.0, 1.0, 0.0, 0.0],
       [0.0, 0.0, 0.0, 1.0, 0.0],
       [0.0, 0.0, 0.0, 0.0, 1.0]]
  {
    var values := [a, b, c, d, e];
    assert NoDuplicates(values) by {
      forall i, j | 0 <= i < j < 5 ensures values[i] != values[j] {
      }
    }
    OneHotOfDistinct(values);
    IndicatorRowsOfFive();
  }

  /** A repeated value of `a, b, a, c, d, e, d, b` gets the row of its first
      occurrence. */
  lemma OneHotOfRepeats(a: string, b: string, c: string, d: string, e: string)
    requires Distinct5(a, b, c, d, e)
    ensures OneHot([a, b, a, c, d, e, d, b]) ==
      [[1.0, 0.0, 0.0, 0.0, 0.0],
       [0.0, 1.0, 0.0, 0.0, 0.0],
       [1.0, 0.0, 0.0, 0.0, 0.0],
       [0.0, 0.0, 1.0, 0.0, 0.0],
       [0.0, 0.0, 0.0, 1.0, 0.0],
       [0.0, 0.0, 0.0, 0.0, 1.0],
       [0.0, 0.0, 0.0, 1.0, 0.0],
       [0.0, 1.0, 0.0, 0.0, 0.0]]
  {
    VocabularyOfRepeats(a, b, c, d, e);
    IndexOfFive(a, b, c, d, e);
    IndicatorRowsOfFive();
  }

  /** The five quality labels of the encoder's test columns are distinct. */
  lemma QualityLabelsDistinct()
    ensures Distinct5("awful", "poor", "ok", "good", "great")
  {
    assert "awful"[0] != "great"[0] && "poor"[0] != "good"[0];
  }

  /** `awful, poor, ok, good, great` encodes as the 5 x 5 identity. */
  lemma OneHotTransformTest()
    ensures OneHot(["awful", "poor", "ok", "good", "great"]) ==
      [[1.0, 0.0, 0.0, 0.0, 0.0],
       [0.0, 1.0, 0.0, 0.0, 0.0],
       [0.0, 0.0, 1.0, 0.0, 0.0],
       [0.0, 0.0, 0.0, 1.0, 0.0],
       [0.0, 0.0, 0.0, 0.0, 1.0]]
  {
    QualityLabelsDistinct();
    OneHotOfFive("awful", "poor", "ok", "good", "great");
  }

  /** `awful, poor, awful, ok, good, great, good, poor` encodes in five
      columns, each repeat on the row of its first occurrence. */
  lemma OneHotTransformDuplicatesTest()
    ensures OneHot(["awful", "poor", "awful", "ok", "good", "great", "good", "poor"]) ==
      [[1.0, 0.0, 0.0, 0.0, 0.0],
       [0.0, 1.0, 0.0, 0.0, 0.0],
       [1.0, 0.0, 0.0, 0.0, 0.0],
       [0.0, 0.0, 1.0, 0.0, 0.0],
       [0.0, 0.0, 0.0, 1.0, 0.0],
       [0.0, 0.0, 0.0, 0.0, 1.0],
       [0.0, 0.0, 0.0, 1.0, 0.0],
       [0.0, 1.0, 0.0, 0.0, 0.0]]
  {
    QualityLabelsDistinct();
    OneHotOfRepeats("awful", "poor", "ok", "good", "great");
  }

  /** Normalizing a one-hot block: an empty column raises (there is no entry to
      take the maximum of); a single category becomes all zeros; two or more
      categories leave the block unchanged. */
  lemma OneHotNormalized(values: seq<string>)
    ensures |values| == 0 ==> NormalizeMatrix(OneHot(values)) == Failure(ValueError)
    ensures |values| > 0 && |Vocabulary(values)| == 1 ==>
      NormalizeMatrix(OneHot(values)) == Success(seq(|values|, _ => [0.0]))
    ensures |Vocabulary(values)| >= 2 ==> NormalizeMatrix(OneHot(values)) == Success(OneHot(values))
  {
    var m := OneHot(values);
    var voc := Vocabulary(values);
    var flat := Flatten(m);
    if |values| > 0 {
      FlattenMembers(m, 1.0);
      var k0 := IndexOf(voc, values[0]);
      assert m[0][k0] == 1.0;
      assert 1.0 in flat;
      forall x | x in flat
        ensures x == 0.0 || x == 1.0
      {
        FlattenMembers(m, x);
      }
      MinMaxBounds(flat);
      var lo, hi := Min(flat), Max(flat);
      assert hi == 1.0;
      if |voc| == 1 {
        forall x | x in flat
          ensures x == 1.0
        {
          FlattenMembers(m, x);
          var i, j :| 0 <= i < |m| && 0 <= j < |m[i]| && m[i][j] == x;
          assert j == 0 == IndexOf(voc, values[i]);
        }
        assert lo == 1.0;
        var r := NormalizeMatrix(m).value;
        forall i | 0 <= i < |values|
          ensures r[i] == [0.0]
        {
          assert |r[i]| == 1;
        }
        assert r == seq(|values|, _ => [0.0]);
      } else {
        var k1 := if k0 == 0 then 1 else 0;
        assert m[0][k1] == 0.0;
        FlattenMembers(m, 0.0);
        assert lo == 0.0;
        var r := NormalizeMatrix(m).value;
        forall i | 0 <= i < |values|
          ensures r[i] == m[i]
        {
          forall j | 0 <= j < |m[i]|
            ensures r[i][j] == m[i][j]
          {
            assert r[i][j] == Rescale(m[i][j], 0.0, 1.0) == m[i][j] / 1.0;
          }
        }
        assert |r| == |m|;
        assert r == m;
      }
    }
  }

  /** `OneHotEncoder.transform` as a value. */
  function OneHotTransform(normalize: bool, values: seq<string>): Result<seq<seq<real>>>
  {
    if normalize then NormalizeMatrix(OneHot(values)) else Success(OneHot(values))
  }

  /** A successful one-hot transform has one row per value, each as wide as
      the vocabulary; only an empty matrix fails to normalize. */
  lemma OneHotTransformShape(normalize: bool, values: seq<string>)
    ensures OneHotTransform(normalize, values).Success? <==>
      !normalize || (|values| > 0 && |Vocabulary(values)| > 0)
    ensures OneHotTransform(normalize, values).Success? ==>
      && |OneHotTransform(normalize, values).value| == |values|
      && forall i :: 0 <= i < |values| ==> |OneHotTransform(normalize, values).value[i]| == |Vocabulary(values)|
  {
    var m := OneHot(values);
    FlattenLength(m, |Vocabulary(values)|);
  }

  /** A matrix whose rows all have width `w` flattens to `|m| * w` entries. */
  lemma {:induction false} FlattenLength(m: seq<seq<real>>, w: nat)
    requires forall i :: 0 <= i < |m| ==> |m[i]| == w
    ensures |Flatten(m)| == |m| * w
  {
    if |m| > 0 {
      FlattenLength(m[1..], w);
    }
  }

  /** Category to indicator row; no state survives between calls. */
  class OneHotEncoder {
    const normalize: bool

    constructor (normalize: bool)
      ensures this.normalize == normalize
    {
      this.normalize := normalize;
    }

    /** The first loop of `_transform`: the `encodings` dictionary gives each
        value the number of distinct values seen before it. */
    static method AssignIndices(values: seq<string>) returns (encodings: map<string, nat>, index: nat)
      ensures index == |Vocabulary(values)|
      ensures forall x :: x in encodings <==> x in values
      ensures forall x :: x in encodings ==> encodings[x] == IndexOf(Vocabulary(values), x)
    {
      encodings, index := map[], 0;
      var i := 0;
      ghost var voc: seq<string> := [];
      while i < |values|
        invariant 0 <= i <= |values|
        invariant voc == Vocabulary(values[..i])
        invariant index == |voc|
        invariant forall x :: x in encodings <==> x in voc
        invariant forall x :: x in encodings ==> encodings[x] == IndexOf(voc, x)
      {
        var value := values[i];
        VocabularyOfPrefix(values, i);
        if value !in encodings {
          EncodingsExtend(encodings, voc, value);
          encodings := encodings[value := index];
          index := index + 1;
          voc := voc + [value];
        }
        i := i + 1;
      }
      assert values[..i] == values;
    }

    /** The second loop of `_transform`: a zero matrix of `width` columns
        gets a 1 in row `p` at the index `encodings` gives `values[p]`. */
    static method MarkRows(values: seq<string>, encodings: map<string, nat>, width: nat) returns (r: seq<seq<real>>)
      requires forall p :: 0 <= p < |values| ==> values[p] in encodings && encodings[values[p]] < width
      ensures |r| == |values|
      ensures forall p :: 0 <= p < |values| ==> r[p] == IndicatorRow(width, encodings[values[p]])
    {
      var numerical := new real[|values|, width]((_, _) => 0.0);
      var i := 0;
      while i < |values|
        invariant 0 <= i <= |values|
        invariant forall p, q :: 0 <= p < |values| && 0 <= q < width ==>
          numerical[p, q] == if p < i && q == encodings[values[p]] then 1.0 else 0.0
      {
        numerical[i, encodings[values[i]]] := 1.0;
        i := i + 1;
      }
      r := seq(|values|, p requires 0 <= p < |values| reads numerical =>
        seq(width, q requires 0 <= q < width reads numerical => numerical[p, q]));
    }

    /** `_transform`: a dictionary assigns first-seen indices, then a zero
        matrix gets one 1 per row. */
    method RawTransform(values: seq<string>) returns (r: seq<seq<real>>)
      ensures r == OneHot(values)
    {
      var encodings, index := AssignIndices(values);
      r := MarkRows(values, encodings, index);
    }

    /** `transform`. */
    method Transform(values: seq<string>) returns (r: Result<seq<seq<real>>>)
      ensures r == OneHotTransform(normalize, values)
    {
      var raw := RawTransform(values);
      r := if normalize then NormalizeMatrix(raw) else Success(raw);
    }
  }
}
