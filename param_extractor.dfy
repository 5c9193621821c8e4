/** The argument emitter and short-flag allocator (`_extract_parameters`):
    one `add_argument` record per field of a model, in the model's order,
    with a long flag built from an optional prefix and a short alias handed
    out first come, first served on the field's first letter. */
module ParamExtractor {
  import opened CmdTypes
  import opened FlagTranslator

  /** `name.replace("_", "-")`. */
  function Dashed(name: string): (r: string)
    ensures |r| == |name|
    ensures forall i :: 0 <= i < |name| ==> r[i] == if name[i] == '_' then '-' else name[i]
  {
    if name == [] then [] else [if name[0] == '_' then '-' else name[0]] + Dashed(name[1..])
  }

  /** The long option: the prefix and a dash come first only when a prefix
      is given and parallel running is on. */
  function LongFlag(name: string, prefix: Option<string>, parallelRunning: bool): string
  {
    "--" + (if prefix.Some? && parallelRunning then prefix.value + "-" else "") + Dashed(name)
  }

  function ShortFlag(letter: char): string
  {
    "-" + [letter]
  }

  /** Short aliases are withheld from prefixed fields under parallel running. */
  predicate ShortAllowed(prefix: Option<string>, parallelRunning: bool)
  {
    !parallelRunning || prefix.None?
  }

  /** `dict(choices).keys()`: the keys in the order they first appear, a
      repeated key keeping its first position. */
  function DictKeys(pairs: seq<(string, Value)>): (keys: seq<string>)
    ensures forall i :: 0 <= i < |pairs| ==> pairs[i].0 in keys
    ensures forall k :: k in keys ==> exists i :: 0 <= i < |pairs| && pairs[i].0 == k
    ensures forall i, j :: 0 <= i < j < |keys| ==> keys[i] != keys[j]
  {
    if pairs == [] then []
    else
      var keys := DictKeys(pairs[..|pairs| - 1]);
      var k := pairs[|pairs| - 1].0;
      if k in keys then keys else keys + [k]
  }

  /** Keys that are already distinct come out as declared, one for one. */
  lemma {:induction false} DictKeysOfDistinctKeys(pairs: seq<(string, Value)>)
    requires forall i, j :: 0 <= i < j < |pairs| ==> pairs[i].0 != pairs[j].0
    ensures |DictKeys(pairs)| == |pairs|
    ensures forall i :: 0 <= i < |pairs| ==> DictKeys(pairs)[i] == pairs[i].0
  {
    if pairs != [] {
      var init := pairs[..|pairs| - 1];
      DictKeysOfDistinctKeys(init);
      assert forall i :: 0 <= i < |init| ==> init[i] == pairs[i];
    }
  }

  /** Key `k` occurs in `pairs` before any occurrence of key `k2`. */
  predicate AppearsBefore(pairs: seq<(string, Value)>, k: string, k2: string)
  {
    exists p :: 0 <= p < |pairs| && pairs[p].0 == k && forall q :: 0 <= q <= p ==> pairs[q].0 != k2
  }

  /** The keys come out in the order of their first occurrences: a key
      listed before another occurs in the choices before any occurrence of
      the other, a repeated key keeping its first position. */
  lemma {:induction false} DictKeysFirstOccurrenceOrder(pairs: seq<(string, Value)>)
    ensures forall i, j :: 0 <= i < j < |DictKeys(pairs)| ==> AppearsBefore(pairs, DictKeys(pairs)[i], DictKeys(pairs)[j])
  {
    if pairs != [] {
      var init := pairs[..|pairs| - 1];
      DictKeysFirstOccurrenceOrder(init);
      var prev := DictKeys(init);
      var k := pairs[|pairs| - 1].0;
      var keys := DictKeys(pairs);
      assert forall q :: 0 <= q < |init| ==> init[q] == pairs[q];
      forall i, j | 0 <= i < j < |keys| ensures AppearsBefore(pairs, keys[i], keys[j]) {
        if j < |prev| {
          assert keys[i] == prev[i] && keys[j] == prev[j];
          assert AppearsBefore(init, prev[i], prev[j]);
          var p :| 0 <= p < |init| && init[p].0 == prev[i] && forall q :: 0 <= q <= p ==> init[q].0 != prev[j];
          assert pairs[p].0 == keys[i];
        } else {
          assert k !in prev && keys == prev + [k];
          assert prev[i] in prev;
          var p :| 0 <= p < |init| && init[p].0 == prev[i];
          assert forall q :: 0 <= q < |init| ==> init[q].0 in prev;
          assert pairs[p].0 == keys[i];
        }
      }
    }
  }

  /** The keyword arguments of the `add_argument` call for field `f`. */
  function Record(f: Field, t: Translation, flags: seq<string>): ArgSpec
  {
    ArgSpec(flags, f.name, f.labelText, f.default, t.action, f.required, t.coercion,
            if f.choices.Some? then Some(DictKeys(f.choices.value)) else None)
  }

  /** The flags of a field given the letters claimed before it. */
  function FieldFlags(f: Field, claimed: set<char>, prefix: Option<string>, parallelRunning: bool): seq<string>
    requires f.name != []
  {
    [LongFlag(f.name, prefix, parallelRunning)]
    + (if f.name[0] !in claimed && ShortAllowed(prefix, parallelRunning) then [ShortFlag(f.name[0])] else [])
  }

  /** The rest of the pass from a set of claimed letters: the records, or
      the first error a field raises (IndexError for an empty name, then
      the translator's). The first letter is claimed whether or not the
      alias is emitted. */
  function ExtractFrom(fields: seq<Field>, prefix: Option<string>, parallelRunning: bool, claimed: set<char>)
    : Result<seq<ArgSpec>>
    decreases |fields|
  {
    if fields == [] then Ok([])
    else if fields[0].name == [] then Err(EmptyFieldName)
    else
      match ResolveAction(fields[0])
      case Err(e) => Err(e)
      case Ok(t) =>
        Prepend([Record(fields[0], t, FieldFlags(fields[0], claimed, prefix, parallelRunning))],
                ExtractFrom(fields[1..], prefix, parallelRunning, claimed + {fields[0].name[0]}))
  }

  /** One call: the claimed-letter set starts empty. It succeeds exactly
      when every field is accepted, with one record per field, and
      otherwise fails with the error of the first rejected field. */
  function Extract(fields: seq<Field>, prefix: Option<string>, parallelRunning: bool): (r: Result<seq<ArgSpec>>)
    ensures r.Ok? <==> AllFieldsOk(fields)
    ensures r.Ok? ==> |r.value| == |fields|
    ensures r.Err? ==>
              exists i :: 0 <= i < |fields| && !FieldOk(fields[i])
                          && (forall j :: 0 <= j < i ==> FieldOk(fields[j]))
                          && r.error == FieldError(fields[i])
  {
    ExtractFromOutcome(fields, prefix, parallelRunning, {});
    if AllFieldsOk(fields) then
      ExtractFromRecords(fields, prefix, parallelRunning, {});
      ExtractFrom(fields, prefix, parallelRunning, {})
    else
      ExtractFrom(fields, prefix, parallelRunning, {})
  }

  /** The loop of `_extract_parameters`, collecting the `add_argument`
      calls it makes in order. */
  method ExtractParameters(fields: seq<Field>, prefix: Option<string>, parallelRunning: bool)
    returns (r: Result<seq<ArgSpec>>)
    ensures r == Extract(fields, prefix, parallelRunning)
  {
    var usedOpts: set<char> := {};
    var params: seq<ArgSpec> := [];
    var i := 0;
    ghost var whole := ExtractFrom(fields, prefix, parallelRunning, {});
    assert fields[i..] == fields;
    PrependNothing(whole);
    while i < |fields|
      invariant 0 <= i <= |fields|
      invariant whole == Prepend(params, ExtractFrom(fields[i..], prefix, parallelRunning, usedOpts))
    {
      var f := fields[i];
      assert fields[i..][0] == f && fields[i..][1..] == fields[i + 1..];
      if f.name == [] {
        return Err(EmptyFieldName);
      }
      var claimedBefore := usedOpts;
      var flags := [LongFlag(f.name, prefix, parallelRunning)];
      if f.name[0] !in usedOpts {
        usedOpts := usedOpts + {f.name[0]};
        if !parallelRunning || prefix.None? {
          flags := flags + [ShortFlag(f.name[0])];
        }
      }
      assert usedOpts == claimedBefore + {f.name[0]};
      assert flags == FieldFlags(f, claimedBefore, prefix, parallelRunning);
      match ResolveAction(f)
      case Err(e) =>
        return Err(e);
      case Ok(t) =>
        PrependTwice(params, [Record(f, t, flags)], ExtractFrom(fields[i + 1..], prefix, parallelRunning, usedOpts));
        params := params + [Record(f, t, flags)];
      i := i + 1;
    }
    assert fields[i..] == [];
    assert params + [] == params;
    r := Ok(params);
  }

  /** A field the pass accepts: a non-empty name and a known class. */
  predicate FieldOk(f: Field)
  {
    f.name != [] && f.className in KnownClassNames
  }

  /** Every field of a model is accepted (FieldOk, written out inline: the
      extra unfolding makes the fold lemmas much more expensive). */
  predicate AllFieldsOk(fields: seq<Field>)
  {
    forall j :: 0 <= j < |fields| ==> fields[j].name != [] && fields[j].className in KnownClassNames
  }

  /** The exception a rejected field raises. */
  function FieldError(f: Field): Error
  {
    if f.name == [] then EmptyFieldName else UnknownFieldClass(f.className)
  }

  /** The pass succeeds exactly when every field is accepted; otherwise it
      fails with the error of the first rejected field. */
  lemma {:induction false} ExtractFromOutcome(fields: seq<Field>, prefix: Option<string>, parallelRunning: bool, claimed: set<char>)
    ensures ExtractFrom(fields, prefix, parallelRunning, claimed).Ok? <==> AllFieldsOk(fields)
    ensures ExtractFrom(fields, prefix, parallelRunning, claimed).Err? ==>
              exists i :: 0 <= i < |fields| && !FieldOk(fields[i])
                          && (forall j :: 0 <= j < i ==> FieldOk(fields[j]))
                          && ExtractFrom(fields, prefix, parallelRunning, claimed).error == FieldError(fields[i])
  {
    if fields == [] {
      return;
    }
    var r := ExtractFrom(fields, prefix, parallelRunning, claimed);
    if !FieldOk(fields[0]) {
      assert r == Err(FieldError(fields[0]));
      assert !FieldOk(fields[0]);
      return;
    }
    var c := fields[0].name[0];
    var tail := fields[1..];
    assert forall j :: 0 <= j < |tail| ==> tail[j] == fields[j + 1];
    ExtractFromOutcome(tail, prefix, parallelRunning, claimed + {c});
    var rest := ExtractFrom(tail, prefix, parallelRunning, claimed + {c});
    assert r.Ok? <==> rest.Ok?;
    assert AllFieldsOk(fields) <==> AllFieldsOk(tail) by {
      if AllFieldsOk(tail) {
        forall j | 0 <= j < |fields| ensures FieldOk(fields[j]) {
          if j > 0 { assert fields[j] == tail[j - 1]; }
        }
      }
    }
    if rest.Err? {
      assert r.error == rest.error;
      var i :| 0 <= i < |tail| && !FieldOk(tail[i])
               && (forall j :: 0 <= j < i ==> FieldOk(tail[j]))
               && rest.error == FieldError(tail[i]);
      assert forall j :: 0 <= j < i + 1 ==> FieldOk(fields[j]) by {
        forall j | 0 <= j < i + 1 ensures FieldOk(fields[j]) {
          if j > 0 { assert fields[j] == tail[j - 1]; }
        }
      }
      assert fields[i + 1] == tail[i];
    }
  }

  predicate NamesNonEmpty(fields: seq<Field>)
  {
    forall j :: 0 <= j < |fields| ==> fields[j].name != []
  }

  /** Field `i` gets its short alias: aliases are allowed here, and neither
      the letters claimed beforehand nor any earlier field holds its first
      letter. */
  predicate ShortGranted(fields: seq<Field>, i: int, claimed: set<char>, prefix: Option<string>, parallelRunning: bool)
    requires NamesNonEmpty(fields) && 0 <= i < |fields|
  {
    && ShortAllowed(prefix, parallelRunning)
    && fields[i].name[0] !in claimed
    && forall j :: 0 <= j < i ==> fields[j].name[0] != fields[i].name[0]
  }

  /** Dropping the first field and claiming its letter leaves every later
      field's alias decision as it was. */
  lemma ShortGrantedShift(fields: seq<Field>, i: int, claimed: set<char>, prefix: Option<string>, parallelRunning: bool)
    requires NamesNonEmpty(fields) && 1 <= i < |fields|
    ensures NamesNonEmpty(fields[1..])
    ensures ShortGranted(fields[1..], i - 1, claimed + {fields[0].name[0]}, prefix, parallelRunning)
            == ShortGranted(fields, i, claimed, prefix, parallelRunning)
  {
    var tail := fields[1..];
    assert forall j :: 0 <= j < |tail| ==> tail[j] == fields[j + 1];
    if ShortGranted(fields, i, claimed, prefix, parallelRunning) {
      forall j | 0 <= j < i - 1 ensures tail[j].name[0] != tail[i - 1].name[0] {
        assert tail[j] == fields[j + 1];
      }
    }
    if ShortGranted(tail, i - 1, claimed + {fields[0].name[0]}, prefix, parallelRunning) {
      forall j | 0 <= j < i ensures fields[j].name[0] != fields[i].name[0] {
        if j > 0 { assert fields[j] == tail[j - 1]; }
      }
    }
  }

  lemma {:induction false} ExtractFromRecords(fields: seq<Field>, prefix: Option<string>, parallelRunning: bool, claimed: set<char>)
    requires AllFieldsOk(fields)
    ensures ExtractFrom(fields, prefix, parallelRunning, claimed).Ok?
    ensures var r := ExtractFrom(fields, prefix, parallelRunning, claimed).value;
            && |r| == |fields|
            && forall i :: 0 <= i < |fields| ==>
                 r[i] == Record(fields[i], ResolveAction(fields[i]).value,
                                [LongFlag(fields[i].name, prefix, parallelRunning)]
                                + (if ShortGranted(fields, i, claimed, prefix, parallelRunning)
                                   then [ShortFlag(fields[i].name[0])] else []))
  {
    if fields != [] {
      assert NamesNonEmpty(fields) by {
        forall j | 0 <= j < |fields| ensures fields[j].name != [] {
          assert FieldOk(fields[j]);
        }
      }
      assert FieldOk(fields[0]);
      var c := fields[0].name[0];
      var tail := fields[1..];
      assert AllFieldsOk(tail) by {
        forall j | 0 <= j < |tail| ensures FieldOk(tail[j]) {
          assert tail[j] == fields[j + 1];
        }
      }
      ExtractFromRecords(tail, prefix, parallelRunning, claimed + {c});
      var rest := ExtractFrom(tail, prefix, parallelRunning, claimed + {c}).value;
      var first := Record(fields[0], ResolveAction(fields[0]).value, FieldFlags(fields[0], claimed, prefix, parallelRunning));
      var r := ExtractFrom(fields, prefix, parallelRunning, claimed).value;
      assert r == [first] + rest;
      forall i | 1 <= i < |fields|
        ensures r[i] == Record(fields[i], ResolveAction(fields[i]).value,
                               [LongFlag(fields[i].name, prefix, parallelRunning)]
                               + (if ShortGranted(fields, i, claimed, prefix, parallelRunning)
                                  then [ShortFlag(fields[i].name[0])] else []))
      {
        ShortGrantedShift(fields, i, claimed, prefix, parallelRunning);
        assert r[i] == rest[i - 1];
        assert tail[i - 1] == fields[i];
      }
    }
  }

  /** What one call emits for well-formed fields: one record per field, in
      order, each with the unprefixed name as dest, the label as help, the
      field's default and required values, the translator's action and
      type, the keys of its choices, the long flag, and the short alias
      exactly when it is granted. */
  lemma ExtractRecords(fields: seq<Field>, prefix: Option<string>, parallelRunning: bool)
    requires AllFieldsOk(fields)
    ensures Extract(fields, prefix, parallelRunning).Ok?
    ensures var r := Extract(fields, prefix, parallelRunning).value;
            && |r| == |fields|
            && forall i :: 0 <= i < |fields| ==>
                 && r[i].dest == fields[i].name
                 && r[i].help == fields[i].labelText
                 && r[i].default == fields[i].default
                 && r[i].required == fields[i].required
                 && ResolveAction(fields[i]) == Ok(Translation(r[i].action, r[i].coercion))
                 && r[i].choices == (if fields[i].choices.Some? then Some(DictKeys(fields[i].choices.value)) else None)
                 && (|r[i].flags| == 1 || |r[i].flags| == 2)
                 && r[i].flags[0]
                    == "--" + (if prefix.Some? && parallelRunning then prefix.value + "-" else "") + Dashed(fields[i].name)
                 && (|r[i].flags| == 2 <==> ShortGranted(fields, i, {}, prefix, parallelRunning))
                 && (|r[i].flags| == 2 ==> r[i].flags[1] == "-" + [fields[i].name[0]])
  {
    ExtractFromRecords(fields, prefix, parallelRunning, {});
  }

  /** Within one call no two records share a short alias. */
  lemma ShortFlagsDistinct(fields: seq<Field>, prefix: Option<string>, parallelRunning: bool)
    requires Extract(fields, prefix, parallelRunning).Ok?
    ensures var r := Extract(fields, prefix, parallelRunning).value;
            forall i, j :: 0 <= i < j < |r| && |r[i].flags| == 2 && |r[j].flags| == 2 ==>
              r[i].flags[1] != r[j].flags[1]
  {
    ExtractFromOutcome(fields, prefix, parallelRunning, {});
    ExtractRecords(fields, prefix, parallelRunning);
    var r := Extract(fields, prefix, parallelRunning).value;
    forall i, j | 0 <= i < j < |r| && |r[i].flags| == 2 && |r[j].flags| == 2
      ensures r[i].flags[1] != r[j].flags[1]
    {
      assert ShortGranted(fields, j, {}, prefix, parallelRunning);
      assert r[i].flags[1][1] == fields[i].name[0];
      assert r[j].flags[1][1] == fields[j].name[0];
    }
  }

  /** A module's fields under parallel running: every long flag carries the
      module key and no field gets a short alias. */
  lemma PrefixedUnderParallelRunning(fields: seq<Field>, key: string)
    requires Extract(fields, Some(key), true).Ok?
    ensures var r := Extract(fields, Some(key), true).value;
            && |r| == |fields|
            && forall i :: 0 <= i < |fields| ==> r[i].flags == ["--" + key + "-" + Dashed(fields[i].name)]
  {
    ExtractFromOutcome(fields, Some(key), true, {});
    ExtractFromRecords(fields, Some(key), true, {});
    var r := Extract(fields, Some(key), true).value;
    forall i | 0 <= i < |fields| ensures r[i].flags == ["--" + key + "-" + Dashed(fields[i].name)] {
      assert !ShortGranted(fields, i, {}, Some(key), true);
      assert r[i].flags == [LongFlag(fields[i].name, Some(key), true)] + [];
      assert "--" + (key + "-") + Dashed(fields[i].name) == "--" + key + "-" + Dashed(fields[i].name);
    }
  }

  /** Three fields where the first two share an initial (alpha, amber,
      beta): the first gets its alias, the second none, the third its own. */
  lemma SharedInitialLosesAlias(first: Field, second: Field, third: Field)
    requires FieldOk(first) && FieldOk(second) && FieldOk(third)
    requires first.name[0] == second.name[0] && third.name[0] != first.name[0]
    ensures var r := Extract([first, second, third], None, false);
            && r.Ok? && |r.value| == 3
            && r.value[0].flags == ["--" + Dashed(first.name), "-" + [first.name[0]]]
            && r.value[1].flags == ["--" + Dashed(second.name)]
            && r.value[2].flags == ["--" + Dashed(third.name), "-" + [third.name[0]]]
  {
    var fields := [first, second, third];
    assert AllFieldsOk(fields);
    ExtractRecords(fields, None, false);
    forall n: string ensures "--" + "" + n == "--" + n {
      assert "" + n == n;
    }
    assert ShortGranted(fields, 0, {}, None, false);
    assert !ShortGranted(fields, 1, {}, None, false);
    assert ShortGranted(fields, 2, {}, None, false);
  }
}
