/**
 * The spreadsheet-facing validators and parsers of NNX/ExcelFunctions.cs: the
 * named-object store as a map, array classification (nnMakeArray), weight
 * resolution (nnMakeWeights), the weight-shape checks of
 * nnMakeMultilayerPerceptron, the layer bounds of nnGetWeights, the row filter
 * that prepares a training set, and the article helper.
 *
 * A spreadsheet cell is a value of `Cell`; a null argument array is modelled as
 * the empty sequence, which every operation treats the same way.
 */
module ExcelFunctions {
  import opened Training

  // ------------------------------------------------------------------ values

  /** What a spreadsheet cell hands to a function: nothing, an empty cell, a
      number, an integer, a string, or anything else (a boolean, an error value). */
  datatype Cell = Null | Empty | Number(x: real) | Integer(n: int) | Text(s: string) | Other

  /** An object kept in the store under a name. */
  datatype StoredObject =
    | NumberArray(numbers: seq<real>)
    | StringArray(strings: seq<string>)
    | Weights(layers: Layers)
    | Perceptron(nn: Network)
    | OtherObject                      // trainer configurations and the like

  /** The NNXException cases raised by the operations below. */
  datatype NnxError =
    | EmptyArray                                          // "Array cannot be empty."
    | InconsistentArray                                   // numbers and strings in one array
    | BadType(position: nat)                              // element neither number nor string
    | NoWeightArrays                                      // "Argument WeightArrays cannot be null or empty."
    | NotANumberArray(index: nat, name: string)           // 1-based index of the offending name
    | NotWeights                                          // weights argument is no weights object
    | LayerCountMismatch(expected: nat, had: nat)
    | LayerLengthMismatch(layer: nat, expected: nat, had: nat)   // 1-based layer
    | NotANetwork(name: string)
    | LayerOutOfRange(name: string, layers: nat, was: int)
    | HeightMismatch(inputHeight: nat, targetHeight: nat)
    | NoGoodPairs                                         // "There were no good input/target point pairs."

  datatype Result<T> = Ok(value: T) | Err(error: NnxError)

  // ------------------------------------------------------------------ the object store

  /** The object stored under `name` when it is an array of numbers (TryGet<double[]>). */
  function NumberArrayAt(objects: map<string, StoredObject>, name: string): (r: Option<seq<real>>)
    ensures r.Some? <==> name in objects && objects[name].NumberArray?
    ensures r.Some? ==> objects[name] == NumberArray(r.value)
  {
    if name in objects && objects[name].NumberArray? then Some(objects[name].numbers) else None
  }

  /** The object stored under `name` when it is a weights object (TryGet<double[][]>). */
  function WeightsAt(objects: map<string, StoredObject>, name: string): (r: Option<Layers>)
    ensures r.Some? <==> name in objects && objects[name].Weights?
    ensures r.Some? ==> objects[name] == Weights(r.value)
  {
    if name in objects && objects[name].Weights? then Some(objects[name].layers) else None
  }

  /** The named-object store shared by all functions of the add-in. */
  class ObjectStore {
    var objects: map<string, StoredObject>

    constructor ()
      ensures objects == map[]
    {
      objects := map[];
    }

    /** Binds `name` to `obj`, replacing whatever it named before. */
    method Add(name: string, obj: StoredObject)
      modifies this
      ensures objects == old(objects)[name := obj]
      ensures name in objects && objects[name] == obj
      ensures forall other :: other != name ==> (other in objects <==> other in old(objects))
    {
      objects := objects[name := obj];
    }
  }

  // ------------------------------------------------------------------ nnMakeArray

  predicate Blank(c: Cell)
  {
    c.Null? || c.Empty?
  }

  /** A cell that is not blank and neither a number nor a string. */
  predicate Unsupported(c: Cell)
  {
    !Blank(c) && !c.Number? && !c.Text?
  }

  /** The two kinds of array nnMakeArray can build. */
  datatype Mode = Numbers | Strings

  /** A cell of the kind the array holds. */
  predicate Fits(mode: Mode, c: Cell)
  {
    if mode == Numbers then c.Number? else c.Text?
  }

  /** A cell of the other kind. */
  predicate Clashes(mode: Mode, c: Cell)
  {
    if mode == Numbers then c.Text? else c.Number?
  }

  /** Position of the first cell that is neither null nor empty, or |v| if there is none. */
  function FirstNonBlank(v: seq<Cell>): (i: nat)
    ensures i <= |v|
    ensures forall k :: 0 <= k < i ==> Blank(v[k])
    ensures i < |v| ==> !Blank(v[i])
  {
    if |v| == 0 || !Blank(v[0]) then 0 else 1 + FirstNonBlank(v[1..])
  }

  /** What the collecting loop does with cell i: nothing (blank or fitting), or
      the exception it raises. */
  function CellError(mode: Mode, c: Cell, i: nat): Option<NnxError>
  {
    if Blank(c) || Fits(mode, c) then None
    else if Clashes(mode, c) then Some(InconsistentArray)
    else Some(BadType(i))
  }

  /** The exception the collecting loop raises within the first n cells, if any. */
  function ScanError(v: seq<Cell>, mode: Mode, n: nat): Option<NnxError>
    requires n <= |v|
  {
    if n == 0 then None
    else if ScanError(v, mode, n - 1).Some? then ScanError(v, mode, n - 1)
    else CellError(mode, v[n - 1], n - 1)
  }

  /** The numbers among the cells, in order. */
  function NumbersIn(v: seq<Cell>): seq<real>
  {
    if |v| == 0 then []
    else (if v[0].Number? then [v[0].x] else []) + NumbersIn(v[1..])
  }

  /** The strings among the cells, in order. */
  function StringsIn(v: seq<Cell>): seq<string>
  {
    if |v| == 0 then []
    else (if v[0].Text? then [v[0].s] else []) + StringsIn(v[1..])
  }

  /** The classification nnMakeArray evidently intends: the first non-blank cell
      decides the kind of the array, and a first non-blank cell of neither kind
      is reported at its own position, as the collecting loops report theirs.
      The code as written is `ClassifyAsWritten`. */
  function Classify(values: seq<Cell>): Result<StoredObject>
  {
    var first := FirstNonBlank(values);
    if first == |values| then Err(EmptyArray)
    else if values[first].Number? then
      (if ScanError(values, Numbers, |values|).Some? then Err(ScanError(values, Numbers, |values|).value)
       else Ok(NumberArray(NumbersIn(values))))
    else if values[first].Text? then
      (if ScanError(values, Strings, |values|).Some? then Err(ScanError(values, Strings, |values|).value)
       else Ok(StringArray(StringsIn(values))))
    else Err(BadType(first))
  }

  /** What nnMakeArray stores for `values`, or the exception it raises, as the
      code is written: a first non-blank cell of neither kind is always reported
      at position 0, even when blank cells precede it. */
  function ClassifyAsWritten(values: seq<Cell>): Result<StoredObject>
  {
    var first := FirstNonBlank(values);
    if first < |values| && Unsupported(values[first]) then Err(BadType(0)) else Classify(values)
  }

  /** The code as written and the corrected classification disagree exactly when
      the first non-blank cell is of neither kind and follows a blank cell. */
  lemma AsWrittenDiffersOnlyAfterBlanks(values: seq<Cell>)
    ensures ClassifyAsWritten(values) != Classify(values) <==>
      0 < FirstNonBlank(values) < |values| && Unsupported(values[FirstNonBlank(values)])
  {
  }

  /** [empty cell, boolean]: the code blames position 0, which holds the empty cell. */
  lemma BadTypeAsWrittenBlamesBlankCell()
    ensures var v := [Empty, Other];
            ClassifyAsWritten(v) == Err(BadType(0)) && Blank(v[0]) && !Unsupported(v[0])
  {
    var v := [Empty, Other];
    assert FirstNonBlank(v[1..]) == 0;
  }

  lemma {:induction false} NumbersInSnoc(v: seq<Cell>, c: Cell)
    ensures NumbersIn(v + [c]) == NumbersIn(v) + (if c.Number? then [c.x] else [])
  {
    if |v| > 0 {
      assert (v + [c])[1..] == v[1..] + [c];
      NumbersInSnoc(v[1..], c);
    } else {
      assert (v + [c])[1..] == [];
    }
  }

  lemma {:induction false} StringsInSnoc(v: seq<Cell>, c: Cell)
    ensures StringsIn(v + [c]) == StringsIn(v) + (if c.Text? then [c.s] else [])
  {
    if |v| > 0 {
      assert (v + [c])[1..] == v[1..] + [c];
      StringsInSnoc(v[1..], c);
    } else {
      assert (v + [c])[1..] == [];
    }
  }

  /** Every number of the array comes from a number cell, and every number cell
      contributes its number. */
  lemma {:induction false} NumbersInMembers(v: seq<Cell>, x: real)
    ensures x in NumbersIn(v) <==> Number(x) in v
  {
    if |v| > 0 {
      NumbersInMembers(v[1..], x);
      assert v == [v[0]] + v[1..];
    }
  }

  /** Every string of the array comes from a string cell, and every string cell
      contributes its string. */
  lemma {:induction false} StringsInMembers(v: seq<Cell>, s: string)
    ensures s in StringsIn(v) <==> Text(s) in v
  {
    if |v| > 0 {
      StringsInMembers(v[1..], s);
      assert v == [v[0]] + v[1..];
    }
  }

  /** The collecting loop raises nothing exactly when every cell is blank or of
      the array's kind; otherwise it raises what the first other cell calls for. */
  lemma {:induction false} ScanErrorIsFirstMisfit(v: seq<Cell>, mode: Mode, n: nat)
    requires n <= |v|
    ensures ScanError(v, mode, n).None? <==> forall k :: 0 <= k < n ==> Blank(v[k]) || Fits(mode, v[k])
    ensures ScanError(v, mode, n).Some? ==>
      exists k :: 0 <= k < n && ScanError(v, mode, n) == CellError(mode, v[k], k)
                && forall m :: 0 <= m < k ==> Blank(v[m]) || Fits(mode, v[m])
  {
    if n > 0 {
      ScanErrorIsFirstMisfit(v, mode, n - 1);
      if ScanError(v, mode, n - 1).None? && CellError(mode, v[n - 1], n - 1).Some? {
        assert ScanError(v, mode, n) == CellError(mode, v[n - 1], n - 1);
      }
    }
  }

  /** An array is rejected as empty exactly when it holds only null and empty cells. */
  lemma ClassifyEmpty(values: seq<Cell>)
    ensures Classify(values) == Err(EmptyArray) <==> forall k :: 0 <= k < |values| ==> Blank(values[k])
  {
    var first := FirstNonBlank(values);
    if first < |values| && values[first].Number? {
      ScanErrorIsFirstMisfit(values, Numbers, |values|);
    } else if first < |values| && values[first].Text? {
      ScanErrorIsFirstMisfit(values, Strings, |values|);
    }
  }

  /** A number array is built exactly when some cell is a number and every other
      cell is blank; it holds the numbers in their order. */
  lemma ClassifyNumbers(values: seq<Cell>)
    ensures Classify(values).Ok? && Classify(values).value.NumberArray?
        <==> (exists k :: 0 <= k < |values| && values[k].Number?)
             && forall k :: 0 <= k < |values| ==> Blank(values[k]) || values[k].Number?
    ensures Classify(values).Ok? && Classify(values).value.NumberArray? ==>
      Classify(values).value.numbers == NumbersIn(values)
  {
    var first := FirstNonBlank(values);
    ScanErrorIsFirstMisfit(values, Numbers, |values|);
    if (exists k :: 0 <= k < |values| && values[k].Number?)
       && forall k :: 0 <= k < |values| ==> Blank(values[k]) || values[k].Number? {
      var k :| 0 <= k < |values| && values[k].Number?;
      assert first <= k;
    }
  }

  /** A string array is built exactly when some cell is a string and every other
      cell is blank; it holds the strings in their order. */
  lemma ClassifyStrings(values: seq<Cell>)
    ensures Classify(values).Ok? && Classify(values).value.StringArray?
        <==> (exists k :: 0 <= k < |values| && values[k].Text?)
             && forall k :: 0 <= k < |values| ==> Blank(values[k]) || values[k].Text?
    ensures Classify(values).Ok? && Classify(values).value.StringArray? ==>
      Classify(values).value.strings == StringsIn(values)
  {
    var first := FirstNonBlank(values);
    ScanErrorIsFirstMisfit(values, Strings, |values|);
    if (exists k :: 0 <= k < |values| && values[k].Text?)
       && forall k :: 0 <= k < |values| ==> Blank(values[k]) || values[k].Text? {
      var k :| 0 <= k < |values| && values[k].Text?;
      assert first <= k;
    }
  }

  /** The bad-type error names the first cell that is neither blank, a number
      nor a string. */
  lemma ClassifyBadTypeNamesOffender(values: seq<Cell>, p: nat)
    requires Classify(values) == Err(BadType(p))
    ensures p < |values| && Unsupported(values[p])
    ensures forall m :: 0 <= m < p ==> !Unsupported(values[m])
  {
    var first := FirstNonBlank(values);
    if values[first].Number? {
      ScanErrorIsFirstMisfit(values, Numbers, |values|);
    } else if values[first].Text? {
      ScanErrorIsFirstMisfit(values, Strings, |values|);
    }
  }

  /** The inconsistency error is raised only for an array that holds both a
      number and a string. */
  lemma ClassifyInconsistent(values: seq<Cell>)
    requires Classify(values) == Err(InconsistentArray)
    ensures exists k :: 0 <= k < |values| && values[k].Number?
    ensures exists k :: 0 <= k < |values| && values[k].Text?
  {
    var first := FirstNonBlank(values);
    if values[first].Number? {
      ScanErrorIsFirstMisfit(values, Numbers, |values|);
    } else {
      ScanErrorIsFirstMisfit(values, Strings, |values|);
    }
  }

  /** The loop that skips leading null and empty cells. */
  method FindFirstNonBlank(values: seq<Cell>) returns (first: nat)
    ensures first == FirstNonBlank(values)
  {
    first := 0;
    while first < |values| && Blank(values[first])
      invariant first <= |values|
      invariant forall k :: 0 <= k < first ==> Blank(values[k])
    {
      first := first + 1;
    }
    FirstNonBlankIsFirst(values, first);
  }

  /** FirstNonBlank is determined by its three properties. */
  lemma {:induction false} FirstNonBlankIsFirst(v: seq<Cell>, i: nat)
    requires i <= |v| && (forall k :: 0 <= k < i ==> Blank(v[k])) && (i < |v| ==> !Blank(v[i]))
    ensures FirstNonBlank(v) == i
  {
    if i > 0 {
      FirstNonBlankIsFirst(v[1..], i - 1);
    }
  }

  /** The loop that collects the numbers of a number array. */
  method CollectNumbers(values: seq<Cell>) returns (r: Result<seq<real>>)
    ensures ScanError(values, Numbers, |values|).Some? ==> r == Err(ScanError(values, Numbers, |values|).value)
    ensures ScanError(values, Numbers, |values|).None? ==> r == Ok(NumbersIn(values))
  {
    var goodValues: seq<real> := [];
    for i := 0 to |values|
      invariant ScanError(values, Numbers, i).None?
      invariant goodValues == NumbersIn(values[..i])
    {
      var value := values[i];
      NumbersInSnoc(values[..i], value);
      assert values[..i + 1] == values[..i] + [value];
      if Blank(value) {
        continue;
      }
      if value.Number? {
        goodValues := goodValues + [value.x];
        continue;
      }
      ScanErrorPersists(values, Numbers, i + 1);
      if value.Text? {
        return Err(InconsistentArray);
      }
      return Err(BadType(i));
    }
    assert values[..|values|] == values;
    r := Ok(goodValues);
  }

  /** The loop that collects the strings of a string array. */
  method CollectStrings(values: seq<Cell>) returns (r: Result<seq<string>>)
    ensures ScanError(values, Strings, |values|).Some? ==> r == Err(ScanError(values, Strings, |values|).value)
    ensures ScanError(values, Strings, |values|).None? ==> r == Ok(StringsIn(values))
  {
    var goodValues: seq<string> := [];
    for i := 0 to |values|
      invariant ScanError(values, Strings, i).None?
      invariant goodValues == StringsIn(values[..i])
    {
      var value := values[i];
      StringsInSnoc(values[..i], value);
      assert values[..i + 1] == values[..i] + [value];
      if Blank(value) {
        continue;
      }
      if value.Text? {
        goodValues := goodValues + [value.s];
        continue;
      }
      ScanErrorPersists(values, Strings, i + 1);
      if value.Number? {
        return Err(InconsistentArray);
      }
      return Err(BadType(i));
    }
    assert values[..|values|] == values;
    r := Ok(goodValues);
  }

  /** Once raised within a prefix, an error is the loop's outcome. */
  lemma {:induction false} ScanErrorPersists(v: seq<Cell>, mode: Mode, n: nat)
    requires n <= |v| && ScanError(v, mode, n).Some?
    ensures ScanError(v, mode, |v|) == ScanError(v, mode, n)
    decreases |v| - n
  {
    if n < |v| {
      ScanErrorPersists(v, mode, n + 1);
    }
  }

  /** nnMakeArray: classify the cells, store the array under `name`, return the
      name. A first non-blank cell of neither kind is reported at position 0. */
  method MakeArray(store: ObjectStore, name: string, values: seq<Cell>) returns (r: Result<string>)
    modifies store
    ensures ClassifyAsWritten(values).Ok? ==>
      r == Ok(name) && store.objects == old(store.objects)[name := ClassifyAsWritten(values).value]
    ensures ClassifyAsWritten(values).Err? ==>
      r == Err(ClassifyAsWritten(values).error) && store.objects == old(store.objects)
  {
    if |values| == 0 {
      return Err(EmptyArray);
    }
    var first := FindFirstNonBlank(values);
    if first >= |values| {
      return Err(EmptyArray);
    }
    var firstNonEmpty := values[first];
    var result: StoredObject;
    if firstNonEmpty.Number? {
      var numbers := CollectNumbers(values);
      if numbers.Err? {
        return Err(numbers.error);
      }
      result := NumberArray(numbers.value);
    } else if firstNonEmpty.Text? {
      var strings := CollectStrings(values);
      if strings.Err? {
        return Err(strings.error);
      }
      result := StringArray(strings.value);
    } else {
      return Err(BadType(0));
    }
    store.Add(name, result);
    return Ok(name);
  }

  // ------------------------------------------------------------------ nnMakeWeights

  /** The number arrays the first n names resolve to, or the error for the first
      name that does not resolve to one (reported with its 1-based index). */
  function ResolveWeights(objects: map<string, StoredObject>, names: seq<string>, n: nat): Result<Layers>
    requires n <= |names|
  {
    if n == 0 then Ok([])
    else match ResolveWeights(objects, names, n - 1)
      case Err(e) => Err(e)
      case Ok(layers) =>
        match NumberArrayAt(objects, names[n - 1])
        case None => Err(NotANumberArray(n, names[n - 1]))
        case Some(numbers) => Ok(layers + [numbers])
  }

  /** Resolution succeeds exactly when every name names a number array; the
      result then holds those arrays, in the names' order. */
  lemma {:induction false} ResolveWeightsOk(objects: map<string, StoredObject>, names: seq<string>, n: nat)
    requires n <= |names|
    ensures ResolveWeights(objects, names, n).Ok?
        <==> forall i :: 0 <= i < n ==> NumberArrayAt(objects, names[i]).Some?
    ensures ResolveWeights(objects, names, n).Ok? ==>
      var layers := ResolveWeights(objects, names, n).value;
      |layers| == n && forall i :: 0 <= i < n ==> NumberArray(layers[i]) == objects[names[i]]
  {
    if n > 0 {
      ResolveWeightsOk(objects, names, n - 1);
    }
  }

  /** A failed resolution names the first name that is not a number array,
      with its 1-based index. */
  lemma {:induction false} ResolveWeightsErr(objects: map<string, StoredObject>, names: seq<string>, n: nat)
    requires n <= |names| && ResolveWeights(objects, names, n).Err?
    ensures var e := ResolveWeights(objects, names, n).error;
            e.NotANumberArray? && 1 <= e.index <= n && e.name == names[e.index - 1]
            && NumberArrayAt(objects, e.name).None?
            && forall i :: 0 <= i < e.index - 1 ==> NumberArrayAt(objects, names[i]).Some?
  {
    if ResolveWeights(objects, names, n - 1).Err? {
      ResolveWeightsErr(objects, names, n - 1);
    } else {
      ResolveWeightsOk(objects, names, n - 1);
    }
  }

  /** Binding a name that is not among the weight names does not change what they resolve to. */
  lemma {:induction false} ResolveWeightsFrame(objects: map<string, StoredObject>, names: seq<string>, n: nat,
                                               other: string, obj: StoredObject)
    requires n <= |names| && other !in names
    ensures ResolveWeights(objects[other := obj], names, n) == ResolveWeights(objects, names, n)
  {
    if n > 0 {
      ResolveWeightsFrame(objects, names, n - 1, other, obj);
      assert names[n - 1] != other;
    }
  }

  /** nnMakeWeights: resolve every name to a number array, store the list of
      arrays under `name`, return the name. */
  method MakeWeights(store: ObjectStore, name: string, weightArrays: seq<string>) returns (r: Result<string>)
    modifies store
    ensures |weightArrays| == 0 ==> r == Err(NoWeightArrays) && store.objects == old(store.objects)
    ensures |weightArrays| > 0 ==>
      var resolved := ResolveWeights(old(store.objects), weightArrays, |weightArrays|);
      if resolved.Err? then r == Err(resolved.error) && store.objects == old(store.objects)
      else r == Ok(name) && store.objects == old(store.objects)[name := Weights(resolved.value)]
  {
    if |weightArrays| == 0 {
      return Err(NoWeightArrays);
    }
    var results := new seq<real>[|weightArrays|];
    for i := 0 to |weightArrays|
      invariant store.objects == old(store.objects)
      invariant ResolveWeights(store.objects, weightArrays, i) == Ok(results[..i])
    {
      var arrayName := weightArrays[i];
      var found := NumberArrayAt(store.objects, arrayName);
      if found.None? {
        ResolvedErrorPersists(store.objects, weightArrays, i + 1);
        return Err(NotANumberArray(i + 1, arrayName));
      }
      results[i] := found.value;
      assert results[..i + 1] == results[..i] + [found.value];
    }
    assert results[..] == results[..|weightArrays|];
    store.Add(name, Weights(results[..]));
    return Ok(name);
  }

  lemma {:induction false} ResolvedErrorPersists(objects: map<string, StoredObject>, names: seq<string>, n: nat)
    requires n <= |names| && ResolveWeights(objects, names, n).Err?
    ensures ResolveWeights(objects, names, |names|) == ResolveWeights(objects, names, n)
    decreases |names| - n
  {
    if n < |names| {
      ResolvedErrorPersists(objects, names, n + 1);
    }
  }

  // ------------------------------------------------------------------ nnMakeMultilayerPerceptron

  /** The shape check on supplied weights: the layer count first, then the first
      layer whose length differs (reported 1-based). */
  function WeightShapeError(values: Layers, shape: seq<nat>): Option<NnxError>
  {
    if |values| != |shape| then Some(LayerCountMismatch(|shape|, |values|))
    else LayerLengthError(values, shape, 0)
  }

  /** The first layer from `from` on whose length differs from the expected one. */
  function LayerLengthError(values: Layers, shape: seq<nat>, from: nat): Option<NnxError>
    requires |values| == |shape| && from <= |values|
    decreases |values| - from
  {
    if from == |values| then None
    else if |values[from]| != shape[from] then Some(LayerLengthMismatch(from + 1, shape[from], |values[from]|))
    else LayerLengthError(values, shape, from + 1)
  }

  /** Weights are accepted exactly when they have the network's shape. */
  lemma WeightShapeAccepted(values: Layers, shape: seq<nat>)
    ensures WeightShapeError(values, shape).None? <==> Shape(values) == shape
  {
    if |values| == |shape| {
      LayerLengthErrorNone(values, shape, 0);
      if WeightShapeError(values, shape).None? {
        assert Shape(values) == shape;
      }
    }
  }

  lemma {:induction false} LayerLengthErrorNone(values: Layers, shape: seq<nat>, from: nat)
    requires |values| == |shape| && from <= |values|
    ensures LayerLengthError(values, shape, from).None?
        <==> forall k :: from <= k < |values| ==> |values[k]| == shape[k]
    decreases |values| - from
  {
    if from < |values| {
      LayerLengthErrorNone(values, shape, from + 1);
    }
  }

  /** A rejected layer really differs in length, and the layers before it do not. */
  lemma {:induction false} LayerLengthErrorIsFirst(values: Layers, shape: seq<nat>, from: nat)
    requires |values| == |shape| && from <= |values| && LayerLengthError(values, shape, from).Some?
    ensures var e := LayerLengthError(values, shape, from).value;
            e.LayerLengthMismatch? && from < e.layer <= |values|
            && e.expected == shape[e.layer - 1] && e.had == |values[e.layer - 1]| && e.had != e.expected
            && forall k :: from <= k < e.layer - 1 ==> |values[k]| == shape[k]
    decreases |values| - from
  {
    if |values[from]| == shape[from] {
      LayerLengthErrorIsFirst(values, shape, from + 1);
    }
  }

  /** nnMakeMultilayerPerceptron once the network is built: `shape` is the layer
      lengths of the new network's weights. The supplied weights must name a
      weights object of exactly that shape; they are then copied into the
      network, which is stored under `name`. */
  method MakeMultilayerPerceptron(store: ObjectStore, name: string, shape: seq<nat>,
                                  feedForward: (Layers, seq<real>) -> seq<real>,
                                  calculateGradients: (Layers, seq<real>, seq<real>) -> Layers,
                                  weights: string)
    returns (r: Result<string>)
    requires ShapePreserving(calculateGradients)
    modifies store
    ensures WeightsAt(old(store.objects), weights).None? ==>
      r == Err(NotWeights) && store.objects == old(store.objects)
    ensures WeightsAt(old(store.objects), weights).Some? ==>
      var values := WeightsAt(old(store.objects), weights).value;
      if WeightShapeError(values, shape).Some? then
        r == Err(WeightShapeError(values, shape).value) && store.objects == old(store.objects)
      else
        r == Ok(name) && name in store.objects && store.objects[name].Perceptron?
        && store.objects == old(store.objects)[name := store.objects[name]]
        && fresh(store.objects[name].nn.Cells())
        && store.objects[name].nn.Values() == values
  {
    var nn := new Network(shape, feedForward, calculateGradients);
    var weightValues := WeightsAt(store.objects, weights);
    if weightValues.None? {
      return Err(NotWeights);
    }
    var values := weightValues.value;
    assert Shape(nn.Values()) == shape;
    var e := CheckWeightShape(values, nn.weights);
    if e.Some? {
      return Err(e.value);
    }
    WeightShapeAccepted(values, shape);
    CopyInto(values, nn.weights);
    store.Add(name, Perceptron(nn));
    return Ok(name);
  }

  /** The layer-count and layer-length checks of nnMakeMultilayerPerceptron,
      against the weight arrays of the new network. */
  method CheckWeightShape(values: Layers, nnWeights: seq<array<real>>) returns (e: Option<NnxError>)
    ensures e == WeightShapeError(values, Shape(LayersOf(nnWeights)))
  {
    ghost var shape := Shape(LayersOf(nnWeights));
    if |values| != |nnWeights| {
      return Some(LayerCountMismatch(|nnWeights|, |values|));
    }
    for layer := 0 to |values|
      invariant LayerLengthError(values, shape, 0) == LayerLengthError(values, shape, layer)
    {
      if |values[layer]| != nnWeights[layer].Length {
        return Some(LayerLengthMismatch(layer + 1, nnWeights[layer].Length, |values[layer]|));
      }
    }
    return None;
  }

  // ------------------------------------------------------------------ nnGetWeights

  /** The bounds check of nnGetWeights on a network with weights w: layers are
      numbered from 1. */
  function WeightsLayer(w: Layers, name: string, layer: int): (r: Result<seq<real>>)
    ensures r.Ok? <==> 1 <= layer <= |w|
    ensures r.Ok? ==> r.value == w[layer - 1]
    ensures r.Err? ==> r.error == LayerOutOfRange(name, |w|, layer)
  {
    if layer > |w| || layer <= 0 then Err(LayerOutOfRange(name, |w|, layer))
    else Ok(w[layer - 1])
  }

  /** nnGetWeights: layer `layer` (1-based) of the network stored under the name. */
  method GetWeights(store: ObjectStore, neuralNetworkName: string, layer: int) returns (r: Result<seq<real>>)
    ensures neuralNetworkName !in store.objects || !store.objects[neuralNetworkName].Perceptron? ==>
      r == Err(NotANetwork(neuralNetworkName))
    ensures neuralNetworkName in store.objects && store.objects[neuralNetworkName].Perceptron? ==>
      r == WeightsLayer(store.objects[neuralNetworkName].nn.Values(), neuralNetworkName, layer)
  {
    if neuralNetworkName !in store.objects || !store.objects[neuralNetworkName].Perceptron? {
      return Err(NotANetwork(neuralNetworkName));
    }
    var perceptron := store.objects[neuralNetworkName].nn;
    if layer > |perceptron.weights| || layer <= 0 {
      return Err(LayerOutOfRange(neuralNetworkName, |perceptron.weights|, layer));
    }
    r := Ok(perceptron.weights[layer - 1][..]);
  }

  // ------------------------------------------------------------------ PrepareInputTargetSet

  /** A cell the training set accepts: a double or an int. */
  predicate Numeric(c: Cell)
  {
    c.Number? || c.Integer?
  }

  predicate NumericRow(row: seq<Cell>)
  {
    forall c :: c in row ==> Numeric(c)
  }

  function ToReal(c: Cell): real
    requires Numeric(c)
  {
    if c.Number? then c.x else c.n as real
  }

  /** The row converted to numbers. */
  function ToDoubles(row: seq<Cell>): (r: seq<real>)
    requires NumericRow(row)
    ensures |r| == |row| && forall k :: 0 <= k < |row| ==> r[k] == ToReal(row[k])
  {
    seq(|row|, k requires 0 <= k < |row| => ToReal(row[k]))
  }

  /** Row i is kept: both its input and its target cells are all numeric. */
  predicate GoodRow(inputs: seq<seq<Cell>>, targets: seq<seq<Cell>>, i: nat)
    requires i < |inputs| && i < |targets|
  {
    NumericRow(inputs[i]) && NumericRow(targets[i])
  }

  function PairAt(inputs: seq<seq<Cell>>, targets: seq<seq<Cell>>, i: nat): Example
    requires i < |inputs| && i < |targets| && GoodRow(inputs, targets, i)
  {
    Example(ToDoubles(inputs[i]), ToDoubles(targets[i]))
  }

  /** The examples built from the first n rows. */
  function Pairs(inputs: seq<seq<Cell>>, targets: seq<seq<Cell>>, n: nat): seq<Example>
    requires n <= |inputs| && n <= |targets|
  {
    if n == 0 then []
    else Pairs(inputs, targets, n - 1)
         + (if GoodRow(inputs, targets, n - 1) then [PairAt(inputs, targets, n - 1)] else [])
  }

  /** The positions of the good rows among the first n, in increasing order. */
  function GoodIndices(inputs: seq<seq<Cell>>, targets: seq<seq<Cell>>, n: nat): (r: seq<nat>)
    requires n <= |inputs| && n <= |targets|
    ensures forall k :: 0 <= k < |r| ==> r[k] < n && GoodRow(inputs, targets, r[k])
  {
    if n == 0 then []
    else GoodIndices(inputs, targets, n - 1) + (if GoodRow(inputs, targets, n - 1) then [n - 1] else [])
  }

  /** The good rows are exactly the listed positions, and the list is increasing. */
  lemma {:induction false} GoodIndicesExact(inputs: seq<seq<Cell>>, targets: seq<seq<Cell>>, n: nat)
    requires n <= |inputs| && n <= |targets|
    ensures var idx := GoodIndices(inputs, targets, n);
            (forall j, k :: 0 <= j < k < |idx| ==> idx[j] < idx[k])
            && forall i :: 0 <= i < n ==> (GoodRow(inputs, targets, i) <==> i in idx)
  {
    if n > 0 {
      GoodIndicesExact(inputs, targets, n - 1);
    }
  }

  /** Example k is built from the k-th good row. */
  lemma {:induction false} PairsFollowGoodRows(inputs: seq<seq<Cell>>, targets: seq<seq<Cell>>, n: nat)
    requires n <= |inputs| && n <= |targets|
    ensures var idx := GoodIndices(inputs, targets, n);
            |Pairs(inputs, targets, n)| == |idx|
            && forall k :: 0 <= k < |idx| ==> Pairs(inputs, targets, n)[k] == PairAt(inputs, targets, idx[k])
  {
    if n > 0 {
      PairsFollowGoodRows(inputs, targets, n - 1);
    }
  }

  /** The training set is empty exactly when no row is good. */
  lemma NoPairsIffNoGoodRow(inputs: seq<seq<Cell>>, targets: seq<seq<Cell>>, n: nat)
    requires n <= |inputs| && n <= |targets|
    ensures |Pairs(inputs, targets, n)| == 0 <==> forall i :: 0 <= i < n ==> !GoodRow(inputs, targets, i)
  {
    PairsFollowGoodRows(inputs, targets, n);
    GoodIndicesExact(inputs, targets, n);
    var idx := GoodIndices(inputs, targets, n);
    if |idx| > 0 {
      assert GoodRow(inputs, targets, idx[0]);
    }
  }

  /** Builds the training set from the rows of the input and target matrices. */
  method PrepareInputTargetSet(inputs: seq<seq<Cell>>, targets: seq<seq<Cell>>) returns (r: Result<seq<Example>>)
    ensures |inputs| != |targets| ==> r == Err(HeightMismatch(|inputs|, |targets|))
    ensures |inputs| == |targets| ==>
      var kept := Pairs(inputs, targets, |inputs|);
      r == if |kept| == 0 then Err(NoGoodPairs) else Ok(kept)
  {
    var numInputPoints := |inputs|;
    var numTargetPoints := |targets|;
    if numInputPoints != numTargetPoints {
      return Err(HeightMismatch(numInputPoints, numTargetPoints));
    }
    var inputTargets: seq<Example> := [];
    for i := 0 to numInputPoints
      invariant inputTargets == Pairs(inputs, targets, i)
    {
      var rawInput := inputs[i];
      if !NumericRow(rawInput) {
        continue;
      }
      var rawTarget := targets[i];
      if !NumericRow(rawTarget) {
        continue;
      }
      inputTargets := inputTargets + [Example(ToDoubles(rawInput), ToDoubles(rawTarget))];
    }
    if |inputTargets| == 0 {
      return Err(NoGoodPairs);
    }
    return Ok(inputTargets);
  }

  // ------------------------------------------------------------------ AOrAn

  /** Lower-casing of a Latin letter. */
  function Lower(c: char): (l: char)
    ensures 'A' <= c <= 'Z' ==> 'a' <= l <= 'z' && l as int == c as int + 32
    ensures !('A' <= c <= 'Z') ==> l == c
  {
    if 'A' <= c <= 'Z' then (c as int + 32) as char else c
  }

  /** The article for a word: "an" before a, e, i, o, u or y in either case, "a" otherwise. */
  function AOrAn(word: string): (article: string)
    requires |word| > 0
    ensures article == "an" <==> Lower(word[0]) in "aeiouy"
    ensures article == "a" <==> Lower(word[0]) !in "aeiouy"
  {
    var firstLetter := Lower(word[0]);
    if firstLetter == 'a' || firstLetter == 'e' || firstLetter == 'i'
       || firstLetter == 'o' || firstLetter == 'u' || firstLetter == 'y'
    then "an"
    else "a"
  }

  /** The article does not depend on the case of the first letter, nor on the
      rest of the word. */
  lemma AOrAnIgnoresCase(w1: string, w2: string)
    requires |w1| > 0 && |w2| > 0
    requires Lower(w1[0]) == Lower(w2[0])
    ensures AOrAn(w1) == AOrAn(w2)
  {
  }
}
