/** The small generic helpers of the utils package: utils/quic_map.go,
    utils/chain.go, utils/slice_or.go, utils/single_or_multi.go,
    utils/quic_cast.go and utils/first_or.go. A Go type parameter `T` read
    out of an `any` becomes a pair of views: `asItem` for the type assertion
    `.(T)` and `asSlice` for `.([]T)`. */
module Utils {
  import opened Base

  /** What `MapItems` returns: the mapped items in order, or the first
      failure. */
  function MapAll<T, R>(items: seq<T>, mapper: T -> Result<R>): (r: Result<seq<R>>)
    ensures r.Ok? <==> forall j :: 0 <= j < |items| ==> mapper(items[j]).Ok?
    ensures r.Ok? ==> |r.value| == |items| && forall j :: 0 <= j < |items| ==> r.value[j] == mapper(items[j]).value
    decreases |items|
  {
    if items == [] then Ok([])
    else
      var last := |items| - 1;
      match MapAll(items[..last], mapper)
      case Ok(prefix) =>
        (match mapper(items[last])
         case Ok(v) => Ok(prefix + [v])
         case Err(e) => Err(e)
         case Panic(p) => Panic(p))
      case Err(e) => Err(e)
      case Panic(p) => Panic(p)
  }

  /** `MapItems`: maps every item in order; the first failure is returned
      and nothing after it is mapped. */
  method MapItems<T, R>(items: seq<T>, mapper: T -> Result<R>) returns (r: Result<seq<R>>)
    ensures r == MapAll(items, mapper)
    ensures !r.Ok? ==> exists j :: FirstFailure(items, mapper, j) && r == mapper(items[j]).PropagateFailure()
  {
    var result: seq<R> := [];
    var index := 0;
    while index < |items|
      invariant 0 <= index <= |items|
      invariant MapAll(items[..index], mapper) == Ok(result)
      invariant forall j :: 0 <= j < index ==> mapper(items[j]).Ok?
    {
      assert items[..index + 1][..index] == items[..index];
      var mapped := mapper(items[index]);
      if !mapped.Ok? {
        assert FirstFailure(items, mapper, index);
        MapAllStops(items, mapper, index);
        return mapped.PropagateFailure();
      }
      result := result + [mapped.value];
      index := index + 1;
    }
    assert items[..index] == items;
    r := Ok(result);
  }

  /** The first failure is what the whole mapping returns. */
  lemma {:induction false} MapAllStops<T, R>(items: seq<T>, mapper: T -> Result<R>, j: nat)
    requires FirstFailure(items, mapper, j)
    ensures MapAll(items, mapper) == mapper(items[j]).PropagateFailure()
    decreases |items|
  {
    var last := |items| - 1;
    assert items[..last][..j] == items[..j];
    if j < last {
      MapAllStops(items[..last], mapper, j);
    } else {
      assert MapAll(items[..last], mapper).Ok?;
    }
  }

  /** `j` is the first item the mapper fails on. */
  predicate FirstFailure<T, R>(items: seq<T>, mapper: T -> Result<R>, j: int)
  {
    0 <= j < |items| && !mapper(items[j]).Ok? && forall l :: 0 <= l < j ==> mapper(items[l]).Ok?
  }

  /** A step of a `ChainExec` pipeline: `func(any) (any, error)`. */
  type Callback<!T> = T -> Result<T>

  /** The left fold `ChainExec` computes: each callback applied to the
      previous one's output, stopping at the first failure. */
  function Fold<T>(item: T, chain: seq<Callback<T>>): Result<T>
    decreases |chain|
  {
    if chain == [] then Ok(item)
    else
      match chain[0](item)
      case Ok(next) => Fold(next, chain[1..])
      case Err(e) => Err(e)
      case Panic(p) => Panic(p)
  }

  /** `ChainExec`: a loop reassigning the accumulator per callback. */
  method ChainExec<T>(item: T, chain: seq<Callback<T>>) returns (r: Result<T>)
    ensures r == Fold(item, chain)
  {
    var result := item;
    var i := 0;
    while i < |chain|
      invariant 0 <= i <= |chain|
      invariant Fold(item, chain) == Fold(result, chain[i..])
    {
      assert chain[i..][1..] == chain[i + 1..];
      var next := chain[i](result);
      if !next.Ok? {
        return next;
      }
      result := next.value;
      i := i + 1;
    }
    r := Ok(result);
  }

  /** An empty chain returns the input, and a one-callback chain is that
      callback. */
  lemma FoldBase<T>(item: T, f: Callback<T>)
    ensures Fold(item, []) == Ok(item)
    ensures Fold(item, [f]) == f(item)
  {
    assert [f][1..] == [];
  }

  /** Running `a ++ b` is running `a`, then running `b` on its output; a
      failure in `a` is the result and `b` is not run. */
  lemma {:induction false} FoldAppend<T>(item: T, a: seq<Callback<T>>, b: seq<Callback<T>>)
    ensures Fold(item, a + b) ==
      match Fold(item, a)
      case Ok(mid) => Fold(mid, b)
      case Err(e) => Err(e)
      case Panic(p) => Panic(p)
    decreases |a|
  {
    if a == [] {
      assert a + b == b;
    } else {
      assert (a + b)[0] == a[0];
      assert (a + b)[1..] == a[1..] + b;
      match a[0](item)
      case Ok(next) => FoldAppend(next, a[1..], b);
      case Err(_) =>
      case Panic(_) =>
    }
  }

  /** `SliceOf[T]`: a `T` gives a one-element slice, a `[]T` itself; the
      `T` test comes first. */
  function SliceOf<T>(item: Value, asItem: Value -> Option<T>, asSlice: Value -> Option<seq<T>>): (r: Result<seq<T>>)
    ensures asItem(item).Some? ==> r == Ok([asItem(item).value])
    ensures asItem(item).None? && asSlice(item).Some? ==> r == Ok(asSlice(item).value)
    ensures r.Err? <==> asItem(item).None? && asSlice(item).None?
    ensures !r.Panic?
  {
    match asItem(item)
    case Some(v) => Ok([v])
    case None =>
      match asSlice(item)
      case Some(vs) => Ok(vs)
      case None => Err(Message("failed to read slice from a value of another type"))
  }

  /** `.(string)` */
  function AsString(v: Value): Option<string>
  {
    if v.VStr? then Some(v.s) else None
  }

  /** `.([]string)`: only a `[]string`; a YAML list decodes as `[]any`,
      which is not one. */
  function AsStrings(v: Value): Option<seq<string>>
  {
    if v.VStrList? then Some(v.strs) else None
  }

  /** What one key contributes to `SingleOrMulti`: its values, or nothing
      when it is absent or of another type. */
  function ValuesAt<T>(items: Decl, key: string, asItem: Value -> Option<T>, asSlice: Value -> Option<seq<T>>): seq<T>
  {
    if key in items then
      match SliceOf(items[key], asItem, asSlice)
      case Ok(vs) => vs
      case _ => []
    else []
  }

  /** `SingleOrMulti[T]`: the values under `key`, then those under
      `key + "s"`. */
  method SingleOrMulti<T>(items: Decl, key: string, asItem: Value -> Option<T>, asSlice: Value -> Option<seq<T>>)
    returns (result: seq<T>)
    ensures result == ValuesAt(items, key, asItem, asSlice) + ValuesAt(items, key + "s", asItem, asSlice)
  {
    result := [];
    if key in items {
      var values := SliceOf(items[key], asItem, asSlice);
      if values.Ok? {
        result := result + values.value;
      }
    }
    var keys := key + "s";
    if keys in items {
      var values := SliceOf(items[keys], asItem, asSlice);
      if values.Ok? {
        result := result + values.value;
      }
    }
  }

  /** Missing keys and values of the wrong type contribute nothing; a
      single string and a `[]string` are both accepted. */
  lemma SingleOrMultiStrings(items: Decl, key: string)
    ensures key !in items ==> ValuesAt(items, key, AsString, AsStrings) == []
    ensures key in items && items[key].VStr? ==> ValuesAt(items, key, AsString, AsStrings) == [items[key].s]
    ensures key in items && items[key].VStrList? ==> ValuesAt(items, key, AsString, AsStrings) == items[key].strs
    ensures key in items && !items[key].VStr? && !items[key].VStrList? ==> ValuesAt(items, key, AsString, AsStrings) == []
  {
  }

  /** `CastItems[T]`: every element viewed as a `T`, or failure on the first
      one that is not. */
  method CastItems<T>(items: seq<Value>, asItem: Value -> Option<T>) returns (result: seq<T>, ok: bool)
    ensures ok <==> forall j :: 0 <= j < |items| ==> asItem(items[j]).Some?
    ensures ok ==> |result| == |items| && forall j :: 0 <= j < |items| ==> result[j] == asItem(items[j]).value
    ensures !ok ==> result == []
  {
    result := [];
    var index := 0;
    while index < |items|
      invariant 0 <= index <= |items|
      invariant |result| == index
      invariant forall j :: 0 <= j < index ==> asItem(items[j]).Some? && result[j] == asItem(items[j]).value
    {
      var value := asItem(items[index]);
      if value.None? {
        return [], false;
      }
      result := result + [value.value];
      index := index + 1;
    }
    ok := true;
  }

  /** `FirstOr`: the first element, or the default for an empty slice. */
  function FirstOr<T>(arr: seq<T>, default: T): (r: T)
    ensures arr != [] ==> r == arr[0]
    ensures arr == [] ==> r == default
  {
    if |arr| != 0 then arr[0] else default
  }

  /** Only the first element matters. */
  lemma FirstOrLooksOnlyAtHead<T>(a: seq<T>, b: seq<T>, default: T)
    requires a != [] && b != [] && a[0] == b[0]
    ensures FirstOr(a, default) == FirstOr(b, default)
  {
  }
}
