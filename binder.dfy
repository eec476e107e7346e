/** The parameter binder of RaveRepository (buildSqlParameterSource and the
    batch builders): every shape a caller may hand over is turned into one
    named-parameter source. */
module ParameterBinder {
  import opened Errors

  /** A value a caller binds to a named parameter. The binder only tells
      null and a String apart from the rest; numbers and other objects
      (identified by a reference) stand for the values it passes on as they
      are. */
  datatype Value = NullValue | Text(s: string) | Number(n: int) | Other(ref: nat)

  /** A readable bean property of a parameter object, by name. */
  datatype Property = Property(name: string, value: Value)

  /** The two kinds of parameter source the repository builds:
      MapSqlParameterSource (explicit name/value entries) and
      BeanPropertySqlParameterSource (the properties of an object). */
  datatype ParamSource =
    | MapSource(values: map<string, Value>)
    | BeanSource(properties: seq<Property>)

  /** A non-array Java object passed as parameters. Every object has bean
      properties; it may also be a SqlParameterSource, or a Map (a class may
      be both, and the dispatch order then decides). */
  datatype Obj = Obj(properties: seq<Property>, asSource: Option<ParamSource>, asMap: Option<map<string, Value>>)

  /** The argument of buildSqlParameterSource: null, an Object[] of
      alternating keys and values, or any other object. */
  datatype Arg = NullArg | ArrayArg(items: seq<Value>) | ObjectArg(obj: Obj)

  /** The entries a MapSqlParameterSource holds after addValue(items[i], items[i+1])
      for i = 0, 2, 4, ... in turn, or the failure of the first bad key. */
  function PairsMap(items: seq<Value>): (r: Result<map<string, Value>>)
    requires |items| % 2 == 0
    ensures r.Err? ==> r.error.NullParameterName? || r.error.KeyNotString?
    ensures r.Err? ==> r.error.index < |items| && r.error.index % 2 == 0
    ensures r.Err? && r.error.NullParameterName? ==> items[r.error.index] == NullValue
    ensures r.Err? && r.error.KeyNotString? ==> !items[r.error.index].Text? && !items[r.error.index].NullValue?
    decreases |items|
  {
    if |items| == 0 then Ok(map[])
    else
      var n := |items| - 2;
      var m :- PairsMap(items[..n]);
      match items[n]
      case Text(k) => Ok(m[k := items[n + 1]])
      case NullValue => Err(NullParameterName(n))
      case _ => Err(KeyNotString(n))
  }

  /** Extending a successfully bound prefix by one String key and its value
      adds that entry. */
  lemma PairsMapStep(items: seq<Value>, i: nat)
    requires i % 2 == 0 && i + 2 <= |items|
    requires PairsMap(items[..i]).Ok? && items[i].Text?
    ensures PairsMap(items[..i + 2]) == Ok(PairsMap(items[..i]).value[items[i].s := items[i + 1]])
  {
    var longer := items[..i + 2];
    assert longer[..i] == items[..i] && longer[i] == items[i] && longer[i + 1] == items[i + 1];
  }

  /** Every key position (each even index) holds a String. */
  ghost predicate KeysAreStrings(items: seq<Value>) {
    forall i :: 0 <= i < |items| && i % 2 == 0 ==> items[i].Text?
  }

  /** Binding succeeds exactly when every key is a String. */
  lemma {:induction false} PairsOkIff(items: seq<Value>)
    requires |items| % 2 == 0
    ensures PairsMap(items).Ok? <==> KeysAreStrings(items)
    decreases |items|
  {
    if |items| > 0 {
      var n := |items| - 2;
      PairsOkIff(items[..n]);
      assert forall i :: 0 <= i < n ==> items[..n][i] == items[i];
    }
  }

  /** The failure reported is that of the first key that is not a String:
      a null key and a key of another type fail differently. */
  lemma {:induction false} PairsFirstBadKey(items: seq<Value>, i: nat)
    requires |items| % 2 == 0
    requires i < |items| && i % 2 == 0 && !items[i].Text?
    requires forall j :: 0 <= j < i && j % 2 == 0 ==> items[j].Text?
    ensures PairsMap(items) == Err(if items[i].NullValue? then NullParameterName(i) else KeyNotString(i))
    decreases |items|
  {
    var n := |items| - 2;
    assert forall j :: 0 <= j < n ==> items[..n][j] == items[j];
    if i == n {
      PairsOkIff(items[..n]);
    } else {
      PairsFirstBadKey(items[..n], i);
    }
  }

  /** The bound names are exactly the keys of the array. */
  lemma {:induction false} PairsKeys(items: seq<Value>)
    requires |items| % 2 == 0
    requires PairsMap(items).Ok?
    ensures forall k :: k in PairsMap(items).value <==>
              exists i :: 0 <= i < |items| && i % 2 == 0 && items[i] == Text(k)
    decreases |items|
  {
    if |items| > 0 {
      var n := |items| - 2;
      var prefix := items[..n];
      PairsKeys(prefix);
      var m := PairsMap(prefix).value;
      var last := items[n];
      assert last.Text? && PairsMap(items).value == m[last.s := items[n + 1]];
      forall k
        ensures k in PairsMap(items).value <==>
                exists i :: 0 <= i < |items| && i % 2 == 0 && items[i] == Text(k)
      {
        if k in m {
          var i :| 0 <= i < |prefix| && i % 2 == 0 && prefix[i] == Text(k);
          assert items[i] == prefix[i];
        } else if k != last.s {
          assert !exists j :: 0 <= j < |prefix| && j % 2 == 0 && prefix[j] == Text(k);
          forall i | 0 <= i < |items| && i % 2 == 0
            ensures items[i] != Text(k)
          {
            if i < n {
              assert items[i] == prefix[i];
            } else {
              assert i == n;
            }
          }
        }
      }
    }
  }

  /** Each key of a successfully bound array is a bound name. */
  lemma KeyIsBound(items: seq<Value>, i: nat)
    requires |items| % 2 == 0
    requires PairsMap(items).Ok?
    requires i < |items| && i % 2 == 0
    ensures items[i].Text? && items[i].s in PairsMap(items).value
  {
    PairsOkIff(items);
    PairsKeys(items);
  }

  /** A name bound more than once takes the value that follows its last
      occurrence: a later duplicate overwrites an earlier one. */
  lemma {:induction false} PairsLastWins(items: seq<Value>, i: nat, k: string)
    requires |items| % 2 == 0
    requires PairsMap(items).Ok?
    requires i < |items| && i % 2 == 0 && items[i] == Text(k)
    requires forall j :: i < j < |items| && j % 2 == 0 ==> items[j] != Text(k)
    ensures k in PairsMap(items).value && PairsMap(items).value[k] == items[i + 1]
    decreases |items|
  {
    var n := |items| - 2;
    if i < n {
      var prefix := items[..n];
      assert forall j :: 0 <= j < n ==> prefix[j] == items[j];
      PairsLastWins(prefix, i, k);
    }
  }

  /** Dropping the last pair of an even length leaves an even length with
      one pair fewer. */
  lemma HalfStep(len: int)
    requires len >= 2 && len % 2 == 0
    ensures (len - 2) % 2 == 0 && len / 2 == (len - 2) / 2 + 1
  {
  }

  /** An even index below n + 2, for even n, is at most n. */
  lemma EvenBound(j: int, n: int)
    requires j % 2 == 0 && n % 2 == 0 && j < n + 2
    ensures j <= n
  {
  }

  /** The keys of the array are pairwise distinct. */
  ghost predicate DistinctKeys(items: seq<Value>) {
    forall i, j :: 0 <= i < j < |items| && i % 2 == 0 && j % 2 == 0 ==> items[i] != items[j]
  }

  /** There are at most half as many names as array elements, and exactly
      half when the keys are pairwise distinct. */
  lemma {:induction false} PairsSizeIfDistinct(items: seq<Value>)
    requires |items| % 2 == 0
    requires PairsMap(items).Ok?
    ensures |PairsMap(items).value| <= |items| / 2
    ensures DistinctKeys(items) ==> |PairsMap(items).value| == |items| / 2
    decreases |items|
  {
    if |items| > 0 {
      var n := |items| - 2;
      var prefix := items[..n];
      assert forall j :: 0 <= j < n ==> prefix[j] == items[j];
      PairsSizeIfDistinct(prefix);
      if DistinctKeys(items) {
        var k := items[n].s;
        assert items[n].Text? && PairsMap(items).value == PairsMap(prefix).value[k := items[n + 1]];
        PairsKeys(prefix);
        forall i | 0 <= i < |prefix| && i % 2 == 0
          ensures prefix[i] != Text(k)
        {
          assert prefix[i] == items[i];
        }
        assert k !in PairsMap(prefix).value;
        assert DistinctKeys(prefix);
      }
    }
  }

  /** Exactly half as many names as elements only when the keys are pairwise
      distinct: a repeated key gives fewer names. */
  lemma {:induction false} PairsSizeOnlyIfDistinct(items: seq<Value>)
    requires |items| % 2 == 0
    requires PairsMap(items).Ok?
    requires |PairsMap(items).value| == |items| / 2
    ensures DistinctKeys(items)
    decreases |items|
  {
    if |items| > 0 {
      var n := |items| - 2;
      var prefix := items[..n];
      assert forall j :: 0 <= j < n ==> prefix[j] == items[j];
      PairsSizeIfDistinct(prefix);
      var m := PairsMap(prefix).value;
      var k := items[n].s;
      assert items[n].Text? && PairsMap(items).value == m[k := items[n + 1]];
      HalfStep(|items|);
      assert k !in m && |m| == n / 2;
      PairsSizeOnlyIfDistinct(prefix);
      forall i, j | 0 <= i < j < |items| && i % 2 == 0 && j % 2 == 0
        ensures items[i] != items[j]
      {
        EvenBound(j, n);
        assert prefix[i] == items[i];
        if j < n {
          assert prefix[j] == items[j];
        } else {
          KeyIsBound(prefix, i);
        }
      }
    }
  }

  /** The number of names is at most half the number of elements, and it is
      exactly half iff the keys are pairwise distinct. */
  lemma PairsSize(items: seq<Value>)
    requires |items| % 2 == 0
    requires PairsMap(items).Ok?
    ensures |PairsMap(items).value| <= |items| / 2
    ensures |PairsMap(items).value| == |items| / 2 <==> DistinctKeys(items)
  {
    PairsSizeIfDistinct(items);
    if |PairsMap(items).value| == |items| / 2 {
      PairsSizeOnlyIfDistinct(items);
    }
  }

  /** buildSqlParameterSource, as a value: the shapes are tried in a fixed
      order (null, parameter source, Map, Object[], bean). */
  function Bind(args: Arg): (r: Result<ParamSource>)
    ensures args.ArrayArg? ==>
              (r.Ok? <==> |args.items| % 2 == 0 && KeysAreStrings(args.items))
    ensures args.ArrayArg? && |args.items| % 2 != 0 ==> r == Err(KeyValuesNotInPairs)
    ensures args.ArrayArg? && r.Ok? ==>
              r.value.MapSource? &&
              forall k :: k in r.value.values <==>
                exists i :: 0 <= i < |args.items| && i % 2 == 0 && args.items[i] == Text(k)
    ensures !args.ArrayArg? ==> r.Ok?
  {
    if args.NullArg? then Ok(MapSource(map[]))
    else if args.ObjectArg? && args.obj.asSource.Some? then Ok(args.obj.asSource.value)
    else if args.ObjectArg? && args.obj.asMap.Some? then Ok(MapSource(args.obj.asMap.value))
    else if args.ArrayArg? then
      if |args.items| % 2 != 0 then Err(KeyValuesNotInPairs)
      else
        PairsOkIff(args.items);
        match PairsMap(args.items)
        case Err(e) => Err(e)
        case Ok(m) =>
          PairsKeys(args.items);
          Ok(MapSource(m))
    else Ok(BeanSource(args.obj.properties))
  }

  /** The dispatch order: a parameter source is used as it is even when the
      object is also a Map; a Map is copied entry for entry; any other object
      is flattened as a bean; null binds nothing. */
  lemma BindDispatchOrder(o: Obj)
    ensures Bind(NullArg) == Ok(MapSource(map[]))
    ensures o.asSource.Some? ==> Bind(ObjectArg(o)) == Ok(o.asSource.value)
    ensures o.asSource.None? && o.asMap.Some? ==> Bind(ObjectArg(o)) == Ok(MapSource(o.asMap.value))
    ensures o.asSource.None? && o.asMap.None? ==> Bind(ObjectArg(o)) == Ok(BeanSource(o.properties))
    ensures Bind(ArrayArg([])) == Bind(NullArg)
  {
  }

  /** buildSqlParameterSource: the Object[] branch fills a fresh
      MapSqlParameterSource pair by pair. */
  method BuildSqlParameterSource(args: Arg) returns (r: Result<ParamSource>)
    ensures r == Bind(args)
  {
    if args.NullArg? {
      return Ok(MapSource(map[]));
    } else if args.ObjectArg? && args.obj.asSource.Some? {
      return Ok(args.obj.asSource.value);
    } else if args.ObjectArg? && args.obj.asMap.Some? {
      return Ok(MapSource(args.obj.asMap.value));
    } else if args.ArrayArg? {
      var keyValues := args.items;
      var paramSource: map<string, Value> := map[];
      if |keyValues| % 2 != 0 {
        return Err(KeyValuesNotInPairs);
      }
      ghost var pairs := 0;
      assert |keyValues| == 2 * (|keyValues| / 2);
      var i := 0;
      while i < |keyValues|
        invariant i == 2 * pairs && pairs <= |keyValues| / 2
        invariant PairsMap(keyValues[..i]) == Ok(paramSource)
      {
        if !keyValues[i].Text? {
          PairsOkIff(keyValues[..i]);
          assert forall j :: 0 <= j < i ==> keyValues[..i][j] == keyValues[j];
          PairsFirstBadKey(keyValues, i);
        }
        match keyValues[i] {
          case Text(k) =>
            PairsMapStep(keyValues, i);
            paramSource := paramSource[k := keyValues[i + 1]];
          case NullValue =>
            return Err(NullParameterName(i));
          case _ =>
            return Err(KeyNotString(i));
        }
        i := i + 2;
        pairs := pairs + 1;
      }
      assert keyValues[..i] == keyValues;
      return Ok(MapSource(paramSource));
    } else {
      return Ok(BeanSource(args.obj.properties));
    }
  }

  /** The batch variants: one bean-flattened source per list element, in
      list order. */
  function BatchParams(objs: seq<Obj>): (r: seq<ParamSource>)
    ensures |r| == |objs|
    ensures forall i :: 0 <= i < |objs| ==> r[i] == BeanSource(objs[i].properties)
  {
    if objs == [] then [] else [BeanSource(objs[0].properties)] + BatchParams(objs[1..])
  }

  /** Batch building does not go through Bind: a Map element is still
      flattened as a bean, unlike the same object passed to a single call. */
  lemma {:induction false} BatchIgnoresMapShape(objs: seq<Obj>, i: nat)
    requires i < |objs| && objs[i].asSource.None? && objs[i].asMap.Some?
    ensures BatchParams(objs)[i] == BeanSource(objs[i].properties)
    ensures Bind(ObjectArg(objs[i])) == Ok(MapSource(objs[i].asMap.value))
    ensures Ok(BatchParams(objs)[i]) != Bind(ObjectArg(objs[i]))
  {
  }

  /** Splitting the list splits the parameter array the same way. */
  lemma {:induction false} BatchParamsAppend(a: seq<Obj>, b: seq<Obj>)
    ensures BatchParams(a + b) == BatchParams(a) + BatchParams(b)
    decreases |a|
  {
    if a != [] {
      assert (a + b)[1..] == a[1..] + b;
      BatchParamsAppend(a[1..], b);
    }
  }
}
