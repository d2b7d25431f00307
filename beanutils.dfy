/**
 * The attribute-path resolver of mychatui/adapters/beanutils.py.
 *
 * `getBeanValue(obj, "a.b[2].c", defval)` walks a dotted path through
 * dictionaries and attribute-bearing objects.  A component `name[i]` first
 * indexes the value reached so far at `i`, when that value is a list or any
 * other iterable, and only then looks `name` up in the element; an
 * out-of-range index gives None.  The walk never stops early: once it holds
 * a falsy non-dictionary it keeps it.  A falsy final value (None, "", 0,
 * [], {}, False) is reported as the caller's default.
 */
module BeanUtils {
  import opened PyValues
  import opened PyStrings

  // ---------------------------------------------------------------- isin, islist, isiterable

  /** `isin(val, listofvals)`: a linear search that returns at the first equal element. */
  method IsIn<T(==)>(val: T, xs: seq<T>) returns (found: bool)
    ensures found <==> exists i :: 0 <= i < |xs| && xs[i] == val
  {
    var i := 0;
    while i < |xs|
      invariant 0 <= i <= |xs|
      invariant forall j :: 0 <= j < i ==> xs[j] != val
    {
      if val == xs[i] {
        return true;
      }
      i := i + 1;
    }
    return false;
  }

  /** `hasattr(v, name)` for an object; attributes of built-in values are not modelled. */
  predicate HasAttr(v: Value, name: string)
  {
    v.Obj? && name in v.attrs
  }

  /** `islist(v)`: `type(v)` is list or tuple. */
  function IsList(v: Value): (r: bool)
    ensures r <==> v.List? || v.Tuple?
  {
    TypeOf(v) in [ListType, TupleType]
  }

  /** Whether `v` defines `__iter__`: the built-in containers and strings do; an object does when it has that attribute. */
  predicate HasIter(v: Value)
  {
    v.Str? || v.List? || v.Tuple? || v.Dict? || HasAttr(v, "__iter__")
  }

  /** `isiterable(v)`: a list or tuple, or anything with `__iter__` or `collection`. */
  function IsIterable(v: Value): (r: bool)
    ensures r <==> v.List? || v.Tuple? || v.Str? || v.Dict?
                   || (v.Obj? && ("__iter__" in v.attrs || "collection" in v.attrs))
    ensures IsList(v) ==> r
  {
    TypeOf(v) in [ListType, TupleType] || HasIter(v) || HasAttr(v, "collection")
  }

  // ---------------------------------------------------------------- the idxre component grammar

  /** The end of the run of decimal digits that starts at `from`. */
  function DigitRunEnd(c: string, from: nat): (k: nat)
    requires from <= |c|
    ensures from <= k <= |c| && AllDigits(c[from..k])
    ensures k == |c| || !IsDigit(c[k])
    decreases |c| - from
  {
    if from == |c| || !IsDigit(c[from]) then from
    else
      var k := DigitRunEnd(c, from + 1);
      assert c[from..k] == [c[from]] + c[from + 1..k];
      k
  }

  /**
   * `idxre = re.compile(r"(.*)\[(\d+)\]")` matched at the start of `c` with
   * group 1 ending at `j`: `[`, one or more digits, `]`, and no newline
   * before `j` (a `.` does not match a newline).  Text after `]` is ignored,
   * as `re.match` only anchors at the start.
   */
  predicate MatchesAt(c: string, j: nat)
  {
    && j < |c| && c[j] == '[' && '\n' !in c[..j]
    && var k := DigitRunEnd(c, j + 1); j + 1 < k < |c| && c[k] == ']'
  }

  /** The greedy `(.*)`: the largest `j` at or below `hi` at which the pattern matches. */
  function LastMatch(c: string, hi: int): (r: Option<nat>)
    requires hi < |c|
    ensures r.Some? ==> r.value <= hi && MatchesAt(c, r.value)
    ensures r.Some? ==> forall j :: r.value < j <= hi ==> !MatchesAt(c, j)
    ensures r.Nothing? ==> forall j :: 0 <= j <= hi ==> !MatchesAt(c, j)
    decreases hi + 1
  {
    if hi < 0 then Nothing
    else if MatchesAt(c, hi) then Some(hi)
    else LastMatch(c, hi - 1)
  }

  /** A path component: a plain name, or `name[idx]`. */
  datatype Component = Plain(name: string) | Indexed(name: string, idx: nat)

  /** `idxre.match(comp)`, with group 1 as the name and `int(group 2)` as the index. */
  function ParseComponent(c: string): (r: Component)
    ensures r.Plain? <==> forall j :: 0 <= j < |c| ==> !MatchesAt(c, j)
    ensures r.Plain? ==> r.name == c
    ensures r.Indexed? ==> exists j :: 0 <= j < |c| && MatchesAt(c, j) && r.name == c[..j]
                                       && (forall j' :: j < j' < |c| ==> !MatchesAt(c, j'))
                                       && r.idx == DigitsValue(c[j + 1..DigitRunEnd(c, j + 1)])
    ensures r.Indexed? ==> c != []
  {
    match LastMatch(c, |c| - 1)
    case Nothing => Plain(c)
    case Some(j) => Indexed(c[..j], DigitsValue(c[j + 1..DigitRunEnd(c, j + 1)]))
  }

  /** The text `name[idx]` of an indexed component. */
  function FormatIndexed(name: string, idx: nat): string
  {
    name + "[" + NatToString(idx) + "]"
  }

  /** Writing a component out and matching it again gives back its name and index. */
  lemma ParseFormatIndexed(name: string, idx: nat)
    requires '\n' !in name
    ensures ParseComponent(FormatIndexed(name, idx)) == Indexed(name, idx)
  {
    var digits := NatToString(idx);
    var c := FormatIndexed(name, idx);
    var j := |name|;
    assert c[..j] == name;
    assert c[j] == '[';
    assert c[j + 1..|c| - 1] == digits;
    assert forall t :: j + 1 <= t < |c| - 1 ==> c[t] == digits[t - j - 1];
    DigitRunEndOfRun(c, j + 1, |c| - 1);
    assert MatchesAt(c, j);
    forall j' | j < j' < |c| ensures !MatchesAt(c, j') {
      if j' < |c| - 1 {
        assert c[j'] == digits[j' - j - 1];
      }
    }
    NatToStringValue(idx);
  }

  lemma {:induction false} DigitRunEndOfRun(c: string, from: nat, k: nat)
    requires from <= k < |c| && !IsDigit(c[k])
    requires forall t :: from <= t < k ==> IsDigit(c[t])
    ensures DigitRunEnd(c, from) == k
    decreases k - from
  {
    if from < k {
      DigitRunEndOfRun(c, from + 1, k);
    }
  }

  /** A component without `[` carries no index. */
  lemma NoBracketIsPlain(c: string)
    requires '[' !in c
    ensures ParseComponent(c) == Plain(c)
  {
    forall j | 0 <= j < |c| ensures !MatchesAt(c, j) {
      assert c[j] in c;
    }
  }

  // ---------------------------------------------------------------- the walk

  /** `_getIndex(compstr)`: the index of an indexed component, None otherwise. */
  function GetIndex(c: string): (r: Option<nat>)
    ensures r.Some? <==> ParseComponent(c).Indexed?
    ensures r.Some? ==> r.value == ParseComponent(c).idx
  {
    match ParseComponent(c)
    case Indexed(_, idx) => Some(idx)
    case Plain(_) => Nothing
  }

  /**
   * `_getArrayIndexValue(beanobj, idx)`: `beanobj[idx]`, with an
   * IndexError turned into None; other exceptions (KeyError from a
   * dictionary, TypeError from an object) propagate.
   */
  function GetArrayIndexValue(v: Value, idx: Option<nat>): (r: Result<Value>)
    ensures idx.Nothing? ==> r == Ok(None)
    ensures idx.Some? && (v.List? || v.Tuple?) ==>
              r == Ok(if idx.value < |v.items| then v.items[idx.value] else None)
    ensures idx.Some? && v.Str? ==>
              r == Ok(if idx.value < |v.s| then Str([v.s[idx.value]]) else None)
    ensures idx.Some? && v.Dict? ==>
              r == if IntKey(idx.value) in v.entries then Ok(v.entries[IntKey(idx.value)]) else Err(KeyError)
    ensures r.Err? ==> r.error != IndexError
  {
    if idx.Nothing? then Ok(None)
    else
      match Subscript(v, idx.value)
      case Err(IndexError) => Ok(None)
      case other => other
  }

  /** One name lookup: `.get(name)` on a dictionary, `getattr` on a truthy object (None when absent); a falsy non-dictionary stays. */
  function Lookup(v: Value, name: string): (r: Value)
    ensures v.Dict? ==> r == (if StrKey(name) in v.entries then v.entries[StrKey(name)] else None)
    ensures !v.Dict? && Truthy(v) ==> r == (if HasAttr(v, name) then v.attrs[name] else None)
    ensures !v.Dict? && !Truthy(v) ==> r == v
  {
    if v.Dict? then
      if StrKey(name) in v.entries then v.entries[StrKey(name)] else None
    else if Truthy(v) then
      if HasAttr(v, name) then v.attrs[name] else None
    else v
  }

  /** One iteration of the loop of `getBeanValue` over a path component. */
  function Step(v: Value, c: string): Result<Value>
  {
    match ParseComponent(c)
    case Plain(name) => Ok(Lookup(v, name))
    case Indexed(name, _) =>
      if IsList(v) || IsIterable(v) then
        var element :- GetArrayIndexValue(v, GetIndex(c));
        Ok(Lookup(element, name))
      else Ok(Lookup(v, name))
  }

  /** The loop of `getBeanValue` over all components: the value it ends with, or the exception it raises. */
  function Walk(v: Value, comps: seq<string>): Result<Value>
    decreases |comps|
  {
    if comps == [] then Ok(v)
    else
      match Step(v, comps[0])
      case Err(e) => Err(e)
      case Ok(next) => Walk(next, comps[1..])
  }

  /** The walk from component `i` on is one step, then the walk from `i + 1`. */
  lemma WalkFrom(v: Value, comps: seq<string>, i: nat)
    requires i < |comps|
    ensures Step(v, comps[i]).Err? ==> Walk(v, comps[i..]) == Err(Step(v, comps[i]).error)
    ensures Step(v, comps[i]).Ok? ==> Walk(v, comps[i..]) == Walk(Step(v, comps[i]).value, comps[i + 1..])
  {
    assert comps[i..][0] == comps[i] && comps[i..][1..] == comps[i + 1..];
  }

  /** `getBeanValue(obj, attrname, defval)` as a value: a falsy root or a falsy final value gives `defval`. */
  function BeanValue(obj: Value, attrname: string, defval: Value): Result<Value>
  {
    if !Truthy(obj) then Ok(defval)
    else
      match Walk(obj, Split(attrname, '.'))
      case Err(e) => Err(e)
      case Ok(v) => Ok(if Truthy(v) then v else defval)
  }

  /** `getBeanValue` itself: the loop over the components of `attrname`. */
  method GetBeanValue(obj: Value, attrname: string, defval: Value) returns (r: Result<Value>)
    ensures r == BeanValue(obj, attrname, defval)
  {
    var beanobj := None;
    if Truthy(obj) {
      var attrs := Split(attrname, '.');
      beanobj := obj;
      var i := 0;
      while i < |attrs|
        invariant 0 <= i <= |attrs|
        invariant Walk(obj, attrs) == Walk(beanobj, attrs[i..])
      {
        ghost var prev := beanobj;
        WalkFrom(prev, attrs, i);
        var acomp := attrs[i];
        var pcomp := acomp;
        var m := ParseComponent(acomp);
        if m.Indexed? {
          acomp := m.name;
          if IsList(beanobj) || IsIterable(beanobj) {
            if pcomp != [] {
              var idx := GetIndex(pcomp);
              if idx.Some? {
                var element := GetArrayIndexValue(beanobj, idx);
                if element.Err? {
                  assert Step(prev, attrs[i]) == Err(element.error);
                  return Err(element.error);
                }
                beanobj := element.value;
              }
            }
          }
        }
        if beanobj.Dict? {
          beanobj := if StrKey(acomp) in beanobj.entries then beanobj.entries[StrKey(acomp)] else None;
        } else if Truthy(beanobj) {
          if HasAttr(beanobj, acomp) {
            beanobj := beanobj.attrs[acomp];
          } else {
            beanobj := None;
          }
        }
        assert Step(prev, attrs[i]) == Ok(beanobj);
        i := i + 1;
      }
    }
    if Truthy(beanobj) {
      return Ok(beanobj);
    }
    return Ok(defval);
  }

  // ---------------------------------------------------------------- properties

  /** A falsy root gives `defval` whatever the path. */
  lemma FalsyRootGivesDefault(obj: Value, attrname: string, defval: Value)
    requires !Truthy(obj)
    ensures BeanValue(obj, attrname, defval) == Ok(defval)
  {
  }

  /** The result is `defval` or a truthy value the walk ended on; a falsy final value gives `defval`. */
  lemma ResultIsTruthyOrDefault(obj: Value, attrname: string, defval: Value)
    ensures BeanValue(obj, attrname, defval).Ok? ==>
              var v := BeanValue(obj, attrname, defval).value;
              v == defval || (Truthy(v) && Walk(obj, Split(attrname, '.')) == Ok(v))
    ensures (Truthy(obj) && Walk(obj, Split(attrname, '.')).Ok? && !Truthy(Walk(obj, Split(attrname, '.')).value))
            ==> BeanValue(obj, attrname, defval) == Ok(defval)
  {
  }

  /** Walking a concatenation of paths walks the first, then the second from where the first ended. */
  lemma {:induction false} WalkAppend(v: Value, a: seq<string>, b: seq<string>)
    ensures Walk(v, a + b) == match Walk(v, a) { case Err(e) => Err(e) case Ok(w) => Walk(w, b) }
    decreases |a|
  {
    if a == [] {
      assert a + b == b;
    } else {
      assert (a + b)[1..] == a[1..] + b;
      match Step(v, a[0]) {
        case Err(e) =>
        case Ok(next) => WalkAppend(next, a[1..], b);
      }
    }
  }

  /** Once the walk holds None it keeps None to the end. */
  lemma {:induction false} WalkFromNone(comps: seq<string>)
    ensures Walk(None, comps) == Ok(None)
    decreases |comps|
  {
    if comps != [] {
      assert Step(None, comps[0]) == Ok(None);
      WalkFromNone(comps[1..]);
    }
  }

  /**
   * From a falsy value the walk only ever holds falsy values; the one
   * exception it can raise is the KeyError of indexing an empty dictionary.
   */
  lemma {:induction false} WalkFromFalsy(v: Value, comps: seq<string>)
    requires !Truthy(v)
    ensures Walk(v, comps) == Err(KeyError) || (Walk(v, comps).Ok? && !Truthy(Walk(v, comps).value))
    decreases |comps|
  {
    if comps != [] {
      var s := Step(v, comps[0]);
      assert s == Err(KeyError) || (s.Ok? && !Truthy(s.value)) by {
        match ParseComponent(comps[0])
        case Plain(name) =>
        case Indexed(name, idx) =>
          if IsList(v) || IsIterable(v) {
            assert !v.Obj?;
          }
      }
      if s.Ok? {
        WalkFromFalsy(s.value, comps[1..]);
      }
    }
  }

  /** A falsy value reached part-way along the path makes the result `defval` (or the KeyError of an empty dictionary). */
  lemma FalsyIntermediate(obj: Value, attrname: string, defval: Value, i: nat)
    requires Truthy(obj)
    requires i <= |Split(attrname, '.')|
    requires Walk(obj, Split(attrname, '.')[..i]).Ok?
    requires !Truthy(Walk(obj, Split(attrname, '.')[..i]).value)
    ensures BeanValue(obj, attrname, defval) == Ok(defval) || BeanValue(obj, attrname, defval) == Err(KeyError)
  {
    var comps := Split(attrname, '.');
    assert comps == comps[..i] + comps[i..];
    WalkAppend(obj, comps[..i], comps[i..]);
    WalkFromFalsy(Walk(obj, comps[..i]).value, comps[i..]);
  }

  /** Reaching None part-way along the path always gives `defval`. */
  lemma NoneIntermediate(obj: Value, attrname: string, defval: Value, i: nat)
    requires Truthy(obj)
    requires i <= |Split(attrname, '.')|
    requires Walk(obj, Split(attrname, '.')[..i]) == Ok(None)
    ensures BeanValue(obj, attrname, defval) == Ok(defval)
  {
    var comps := Split(attrname, '.');
    assert comps == comps[..i] + comps[i..];
    WalkAppend(obj, comps[..i], comps[i..]);
    WalkFromNone(comps[i..]);
  }

  /** A truthy non-dictionary that lacks the attribute named by a plain component turns the result into `defval`. */
  lemma MissingAttributeGivesDefault(obj: Value, attrname: string, defval: Value, i: nat)
    requires Truthy(obj)
    requires i < |Split(attrname, '.')|
    requires Walk(obj, Split(attrname, '.')[..i]).Ok?
    requires var v := Walk(obj, Split(attrname, '.')[..i]).value;
             Truthy(v) && !v.Dict? && ParseComponent(Split(attrname, '.')[i]).Plain?
             && !HasAttr(v, Split(attrname, '.')[i])
    ensures BeanValue(obj, attrname, defval) == Ok(defval)
  {
    var comps := Split(attrname, '.');
    var v := Walk(obj, comps[..i]).value;
    assert comps[..i + 1] == comps[..i] + [comps[i]];
    WalkAppend(obj, comps[..i], [comps[i]]);
    assert Walk(v, [comps[i]]) == Ok(None);
    NoneIntermediate(obj, attrname, defval, i + 1);
  }

  /**
   * A component `name[i]` on a list or tuple continues with element `i`
   * (None when out of range) and looks `name` up in it; it does not look
   * up `name` first.
   */
  lemma IndexedStepOnSequence(v: Value, c: string)
    requires v.List? || v.Tuple?
    requires ParseComponent(c).Indexed?
    ensures var k := ParseComponent(c);
            Step(v, c) == Ok(Lookup(if k.idx < |v.items| then v.items[k.idx] else None, k.name))
  {
  }

  /** Indexing a dictionary at an integer it lacks raises KeyError, which `getBeanValue` does not catch. */
  lemma IndexedStepOnDictionary(v: Value, c: string)
    requires v.Dict? && ParseComponent(c).Indexed?
    requires IntKey(ParseComponent(c).idx) !in v.entries
    ensures Step(v, c) == Err(KeyError)
  {
  }

  /** Falsy values become `defval`, as the final `if beanobj: return beanobj` does. */
  function TruthyOr(v: Value, defval: Value): Value
  {
    if Truthy(v) then v else defval
  }

  /** A two-component dotted path `k1.k2` without index suffixes looks `k1` up, then `k2`. */
  lemma TwoKeyPath(obj: Value, k1: string, k2: string, defval: Value)
    requires '.' !in k1 && '.' !in k2 && '[' !in k1 && '[' !in k2
    ensures BeanValue(obj, k1 + "." + k2, defval)
            == Ok(if Truthy(obj) then TruthyOr(Lookup(Lookup(obj, k1), k2), defval) else defval)
  {
    SplitThroughSeparator(k1, k2, '.');
    SplitNoSeparator(k2, '.');
    assert Split(k1 + "." + k2, '.') == [k1, k2];
    NoBracketIsPlain(k1);
    NoBracketIsPlain(k2);
    var w := Lookup(obj, k1);
    assert [k1, k2][1..] == [k2] && [k2][1..] == [];
    assert Walk(obj, [k1, k2]) == Walk(w, [k2]);
    assert Walk(w, [k2]) == Walk(Lookup(w, k2), []);
  }

  // ---------------------------------------------------------------- all-dictionary paths

  /** Native nested lookup `d[k1][k2]...[kn]` through dictionaries; Nothing when a key is missing or a value is not a dictionary. */
  function NestedGet(v: Value, keys: seq<string>): Option<Value>
    decreases |keys|
  {
    if keys == [] then Some(v)
    else if v.Dict? && StrKey(keys[0]) in v.entries then NestedGet(v.entries[StrKey(keys[0])], keys[1..])
    else Nothing
  }

  /** Some key along an all-dictionary path is missing. */
  predicate MissingAlong(v: Value, keys: seq<string>)
    decreases |keys|
  {
    keys != [] && v.Dict? &&
    (StrKey(keys[0]) !in v.entries || MissingAlong(v.entries[StrKey(keys[0])], keys[1..]))
  }

  predicate IndexFree(keys: seq<string>)
  {
    forall i :: 0 <= i < |keys| ==> ParseComponent(keys[i]).Plain?
  }

  lemma {:induction false} WalkNested(v: Value, keys: seq<string>)
    requires IndexFree(keys) && NestedGet(v, keys).Some?
    ensures Walk(v, keys) == Ok(NestedGet(v, keys).value)
    decreases |keys|
  {
    if keys != [] {
      assert Step(v, keys[0]) == Ok(v.entries[StrKey(keys[0])]);
      WalkNested(v.entries[StrKey(keys[0])], keys[1..]);
    }
  }

  lemma {:induction false} WalkMissing(v: Value, keys: seq<string>)
    requires IndexFree(keys) && MissingAlong(v, keys)
    ensures Walk(v, keys) == Ok(None)
    decreases |keys|
  {
    var next := if StrKey(keys[0]) in v.entries then v.entries[StrKey(keys[0])] else None;
    assert Step(v, keys[0]) == Ok(next);
    if StrKey(keys[0]) in v.entries {
      WalkMissing(next, keys[1..]);
    } else {
      WalkFromNone(keys[1..]);
    }
  }

  /**
   * On a dotted path of index-free keys through dictionaries, the result
   * is the native nested lookup when every key exists (or `defval` when
   * the value found is falsy) ...
   */
  lemma DictPathIsNestedLookup(obj: Value, keys: seq<string>, defval: Value)
    requires |keys| >= 1 && IndexFree(keys)
    requires forall i :: 0 <= i < |keys| ==> '.' !in keys[i]
    requires Truthy(obj) && NestedGet(obj, keys).Some?
    ensures var x := NestedGet(obj, keys).value;
            BeanValue(obj, Join(keys, '.'), defval) == Ok(if Truthy(x) then x else defval)
  {
    SplitJoin(keys, '.');
    WalkNested(obj, keys);
  }

  /** ... and `defval` as soon as one key is missing. */
  lemma DictPathMissingKeyGivesDefault(obj: Value, keys: seq<string>, defval: Value)
    requires |keys| >= 1 && IndexFree(keys)
    requires forall i :: 0 <= i < |keys| ==> '.' !in keys[i]
    requires Truthy(obj) && MissingAlong(obj, keys)
    ensures BeanValue(obj, Join(keys, '.'), defval) == Ok(defval)
  {
    SplitJoin(keys, '.');
    WalkMissing(obj, keys);
  }

  // ---------------------------------------------------------------- a component `name[i]` as evidently intended

  /** `{"list": [{"v": 1}, {"v": 2}]}` */
  function TwoElementExample(): Value
  {
    Dict(map[StrKey("list") := List([Dict(map[StrKey("v") := Int(1)]), Dict(map[StrKey("v") := Int(2)])])])
  }

  /** `{"list": [{"v": 1}]}` */
  function OneElementExample(): Value
  {
    Dict(map[StrKey("list") := List([Dict(map[StrKey("v") := Int(1)])])])
  }

  /** The components of `name[idx].field`. */
  lemma SplitIndexedThenField(name: string, idx: nat, field: string)
    requires '.' !in name && '.' !in field && '\n' !in name
    ensures '.' !in FormatIndexed(name, idx)
    ensures Split(FormatIndexed(name, idx) + "." + field, '.') == [FormatIndexed(name, idx), field]
    ensures ParseComponent(FormatIndexed(name, idx)) == Indexed(name, idx)
  {
    var digits := NatToString(idx);
    assert forall t :: 0 <= t < |digits| ==> IsDigit(digits[t]);
    assert '.' !in FormatIndexed(name, idx) by {
      forall t | 0 <= t < |FormatIndexed(name, idx)| ensures FormatIndexed(name, idx)[t] != '.' {
        if t < |name| {
          assert FormatIndexed(name, idx)[t] == name[t];
        } else if |name| < t < |name| + 1 + |digits| {
          assert FormatIndexed(name, idx)[t] == digits[t - |name| - 1];
        }
      }
    }
    SplitThroughSeparator(FormatIndexed(name, idx), field, '.');
    SplitNoSeparator(field, '.');
    ParseFormatIndexed(name, idx);
  }

  /** As written, `name[i].field` on a non-empty dictionary indexes the dictionary itself at `i`. */
  lemma IndexedComponentOnDictRaises(d: map<Key, Value>, name: string, idx: nat, field: string, defval: Value)
    requires '.' !in name && '.' !in field && '\n' !in name
    requires d != map[] && IntKey(idx) !in d
    ensures BeanValue(Dict(d), FormatIndexed(name, idx) + "." + field, defval) == Err(KeyError)
  {
    var c := FormatIndexed(name, idx);
    SplitIndexedThenField(name, idx, field);
    assert Split(c + "." + field, '.') == [c, field];
    assert IsIterable(Dict(d)) && GetIndex(c) == Some(idx);
    assert GetArrayIndexValue(Dict(d), Some(idx)) == Err(KeyError);
    assert Step(Dict(d), c) == Err(KeyError);
    assert Walk(Dict(d), [c, field]) == Err(KeyError);
    assert Truthy(Dict(d));
  }

  /**
   * So `list[1].v` on `{"list": [{"v": 1}, {"v": 2}]}` raises KeyError
   * (a dictionary is iterable, and it has no key 1) instead of giving 2.
   */
  lemma IndexedPathOnDictRaises()
    ensures BeanValue(TwoElementExample(), "list[1].v", None) == Err(KeyError)
  {
    assert NatToString(1) == "1";
    assert FormatIndexed("list", 1) + "." + "v" == "list[1].v";
    assert StrKey("list") in TwoElementExample().entries;
    IndexedComponentOnDictRaises(TwoElementExample().entries, "list", 1, "v", None);
  }

  /** The intended reading of `name[i]`: look `name` up, then index the list found there (None when out of range). */
  function IntendedStep(v: Value, c: string): (r: Value)
    ensures ParseComponent(c).Plain? ==> r == Lookup(v, c)
  {
    match ParseComponent(c)
    case Plain(name) => Lookup(v, name)
    case Indexed(name, idx) =>
      var field := Lookup(v, name);
      if IsList(field) then (if idx < |field.items| then field.items[idx] else None) else field
  }

  function IntendedWalk(v: Value, comps: seq<string>): Value
    decreases |comps|
  {
    if comps == [] then v else IntendedWalk(IntendedStep(v, comps[0]), comps[1..])
  }

  /** `getBeanValue` with components read as intended; it raises nothing. */
  function IntendedBeanValue(obj: Value, attrname: string, defval: Value): Value
  {
    if !Truthy(obj) then defval
    else
      var v := IntendedWalk(obj, Split(attrname, '.'));
      if Truthy(v) then v else defval
  }

  /** Read as intended, `name[i]` on a dictionary whose `name` is a list continues with element `i`. */
  lemma IntendedIndexesTheField(d: map<Key, Value>, name: string, idx: nat, xs: seq<Value>)
    requires '\n' !in name && StrKey(name) in d && d[StrKey(name)] == List(xs)
    ensures IntendedStep(Dict(d), FormatIndexed(name, idx)) == if idx < |xs| then xs[idx] else None
  {
    ParseFormatIndexed(name, idx);
  }

  lemma IntendedWalkTwo(v: Value, c: string, field: string)
    requires '[' !in field
    ensures IntendedWalk(v, [c, field]) == Lookup(IntendedStep(v, c), field)
  {
    var w := IntendedStep(v, c);
    assert [c, field][1..] == [field];
    assert IntendedWalk(v, [c, field]) == IntendedWalk(w, [field]);
    assert [field][1..] == [];
    NoBracketIsPlain(field);
    assert IntendedWalk(w, [field]) == IntendedWalk(IntendedStep(w, field), []);
  }

  /** Read as intended, `name[i].field` on a dictionary whose `name` is a list reads `field` of element `i`. */
  lemma IntendedIndexedThenField(d: map<Key, Value>, name: string, idx: nat, field: string, defval: Value)
    requires '.' !in name && '.' !in field && '\n' !in name && '[' !in field
    requires StrKey(name) in d && d[StrKey(name)].List?
    ensures var xs := d[StrKey(name)].items;
            var w := Lookup(if idx < |xs| then xs[idx] else None, field);
            IntendedBeanValue(Dict(d), FormatIndexed(name, idx) + "." + field, defval) == if Truthy(w) then w else defval
  {
    var xs := d[StrKey(name)].items;
    var c := FormatIndexed(name, idx);
    var element := if idx < |xs| then xs[idx] else None;
    SplitIndexedThenField(name, idx, field);
    assert Split(c + "." + field, '.') == [c, field];
    IntendedIndexesTheField(d, name, idx, xs);
    assert IntendedStep(Dict(d), c) == element;
    IntendedWalkTwo(Dict(d), c, field);
    assert IntendedWalk(Dict(d), Split(c + "." + field, '.')) == Lookup(element, field);
    assert Truthy(Dict(d));
  }

  /** The two examples of the intended behaviour: `list[1].v` is 2, and an out-of-range `list[5].v` gives the default. */
  lemma IntendedExamples()
    ensures IntendedBeanValue(TwoElementExample(), "list[1].v", None) == Int(2)
    ensures IntendedBeanValue(OneElementExample(), "list[5].v", Int(-1)) == Int(-1)
  {
    assert NatToString(1) == "1" && NatToString(5) == "5";
    assert FormatIndexed("list", 1) + "." + "v" == "list[1].v";
    assert FormatIndexed("list", 5) + "." + "v" == "list[5].v";
    assert StrKey("list") in TwoElementExample().entries;
    assert StrKey("list") in OneElementExample().entries;
    IntendedIndexedThenField(TwoElementExample().entries, "list", 1, "v", None);
    IntendedIndexedThenField(OneElementExample().entries, "list", 5, "v", Int(-1));
  }

  lemma {:induction false} IntendedAgreesWithoutIndex(v: Value, comps: seq<string>)
    requires IndexFree(comps)
    ensures Walk(v, comps) == Ok(IntendedWalk(v, comps))
    decreases |comps|
  {
    if comps != [] {
      IntendedAgreesWithoutIndex(IntendedStep(v, comps[0]), comps[1..]);
    }
  }

  /** On paths without index suffixes, such as the adapters' `message.content`, both readings give the same result. */
  lemma BeanValueAgreesWithoutIndex(obj: Value, attrname: string, defval: Value)
    requires IndexFree(Split(attrname, '.'))
    ensures BeanValue(obj, attrname, defval) == Ok(IntendedBeanValue(obj, attrname, defval))
  {
    IntendedAgreesWithoutIndex(obj, Split(attrname, '.'));
  }
}
