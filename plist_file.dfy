/**
 * Property lists: the seven-way tagged value `PListValue`, whose setters
 * retag and replace the payload and whose getters fall back to typed
 * defaults, and the recursive loader that reads Apple's XML property-list
 * encoding (`dict`, `array`, `string`, `real`, `integer`, `true`, `false`)
 * from an element tree.
 */
module PList {
  import opened Wrappers
  import opened Int32
  import opened TextScan
  import opened XmlTrees
  import opened IntVectors2
  import opened IntVectors3
  import opened IntRects

  datatype PListValueType = PLVT_NONE | PLVT_INT | PLVT_BOOL | PLVT_FLOAT | PLVT_STRING | PLVT_VALUEMAP | PLVT_VALUEVECTOR

  /** The content of a property-list value; maps and vectors hold values, copied deeply. */
  datatype PValue =
    | NoneV
    | IntV(i: i32)
    | BoolV(b: bool)
    | FloatV(f: real)
    | StringV(s: string)
    | MapV(m: map<string, PValue>)
    | VectorV(v: seq<PValue>)
  {
    function Type(): PListValueType
    {
      match this
      case NoneV => PLVT_NONE
      case IntV(_) => PLVT_INT
      case BoolV(_) => PLVT_BOOL
      case FloatV(_) => PLVT_FLOAT
      case StringV(_) => PLVT_STRING
      case MapV(_) => PLVT_VALUEMAP
      case VectorV(_) => PLVT_VALUEVECTOR
    }
  }

  /** The scan formats `{{%d,%d},{%d,%d}}`, `{%d,%d}` and `{%d,%d,%d}`. */
  const RECT_FORMAT: seq<FormatItem> :=
    [Lit('{'), Lit('{'), Dec, Lit(','), Dec, Lit('}'), Lit(','), Lit('{'), Dec, Lit(','), Dec, Lit('}'), Lit('}')]
  const VECTOR2_FORMAT: seq<FormatItem> := [Lit('{'), Dec, Lit(','), Dec, Lit('}')]
  const VECTOR3_FORMAT: seq<FormatItem> := [Lit('{'), Dec, Lit(','), Dec, Lit(','), Dec, Lit('}')]

  /** The `i`-th scanned number, or 0 for a conversion that was not reached. */
  function ScannedOrZero(vals: seq<i32>, i: nat): i32
  {
    if i < |vals| then vals[i] else 0
  }

  /** The rectangle read from "{{x,y},{w,h}}": (x, y, x + w, y + h). */
  function IntRectOf(s: string): IntRect
  {
    var vals := Scan(s, RECT_FORMAT);
    var x, y := ScannedOrZero(vals, 0), ScannedOrZero(vals, 1);
    IntRect(x, y, x + ScannedOrZero(vals, 2), y + ScannedOrZero(vals, 3))
  }

  function IntVector2Of(s: string): IntVector2
  {
    var vals := Scan(s, VECTOR2_FORMAT);
    IntVector2(ScannedOrZero(vals, 0), ScannedOrZero(vals, 1))
  }

  function IntVector3Of(s: string): IntVector3
  {
    var vals := Scan(s, VECTOR3_FORMAT);
    IntVector3(ScannedOrZero(vals, 0), ScannedOrZero(vals, 1), ScannedOrZero(vals, 2))
  }

  /** The rectangle text of a position and a size reads back as that rectangle. */
  lemma IntRectOfRendered(x: i32, y: i32, w: i32, h: i32)
    ensures IntRectOf(Render(RECT_FORMAT, [x, y, w, h])) == IntRect(x, y, x + w, y + h)
  {
    RectFormatSeparated();
    var vals := [x, y, w, h];
    ScanRenderRoundTrip(RECT_FORMAT, vals);
    assert Scan(Render(RECT_FORMAT, vals), RECT_FORMAT) == vals;
  }

  lemma RectFormatSeparated()
    ensures Conversions(RECT_FORMAT) == 4 && Separated(RECT_FORMAT)
  {
    RectFormatConversions();
  }

  lemma RectFormatConversions()
    ensures Conversions(RECT_FORMAT) == 4
  {
  }

  /** The text "{x,y}" reads back as the vector (x, y). */
  lemma IntVector2OfRendered(x: i32, y: i32)
    ensures IntVector2Of(Render(VECTOR2_FORMAT, [x, y])) == IntVector2(x, y)
  {
    assert Conversions(VECTOR2_FORMAT) == 2;
    ScanRenderRoundTrip(VECTOR2_FORMAT, [x, y]);
  }

  /** The text "{x,y,z}" reads back as the vector (x, y, z). */
  lemma IntVector3OfRendered(x: i32, y: i32, z: i32)
    ensures IntVector3Of(Render(VECTOR3_FORMAT, [x, y, z])) == IntVector3(x, y, z)
  {
    assert Conversions(VECTOR3_FORMAT) == 3;
    ScanRenderRoundTrip(VECTOR3_FORMAT, [x, y, z]);
  }

  /**
   * A property-list value: a type tag and one payload field per type (the
   * source keeps them in a union and owns the string, map and vector).
   */
  class PListValue {
    var type_: PListValueType
    var int_: i32
    var bool_: bool
    var float_: real
    var string_: string
    var valueMap: map<string, PValue>
    var valueVector: seq<PValue>

    /** The value the tag and the payload stand for. */
    function Value(): (v: PValue)
      reads this
      ensures v.Type() == type_
    {
      match type_
      case PLVT_NONE => NoneV
      case PLVT_INT => IntV(int_)
      case PLVT_BOOL => BoolV(bool_)
      case PLVT_FLOAT => FloatV(float_)
      case PLVT_STRING => StringV(string_)
      case PLVT_VALUEMAP => MapV(valueMap)
      case PLVT_VALUEVECTOR => VectorV(valueVector)
    }

    /** A new value is untyped. */
    constructor ()
      ensures Value() == NoneV
    {
      type_ := PLVT_NONE;
    }

    /** Drop the payload and become untyped; an untyped value is left as it is. */
    method Reset()
      modifies this
      ensures Value() == NoneV
      ensures old(type_) == PLVT_NONE ==> unchanged(this)
    {
      if type_ == PLVT_NONE {
        return;
      }
      type_ := PLVT_NONE;
    }

    method SetI32(value: i32)
      modifies this
      ensures Value() == IntV(value) && GetI32() == value
    {
      if type_ != PLVT_INT {
        Reset();
        type_ := PLVT_INT;
      }
      int_ := value;
    }

    method SetBool(value: bool)
      modifies this
      ensures Value() == BoolV(value) && GetBool() == value
    {
      if type_ != PLVT_BOOL {
        Reset();
        type_ := PLVT_BOOL;
      }
      bool_ := value;
    }

    method SetFloat(value: real)
      modifies this
      ensures Value() == FloatV(value) && GetFloat() == value
    {
      if type_ != PLVT_FLOAT {
        Reset();
        type_ := PLVT_FLOAT;
      }
      float_ := value;
    }

    method SetString(value: string)
      modifies this
      ensures Value() == StringV(value) && GetString() == value
    {
      if type_ != PLVT_STRING {
        Reset();
        type_ := PLVT_STRING;
        string_ := "";
      }
      string_ := value;
    }

    method SetValueMap(value: map<string, PValue>)
      modifies this
      ensures Value() == MapV(value) && GetValueMap() == value
    {
      if type_ != PLVT_VALUEMAP {
        Reset();
        type_ := PLVT_VALUEMAP;
        valueMap := map[];
      }
      valueMap := value;
    }

    method SetValueVector(value: seq<PValue>)
      modifies this
      ensures Value() == VectorV(value) && GetValueVector() == value
    {
      if type_ != PLVT_VALUEVECTOR {
        Reset();
        type_ := PLVT_VALUEVECTOR;
        valueVector := [];
      }
      valueVector := value;
    }

    /** Assignment takes the right-hand side's tag and payload; an untyped one resets. */
    method Assign(rhs: PListValue)
      modifies this
      ensures Value() == old(rhs.Value())
    {
      match rhs.type_
      case PLVT_NONE => Reset();
      case PLVT_INT => SetI32(rhs.int_);
      case PLVT_BOOL => SetBool(rhs.bool_);
      case PLVT_FLOAT => SetFloat(rhs.float_);
      case PLVT_STRING => SetString(rhs.string_);
      case PLVT_VALUEMAP => SetValueMap(rhs.valueMap);
      case PLVT_VALUEVECTOR => SetValueVector(rhs.valueVector);
    }

    function GetI32(): (r: i32)
      reads this
      ensures Value().IntV? ==> r == Value().i
      ensures !Value().IntV? ==> r == 0
    {
      if type_ == PLVT_INT then int_ else 0
    }

    function GetBool(): (r: bool)
      reads this
      ensures Value().BoolV? ==> r == Value().b
      ensures !Value().BoolV? ==> !r
    {
      if type_ == PLVT_BOOL then bool_ else false
    }

    function GetFloat(): (r: real)
      reads this
      ensures Value().FloatV? ==> r == Value().f
      ensures !Value().FloatV? ==> r == 0.0
    {
      if type_ == PLVT_FLOAT then float_ else 0.0
    }

    function GetString(): (r: string)
      reads this
      ensures Value().StringV? ==> r == Value().s
      ensures !Value().StringV? ==> r == ""
    {
      if type_ == PLVT_STRING then string_ else ""
    }

    function GetValueMap(): (r: map<string, PValue>)
      reads this
      ensures Value().MapV? ==> r == Value().m
      ensures !Value().MapV? ==> r == map[]
    {
      if type_ == PLVT_VALUEMAP then valueMap else map[]
    }

    function GetValueVector(): (r: seq<PValue>)
      reads this
      ensures Value().VectorV? ==> r == Value().v
      ensures !Value().VectorV? ==> r == []
    {
      if type_ == PLVT_VALUEVECTOR then valueVector else []
    }

    /** The rectangle a string value holds; zero for any other value. */
    function GetIntRect(): (r: IntRect)
      reads this
      ensures !Value().StringV? ==> r == ZERO
      ensures Value().StringV? ==> r == IntRectOf(Value().s)
    {
      var v := Value();
      if v.StringV? then IntRectOf(v.s) else ZERO
    }

    function GetIntVector2(): (r: IntVector2)
      reads this
      ensures !Value().StringV? ==> r == IntVector2(0, 0)
      ensures Value().StringV? ==> r == IntVector2Of(Value().s)
    {
      var v := Value();
      if v.StringV? then IntVector2Of(v.s) else IntVector2(0, 0)
    }

    function GetIntVector3(): (r: IntVector3)
      reads this
      ensures !Value().StringV? ==> r == IntVector3(0, 0, 0)
      ensures Value().StringV? ==> r == IntVector3Of(Value().s)
    {
      var v := Value();
      if v.StringV? then IntVector3Of(v.s) else IntVector3(0, 0, 0)
    }

    /** Keep an existing map; any other value becomes an empty map. Yields the map. */
    method ConvertToValueMap() returns (m: map<string, PValue>)
      modifies this
      ensures old(type_) == PLVT_VALUEMAP ==> Value() == old(Value())
      ensures old(type_) != PLVT_VALUEMAP ==> Value() == MapV(map[])
      ensures m == GetValueMap()
    {
      if type_ != PLVT_VALUEMAP {
        Reset();
        type_ := PLVT_VALUEMAP;
        valueMap := map[];
      }
      return valueMap;
    }

    /** Keep an existing vector; any other value becomes an empty vector. Yields the vector. */
    method ConvertToValueVector() returns (v: seq<PValue>)
      modifies this
      ensures old(type_) == PLVT_VALUEVECTOR ==> Value() == old(Value())
      ensures old(type_) != PLVT_VALUEVECTOR ==> Value() == VectorV([])
      ensures v == GetValueVector()
    {
      if type_ != PLVT_VALUEVECTOR {
        Reset();
        type_ := PLVT_VALUEVECTOR;
        valueVector := [];
      }
      return valueVector;
    }
  }

  /** The tag each supported element name loads as; other names are not supported. */
  function ElementType(name: string): (r: Option<PListValueType>)
    ensures r.Some? ==> r.value != PLVT_NONE
  {
    if name == "string" then Some(PLVT_STRING)
    else if name == "real" then Some(PLVT_FLOAT)
    else if name == "integer" then Some(PLVT_INT)
    else if name == "true" || name == "false" then Some(PLVT_BOOL)
    else if name == "dict" then Some(PLVT_VALUEMAP)
    else if name == "array" then Some(PLVT_VALUEVECTOR)
    else None
  }

  /** An element with no attributes and no children, used where a handle is null. */
  const EMPTY_NODE := XmlNode("", "", map[], [])

  /**
   * Loading one element into a value that held `prior`: whether it succeeded
   * and what the value holds afterwards. A `dict` or `array` element fills the
   * value's existing map or vector (an empty one if it held something else).
   */
  function LoadValueSpec(prior: PValue, e: XmlNode, toI32: string -> i32, toFloat: string -> real): (r: (bool, PValue))
    ensures ElementType(e.name).None? ==> !r.0 && r.1 == prior
    ensures ElementType(e.name).Some? ==> r.1.Type() == ElementType(e.name).value
    ensures ElementType(e.name).Some? && e.name != "dict" && e.name != "array" ==> r.0
    decreases e, 1
  {
    if e.name == "string" then (true, StringV(e.value))
    else if e.name == "real" then (true, FloatV(toFloat(e.value)))
    else if e.name == "integer" then (true, IntV(toI32(e.value)))
    else if e.name == "true" then (true, BoolV(true))
    else if e.name == "false" then (true, BoolV(false))
    else if e.name == "dict" then
      var base := if prior.MapV? then prior.m else map[];
      var d := LoadDictFrom(e, FindFrom(e.children, "key", 0), base, toI32, toFloat);
      (d.0, MapV(d.1))
    else if e.name == "array" then
      var base := if prior.VectorV? then prior.v else [];
      var a := LoadArrayFrom(e, 0, base, toI32, toFloat);
      (a.0, VectorV(a.1))
    else (false, prior)
  }

  /**
   * The `dict` loop from the key element `key` on: the value is the sibling
   * right after the key, the next key is the first `key` element after the
   * value. A failing value stops the loop; a key without a value ends it.
   */
  function LoadDictFrom(e: XmlNode, key: Option<nat>, acc: map<string, PValue>,
                        toI32: string -> i32, toFloat: string -> real): (r: (bool, map<string, PValue>))
    requires key.Some? ==> key.value < |e.children|
    ensures acc.Keys <= r.1.Keys
    decreases e, 0, if key.Some? then |e.children| - key.value else 0
  {
    var value := NextSibling(e.children, key);
    if key.None? || value.None? then (true, acc)
    else
      var k := key.value;
      var loaded := LoadValueSpec(NoneV, e.children[k + 1], toI32, toFloat);
      if !loaded.0 then (false, acc)
      else LoadDictFrom(e, FindFrom(e.children, "key", k + 2), acc[e.children[k].value := loaded.1], toI32, toFloat)
  }

  /** The `array` loop from child `i` on: each child is loaded and appended until one fails. */
  function LoadArrayFrom(e: XmlNode, i: nat, acc: seq<PValue>,
                         toI32: string -> i32, toFloat: string -> real): (r: (bool, seq<PValue>))
    requires i <= |e.children|
    ensures acc <= r.1
    ensures r.0 ==> |r.1| == |acc| + |e.children| - i
    ensures !r.0 ==> |r.1| < |acc| + |e.children| - i
    decreases e, 0, |e.children| - i
  {
    if i == |e.children| then (true, acc)
    else
      var loaded := LoadValueSpec(NoneV, e.children[i], toI32, toFloat);
      if !loaded.0 then (false, acc)
      else
        var r := LoadArrayFrom(e, i + 1, acc + [loaded.1], toI32, toFloat);
        assert acc <= acc + [loaded.1];
        r
  }

  /** One turn of the `dict` loop. */
  lemma LoadDictStep(e: XmlNode, k: nat, acc: map<string, PValue>, toI32: string -> i32, toFloat: string -> real)
    requires k + 1 < |e.children|
    ensures var loaded := LoadValueSpec(NoneV, e.children[k + 1], toI32, toFloat);
            LoadDictFrom(e, Some(k), acc, toI32, toFloat)
            == if !loaded.0 then (false, acc)
               else LoadDictFrom(e, FindFrom(e.children, "key", k + 2), acc[e.children[k].value := loaded.1], toI32, toFloat)
  {
  }

  /** `LoadDict`: a null element fails, else the loop starts at the first `key` child. */
  function LoadDictSpec(dict: map<string, PValue>, dictElem: Option<XmlNode>,
                        toI32: string -> i32, toFloat: string -> real): (bool, map<string, PValue>)
  {
    if dictElem.None? then (false, dict)
    else LoadDictFrom(dictElem.value, FindFrom(dictElem.value.children, "key", 0), dict, toI32, toFloat)
  }

  /** `LoadArray`: a null element fails, else every child is loaded in order. */
  function LoadArraySpec(vector: seq<PValue>, arrayElem: Option<XmlNode>,
                         toI32: string -> i32, toFloat: string -> real): (bool, seq<PValue>)
  {
    if arrayElem.None? then (false, vector) else LoadArrayFrom(arrayElem.value, 0, vector, toI32, toFloat)
  }

  /**
   * Load one value element. The conversions of `real` and `integer` text are
   * parameters.
   */
  method LoadValue(value: PListValue, valueElem: XmlNode, toI32: string -> i32, toFloat: string -> real) returns (ok: bool)
    modifies value
    ensures (ok, value.Value()) == LoadValueSpec(old(value.Value()), valueElem, toI32, toFloat)
    decreases valueElem, 1
  {
    var valueType := valueElem.name;
    if valueType == "string" {
      value.SetString(valueElem.value);
    } else if valueType == "real" {
      value.SetFloat(toFloat(valueElem.value));
    } else if valueType == "integer" {
      value.SetI32(toI32(valueElem.value));
    } else if valueType == "true" {
      value.SetBool(true);
    } else if valueType == "false" {
      value.SetBool(false);
    } else if valueType == "dict" {
      var m := value.ConvertToValueMap();
      var filled;
      ok, filled := LoadDict(m, Some(valueElem), toI32, toFloat);
      value.SetValueMap(filled);
      return ok;
    } else if valueType == "array" {
      var v := value.ConvertToValueVector();
      var filled;
      ok, filled := LoadArray(v, Some(valueElem), toI32, toFloat);
      value.SetValueVector(filled);
      return ok;
    } else {
      return false;
    }
    return true;
  }

  /** Fill `dict` from the key/value pairs of a `dict` element; yields the filled map. */
  method LoadDict(dict: map<string, PValue>, dictElem: Option<XmlNode>, toI32: string -> i32, toFloat: string -> real)
    returns (ok: bool, result: map<string, PValue>)
    ensures (ok, result) == LoadDictSpec(dict, dictElem, toI32, toFloat)
    decreases if dictElem.Some? then dictElem.value else EMPTY_NODE, 0
  {
    result := dict;
    if dictElem.None? {
      return false, result;
    }
    var e := dictElem.value;
    var children := e.children;
    var keyElem := FindFrom(children, "key", 0);
    var valueElem := NextSibling(children, keyElem);
    while keyElem.Some? && valueElem.Some?
      invariant keyElem.Some? ==> keyElem.value < |children|
      invariant valueElem == NextSibling(children, keyElem)
      invariant LoadDictFrom(e, keyElem, result, toI32, toFloat) == LoadDictSpec(dict, dictElem, toI32, toFloat)
      decreases if keyElem.Some? then |children| - keyElem.value else 0
    {
      var key := children[keyElem.value].value;
      valueElem := NextSibling(children, keyElem);
      var value := new PListValue();
      ok := LoadValue(value, children[valueElem.value], toI32, toFloat);
      LoadDictStep(e, keyElem.value, result, toI32, toFloat);
      if !ok {
        return false, result;
      }
      result := result[key := value.Value()];
      keyElem := FindFrom(children, "key", valueElem.value + 1);
      valueElem := NextSibling(children, keyElem);
    }
    return true, result;
  }

  /** Append the values of an `array` element's children to `vector`; yields the filled vector. */
  method LoadArray(vector: seq<PValue>, arrayElem: Option<XmlNode>, toI32: string -> i32, toFloat: string -> real)
    returns (ok: bool, result: seq<PValue>)
    ensures (ok, result) == LoadArraySpec(vector, arrayElem, toI32, toFloat)
    decreases if arrayElem.Some? then arrayElem.value else EMPTY_NODE, 0
  {
    result := vector;
    if arrayElem.None? {
      return false, result;
    }
    var children := arrayElem.value.children;
    var i := 0;
    while i < |children|
      invariant 0 <= i <= |children|
      invariant LoadArrayFrom(arrayElem.value, i, result, toI32, toFloat) == LoadArraySpec(vector, arrayElem, toI32, toFloat)
    {
      var value := new PListValue();
      ok := LoadValue(value, children[i], toI32, toFloat);
      if !ok {
        return false, result;
      }
      result := result + [value.Value()];
      i := i + 1;
    }
    return true, result;
  }

  /** `LoadArray` appends in document order: each appended value is the load of the matching child. */
  lemma {:induction false} LoadArrayInDocumentOrder(e: XmlNode, i: nat, acc: seq<PValue>, toI32: string -> i32, toFloat: string -> real)
    requires i <= |e.children|
    ensures forall j :: |acc| <= j < |LoadArrayFrom(e, i, acc, toI32, toFloat).1| ==>
              i + j - |acc| < |e.children|
              && LoadValueSpec(NoneV, e.children[i + j - |acc|], toI32, toFloat) == (true, LoadArrayFrom(e, i, acc, toI32, toFloat).1[j])
    decreases |e.children| - i
  {
    var r0 := LoadArrayFrom(e, i, acc, toI32, toFloat);
    if i < |e.children| {
      var loaded := LoadValueSpec(NoneV, e.children[i], toI32, toFloat);
      if loaded.0 {
        var acc' := acc + [loaded.1];
        LoadArrayInDocumentOrder(e, i + 1, acc', toI32, toFloat);
        var r := LoadArrayFrom(e, i + 1, acc', toI32, toFloat);
        assert r0 == r;
        assert acc' <= r.1;
        forall j | |acc| <= j < |r.1|
          ensures i + j - |acc| < |e.children|
          ensures LoadValueSpec(NoneV, e.children[i + j - |acc|], toI32, toFloat) == (true, r.1[j])
        {
          if j == |acc| {
            assert r.1[j] == acc'[j] == loaded.1;
          } else {
            assert i + 1 + j - |acc'| == i + j - |acc|;
          }
        }
      } else {
        assert r0.1 == acc;
      }
    } else {
      assert r0.1 == acc;
    }
  }

  /** `LoadArray` stops at the first failure: the child after the appended ones is the one that failed. */
  lemma {:induction false} LoadArrayStopsAtFailure(e: XmlNode, i: nat, acc: seq<PValue>, toI32: string -> i32, toFloat: string -> real)
    requires i <= |e.children|
    ensures var r := LoadArrayFrom(e, i, acc, toI32, toFloat);
            !r.0 ==> i + |r.1| - |acc| < |e.children|
                     && !LoadValueSpec(NoneV, e.children[i + |r.1| - |acc|], toI32, toFloat).0
    decreases |e.children| - i
  {
    if i < |e.children| {
      var loaded := LoadValueSpec(NoneV, e.children[i], toI32, toFloat);
      if loaded.0 {
        var acc' := acc + [loaded.1];
        LoadArrayStopsAtFailure(e, i + 1, acc', toI32, toFloat);
        assert LoadArrayFrom(e, i, acc, toI32, toFloat) == LoadArrayFrom(e, i + 1, acc', toI32, toFloat);
      }
    }
  }

  /** Every key `LoadDict` adds is the text of some `key` element that has a sibling after it. */
  lemma {:induction false} LoadDictKeysFromKeyElements(e: XmlNode, key: Option<nat>, acc: map<string, PValue>,
                                                       toI32: string -> i32, toFloat: string -> real)
    requires key.Some? ==> key.value < |e.children|
    requires key.Some? ==> e.children[key.value].name == "key"
    ensures forall k :: k in LoadDictFrom(e, key, acc, toI32, toFloat).1 ==>
              k in acc || exists j :: 0 <= j < |e.children| - 1 && e.children[j].name == "key" && e.children[j].value == k
    decreases if key.Some? then |e.children| - key.value else 0
  {
    var value := NextSibling(e.children, key);
    if key.Some? && value.Some? {
      var k := key.value;
      var loaded := LoadValueSpec(NoneV, e.children[k + 1], toI32, toFloat);
      LoadDictStep(e, k, acc, toI32, toFloat);
      if loaded.0 {
        var next := FindFrom(e.children, "key", k + 2);
        var acc' := acc[e.children[k].value := loaded.1];
        LoadDictKeysFromKeyElements(e, next, acc', toI32, toFloat);
        forall x | x in acc'
          ensures x in acc || exists j :: 0 <= j < |e.children| - 1 && e.children[j].name == "key" && e.children[j].value == x
        {
          if x !in acc {
            assert e.children[k].name == "key" && e.children[k].value == x;
          }
        }
      }
    }
  }

  /**
   * The positions of the `key` elements the `dict` loop visits from `key` on:
   * each is followed by a value, and the next is the first `key` element
   * after that value.
   */
  function KeySlots(e: XmlNode, key: Option<nat>): (r: seq<nat>)
    requires key.Some? ==> key.value < |e.children|
    ensures forall p :: 0 <= p < |r| ==> r[p] + 1 < |e.children|
    ensures forall p :: 0 <= p < |r| ==> key.Some? && key.value <= r[p]
    decreases if key.Some? then |e.children| - key.value else 0
  {
    if key.None? || key.value + 1 >= |e.children| then []
    else [key.value] + KeySlots(e, FindFrom(e.children, "key", key.value + 2))
  }

  /** Some visited `key` element has the text `x`. */
  predicate HasKeyText(e: XmlNode, slots: seq<nat>, x: string)
    requires forall p :: 0 <= p < |slots| ==> slots[p] < |e.children|
  {
    exists p :: 0 <= p < |slots| && e.children[slots[p]].value == x
  }

  /** No visited `key` element after the one at `p` has the same text. */
  predicate LastWithText(e: XmlNode, slots: seq<nat>, p: nat)
    requires p < |slots| && forall q :: 0 <= q < |slots| ==> slots[q] < |e.children|
  {
    forall q :: p < q < |slots| ==> e.children[slots[q]].value != e.children[slots[p]].value
  }

  /** Every visited key's value element loads. */
  predicate AllValuesLoad(e: XmlNode, slots: seq<nat>, toI32: string -> i32, toFloat: string -> real)
    requires forall p :: 0 <= p < |slots| ==> slots[p] + 1 < |e.children|
  {
    forall p :: 0 <= p < |slots| ==> LoadValueSpec(NoneV, e.children[slots[p] + 1], toI32, toFloat).0
  }

  /** The visited keys from a key with a value: that key, then those from the next `key` element after the value. */
  lemma {:induction false} KeySlotsStep(e: XmlNode, k: nat)
    requires k + 1 < |e.children|
    ensures KeySlots(e, Some(k)) == [k] + KeySlots(e, FindFrom(e.children, "key", k + 2))
  {
  }

  /** A text among the visited keys `[k] + rest` is the first one's or one among `rest`. */
  lemma {:induction false} HasKeyTextCons(e: XmlNode, k: nat, rest: seq<nat>, x: string)
    requires k < |e.children| && forall p :: 0 <= p < |rest| ==> rest[p] < |e.children|
    ensures HasKeyText(e, [k] + rest, x) <==> e.children[k].value == x || HasKeyText(e, rest, x)
  {
    var slots := [k] + rest;
    if HasKeyText(e, slots, x) && e.children[k].value != x {
      var p :| 0 <= p < |slots| && e.children[slots[p]].value == x;
      assert rest[p - 1] == slots[p];
    }
    if HasKeyText(e, rest, x) {
      var p :| 0 <= p < |rest| && e.children[rest[p]].value == x;
      assert slots[p + 1] == rest[p];
    }
    if e.children[k].value == x {
      assert slots[0] == k;
    }
  }

  /** The values of the visited keys `[k] + rest` load iff the first one's does and those of `rest` do. */
  lemma {:induction false} AllValuesLoadCons(e: XmlNode, k: nat, rest: seq<nat>, toI32: string -> i32, toFloat: string -> real)
    requires k + 1 < |e.children| && forall p :: 0 <= p < |rest| ==> rest[p] + 1 < |e.children|
    ensures AllValuesLoad(e, [k] + rest, toI32, toFloat)
            <==> LoadValueSpec(NoneV, e.children[k + 1], toI32, toFloat).0 && AllValuesLoad(e, rest, toI32, toFloat)
  {
    var slots := [k] + rest;
    if LoadValueSpec(NoneV, e.children[k + 1], toI32, toFloat).0 && AllValuesLoad(e, rest, toI32, toFloat) {
      forall p | 0 <= p < |slots|
        ensures LoadValueSpec(NoneV, e.children[slots[p] + 1], toI32, toFloat).0
      {
        if p > 0 { assert slots[p] == rest[p - 1]; }
      }
    }
    if AllValuesLoad(e, slots, toI32, toFloat) {
      assert slots[0] == k;
      forall p | 0 <= p < |rest|
        ensures LoadValueSpec(NoneV, e.children[rest[p] + 1], toI32, toFloat).0
      {
        assert rest[p] == slots[p + 1];
      }
    }
  }

  /** The `dict` loop succeeds iff the value element of every key it visits loads. */
  lemma {:induction false} LoadDictSucceedsIff(e: XmlNode, key: Option<nat>, acc: map<string, PValue>,
                                               toI32: string -> i32, toFloat: string -> real)
    requires key.Some? ==> key.value < |e.children|
    ensures LoadDictFrom(e, key, acc, toI32, toFloat).0 <==> AllValuesLoad(e, KeySlots(e, key), toI32, toFloat)
    decreases if key.Some? then |e.children| - key.value else 0
  {
    if key.Some? && key.value + 1 < |e.children| {
      var k := key.value;
      var next := FindFrom(e.children, "key", k + 2);
      var rest := KeySlots(e, next);
      var slots := KeySlots(e, key);
      KeySlotsStep(e, k);
      var loaded := LoadValueSpec(NoneV, e.children[k + 1], toI32, toFloat);
      LoadDictStep(e, k, acc, toI32, toFloat);
      if loaded.0 {
        var acc' := acc[e.children[k].value := loaded.1];
        LoadDictSucceedsIff(e, next, acc', toI32, toFloat);
        AllValuesLoadCons(e, k, rest, toI32, toFloat);
      } else {
        AllValuesLoadCons(e, k, rest, toI32, toFloat);
      }
    }
  }

  /**
   * The last visited key with its text in `[k] + rest`: the first one when
   * no later key repeats its text, else the matching one of `rest`.
   */
  lemma {:induction false} LastWithTextCons(e: XmlNode, k: nat, rest: seq<nat>, p: nat)
    requires k < |e.children| && forall q :: 0 <= q < |rest| ==> rest[q] < |e.children|
    requires p <= |rest|
    ensures p == 0 && LastWithText(e, [k] + rest, 0) ==> !HasKeyText(e, rest, e.children[k].value)
    ensures p > 0 ==> ([k] + rest)[p] == rest[p - 1]
    ensures p > 0 && LastWithText(e, [k] + rest, p) ==> LastWithText(e, rest, p - 1)
  {
    var slots := [k] + rest;
    if p == 0 && LastWithText(e, slots, 0) {
      forall q | 0 <= q < |rest|
        ensures e.children[rest[q]].value != e.children[k].value
      {
        assert rest[q] == slots[q + 1];
      }
    }
    if p > 0 && LastWithText(e, slots, p) {
      forall q | p - 1 < q < |rest|
        ensures e.children[rest[q]].value != e.children[rest[p - 1]].value
      {
        assert rest[q] == slots[q + 1];
      }
    }
  }

  /**
   * The keys a successful `dict` loop leaves: the earlier ones plus the texts
   * of the visited `key` elements.
   */
  lemma {:induction false} LoadDictKeys(e: XmlNode, key: Option<nat>, acc: map<string, PValue>,
                                        toI32: string -> i32, toFloat: string -> real)
    requires key.Some? ==> key.value < |e.children|
    requires LoadDictFrom(e, key, acc, toI32, toFloat).0
    ensures forall x :: x in LoadDictFrom(e, key, acc, toI32, toFloat).1 <==> x in acc || HasKeyText(e, KeySlots(e, key), x)
    decreases if key.Some? then |e.children| - key.value else 0
  {
    if key.Some? && key.value + 1 < |e.children| {
      var k := key.value;
      var next := FindFrom(e.children, "key", k + 2);
      KeySlotsStep(e, k);
      var loaded := LoadValueSpec(NoneV, e.children[k + 1], toI32, toFloat);
      LoadDictStep(e, k, acc, toI32, toFloat);
      LoadDictKeys(e, next, acc[e.children[k].value := loaded.1], toI32, toFloat);
      forall x {
        HasKeyTextCons(e, k, KeySlots(e, next), x);
      }
    }
  }

  /** A successful `dict` loop keeps the earlier value of every key no visited `key` element names. */
  lemma {:induction false} LoadDictKeepsOthers(e: XmlNode, key: Option<nat>, acc: map<string, PValue>,
                                               toI32: string -> i32, toFloat: string -> real)
    requires key.Some? ==> key.value < |e.children|
    requires LoadDictFrom(e, key, acc, toI32, toFloat).0
    ensures forall x :: x in acc && !HasKeyText(e, KeySlots(e, key), x) ==> LoadDictFrom(e, key, acc, toI32, toFloat).1[x] == acc[x]
    decreases if key.Some? then |e.children| - key.value else 0
  {
    if key.Some? && key.value + 1 < |e.children| {
      var k := key.value;
      var next := FindFrom(e.children, "key", k + 2);
      KeySlotsStep(e, k);
      var loaded := LoadValueSpec(NoneV, e.children[k + 1], toI32, toFloat);
      LoadDictStep(e, k, acc, toI32, toFloat);
      LoadDictKeepsOthers(e, next, acc[e.children[k].value := loaded.1], toI32, toFloat);
      forall x {
        HasKeyTextCons(e, k, KeySlots(e, next), x);
      }
    }
  }

  /** The last-one-wins property carries over from the keys after `k` to `[k]` followed by them. */
  lemma {:induction false} LastWinsCons(e: XmlNode, k: nat, rest: seq<nat>, r: map<string, PValue>,
                                        toI32: string -> i32, toFloat: string -> real)
    requires k + 1 < |e.children| && forall p :: 0 <= p < |rest| ==> rest[p] + 1 < |e.children|
    requires !HasKeyText(e, rest, e.children[k].value) ==>
               e.children[k].value in r && r[e.children[k].value] == LoadValueSpec(NoneV, e.children[k + 1], toI32, toFloat).1
    requires forall p :: 0 <= p < |rest| && LastWithText(e, rest, p) ==>
               e.children[rest[p]].value in r
               && r[e.children[rest[p]].value] == LoadValueSpec(NoneV, e.children[rest[p] + 1], toI32, toFloat).1
    ensures var slots := [k] + rest;
            forall p :: 0 <= p < |slots| && LastWithText(e, slots, p) ==>
              e.children[slots[p]].value in r
              && r[e.children[slots[p]].value] == LoadValueSpec(NoneV, e.children[slots[p] + 1], toI32, toFloat).1
  {
    var slots := [k] + rest;
    forall p | 0 <= p < |slots| && LastWithText(e, slots, p)
      ensures e.children[slots[p]].value in r
              && r[e.children[slots[p]].value] == LoadValueSpec(NoneV, e.children[slots[p] + 1], toI32, toFloat).1
    {
      LastWithTextCons(e, k, rest, p);
    }
  }

  /**
   * The value a successful `dict` loop stores under a key is the load of the
   * value element after the last visited `key` element with that text: the
   * last one wins.
   */
  lemma {:induction false} LoadDictLastWins(e: XmlNode, key: Option<nat>, acc: map<string, PValue>,
                                            toI32: string -> i32, toFloat: string -> real)
    requires key.Some? ==> key.value < |e.children|
    requires LoadDictFrom(e, key, acc, toI32, toFloat).0
    ensures var r := LoadDictFrom(e, key, acc, toI32, toFloat).1;
            var slots := KeySlots(e, key);
            forall p :: 0 <= p < |slots| && LastWithText(e, slots, p) ==>
              e.children[slots[p]].value in r
              && r[e.children[slots[p]].value] == LoadValueSpec(NoneV, e.children[slots[p] + 1], toI32, toFloat).1
    decreases if key.Some? then |e.children| - key.value else 0
  {
    if key.Some? && key.value + 1 < |e.children| {
      var k := key.value;
      var next := FindFrom(e.children, "key", k + 2);
      var rest := KeySlots(e, next);
      var slots := KeySlots(e, key);
      KeySlotsStep(e, k);
      var loaded := LoadValueSpec(NoneV, e.children[k + 1], toI32, toFloat);
      LoadDictStep(e, k, acc, toI32, toFloat);
      var acc' := acc[e.children[k].value := loaded.1];
      LoadDictLastWins(e, next, acc', toI32, toFloat);
      LoadDictKeepsOthers(e, next, acc', toI32, toFloat);
      var r := LoadDictFrom(e, next, acc', toI32, toFloat).1;
      assert LoadDictFrom(e, key, acc, toI32, toFloat).1 == r;
      LastWinsCons(e, k, rest, r, toI32, toFloat);
    }
  }

  /** A `key` element is no value element. */
  lemma KeyIsNoValue()
    ensures ElementType("key").None?
  {
  }

  /**
   * A successful `dict` loop visits every `key` element from where it starts
   * that has a sibling after it: a `key` element in a value's place would
   * have failed to load.
   */
  lemma {:induction false} LoadDictVisitsEveryKey(e: XmlNode, from: nat, acc: map<string, PValue>,
                                                  toI32: string -> i32, toFloat: string -> real)
    requires from <= |e.children|
    requires LoadDictFrom(e, FindFrom(e.children, "key", from), acc, toI32, toFloat).0
    ensures forall j :: from <= j && j + 1 < |e.children| && e.children[j].name == "key" ==>
              j in KeySlots(e, FindFrom(e.children, "key", from))
    decreases |e.children| - from
  {
    var key := FindFrom(e.children, "key", from);
    FindFromIsFirst(e.children, "key", from);
    if key.Some? && key.value + 1 < |e.children| {
      var k := key.value;
      KeySlotsStep(e, k);
      var loaded := LoadValueSpec(NoneV, e.children[k + 1], toI32, toFloat);
      LoadDictStep(e, k, acc, toI32, toFloat);
      KeyIsNoValue();
      var rest := KeySlots(e, FindFrom(e.children, "key", k + 2));
      LoadDictVisitsEveryKey(e, k + 2, acc[e.children[k].value := loaded.1], toI32, toFloat);
      forall j | from <= j && j + 1 < |e.children| && e.children[j].name == "key"
        ensures j in KeySlots(e, key)
      {
        assert j >= k by { assert Matches(e.children[j], "key"); }
        if j == k + 1 {
          assert false;
        }
      }
    }
  }
}
