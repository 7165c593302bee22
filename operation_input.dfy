/**
 * `OperationInput`: the input of one sub-operation, a tagged union over a
 * list, a string-keyed map and a single object. The tag (`form`) says which
 * payload a consumer may read; asking for any other tag yields null.
 */
module InputEntity {
  import opened Lang

  /** Java's `byte`, the type of the tag. */
  type Byte = x: int | -128 <= x < 128

  const LIST_TYPE: Byte := 0
  const MAP_TYPE: Byte := 1
  const O_TYPE: Byte := 2

  /** The four fields of an `OperationInput`, as a value. */
  datatype InputView = InputView(
    list: Option<seq<Value>>,
    mapping: Option<map<string, Value>>,
    o: Value,
    form: Byte)

  /** What `getInput` hands back: null, or one of the three payloads. */
  datatype Payload =
    | Nothing
    | ListPayload(items: seq<Value>)
    | MapPayload(entries: map<string, Value>)
    | ObjectPayload(obj: Value)

  /** The input each factory builds. */
  function ListInput(list: Option<seq<Value>>): InputView { InputView(list, None, Null, LIST_TYPE) }
  function MapInput(m: Option<map<string, Value>>): InputView { InputView(None, m, Null, MAP_TYPE) }
  function ObjectInput(o: Value): InputView { InputView(None, None, o, O_TYPE) }

  /** `getInput(t)`: the payload stored under `t` when `t` is the tag, null otherwise. */
  function PayloadOf(v: InputView, t: Byte): (p: Payload)
    ensures t != v.form ==> p == Nothing
    ensures v.form !in {LIST_TYPE, MAP_TYPE, O_TYPE} ==> p == Nothing
  {
    if v.form != t then Nothing
    else if v.form == LIST_TYPE then (if v.list.Some? then ListPayload(v.list.value) else Nothing)
    else if v.form == MAP_TYPE then (if v.mapping.Some? then MapPayload(v.mapping.value) else Nothing)
    else if v.form == O_TYPE then (if v.o.Null? then Nothing else ObjectPayload(v.o))
    else Nothing
  }

  /**
   * Each factory's input gives back its payload under its own tag and null
   * under the two others; the two payload fields it does not set stay null.
   */
  lemma FactoryPayloads(l: seq<Value>, m: map<string, Value>, o: Value, t: Byte)
    ensures PayloadOf(ListInput(Some(l)), LIST_TYPE) == ListPayload(l)
    ensures PayloadOf(MapInput(Some(m)), MAP_TYPE) == MapPayload(m)
    ensures o != Null ==> PayloadOf(ObjectInput(o), O_TYPE) == ObjectPayload(o)
    ensures t != LIST_TYPE ==> PayloadOf(ListInput(Some(l)), t) == Nothing
    ensures t != MAP_TYPE ==> PayloadOf(MapInput(Some(m)), t) == Nothing
    ensures t != O_TYPE ==> PayloadOf(ObjectInput(o), t) == Nothing
    ensures ListInput(Some(l)).mapping == None && ListInput(Some(l)).o == Null
    ensures MapInput(Some(m)).list == None && MapInput(Some(m)).o == Null
    ensures ObjectInput(o).list == None && ObjectInput(o).mapping == None
  {
  }

  /** After `setForm(f)` with an unknown tag every `getInput` yields null, whatever the payload fields hold. */
  lemma UnknownFormHidesPayload(v: InputView, f: Byte, t: Byte)
    requires f !in {LIST_TYPE, MAP_TYPE, O_TYPE}
    ensures PayloadOf(v.(form := f), t) == Nothing
  {
  }

  /** `AbstractCollection.toString()`: "[" + the elements separated by ", " + "]". */
  function ListText(items: seq<Value>): string
  {
    "[" + Separated(seq(|items|, i requires 0 <= i < |items| => ValueText(items[i]))) + "]"
  }

  /** `AbstractMap.toString()` in the iteration order `order`: "{k1=v1, k2=v2}". */
  function MapText(m: map<string, Value>, order: seq<string>): string
    requires forall i | 0 <= i < |order| :: order[i] in m
  {
    "{" + Separated(seq(|order|, i requires 0 <= i < |order| => order[i] + "=" + ValueText(m[order[i]]))) + "}"
  }

  function Separated(parts: seq<string>): string
  {
    if |parts| == 0 then "" else if |parts| == 1 then parts[0] else parts[0] + ", " + Separated(parts[1..])
  }

  /**
   * `OperationInput.toString()`: the payload that matches the tag, and an empty
   * bracket for an unknown tag. `order` is the iteration order of the map payload.
   */
  function InputText(v: InputView, order: seq<string>): (s: string)
    requires v.form == MAP_TYPE && v.mapping.Some? ==> IsEnumeration(order, v.mapping.value.Keys)
    ensures v.form !in {LIST_TYPE, MAP_TYPE, O_TYPE} ==> s == "OperationInput:[  ]"
  {
    if v.form == LIST_TYPE then
      "OperationInput:[ list=" + (if v.list.Some? then ListText(v.list.value) else "null") + ", form=" + IntToDecimal(v.form) + " ]"
    else if v.form == MAP_TYPE then
      "OperationInput:[ map=" + (if v.mapping.Some? then MapText(v.mapping.value, order) else "null") + ", form=" + IntToDecimal(v.form) + " ]"
    else if v.form == O_TYPE then
      "OperationInput:[ o=" + ValueText(v.o) + ", form=" + IntToDecimal(v.form) + " ]"
    else
      "OperationInput:[  ]"
  }

  /** `OperationInput.initListInput(["a", "b", 1]).toString()`. */
  lemma ListInputText()
    ensures InputText(ListInput(Some([Str("a"), Str("b"), Int(1)])), []) == "OperationInput:[ list=[a, b, 1], form=0 ]"
  {
    var items := [Str("a"), Str("b"), Int(1)];
    assert IntToDecimal(1) == "1";
    var parts := seq(|items|, i requires 0 <= i < |items| => ValueText(items[i]));
    assert parts == ["a", "b", "1"];
    assert Separated(parts[2..]) == "1";
    assert Separated(parts[1..]) == "b, 1" by { assert parts[1..][1..] == parts[2..]; }
    assert Separated(parts) == "a, b, 1";
    assert ListText(items) == "[a, b, 1]";
    assert IntToDecimal(LIST_TYPE) == "0";
    var t := "OperationInput:[ list=" + "[a, b, 1]";
    assert t == "OperationInput:[ list=[a, b, 1]";
    assert t + ", form=" + "0" + " ]" == "OperationInput:[ list=[a, b, 1], form=0 ]";
  }

  /** A list input whose list is null prints "null" for it. */
  lemma NullListInputText()
    ensures InputText(ListInput(None), []) == "OperationInput:[ list=null, form=0 ]"
  {
    assert IntToDecimal(LIST_TYPE) == "0";
  }

  /** `OperationInput.initMapInput({k=v}).toString()`. */
  lemma MapInputText()
    ensures InputText(MapInput(Some(map["k" := Str("v")])), ["k"]) == "OperationInput:[ map={k=v}, form=1 ]"
  {
    assert IntToDecimal(MAP_TYPE) == "1";
  }

  /** `OperationInput.initObjectInput(7).toString()`. */
  lemma ObjectInputText()
    ensures InputText(ObjectInput(Int(7)), []) == "OperationInput:[ o=7, form=2 ]"
  {
    assert IntToDecimal(7) == "7";
    assert IntToDecimal(O_TYPE) == "2";
  }

  class OperationInput {
    var list: Option<seq<Value>>
    var mapping: Option<map<string, Value>>
    var o: Value
    var form: Byte

    function View(): InputView
      reads this
    {
      InputView(list, mapping, o, form)
    }

    /** The private constructor: no payload, and the tag is a byte's default, 0. */
    constructor ()
      ensures View() == InputView(None, None, Null, 0)
    {
      list, mapping, o, form := None, None, Null, 0;
    }

    static method InitListInput(list: Option<seq<Value>>) returns (oi: OperationInput)
      ensures fresh(oi) && oi.View() == ListInput(list)
    {
      oi := new OperationInput();
      oi.SetList(list);
      oi.SetForm(LIST_TYPE);
    }

    static method InitMapInput(m: Option<map<string, Value>>) returns (oi: OperationInput)
      ensures fresh(oi) && oi.View() == MapInput(m)
    {
      oi := new OperationInput();
      oi.SetMap(m);
      oi.SetForm(MAP_TYPE);
    }

    static method InitObjectInput(o: Value) returns (oi: OperationInput)
      ensures fresh(oi) && oi.View() == ObjectInput(o)
    {
      oi := new OperationInput();
      oi.SetO(o);
      oi.SetForm(O_TYPE);
    }

    method SetList(list: Option<seq<Value>>)
      modifies this
      ensures View() == old(View()).(list := list)
    {
      this.list := list;
    }

    method SetMap(m: Option<map<string, Value>>)
      modifies this
      ensures View() == old(View()).(mapping := m)
    {
      this.mapping := m;
    }

    method SetO(o: Value)
      modifies this
      ensures View() == old(View()).(o := o)
    {
      this.o := o;
    }

    /** The public tag setter: changes the tag and nothing else. */
    method SetForm(form: Byte)
      modifies this
      ensures View() == old(View()).(form := form)
    {
      this.form := form;
    }

    function GetInput(t: Byte): Payload
      reads this
    {
      PayloadOf(View(), t)
    }
  }

  /** The fields of a possibly null input reference. */
  function ViewOf(input: Option<OperationInput>): Option<InputView>
    reads if input.Some? then {input.value} else {}
  {
    if input.Some? then Some(input.value.View()) else None
  }
}
