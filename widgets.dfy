/**
 * The widget payload encoders of Geckoboard::Push. Each public encoder of the
 * Ruby class builds one of these payloads and hands it to `push`
 * (modelled in module PushClient); here each encoder is the function, or for
 * the funnel the method, that builds the payload.
 */
module Widgets {
  import opened Json
  import opened Seqs

  /** The two items of the number-and-secondary-value widget, before the merge. */
  function NumberItems(value: Value, previousValue: Value): Value
  {
    Arr([Obj(map["text" := Str(""), "value" := value]),
         Obj(map["text" := Str(""), "value" := previousValue])])
  }

  /**
   * number_and_secondary_value: the base hash `{item: ...}` shallow-merged
   * with the caller's options, the caller's keys winning.
   */
  function NumberAndSecondaryValue(value: Value, previousValue: Value, opts: Hash): (r: Value)
    ensures r.Obj? && r.fields.Keys == {"item"} + opts.Keys
    ensures forall k :: k in opts ==> r.fields[k] == opts[k]
    ensures "item" !in opts ==> r.fields["item"] == NumberItems(value, previousValue)
    ensures "item" in opts ==> r == Obj(opts)
    ensures opts == map[] ==> r == Obj(map["item" := NumberItems(value, previousValue)])
  {
    Obj(map["item" := NumberItems(value, previousValue)] + opts)
  }

  /** The type code of a text item: 1 for :alert, 2 for :info, 0 for anything else. */
  function SeverityCode(kind: Value): (code: int)
    ensures 0 <= code <= 2
    ensures code == 1 <==> kind == Sym("alert")
    ensures code == 2 <==> kind == Sym("info")
  {
    if kind == Sym("alert") then 1
    else if kind == Sym("info") then 2
    else 0
  }

  function TextItem(item: Hash): Value
  {
    Obj(map["text" := Field(item, "text"), "type" := Num(SeverityCode(Field(item, "type")))])
  }

  /** text: one `{text, type}` record per input item, in input order. */
  function Text(items: seq<Hash>): (r: Value)
    ensures r.Obj? && r.fields.Keys == {"item"} && r.fields["item"].Arr?
    ensures |r.fields["item"].elems| == |items|
    ensures forall i :: 0 <= i < |items| ==>
      var out := r.fields["item"].elems[i];
      && out.Obj? && out.fields.Keys == {"text", "type"}
      && out.fields["text"] == Field(items[i], "text")
      && out.fields["type"] == Num(SeverityCode(Field(items[i], "type")))
  {
    Obj(map["item" := Arr(MapSeq(TextItem, items))])
  }

  /** The items of a text payload, or none when it has no item list. */
  function Items(payload: Value): seq<Value>
  {
    if payload.Obj? && "item" in payload.fields && payload.fields["item"].Arr?
    then payload.fields["item"].elems
    else []
  }

  /** Each text item is encoded on its own: encoding a concatenation concatenates the encodings. */
  lemma TextIsPerItem(a: seq<Hash>, b: seq<Hash>)
    ensures Items(Text(a + b)) == Items(Text(a)) + Items(Text(b))
  {
    MapSeqAppend(TextItem, a, b);
  }

  function RagItem(values: seq<Value>, labels: seq<Value>, i: nat): Value
  {
    Obj(map["value" := At(values, i), "text" := At(labels, i)])
  }

  /**
   * rag: exactly three items pairing values[i] with labels[i]. Ruby yields
   * nil for an index past the end, so shorter inputs give nil fields.
   */
  function Rag(values: seq<Value>, labels: seq<Value>): (r: Value)
    ensures r.Obj? && r.fields.Keys == {"item"} && r.fields["item"].Arr?
    ensures |r.fields["item"].elems| == 3
    ensures forall i :: 0 <= i < 3 ==>
      var out := r.fields["item"].elems[i];
      && out.Obj? && out.fields.Keys == {"value", "text"}
      && out.fields["value"] == (if i < |values| then values[i] else Null)
      && out.fields["text"] == (if i < |labels| then labels[i] else Null)
  {
    Obj(map["item" := Arr([RagItem(values, labels, 0), RagItem(values, labels, 1), RagItem(values, labels, 2)])])
  }

  /** The first three elements of a sequence, or all of it when shorter. */
  function FirstThree(s: seq<Value>): seq<Value>
  {
    if |s| <= 3 then s else s[..3]
  }

  /** rag consults only the first three positions of each input. */
  lemma RagIgnoresTail(values: seq<Value>, labels: seq<Value>)
    ensures Rag(values, labels) == Rag(FirstThree(values), FirstThree(labels))
  {
    forall i: nat | i < 3
      ensures RagItem(values, labels, i) == RagItem(FirstThree(values), FirstThree(labels), i)
    {
      assert At(values, i) == At(FirstThree(values), i);
      assert At(labels, i) == At(FirstThree(labels), i);
    }
  }

  /** line: the values as the item, and all three settings, nil or not. */
  function Line(values: Value, colour: Value, xAxis: Value, yAxis: Value): (r: Value)
    ensures r.Obj? && r.fields.Keys == {"item", "settings"}
    ensures r.fields["item"] == values
    ensures var s := r.fields["settings"];
      && s.Obj? && s.fields.Keys == {"axisx", "axisy", "colour"}
      && s.fields["axisx"] == xAxis && s.fields["axisy"] == yAxis && s.fields["colour"] == colour
  {
    Obj(map["item" := values,
            "settings" := Obj(map["axisx" := xAxis, "axisy" := yAxis, "colour" := colour])])
  }

  function PieItem(item: Hash): Value
  {
    Obj(map["value" := Field(item, "value"), "label" := Field(item, "label"), "colour" := Field(item, "colour")])
  }

  /**
   * pie: one `{value, label, colour}` record per input item, in input order;
   * a field missing from the input is present with nil, never omitted.
   */
  function Pie(items: seq<Hash>): (r: Value)
    ensures r.Obj? && r.fields.Keys == {"item"} && r.fields["item"].Arr?
    ensures |r.fields["item"].elems| == |items|
    ensures forall i :: 0 <= i < |items| ==>
      var out := r.fields["item"].elems[i];
      && out.Obj? && out.fields.Keys == {"value", "label", "colour"}
      && out.fields["value"] == Field(items[i], "value")
      && out.fields["label"] == (if "label" in items[i] then items[i]["label"] else Null)
      && out.fields["colour"] == (if "colour" in items[i] then items[i]["colour"] else Null)
  {
    Obj(map["item" := Arr(MapSeq(PieItem, items))])
  }

  /** Two item lists that agree on value, label and colour give the same pie payload. */
  lemma PieReadsOnlyItsFields(items: seq<Hash>, others: seq<Hash>)
    requires |items| == |others|
    requires forall i :: 0 <= i < |items| ==>
      && Field(items[i], "value") == Field(others[i], "value")
      && Field(items[i], "label") == Field(others[i], "label")
      && Field(items[i], "colour") == Field(others[i], "colour")
    ensures Pie(items) == Pie(others)
  {
    assert MapSeq(PieItem, items) == MapSeq(PieItem, others);
  }

  /** geckometer: the value as the item, min and max wrapped as `{value: ...}`. */
  function Geckometer(value: Value, min: Value, max: Value): (r: Value)
    ensures r.Obj? && r.fields.Keys == {"item", "min", "max"}
    ensures r.fields["item"] == value
    ensures r.fields["min"] == Obj(map["value" := min])
    ensures r.fields["max"] == Obj(map["value" := max])
  {
    Obj(map["item" := value, "min" := Obj(map["value" := min]), "max" := Obj(map["value" := max])])
  }

  function FunnelItem(item: Hash): Value
  {
    Obj(map["value" := Field(item, "value"), "label" := Field(item, "label")])
  }

  /**
   * funnel: the items as `{value, label}` records, in order; each flag is
   * tested for Ruby truthiness and encoded by the presence of a key, never
   * as a boolean field. Both flags default to false.
   */
  method Funnel(items: seq<Hash>, reverse: Value := Bool(false), hidePercentage: Value := Bool(false))
    returns (payload: Value)
    ensures payload.Obj? && "item" in payload.fields
    ensures payload.fields.Keys <= {"item", "type", "percentage"}
    ensures ("type" in payload.fields) == Truthy(reverse)
    ensures Truthy(reverse) ==> payload.fields["type"] == Str("reverse")
    ensures ("percentage" in payload.fields) == Truthy(hidePercentage)
    ensures Truthy(hidePercentage) ==> payload.fields["percentage"] == Str("hide")
    ensures !Truthy(reverse) && !Truthy(hidePercentage) ==> payload.fields.Keys == {"item"}
    ensures payload.fields["item"].Arr? && |payload.fields["item"].elems| == |items|
    ensures forall i :: 0 <= i < |items| ==>
      var out := payload.fields["item"].elems[i];
      && out.Obj? && out.fields.Keys == {"value", "label"}
      && out.fields["value"] == Field(items[i], "value")
      && out.fields["label"] == Field(items[i], "label")
  {
    var data := MapSeq(FunnelItem, items);
    var opts := map["item" := Arr(data)];
    if Truthy(reverse) {
      opts := opts["type" := Str("reverse")];
    }
    if Truthy(hidePercentage) {
      opts := opts["percentage" := Str("hide")];
    }
    payload := Obj(opts);
  }
}
