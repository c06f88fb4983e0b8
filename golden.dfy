/** Worked examples: the payloads and push outcomes for concrete inputs. */
module Golden {
  import opened Results
  import opened Json
  import opened Widgets
  import opened PushClient

  /** A text item typed with the symbol :alert is sent with type 1. */
  lemma TextAlertExample()
    ensures Text([map["text" := Str("A"), "type" := Sym("alert")]])
         == Obj(map["item" := Arr([Obj(map["text" := Str("A"), "type" := Num(1)])])])
  {
    var r := Text([map["text" := Str("A"), "type" := Sym("alert")]]);
    assert r.fields.Keys == {"item"};
    assert r.fields["item"].elems == [Obj(map["text" := Str("A"), "type" := Num(1)])];
  }

  /** Only the symbol matches: the string "alert" falls into the default type 0. */
  lemma TextStringAlertIsDefault()
    ensures Items(Text([map["text" := Str("A"), "type" := Str("alert")]]))
         == [Obj(map["text" := Str("A"), "type" := Num(0)])]
  {
    var r := Text([map["text" := Str("A"), "type" := Str("alert")]]);
    assert r.fields["item"].elems[0].fields.Keys == {"text", "type"};
  }

  lemma GeckometerExample()
    ensures Geckometer(Num(5), Num(0), Num(10))
         == Obj(map["item" := Num(5), "min" := Obj(map["value" := Num(0)]), "max" := Obj(map["value" := Num(10)])])
  {
  }

  lemma RagExample()
    ensures Rag([Num(1), Num(2), Num(3)], [Str("r"), Str("a"), Str("g")])
         == Obj(map["item" := Arr([Obj(map["value" := Num(1), "text" := Str("r")]),
                                   Obj(map["value" := Num(2), "text" := Str("a")]),
                                   Obj(map["value" := Num(3), "text" := Str("g")])])])
  {
  }

  /** An empty API key fails with the guard message and posts nothing. */
  lemma EmptyKeyExample(widgetKey: string, data: Value, server: Request -> Reply)
    ensures var x := Push(Config(Some(""), None), widgetKey, data, server);
      x.posted == [] && x.outcome == Failure(NotConfigured("Api key not configured."))
  {
  }

  /** `{"success": false, "error": "boom"}` is raised with the message "boom". */
  lemma RejectedExample()
    ensures Interpret(Envelope(map["success" := Bool(false), "error" := Str("boom")]))
         == Failure(Rejected(Str("boom")))
  {
  }

  /** `{"success": true}` returns true. */
  lemma AcceptedExample()
    ensures Interpret(Envelope(map["success" := Bool(true)])) == Success(Bool(true))
  {
  }

  /** An unset version posts to the v1 path with the key and data as the body. */
  lemma DefaultVersionExample(data: Value)
    ensures Push(Config(Some("k"), None), "w1", data, (r: Request) => Envelope(map["success" := Bool(true)]))
         == Exchange([Request("/v1/send/w1", Obj(map["api_key" := Str("k"), "data" := data]))], Success(Bool(true)))
  {
    assert "/" + "v1" + "/send/" + "w1" == "/v1/send/w1";
  }

  /** funnel(items) with both flags defaulted sends only the item list. */
  method FunnelDefaultsExample(items: seq<Hash>) returns (payload: Value)
    ensures payload.Obj? && payload.fields.Keys == {"item"}
  {
    payload := Funnel(items);
  }

  /** 0 is truthy in Ruby: a reverse flag of 0 adds the `type` key. */
  method FunnelZeroIsTruthyExample(items: seq<Hash>) returns (payload: Value)
    ensures payload.Obj? && payload.fields.Keys == {"item", "type"}
    ensures payload.fields["type"] == Str("reverse")
  {
    payload := Funnel(items, Num(0), Null);
  }
}
