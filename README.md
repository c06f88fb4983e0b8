# geckoboard-push in Dafny

A model of `Geckoboard::Push`, a Ruby client that pushes widget updates to a
hosted dashboard. The model covers the two parts of the class that make
decisions:

- **Widget payload encoders** (module `Widgets`): one function per widget type.
  Each maps the caller's arguments to the payload hash that is pushed. The
  exception is the funnel, which is a method, because the source builds its
  hash step by step. Payloads are values of a small JSON-like `Json.Value`.
  Ruby hashes become `map<string, Value>`, and Ruby symbols (`:alert`) are
  kept apart from strings. Ruby's `Hash#[]` and `Array#[]` return nil for an
  absent key or index; `Json.Field` and `Json.At` model that.
- **The push decision** (module `PushClient`):
  - the API-key guard;
  - the path and JSON body of the single POST;
  - reading the decoded response envelope.

  The class-level `api_key`/`api_version` settings are passed in as a
  `Config` value. The remote service is a function from the posted `Request`
  to its decoded `Reply` (an envelope hash, or `Unparseable` when `JSON.parse`
  would raise). `Push` returns an `Exchange`: the requests it posted (none or
  one) and its outcome (the returned `success` value, or the error raised).
  Every public encoder of the Ruby class ends with `push(payload)`. In the
  model that call is `PushClient.Push(cfg, widgetKey, payload, server)`.
- **Chart palette** (module `Charts`): the stacked bar chart's choice between
  caller colours and the default ten-colour palette.

Module `Golden` holds worked examples for concrete inputs.

Edge cases that Ruby's semantics decide, as the model states them:
- The text widget maps only the symbols `:alert` and `:info` to 1 and 2. A
  string `"alert"` gets type 0 (`Golden.TextStringAlertIsDefault`).
- `rag` does not fail on short inputs: Ruby yields nil for a missing index, so
  the model has no precondition and puts `Null` in those fields.
- `api_version || 'v1'` keeps an empty version string, because `""` is truthy
  in Ruby. Only an unset version selects `v1`.
- A missing `"success"` key is falsy, so the push raises with the `"error"`
  field. That field is nil when it is absent too.

## Model

| member | source | states |
|---|---|---|
| Seqs.MapSeq | lib/geckoboard/push.rb:84-86 | `collect`: the result has the input's length and element i is the block applied to input element i |
| Seqs.MapSeqAppend | lib/geckoboard/push.rb:46-56 | mapping a concatenation is the concatenation of the mappings, so each item is encoded independently |
| Widgets.NumberAndSecondaryValue | lib/geckoboard/push.rb:32-35 | the keys are `item` plus the caller's keys; every caller key keeps the caller's value, including an overriding `item` (then the payload is exactly the options); without an `item` option the base two-item list `{text:"", value}`, `{text:"", value: previous_value}` is kept; empty options give the base alone |
| Widgets.SeverityCode | lib/geckoboard/push.rb:47-54 | the type code is 1 exactly for `:alert`, 2 exactly for `:info`, and 0 for anything else, absent included |
| Widgets.Text | lib/geckoboard/push.rb:45-57 | the payload's only key is `item`; there is one output item per input item, in order; each has exactly the keys `text` and `type`, with the input's text (nil when absent) and the severity code of its type |
| Widgets.TextIsPerItem | lib/geckoboard/push.rb:45-57 | the text items of a concatenated input are the concatenation of the two inputs' items |
| Widgets.Rag | lib/geckoboard/push.rb:60-62 | exactly three items; item i has exactly the keys `value` and `text`, holding `values[i]` and `labels[i]`, or nil past the end of either input |
| Widgets.RagIgnoresTail | lib/geckoboard/push.rb:60-62 | entries after index 2 of either input do not affect the payload |
| Widgets.Line | lib/geckoboard/push.rb:69-71 | the keys are exactly `item` (the values as given) and `settings`; the settings hold exactly `axisx`, `axisy` and `colour`, from x_axis, y_axis and colour, nil or not |
| Widgets.Pie | lib/geckoboard/push.rb:83-88 | one output item per input item, in order, each with exactly the keys `value`, `label` and `colour`; a field missing from the input is present with nil, never omitted |
| Widgets.PieReadsOnlyItsFields | lib/geckoboard/push.rb:84-86 | two item lists that agree on value, label and colour give equal payloads; other keys of the input items are dropped |
| Widgets.Geckometer | lib/geckoboard/push.rb:91-93 | the keys are exactly `item`, `min` and `max`: the value, `{value: min}` and `{value: max}` |
| Widgets.Funnel | lib/geckoboard/push.rb:100-108 | `item` is the order-preserving list of `{value, label}` records; `type` is present (as "reverse") iff reverse is truthy; `percentage` is present (as "hide") iff hide_percentage is truthy (nil and false leave a key out, 0 or "false" add it); with both flags falsy `item` is the only key; both flags default to false |
| Charts.StackedBarColors | lib/geckoboard/push.rb:163-182 | a truthy `colors` option is used as given; otherwise the palette is the ten default colours in their order |
| PushClient.Path | lib/geckoboard/push.rb:27 | the path is `/v1/send/<widget>` when no version is set, and `/<version>/send/<widget>` otherwise, an empty version included |
| PushClient.PathIdentifiesWidget | lib/geckoboard/push.rb:27 | under one version setting, two widget keys with the same path are equal |
| PushClient.Body | lib/geckoboard/push.rb:27 | the body has exactly the keys `api_key` and `data`, holding the API key and the payload |
| PushClient.Interpret | lib/geckoboard/push.rb:27-29 | an unparseable reply raises a parse error; an envelope succeeds iff `success` is truthy and then returns that value; otherwise it fails with the envelope's `error` field (nil when absent) |
| PushClient.Push | lib/geckoboard/push.rb:25-30 | at most one POST; no POST exactly when the API key is unset or empty, and then the error is "Api key not configured."; otherwise one POST with the built path and body, and the outcome is the reading of the reply to it; success implies a configured key and one POST |
| PushClient.PushDependsOnlyOnReply | lib/geckoboard/push.rb:25-30 | two services that give the same reply to the posted request give the same exchange |
| Golden.TextAlertExample | lib/geckoboard/push.rb:45-57 | `[{text:"A", type: :alert}]` encodes as `{item:[{text:"A", type:1}]}` |
| Golden.TextStringAlertIsDefault | lib/geckoboard/push.rb:47-54 | the string "alert" (not the symbol) encodes with type 0 |
| Golden.GeckometerExample | lib/geckoboard/push.rb:91-93 | geckometer(5, 0, 10) encodes as `{item:5, min:{value:0}, max:{value:10}}` |
| Golden.RagExample | lib/geckoboard/push.rb:60-62 | rag([1,2,3], ["r","a","g"]) encodes as three `{value, text}` pairs in order |
| Golden.FunnelDefaultsExample | lib/geckoboard/push.rb:100-107 | funnel(items) with the default flags sends `item` as the only key |
| Golden.FunnelZeroIsTruthyExample | lib/geckoboard/push.rb:105-106 | a reverse flag of 0 is truthy and adds `type: "reverse"`; a nil percentage flag adds nothing |
| Golden.EmptyKeyExample | lib/geckoboard/push.rb:26 | an empty API key posts nothing and fails with "Api key not configured." |
| Golden.RejectedExample | lib/geckoboard/push.rb:28 | `{"success": false, "error": "boom"}` fails with the message "boom" |
| Golden.AcceptedExample | lib/geckoboard/push.rb:29 | `{"success": true}` returns true |
| Golden.DefaultVersionExample | lib/geckoboard/push.rb:27-29 | with no version set, the push posts `{api_key, data}` to `/v1/send/<widget>` and returns the success value |

## Left out

- The HTTP POST, the `base_uri` setting and the network (lib/geckoboard/push.rb:16-17, 27) are I/O. The service is a function parameter. Transport failures are not modelled.
- JSON serialisation and parsing (`to_json`, `JSON.parse`) are library calls. Parsing is abstracted to a decoded envelope or `Unparseable`. A reply that parses to something other than a hash is not modelled.
- The Highcharts encoders `highcharts_pie`, `highcharts_stacked_bar`, `highcharts_two_pie` and `highcharts_custom` are literal template strings with interpolation. They are left out except for the stacked bar colour choice. `highcharts_custom` has no logic beyond `push(chart.to_json)`. The `opts.delete` calls, which remove keys from the caller's hash, are not modelled.
- The class-level mutable `api_key`/`api_version` accessors become an explicit `Config` argument. Their concurrent mutation is not modelled.
- The commented-out legacy methods are dead code.
- Hashes are unordered maps. Ruby's insertion order, which decides the key order of the serialised JSON, is not modelled. Neither is the difference between symbol and string keys (`:item` and `"item"` would be two keys in Ruby).
- Numbers are integers. Floats only pass through the encoders, so they are not modelled separately.
- Ruby's error message for a raised nil error (the exception class name) is not modelled. `Rejected` carries the envelope's `error` value as it is.
- Input items are hashes and the API key is a string or nil; other Ruby objects (a Struct item, a Symbol or Array key, which `empty?` also accepts) are outside the model's types.
