/**
 * The one decision in the Highcharts encoders that is not literal template
 * text: which colour palette the stacked bar chart uses.
 */
module Charts {
  import opened Json
  import opened Seqs

  /** The ten colours the stacked bar chart uses when the caller gives none. */
  const DefaultColors: seq<string> :=
    ["#2f7ed8", "#0d233a", "#8bbc21", "#910000", "#1aadce",
     "#492970", "#f28f43", "#77a1e5", "#c42525", "#a6c96a"]

  /**
   * highcharts_stacked_bar: `custom_colors || default_colors`. Any truthy
   * `colors` option, an empty array included, is used as given; a missing,
   * nil or false one selects the default palette.
   */
  function StackedBarColors(opts: Hash): (r: Value)
    ensures Truthy(Field(opts, "colors")) ==> r == opts["colors"]
    ensures !Truthy(Field(opts, "colors")) ==>
      && r.Arr? && |r.elems| == 10
      && forall i :: 0 <= i < 10 ==> r.elems[i] == Str(DefaultColors[i])
  {
    var custom := Field(opts, "colors");
    if Truthy(custom) then custom else Arr(MapSeq((c: string) => Str(c), DefaultColors))
  }
}
