/**
 * Decoded JSON values, the flat rows the normalisers build from them, and the
 * library behaviour (number parsing, `%v` formatting, JSON encoding) that the
 * model treats as given functions.
 */
module Values {
  import opened Wrappers

  /** A value as `encoding/json` decodes it into an `interface{}`. */
  datatype Value =
    | Num(n: real)                      // float64
    | Str(s: string)                    // string
    | Arr(items: seq<Value>)            // []interface{}
    | Obj(fields: map<string, Value>)   // map[string]interface{}
    | Bool(b: bool)                     // bool
    | Null                              // nil

  /** A normalised record: field name to value (a Go `map[string]interface{}`). */
  type Row = map<string, Value>

  /** Go's `m[k]` on a `map[string]interface{}`: a missing key reads as nil. */
  function Get(m: map<string, Value>, k: string): (v: Value)
    ensures k in m ==> v == m[k]
    ensures k !in m ==> v == Null
  {
    if k in m then m[k] else Null
  }

  /**
   * The library functions the program calls whose exact output is outside the
   * model: `strconv.ParseFloat(s, 64)` (None when it reports an error),
   * `fmt.Sprintf("%v", f)` for a float64, `fmt.Sprintf("%v", m)` for a map,
   * and `json.Marshal`.
   */
  datatype Primitives = Primitives(
    parseFloat: string -> Option<real>,
    formatFloat: real -> string,
    sprintMap: map<string, Value> -> string,
    marshal: Value -> string)

  /**
   * The object found at `insights.data[0]` of a record (the go-dproxy path
   * `M("insights").M("data").A(0).Map()`), or None when any step of the path
   * is missing or of the wrong kind.
   */
  function InsightsOf(record: Value): (r: Option<map<string, Value>>)
    ensures r.Some? ==>
      && record.Obj? && "insights" in record.fields
      && record.fields["insights"].Obj? && "data" in record.fields["insights"].fields
      && var data := record.fields["insights"].fields["data"];
         data.Arr? && |data.items| > 0 && data.items[0] == Obj(r.value)
    ensures r.None? ==>
      !(&& record.Obj? && "insights" in record.fields
        && record.fields["insights"].Obj? && "data" in record.fields["insights"].fields
        && var data := record.fields["insights"].fields["data"];
           data.Arr? && |data.items| > 0 && data.items[0].Obj?)
  {
    if record.Obj? && "insights" in record.fields then
      var insights := record.fields["insights"];
      if insights.Obj? && "data" in insights.fields then
        var data := insights.fields["data"];
        if data.Arr? && |data.items| > 0 && data.items[0].Obj? then
          Some(data.items[0].fields)
        else None
      else None
    else None
  }

  /** A record with the given insights object at `insights.data[0]`. */
  function RecordWith(insights: map<string, Value>): (record: Value)
    ensures InsightsOf(record) == Some(insights)
  {
    Obj(map["insights" := Obj(map["data" := Arr([Obj(insights)])])])
  }
}
