/**
 * The serialisers of printer.go, as functions from rows to the lines they
 * print: JSON Lines, a JSON array, and delimited text.
 */
module Printer {
  import opened Values
  import opened Strings

  /** `json.Marshal` of a row: the encoding of the object it is. */
  function Encode(row: Row, p: Primitives): string {
    p.marshal(Obj(row))
  }

  /** `insightsMapAsJsonlLines`: one encoded line per row, in row order. */
  method JsonlLines(rows: seq<Row>, p: Primitives) returns (lines: seq<string>)
    ensures |lines| == |rows|
    ensures forall i :: 0 <= i < |rows| ==> lines[i] == Encode(rows[i], p)
  {
    lines := [];
    for i := 0 to |rows|
      invariant |lines| == i
      invariant forall k :: 0 <= k < i ==> lines[k] == Encode(rows[k], p)
    {
      lines := lines + [Encode(rows[i], p)];
    }
  }

  /** `printAsJsonl`: the lines it prints. */
  method PrintAsJsonl(rows: seq<Row>, p: Primitives) returns (out: seq<string>)
    ensures |out| == |rows|
    ensures forall i :: 0 <= i < |rows| ==> out[i] == Encode(rows[i], p)
  {
    var lines := JsonlLines(rows, p);
    out := [];
    for i := 0 to |lines|
      invariant out == lines[..i]
    {
      out := out + [lines[i]];
    }
  }

  /**
   * The lines of a JSON array around `lines`: `[`, each element indented by
   * two spaces and followed by a comma unless it is the last, then `]`.
   */
  predicate JsonFramed(out: seq<string>, lines: seq<string>) {
    && |out| == |lines| + 2
    && out[0] == "[" && out[|out| - 1] == "]"
    && forall i :: 0 <= i < |lines| ==>
         out[i + 1] == "  " + lines[i] + (if i < |lines| - 1 then "," else "")
  }

  /** `printAsJson`: the lines it prints. */
  method PrintAsJson(rows: seq<Row>, p: Primitives) returns (out: seq<string>)
    ensures |out| == |rows| + 2
    ensures out[0] == "[" && out[|out| - 1] == "]"
    ensures forall i :: 0 <= i < |rows| ==>
      out[i + 1] == "  " + Encode(rows[i], p) + (if i < |rows| - 1 then "," else "")
  {
    out := ["["];
    var lines := JsonlLines(rows, p);
    for i := 0 to |lines|
      invariant |out| == i + 1 && out[0] == "["
      invariant forall k :: 0 <= k < i ==>
        out[k + 1] == "  " + lines[k] + (if k < |lines| - 1 then "," else "")
    {
      var line := "  " + lines[i];
      if i != |lines| - 1 {
        line := line + ",";
      }
      out := out + [line];
    }
    out := out + ["]"];
  }

  /** The array lines printed for rows encoded as `lines`. */
  function JsonArrayLines(lines: seq<string>): seq<string> {
    ["["] + JsonBody(lines) + ["]"]
  }

  function JsonBody(lines: seq<string>): seq<string> {
    if lines == [] then []
    else if |lines| == 1 then ["  " + lines[0]]
    else ["  " + lines[0] + ","] + JsonBody(lines[1..])
  }

  lemma {:induction false} JsonBodyShape(lines: seq<string>)
    ensures |JsonBody(lines)| == |lines|
    ensures forall i :: 0 <= i < |lines| ==>
      JsonBody(lines)[i] == "  " + lines[i] + (if i < |lines| - 1 then "," else "")
  {
    if |lines| > 1 {
      JsonBodyShape(lines[1..]);
    }
  }

  /** The framing `printAsJson` prints is exactly the array lines. */
  lemma JsonFramedIsArray(out: seq<string>, lines: seq<string>)
    requires JsonFramed(out, lines)
    ensures out == JsonArrayLines(lines)
  {
    JsonBodyShape(lines);
  }

  lemma {:induction false} JsonBodyText(lines: seq<string>)
    requires |lines| >= 1
    ensures Join(JsonBody(lines), "\n") == "  " + Join(lines, ",\n  ")
  {
    if |lines| > 1 {
      JsonBodyText(lines[1..]);
      JsonBodyShape(lines[1..]);
      JoinCons("  " + lines[0] + ",", JsonBody(lines[1..]), "\n");
      JoinCons(lines[0], lines[1..], ",\n  ");
      assert [lines[0]] + lines[1..] == lines;
    }
  }

  /**
   * The printed text of a JSON array, every line ended by a newline: the
   * encoded rows joined with a comma and a new indented line, between `[`
   * and `]` lines.
   */
  lemma JsonDocument(lines: seq<string>)
    ensures lines == [] ==> Join(JsonArrayLines(lines), "\n") + "\n" == "[\n]\n"
    ensures lines != [] ==>
      Join(JsonArrayLines(lines), "\n") + "\n" == "[\n  " + Join(lines, ",\n  ") + "\n]\n"
  {
    if lines == [] {
      assert JsonArrayLines(lines) == ["[", "]"];
      JoinCons("[", ["]"], "\n");
    } else {
      JsonBodyShape(lines);
      JsonBodyText(lines);
      var body := JsonBody(lines);
      JoinAppend(body, "]", "\n");
      JoinCons("[", body + ["]"], "\n");
      assert JsonArrayLines(lines) == ["["] + (body + ["]"]);
    }
  }

  lemma {:induction false} JoinAppend(xs: seq<string>, y: string, sep: string)
    requires |xs| >= 1
    ensures Join(xs + [y], sep) == Join(xs, sep) + sep + y
  {
    if |xs| == 1 {
      JoinCons(xs[0], [y], sep);
    } else {
      JoinAppend(xs[1..], y, sep);
      assert (xs + [y])[1..] == xs[1..] + [y];
    }
  }

  /**
   * The text of one CSV cell: the JSON text of an array, the truncated
   * integer of a numeric `ad_id`, `%v` of a number, a string as is, `true`
   * or `false`, `%v` of a map, and nothing for a missing or nil value.
   */
  function Cell(row: Row, key: string, p: Primitives): (r: string)
    ensures key !in row ==> r == ""
    ensures Get(row, key).Null? ==> r == ""
    ensures Get(row, key).Str? ==> r == Get(row, key).s
    ensures Get(row, key).Bool? ==> r == if Get(row, key).b then "true" else "false"
    ensures Get(row, key).Num? && key == "ad_id" ==> r == Decimal(Truncate(Get(row, key).n))
    ensures Get(row, key).Num? && key != "ad_id" ==> r == p.formatFloat(Get(row, key).n)
    ensures Get(row, key).Arr? ==> r == p.marshal(Get(row, key))
    ensures Get(row, key).Obj? ==> r == p.sprintMap(Get(row, key).fields)
  {
    var v := Get(row, key);
    match v
    case Arr(_) => p.marshal(v)
    case Num(x) => if key == "ad_id" then Decimal(Truncate(x)) else p.formatFloat(x)
    case Null => ""
    case Str(s) => s
    case Bool(b) => if b then "true" else "false"
    case Obj(m) => p.sprintMap(m)
  }

  /** The cells of one row, one per key in key order. */
  function Cells(row: Row, keys: seq<string>, p: Primitives): (cells: seq<string>)
    ensures |cells| == |keys|
    ensures forall k :: 0 <= k < |keys| ==> cells[k] == Cell(row, keys[k], p)
  {
    seq(|keys|, k requires 0 <= k < |keys| => Cell(row, keys[k], p))
  }

  /** `printAsCsv`: one line per row, its cells joined by `sep`. */
  method PrintAsCsv(rows: seq<Row>, keys: seq<string>, sep: string, p: Primitives) returns (out: seq<string>)
    ensures |out| == |rows|
    ensures forall i :: 0 <= i < |rows| ==> out[i] == Join(Cells(rows[i], keys, p), sep)
  {
    out := [];
    for i := 0 to |rows|
      invariant |out| == i
      invariant forall k :: 0 <= k < i ==> out[k] == Join(Cells(rows[k], keys, p), sep)
    {
      var insight := rows[i];
      var row: seq<string> := [];
      for j := 0 to |keys|
        invariant |row| == j
        invariant forall k :: 0 <= k < j ==> row[k] == Cell(insight, keys[k], p)
      {
        var key := keys[j];
        var v := Get(insight, key);
        match v {
          case Arr(_) =>
            row := row + [p.marshal(v)];
          case Num(x) =>
            if key == "ad_id" {
              row := row + [Decimal(Truncate(x))];
            } else {
              row := row + [p.formatFloat(x)];
            }
          case Null =>
            row := row + [""];
          case Str(s) =>
            row := row + [s];
          case Bool(b) =>
            row := row + [if b then "true" else "false"];
          case Obj(m) =>
            row := row + [p.sprintMap(m)];
        }
      }
      assert row == Cells(insight, keys, p);
      out := out + [Join(row, sep)];
    }
  }

  /**
   * When the separator is one character that no cell contains, a CSV line
   * splits back into exactly its row's cells, one per key.
   */
  lemma CsvLineSplits(row: Row, keys: seq<string>, c: char, p: Primitives)
    requires |keys| >= 1
    requires forall k :: 0 <= k < |keys| ==> c !in Cell(row, keys[k], p)
    ensures SplitOn(Join(Cells(row, keys, p), [c]), c) == Cells(row, keys, p)
    ensures |SplitOn(Join(Cells(row, keys, p), [c]), c)| == |keys|
  {
    SplitJoin(Cells(row, keys, p), c);
  }

  /** A numeric `ad_id` cell reads back as the integer part of the number. */
  lemma AdIdCell(row: Row, p: Primitives, x: real)
    requires "ad_id" in row && row["ad_id"] == Num(x)
    ensures DecimalValue(Cell(row, "ad_id", p)) == Truncate(x)
  {
    DecimalRoundTrip(Truncate(x));
  }
}
