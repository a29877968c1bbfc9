/**
 * The logic in main.go's `main` between fetching and printing: the column
 * separator rule, the CSV header, the sort dispatch and the choice of
 * output format.
 */
module Cli {
  import opened Wrappers
  import opened Values
  import opened Strings
  import Legacy
  import Ordering
  import Printer

  /** The command-line settings `main` reads after fetching. */
  datatype Config = Config(
    format: string,
    fields: string,
    colsep: string,
    sortKey: string,
    sortOrder: string)

  /** The flag value `\t` (backslash, t) stands for a tab; anything else is itself. */
  function Colsep(flag: string): (sep: string)
    ensures flag == "\\t" ==> sep == "\t"
    ensures flag != "\\t" ==> sep == flag
    ensures sep != "\\t"
  {
    if flag == "\\t" then "\t" else flag
  }

  /** The field list, `strings.Split(fields, ",")`. */
  function Keys(fields: string): (keys: seq<string>)
    ensures |keys| == Count(fields, ',') + 1
    ensures Join(keys, ",") == fields
    ensures forall i :: 0 <= i < |keys| ==> ',' !in keys[i]
  {
    JoinSplit(fields, ',');
    SplitCount(fields, ',');
    SplitOn(fields, ',')
  }

  /** The CSV header line: the field names joined by the separator. */
  function Header(fields: string, sep: string): (h: string)
    ensures sep == "," ==> h == fields
  {
    Join(Keys(fields), sep)
  }

  /**
   * With a one-character separator that no field name contains, the header
   * splits back into the field names.
   */
  lemma HeaderSplits(fields: string, c: char)
    requires c !in fields
    ensures SplitOn(Header(fields, [c]), c) == Keys(fields)
  {
    var keys := Keys(fields);
    forall i | 0 <= i < |keys| ensures c !in keys[i] {
      SplitPieceIn(fields, ',', i, c);
    }
    SplitJoin(keys, c);
  }

  /** A character absent from a text is absent from every piece of it. */
  lemma {:induction false} SplitPieceIn(s: string, c: char, i: nat, d: char)
    requires d !in s && i < |SplitOn(s, c)|
    ensures d !in SplitOn(s, c)[i]
  {
    if s != [] {
      var rest := SplitOn(s[1..], c);
      assert d !in s[1..] && s[0] != d;
      if s[0] == c {
        if i > 0 { SplitPieceIn(s[1..], c, i - 1, d); }
      } else if i == 0 {
        SplitPieceIn(s[1..], c, 0, d);
      } else {
        SplitPieceIn(s[1..], c, i, d);
      }
    }
  }

  /**
   * Sorts only when a sort key is given: descending for `desc`, ascending
   * otherwise. Returns false when the run aborts.
   */
  method SortDispatch(a: array<Row>, sortKey: string, sortOrder: string, parse: string -> Option<real>) returns (ok: bool)
    requires sortKey != "" ==> Ordering.ColumnTyped(a[..], sortKey)
    modifies a
    ensures sortKey == "" ==> ok && a[..] == old(a[..])
    ensures multiset(a[..]) == multiset(old(a[..]))
    ensures ok <==> (sortKey != "" && a.Length >= 2 ==> Ordering.AllParse(old(a[..]), sortKey, parse))
    ensures ok && sortKey != "" && sortOrder == "desc" ==> forall p, q :: 0 <= p < q < a.Length ==>
      Ordering.Weight(Get(a[p], sortKey), parse) >= Ordering.Weight(Get(a[q], sortKey), parse)
    ensures ok && sortKey != "" && sortOrder != "desc" ==> forall p, q :: 0 <= p < q < a.Length ==>
      Ordering.Weight(Get(a[p], sortKey), parse) <= Ordering.Weight(Get(a[q], sortKey), parse)
  {
    ok := true;
    if sortKey != "" {
      if sortOrder == "desc" {
        ok := Ordering.SortRows(a, sortKey, parse, true);
      } else {
        ok := Ordering.SortRows(a, sortKey, parse, false);
      }
    }
  }

  /** The sort dispatch on `main`'s slice of rows, copied into an array. */
  method SortedRows(rows: seq<Row>, sortKey: string, sortOrder: string, parse: string -> Option<real>)
    returns (sorted: seq<Row>, ok: bool)
    requires sortKey != "" ==> Ordering.ColumnTyped(rows, sortKey)
    ensures multiset(sorted) == multiset(rows)
    ensures sortKey == "" ==> ok && sorted == rows
    ensures ok <==> (sortKey != "" && |rows| >= 2 ==> Ordering.AllParse(rows, sortKey, parse))
    ensures ok && sortKey != "" && sortOrder == "desc" ==> forall i, j :: 0 <= i < j < |sorted| ==>
      Ordering.Weight(Get(sorted[i], sortKey), parse) >= Ordering.Weight(Get(sorted[j], sortKey), parse)
    ensures ok && sortKey != "" && sortOrder != "desc" ==> forall i, j :: 0 <= i < j < |sorted| ==>
      Ordering.Weight(Get(sorted[i], sortKey), parse) <= Ordering.Weight(Get(sorted[j], sortKey), parse)
  {
    var a := new Row[|rows|](i requires 0 <= i < |rows| => rows[i]);
    assert a[..] == rows;
    ok := SortDispatch(a, sortKey, sortOrder, parse);
    sorted := a[..];
  }

  /** The format dispatch: JSON, CSV with its header, or JSON Lines by default. */
  method Render(rows: seq<Row>, cfg: Config, p: Primitives) returns (out: seq<string>)
    ensures cfg.format == "json" ==>
      && |out| == |rows| + 2 && out[0] == "[" && out[|out| - 1] == "]"
      && forall i :: 0 <= i < |rows| ==>
           out[i + 1] == "  " + Printer.Encode(rows[i], p) + (if i < |rows| - 1 then "," else "")
    ensures cfg.format == "csv" ==>
      && |out| == |rows| + 1 && out[0] == Header(cfg.fields, Colsep(cfg.colsep))
      && forall i :: 0 <= i < |rows| ==>
           out[i + 1] == Join(Printer.Cells(rows[i], Keys(cfg.fields), p), Colsep(cfg.colsep))
    ensures cfg.format != "json" && cfg.format != "csv" ==>
      && |out| == |rows|
      && forall i :: 0 <= i < |rows| ==> out[i] == Printer.Encode(rows[i], p)
  {
    var sep := Colsep(cfg.colsep);
    var keys := Keys(cfg.fields);
    if cfg.format == "json" {
      out := Printer.PrintAsJson(rows, p);
    } else if cfg.format == "csv" {
      var body := Printer.PrintAsCsv(rows, keys, sep, p);
      out := [Join(keys, sep)] + body;
    } else {
      out := Printer.PrintAsJsonl(rows, p);
    }
  }

  /**
   * What `main` prints for the fetched records: the older normaliser, the
   * sort when a key is given, then the chosen format. `ok` is false, with
   * nothing printed, when the sort aborts the run; `order` is the order the
   * rows are printed in.
   */
  method Run(records: seq<Value>, cfg: Config, p: Primitives) returns (out: seq<string>, ok: bool, ghost order: seq<Row>)
    requires cfg.sortKey != "" ==> Ordering.ColumnTyped(Legacy.NormalizeAll(records, p), cfg.sortKey)
    ensures var rows := Legacy.NormalizeAll(records, p);
      && multiset(order) == multiset(rows)
      && (cfg.sortKey == "" ==> order == rows)
      && (ok <==> (cfg.sortKey != "" && |rows| >= 2 ==> Ordering.AllParse(rows, cfg.sortKey, p.parseFloat)))
    ensures !ok ==> out == []
    ensures ok && cfg.format == "json" ==>
      && |out| == |order| + 2 && out[0] == "[" && out[|out| - 1] == "]"
      && forall i :: 0 <= i < |order| ==>
           out[i + 1] == "  " + Printer.Encode(order[i], p) + (if i < |order| - 1 then "," else "")
    ensures ok && cfg.format == "csv" ==>
      && |out| == |order| + 1 && out[0] == Header(cfg.fields, Colsep(cfg.colsep))
      && forall i :: 0 <= i < |order| ==>
           out[i + 1] == Join(Printer.Cells(order[i], Keys(cfg.fields), p), Colsep(cfg.colsep))
    ensures ok && cfg.format != "json" && cfg.format != "csv" ==>
      |out| == |order| && forall i :: 0 <= i < |order| ==> out[i] == Printer.Encode(order[i], p)
    ensures ok && cfg.sortKey != "" && cfg.sortOrder == "desc" ==> forall i, j :: 0 <= i < j < |order| ==>
      Ordering.Weight(Get(order[i], cfg.sortKey), p.parseFloat) >= Ordering.Weight(Get(order[j], cfg.sortKey), p.parseFloat)
    ensures ok && cfg.sortKey != "" && cfg.sortOrder != "desc" ==> forall i, j :: 0 <= i < j < |order| ==>
      Ordering.Weight(Get(order[i], cfg.sortKey), p.parseFloat) <= Ordering.Weight(Get(order[j], cfg.sortKey), p.parseFloat)
  {
    var insights := Legacy.GetInsights(records, p);
    var sorted;
    sorted, ok := SortedRows(insights, cfg.sortKey, cfg.sortOrder, p.parseFloat);
    order := sorted;
    if !ok {
      out := [];
      return;
    }
    out := Render(sorted, cfg, p);
  }
}
