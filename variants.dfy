/**
 * How the two normalisers relate: the one in client.go extends the older
 * one in main.go by the `actions` column and by keeping `ad_id` as text.
 */
module Variants {
  import opened Wrappers
  import opened Values
  import Client
  import Legacy
  import Printer
  import Strings

  /** Outside `ad_id` and the `actions` array both variants store a field alike. */
  lemma FieldsAgree(k: string, v: Value, p: Primitives)
    requires k != Client.AdIdKey && !Client.IsActionsArray(k, v)
    ensures Client.NormalizeField(k, v, p) == Legacy.NormalizeValue(v, p)
  {
  }

  /**
   * On insights without a string `ad_id` and without an `actions` array the
   * two variants build the same row.
   */
  lemma RowsAgree(insights: map<string, Value>, action: string, window: string, p: Primitives)
    requires !Client.HasActionsArray(insights)
    requires Client.AdIdKey in insights ==> !insights[Client.AdIdKey].Str?
    ensures Client.InsightsTyped(insights, action, window)
    ensures Client.RowOf(insights, action, window, p) == Legacy.RowOf(insights, p)
  {
    Client.RowKeys(insights, action, window, p);
    Client.RowValues(insights, action, window, p);
    Legacy.RowShape(insights, p);
  }

  /**
   * A numeric-looking string `ad_id` stays text in the current variant and
   * becomes a number in the older one; in CSV the first prints the text as
   * received, the second the integer part of the number.
   */
  lemma AdIdDiffers(insights: map<string, Value>, action: string, window: string, p: Primitives, id: string, f: real)
    requires Client.InsightsTyped(insights, action, window)
    requires Client.AdIdKey in insights && insights[Client.AdIdKey] == Str(id)
    requires p.parseFloat(id) == Some(f)
    ensures Client.RowOf(insights, action, window, p)[Client.AdIdKey] == Str(id)
    ensures Legacy.RowOf(insights, p)[Client.AdIdKey] == Num(f)
    ensures Printer.Cell(Client.RowOf(insights, action, window, p), Client.AdIdKey, p) == id
    ensures Printer.Cell(Legacy.RowOf(insights, p), Client.AdIdKey, p) == Strings.Decimal(Strings.Truncate(f))
  {
    Client.RowValues(insights, action, window, p);
    Legacy.RowShape(insights, p);
  }

  /** Both variants skip the same records, so they yield equally many rows. */
  lemma {:induction false} SameRowCount(records: seq<Value>, action: string, window: string, p: Primitives)
    requires Client.RecordsTyped(records, action, window)
    ensures |Client.NormalizeAll(records, action, window, p)| == |Legacy.NormalizeAll(records, p)|
  {
    if records != [] {
      SameRowCount(records[..|records| - 1], action, window, p);
    }
  }
}
