/**
 * The older normaliser in main.go: `getInsights` without `actions`
 * handling and without the `ad_id` exception.
 */
module Legacy {
  import opened Wrappers
  import opened Values

  /** How the older normaliser stores one insights field. */
  function NormalizeValue(v: Value, p: Primitives): (r: Value)
    ensures v.Str? ==>
      match p.parseFloat(v.s)
      case Some(f) => r == Num(f)
      case None => r == v
    ensures v.Obj? ==> r == Str(p.sprintMap(v.fields))
    ensures !v.Str? && !v.Obj? ==> r == v
    ensures !r.Obj?
  {
    match v
    case Obj(m) => Str(p.sprintMap(m))
    case Str(s) => (match p.parseFloat(s) case Some(f) => Num(f) case None => v)
    case _ => v
  }

  /** The row built from the insights fields in `done`. */
  function Partial(insights: map<string, Value>, done: set<string>, p: Primitives): Row
    requires done <= insights.Keys
  {
    map k | k in done :: NormalizeValue(insights[k], p)
  }

  /** The row the older `getInsights` builds from one insights object. */
  function RowOf(insights: map<string, Value>, p: Primitives): Row {
    Partial(insights, insights.Keys, p)
  }

  function NormalizeRecord(record: Value, p: Primitives): Option<Row> {
    match InsightsOf(record)
    case None => None
    case Some(insights) => Some(RowOf(insights, p))
  }

  /** The rows of all records that have insights, in record order. */
  function NormalizeAll(records: seq<Value>, p: Primitives): seq<Row> {
    if records == [] then []
    else
      var front := NormalizeAll(records[..|records| - 1], p);
      match NormalizeRecord(records[|records| - 1], p)
      case None => front
      case Some(row) => front + [row]
  }

  lemma PartialStep(insights: map<string, Value>, done: set<string>, k: string, p: Primitives)
    requires done <= insights.Keys && k in insights && k !in done
    ensures Partial(insights, done + {k}, p) == Partial(insights, done, p)[k := NormalizeValue(insights[k], p)]
  {
  }

  /** Builds one row, visiting the insights fields in an arbitrary order. */
  method BuildRow(insights: map<string, Value>, p: Primitives) returns (row: Row)
    ensures row == RowOf(insights, p)
  {
    row := map[];
    var todo := insights.Keys;
    while todo != {}
      invariant todo <= insights.Keys
      invariant row == Partial(insights, insights.Keys - todo, p)
      decreases |todo|
    {
      var k :| k in todo;
      PartialStep(insights, insights.Keys - todo, k, p);
      row := row[k := NormalizeValue(insights[k], p)];
      assert insights.Keys - (todo - {k}) == (insights.Keys - todo) + {k};
      todo := todo - {k};
    }
  }

  /** The older `getInsights`: one row per record with insights, in order. */
  method GetInsights(records: seq<Value>, p: Primitives) returns (result: seq<Row>)
    ensures result == NormalizeAll(records, p)
  {
    result := [];
    for i := 0 to |records|
      invariant result == NormalizeAll(records[..i], p)
    {
      assert records[..i + 1][..i] == records[..i];
      var insights := InsightsOf(records[i]);
      if insights.Some? {
        var row := BuildRow(insights.value, p);
        result := result + [row];
      }
    }
    assert records[..|records|] == records;
  }

  /** The row has exactly the insights keys, each holding its normalised value. */
  lemma RowShape(insights: map<string, Value>, p: Primitives)
    ensures RowOf(insights, p).Keys == insights.Keys
    ensures forall k :: k in insights ==> RowOf(insights, p)[k] == NormalizeValue(insights[k], p)
  {
  }

  /** A numeric-looking `ad_id` becomes a number here; arrays pass through. */
  lemma AdIdParsed(insights: map<string, Value>, p: Primitives, id: string, f: real)
    requires "ad_id" in insights && insights["ad_id"] == Str(id) && p.parseFloat(id) == Some(f)
    ensures RowOf(insights, p)["ad_id"] == Num(f)
  {
    RowShape(insights, p);
  }

  /** Records without insights are skipped; the others keep their order. */
  lemma {:induction false} NormalizeAllAppend(a: seq<Value>, b: seq<Value>, p: Primitives)
    ensures NormalizeAll(a + b, p) == NormalizeAll(a, p) + NormalizeAll(b, p)
  {
    if b == [] {
      assert a + b == a;
    } else {
      var b' := b[..|b| - 1];
      NormalizeAllAppend(a, b', p);
      assert (a + b)[..|a + b| - 1] == a + b';
      assert (a + b)[|a + b| - 1] == b[|b| - 1];
    }
  }

  lemma NormalizeOne(record: Value, p: Primitives)
    ensures InsightsOf(record).None? ==> NormalizeAll([record], p) == []
    ensures InsightsOf(record).Some? ==> NormalizeAll([record], p) == [RowOf(InsightsOf(record).value, p)]
  {
    assert [record][..0] == [];
  }
}
