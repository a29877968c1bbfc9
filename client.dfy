/**
 * The current normaliser: `getInsights` turns each API record into a flat
 * row, replacing the `actions` array by one numeric column named after the
 * requested action type.
 */
module Client {
  import opened Wrappers
  import opened Values

  const ActionsKey := "actions"
  const ActionTypeKey := "action_type"
  const AdIdKey := "ad_id"

  /** The field holds the `actions` array that is replaced by the action column. */
  predicate IsActionsArray(k: string, v: Value) {
    k == ActionsKey && v.Arr?
  }

  predicate HasActionsArray(insights: map<string, Value>) {
    ActionsKey in insights && insights[ActionsKey].Arr?
  }

  /** The element's `action_type` is the requested action. */
  predicate Matches(e: Value, action: string)
    requires e.Obj?
  {
    Get(e.fields, ActionTypeKey) == Str(action)
  }

  /**
   * The element is an object (otherwise `v2.(map[string]interface{})`
   * panics), and when it matches, its attribution-window value is nil or a
   * number (otherwise `value.(float64)` panics).
   */
  predicate ElementTyped(e: Value, action: string, window: string) {
    e.Obj? && (Matches(e, action) && !Get(e.fields, window).Null? ==> Get(e.fields, window).Num?)
  }

  predicate ElementsTyped(elems: seq<Value>, action: string, window: string) {
    forall i :: 0 <= i < |elems| ==> ElementTyped(elems[i], action, window)
  }

  /**
   * What the insights object must satisfy for `getInsights` not to panic and
   * for its result not to depend on map iteration order: when `actions` is
   * an array, its elements are well typed and the action column does not
   * collide with an insights field.
   */
  predicate InsightsTyped(insights: map<string, Value>, action: string, window: string) {
    HasActionsArray(insights) ==>
      action !in insights && ElementsTyped(insights[ActionsKey].items, action, window)
  }

  predicate RecordTyped(record: Value, action: string, window: string) {
    InsightsOf(record).Some? ==> InsightsTyped(InsightsOf(record).value, action, window)
  }

  /** The value one `actions` element writes into the action column, if any. */
  function Contribution(e: Value, action: string, window: string): Option<real>
    requires ElementTyped(e, action, window)
  {
    if Matches(e, action) && !Get(e.fields, window).Null? then Some(Get(e.fields, window).n)
    else None
  }

  /** The contribution of the last element of `elems` that contributes one. */
  function LastMatch(elems: seq<Value>, action: string, window: string): Option<real>
    requires ElementsTyped(elems, action, window)
  {
    if elems == [] then None
    else
      var last := elems[|elems| - 1];
      match Contribution(last, action, window)
      case Some(x) => Some(x)
      case None => LastMatch(elems[..|elems| - 1], action, window)
  }

  /** The action column's value: the last match, 0 when nothing matches. */
  function ActionValue(elems: seq<Value>, action: string, window: string): real
    requires ElementsTyped(elems, action, window)
  {
    LastMatch(elems, action, window).GetOr(0.0)
  }

  /** How one insights field other than the `actions` array is stored. */
  function NormalizeField(k: string, v: Value, p: Primitives): (r: Value)
    ensures k == AdIdKey && v.Str? ==> r == v
    ensures k != AdIdKey && v.Str? ==>
      match p.parseFloat(v.s)
      case Some(f) => r == Num(f)
      case None => r == v
    ensures v.Obj? ==> r == Str(p.sprintMap(v.fields))
    ensures !v.Str? && !v.Obj? ==> r == v
    ensures !r.Obj?
  {
    match v
    case Obj(m) => Str(p.sprintMap(m))
    case Str(s) =>
      if k == AdIdKey then v
      else (match p.parseFloat(s) case Some(f) => Num(f) case None => v)
    case _ => v
  }

  /**
   * The row built from the insights fields in `done`: every such field but
   * the `actions` array normalised, and the action column once `actions` has
   * been seen.
   */
  function Partial(insights: map<string, Value>, done: set<string>, action: string, window: string, p: Primitives): Row
    requires done <= insights.Keys
    requires InsightsTyped(insights, action, window)
  {
    var base := map k | k in done && !IsActionsArray(k, insights[k]) :: NormalizeField(k, insights[k], p);
    if ActionsKey in done && HasActionsArray(insights) then
      base[action := Num(ActionValue(insights[ActionsKey].items, action, window))]
    else base
  }

  /** The row `getInsights` builds from one insights object. */
  function RowOf(insights: map<string, Value>, action: string, window: string, p: Primitives): Row
    requires InsightsTyped(insights, action, window)
  {
    Partial(insights, insights.Keys, action, window, p)
  }

  /** The row for a record, or None when the record is skipped. */
  function NormalizeRecord(record: Value, action: string, window: string, p: Primitives): Option<Row>
    requires RecordTyped(record, action, window)
  {
    match InsightsOf(record)
    case None => None
    case Some(insights) => Some(RowOf(insights, action, window, p))
  }

  predicate RecordsTyped(records: seq<Value>, action: string, window: string) {
    forall i :: 0 <= i < |records| ==> RecordTyped(records[i], action, window)
  }

  /** The rows of all records that have insights, in record order. */
  function NormalizeAll(records: seq<Value>, action: string, window: string, p: Primitives): seq<Row>
    requires RecordsTyped(records, action, window)
  {
    if records == [] then []
    else
      var front := NormalizeAll(records[..|records| - 1], action, window, p);
      match NormalizeRecord(records[|records| - 1], action, window, p)
      case None => front
      case Some(row) => front + [row]
  }

  // ---------------------------------------------------------------------
  // The imperative code
  // ---------------------------------------------------------------------

  /** The inner loop over `actions`: every match with a value overwrites the column. */
  method ScanActions(row: Row, elems: seq<Value>, action: string, window: string) returns (out: Row)
    requires ElementsTyped(elems, action, window)
    ensures out == row[action := Num(ActionValue(elems, action, window))]
  {
    out := row[action := Num(0.0)];
    for i := 0 to |elems|
      invariant out == row[action := Num(ActionValue(elems[..i], action, window))]
    {
      assert elems[..i + 1][..i] == elems[..i];
      var e := elems[i].fields;
      if Get(e, ActionTypeKey) == Str(action) {
        var value := Get(e, window);
        if value != Null {
          out := out[action := Num(value.n)];
        }
      }
    }
    assert elems[..|elems|] == elems;
  }

  lemma PartialStep(insights: map<string, Value>, done: set<string>, k: string, action: string, window: string, p: Primitives)
    requires done <= insights.Keys && k in insights && k !in done
    requires InsightsTyped(insights, action, window)
    ensures Partial(insights, done + {k}, action, window, p) ==
      if IsActionsArray(k, insights[k])
      then Partial(insights, done, action, window, p)[action := Num(ActionValue(insights[k].items, action, window))]
      else Partial(insights, done, action, window, p)[k := NormalizeField(k, insights[k], p)]
  {
  }

  /** One iteration of the loop over the insights fields: adds field k to the row. */
  method Visit(row: Row, insights: map<string, Value>, ghost done: set<string>, k: string, action: string, window: string, p: Primitives)
    returns (out: Row)
    requires done <= insights.Keys && k in insights && k !in done
    requires InsightsTyped(insights, action, window)
    requires row == Partial(insights, done, action, window, p)
    ensures out == Partial(insights, done + {k}, action, window, p)
  {
    PartialStep(insights, done, k, action, window, p);
    var v := insights[k];
    if v.Arr? && k == ActionsKey {
      out := ScanActions(row, v.items, action, window);
    } else {
      out := row[k := NormalizeField(k, v, p)];
    }
  }

  lemma PartialEmpty(insights: map<string, Value>, action: string, window: string, p: Primitives)
    requires InsightsTyped(insights, action, window)
    ensures Partial(insights, {}, action, window, p) == map[]
  {
  }

  /** Builds one row, visiting the insights fields in an arbitrary order. */
  method BuildRow(insights: map<string, Value>, action: string, window: string, p: Primitives) returns (row: Row)
    requires InsightsTyped(insights, action, window)
    ensures row == RowOf(insights, action, window, p)
  {
    row := map[];
    PartialEmpty(insights, action, window, p);
    var todo := insights.Keys;
    ghost var done: set<string> := {};
    while todo != {}
      invariant todo <= insights.Keys && done == insights.Keys - todo
      invariant row == Partial(insights, done, action, window, p)
      decreases |todo|
    {
      var k :| k in todo;
      row := Visit(row, insights, done, k, action, window, p);
      done, todo := done + {k}, todo - {k};
    }
    assert done == insights.Keys;
  }

  /** `getInsights`: one row per record that has insights, appended in order. */
  method GetInsights(records: seq<Value>, action: string, window: string, p: Primitives) returns (result: seq<Row>)
    requires RecordsTyped(records, action, window)
    ensures result == NormalizeAll(records, action, window, p)
  {
    result := [];
    for i := 0 to |records|
      invariant result == NormalizeAll(records[..i], action, window, p)
    {
      assert records[..i + 1][..i] == records[..i];
      var insights := InsightsOf(records[i]);
      if insights.Some? {
        var row := BuildRow(insights.value, action, window, p);
        result := result + [row];
      }
    }
    assert records[..|records|] == records;
  }

  // ---------------------------------------------------------------------
  // Properties of the normaliser
  // ---------------------------------------------------------------------

  /**
   * A row's keys are the insights keys, except that an `actions` array is
   * replaced by the action column.
   */
  lemma RowKeys(insights: map<string, Value>, action: string, window: string, p: Primitives)
    requires InsightsTyped(insights, action, window)
    ensures HasActionsArray(insights) ==>
      RowOf(insights, action, window, p).Keys == insights.Keys - {ActionsKey} + {action}
    ensures !HasActionsArray(insights) ==> RowOf(insights, action, window, p).Keys == insights.Keys
  {
    var row := RowOf(insights, action, window, p);
    if HasActionsArray(insights) {
      assert forall k :: k in row <==> k in insights.Keys - {ActionsKey} + {action};
    } else {
      assert forall k :: k in row <==> k in insights.Keys;
    }
  }

  /**
   * Every insights field but the `actions` array keeps its name and holds
   * its normalised value; the action column holds the action value; no
   * field of a row is an object.
   */
  lemma RowValues(insights: map<string, Value>, action: string, window: string, p: Primitives)
    requires InsightsTyped(insights, action, window)
    ensures forall k :: k in insights && !IsActionsArray(k, insights[k]) ==>
      k in RowOf(insights, action, window, p) &&
      RowOf(insights, action, window, p)[k] == NormalizeField(k, insights[k], p)
    ensures HasActionsArray(insights) ==>
      action in RowOf(insights, action, window, p) &&
      RowOf(insights, action, window, p)[action] ==
        Num(ActionValue(insights[ActionsKey].items, action, window))
    ensures forall k :: k in RowOf(insights, action, window, p) ==> !RowOf(insights, action, window, p)[k].Obj?
  {
  }

  /** A string `ad_id` is stored exactly as received. */
  lemma AdIdVerbatim(insights: map<string, Value>, action: string, window: string, p: Primitives, id: string)
    requires InsightsTyped(insights, action, window)
    requires AdIdKey in insights && insights[AdIdKey] == Str(id)
    ensures RowOf(insights, action, window, p)[AdIdKey] == Str(id)
  {
    RowValues(insights, action, window, p);
  }

  /**
   * The action value is the contribution of an element after which no
   * element contributes (last match wins), and only such a value.
   */
  lemma {:induction false} LastMatchWins(elems: seq<Value>, action: string, window: string, j: nat)
    requires ElementsTyped(elems, action, window)
    requires j < |elems| && Contribution(elems[j], action, window).Some?
    requires forall k :: j < k < |elems| ==> Contribution(elems[k], action, window).None?
    ensures LastMatch(elems, action, window) == Contribution(elems[j], action, window)
    ensures ActionValue(elems, action, window) == Contribution(elems[j], action, window).value
  {
    if j < |elems| - 1 {
      var front := elems[..|elems| - 1];
      assert front[j] == elems[j];
      assert forall k :: j < k < |front| ==> front[k] == elems[k];
      LastMatchWins(front, action, window, j);
    }
  }

  /** Every action value other than 0 comes from the last contributing element. */
  lemma {:induction false} LastMatchFrom(elems: seq<Value>, action: string, window: string)
    requires ElementsTyped(elems, action, window)
    requires LastMatch(elems, action, window).Some?
    ensures exists j :: (0 <= j < |elems| &&
      Contribution(elems[j], action, window) == LastMatch(elems, action, window) &&
      forall k :: j < k < |elems| ==> Contribution(elems[k], action, window).None?)
  {
    var n := |elems|;
    if Contribution(elems[n - 1], action, window).None? {
      var front := elems[..n - 1];
      LastMatchFrom(front, action, window);
      var j :| 0 <= j < |front| &&
        Contribution(front[j], action, window) == LastMatch(front, action, window) &&
        forall k :: j < k < |front| ==> Contribution(front[k], action, window).None?;
      assert forall k :: j < k < n ==> Contribution(elems[k], action, window).None? by {
        forall k | j < k < n ensures Contribution(elems[k], action, window).None? {
          if k < n - 1 { assert elems[k] == front[k]; }
        }
      }
    }
  }

  /** The action column keeps its 0 default exactly when no element contributes. */
  lemma {:induction false} NoMatchDefault(elems: seq<Value>, action: string, window: string)
    requires ElementsTyped(elems, action, window)
    ensures LastMatch(elems, action, window).None? <==>
      forall k :: 0 <= k < |elems| ==> Contribution(elems[k], action, window).None?
    ensures (forall k :: 0 <= k < |elems| ==> Contribution(elems[k], action, window).None?) ==>
      ActionValue(elems, action, window) == 0.0
  {
    if elems != [] {
      var front := elems[..|elems| - 1];
      NoMatchDefault(front, action, window);
      assert forall k :: 0 <= k < |front| ==> front[k] == elems[k];
    }
  }

  /**
   * An element that does not match, or matches without a value under the
   * attribution window, leaves the action value as it was.
   */
  lemma NonContributingKeeps(elems: seq<Value>, e: Value, action: string, window: string)
    requires ElementsTyped(elems, action, window) && ElementTyped(e, action, window)
    requires !Matches(e, action) || Get(e.fields, window).Null?
    ensures ElementsTyped(elems + [e], action, window)
    ensures ActionValue(elems + [e], action, window) == ActionValue(elems, action, window)
  {
    assert (elems + [e])[..|elems|] == elems;
  }

  /** Records to rows distributes over concatenation (pages accumulate). */
  lemma {:induction false} NormalizeAllAppend(a: seq<Value>, b: seq<Value>, action: string, window: string, p: Primitives)
    requires RecordsTyped(a, action, window) && RecordsTyped(b, action, window)
    ensures RecordsTyped(a + b, action, window)
    ensures NormalizeAll(a + b, action, window, p) == NormalizeAll(a, action, window, p) + NormalizeAll(b, action, window, p)
  {
    assert forall i :: 0 <= i < |a + b| ==> (a + b)[i] == if i < |a| then a[i] else b[i - |a|];
    if b == [] {
      assert a + b == a;
    } else {
      var b' := b[..|b| - 1];
      NormalizeAllAppend(a, b', action, window, p);
      assert (a + b)[..|a + b| - 1] == a + b';
      assert (a + b)[|a + b| - 1] == b[|b| - 1];
    }
  }

  /** A single record yields no row without insights and its one row otherwise. */
  lemma NormalizeOne(record: Value, action: string, window: string, p: Primitives)
    requires RecordTyped(record, action, window)
    ensures RecordsTyped([record], action, window)
    ensures InsightsOf(record).None? ==> NormalizeAll([record], action, window, p) == []
    ensures InsightsOf(record).Some? ==>
      NormalizeAll([record], action, window, p) == [RowOf(InsightsOf(record).value, action, window, p)]
  {
    assert [record][..0] == [];
  }

  /** The number of records that have insights. */
  function CountWithInsights(records: seq<Value>): nat {
    if records == [] then 0
    else CountWithInsights(records[..|records| - 1]) + (if InsightsOf(records[|records| - 1]).Some? then 1 else 0)
  }

  /** One row per record with insights, none for the others. */
  lemma {:induction false} NormalizeAllCount(records: seq<Value>, action: string, window: string, p: Primitives)
    requires RecordsTyped(records, action, window)
    ensures |NormalizeAll(records, action, window, p)| == CountWithInsights(records)
  {
    if records != [] {
      NormalizeAllCount(records[..|records| - 1], action, window, p);
    }
  }

  /** The record with `ad_id` `"998877"`, `spend` `"12.5"` and `nested` `{"a":1}`. */
  lemma ExampleRow(p: Primitives)
    requires p.parseFloat("12.5") == Some(12.5)
    ensures var insights := map[AdIdKey := Str("998877"), "spend" := Str("12.5"), "nested" := Obj(map["a" := Num(1.0)])];
      InsightsTyped(insights, "", "1d_click") &&
      NormalizeRecord(RecordWith(insights), "", "1d_click", p) ==
        Some(map[AdIdKey := Str("998877"), "spend" := Num(12.5), "nested" := Str(p.sprintMap(map["a" := Num(1.0)]))])
  {
    var insights := map[AdIdKey := Str("998877"), "spend" := Str("12.5"), "nested" := Obj(map["a" := Num(1.0)])];
    var want := map[AdIdKey := Str("998877"), "spend" := Num(12.5), "nested" := Str(p.sprintMap(map["a" := Num(1.0)]))];
    RowKeys(insights, "", "1d_click", p);
    RowValues(insights, "", "1d_click", p);
    assert RowOf(insights, "", "1d_click", p) == want;
  }

  /** Two elements of the requested type: the second one's value is taken. */
  lemma ExampleLastWins(x: real, y: real)
    ensures var e1 := Obj(map[ActionTypeKey := Str("purchase"), "1d_click" := Num(x)]);
      var e2 := Obj(map[ActionTypeKey := Str("purchase"), "1d_click" := Num(y)]);
      ElementsTyped([e1, e2], "purchase", "1d_click") &&
      ActionValue([e1, e2], "purchase", "1d_click") == y
  {
    var e1 := Obj(map[ActionTypeKey := Str("purchase"), "1d_click" := Num(x)]);
    var e2 := Obj(map[ActionTypeKey := Str("purchase"), "1d_click" := Num(y)]);
    LastMatchWins([e1, e2], "purchase", "1d_click", 1);
  }
}
