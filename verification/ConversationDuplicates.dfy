/** When a batch counts as stored already: its ids, and the row that speaks for each. */
module ConversationDuplicates {
  import opened Basics
  import opened ConversationViews
  import opened ConversationRows
  import C = ConversationStore

  // ---- the row an id stands for ----

  /** The first row with this id in a segment behind which no other has it. */
  ghost predicate Meant(transcript: seq<Row>, starts: seq<nat>, id: Id, i: int, s: int) {
    && 0 <= i < |transcript| && transcript[i].id == id && 0 <= s < |starts| && starts[s] <= i
    && forall j :: starts[s] <= j < |transcript| && transcript[j].id == id ==>
         i <= j && (s + 1 < |starts| ==> j < starts[s + 1])
  }

  lemma {:induction false} FirstIs(rows: seq<Row>, id: Id) returns (i: nat)
    requires HasId(rows, id)
    ensures i < |rows| && rows[i].id == id && FirstOf(rows, id) == rows[i]
    ensures forall j :: 0 <= j < i ==> rows[j].id != id
  {
    if rows[0].id == id {
      i := 0;
    } else {
      var k :| 0 <= k < |rows| && rows[k].id == id;
      assert rows[1..][k - 1].id == id;
      i := FirstIs(rows[1..], id);
      i := i + 1;
      assert forall j :: 1 <= j < i ==> rows[j] == rows[1..][j - 1];
    }
  }

  lemma MeantLast(transcript: seq<Row>, starts: seq<nat>, id: Id, i: nat)
    requires Segmented(starts, |transcript|)
    requires var last := transcript[starts[|starts| - 1]..];
             i < |last| && last[i].id == id && forall j :: 0 <= j < i ==> last[j].id != id
    ensures Meant(transcript, starts, id, starts[|starts| - 1] + i, |starts| - 1)
  {
    var n := |starts| - 1;
    var last := transcript[starts[n]..];
    assert forall j :: starts[n] <= j < |transcript| ==> transcript[j] == last[j - starts[n]];
  }

  lemma MeantOlder(transcript: seq<Row>, starts: seq<nat>, id: Id, i: nat, s: nat)
    requires Segmented(starts, |transcript|)
    requires var n := |starts| - 1; Meant(transcript[..starts[n]], starts[..n], id, i, s)
    requires !HasId(transcript[starts[|starts| - 1]..], id)
    ensures Meant(transcript, starts, id, i, s)
  {
    var n := |starts| - 1;
    var last := transcript[starts[n]..];
    assert forall j :: starts[n] <= j < |transcript| ==> transcript[j] == last[j - starts[n]];
    assert forall j :: 0 <= j < starts[n] ==> transcript[..starts[n]][j] == transcript[j];
  }

  lemma {:induction false} RowOfIs(transcript: seq<Row>, starts: seq<nat>, id: Id) returns (i: nat, s: nat)
    requires Segmented(starts, |transcript|) && HasId(transcript, id)
    ensures Meant(transcript, starts, id, i, s) && i < |transcript| && RowOf(transcript, starts, id) == transcript[i]
    decreases |starts|
  {
    hide Meant, HasId;
    var n := |starts| - 1;
    var last := transcript[starts[n]..];
    if HasId(last, id) {
      i := FirstIs(last, id);
      MeantLast(transcript, starts, id, i);
      i, s := i + starts[n], n;
    } else {
      OlderHasId(transcript, starts[n], id);
      i, s := RowOfIs(transcript[..starts[n]], starts[..n], id);
      MeantOlder(transcript, starts, id, i, s);
    }
  }

  /** There is one such row, and it is the one looked up. */
  lemma RowOfLaw(transcript: seq<Row>, starts: seq<nat>, id: Id)
    requires Segmented(starts, |transcript|) && HasId(transcript, id)
    ensures exists i, s :: Meant(transcript, starts, id, i, s)
    ensures forall i, s :: Meant(transcript, starts, id, i, s) ==> RowOf(transcript, starts, id) == transcript[i]
  {
    var k, t := RowOfIs(transcript, starts, id);
    forall i, s | Meant(transcript, starts, id, i, s) ensures i == k {
    }
  }

  /** A message is stored exactly if that row of its id agrees with it in role, print, target and attachments. */
  lemma StoredLaw(transcript: seq<Row>, starts: seq<nat>, shown: Content -> string, item: C.Item)
    requires Segmented(starts, |transcript|)
    ensures C.Stored(transcript, starts, shown, item)
            <==> exists i, s :: Meant(transcript, starts, item.message.id, i, s)
                   && transcript[i].role == item.message.role && shown(transcript[i].content) == shown(item.message.content)
                   && transcript[i].source.target == item.message.source.target
                   && transcript[i].attachments == item.message.attachments
  {
    var id := item.message.id;
    if HasId(transcript, id) {
      RowOfLaw(transcript, starts, id);
      hide RowOf, Meant;
    } else {
      assert forall i, s :: !Meant(transcript, starts, id, i, s);
    }
  }

  // ---- a batch with ids of its own ----

  function Ids(items: seq<C.Item>): set<Id> { set i | 0 <= i < |items| :: items[i].message.id }

  lemma IdsMore(items: seq<C.Item>)
    requires items != []
    ensures var n := |items| - 1;
            && Ids(items) == Ids(items[..n]) + {items[n].message.id}
            && (items[n].message.id in Ids(items[..n])
                <==> exists i :: 0 <= i < n && items[i].message.id == items[n].message.id)
  {
    var n := |items| - 1;
    var front := items[..n];
    assert forall i :: 0 <= i < n ==> front[i] == items[i];
    forall i | 0 <= i < n ensures items[i].message.id in Ids(front) {
      assert front[i].message.id in Ids(front);
    }
  }

  predicate Apart(items: seq<C.Item>) {
    forall i, j :: 0 <= i < j < |items| ==> items[i].message.id != items[j].message.id
  }

  lemma ApartMore(items: seq<C.Item>)
    requires items != []
    ensures var n := |items| - 1;
            Apart(items) <==> Apart(items[..n]) && !exists i :: 0 <= i < n && items[i].message.id == items[n].message.id
  {
    var n := |items| - 1;
    assert forall i :: 0 <= i < n ==> items[..n][i] == items[i];
  }

  lemma {:induction false} IdsCount(items: seq<C.Item>)
    ensures |Ids(items)| <= |items| && (|Ids(items)| == |items| <==> Apart(items))
    decreases |items|
  {
    if items == [] {
      assert Ids(items) == {};
    } else {
      hide Ids, Apart;
      IdsCount(items[..|items| - 1]);
      IdsMore(items);
      ApartMore(items);
    }
  }

  /** A batch is identified exactly if it has as many ids as messages, all named, and all but system prompts are dated. */
  lemma IdentifiedLaw(items: seq<C.Item>)
    ensures C.Identified(items)
            <==> items != [] && |Ids(items)| == |items| && NONE !in Ids(items)
                 && forall i :: 0 <= i < |items| ==> items[i].message.role == SystemRole || items[i].message.dated
  {
    IdsCount(items);
    if NONE in Ids(items) {
      var i :| 0 <= i < |items| && items[i].message.id == NONE;
    }
    forall i | 0 <= i < |items| ensures items[i].message.id in Ids(items) {
    }
  }
}
