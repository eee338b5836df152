/**
  The trade journal (`TradesModule`): an ordered list of trade records kept
  under one localStorage key, with create-or-replace by id on submit,
  delete by id, clear-all, and the edit action that copies a record back
  into the form.
 */
module Trades {
  import opened Wrappers
  import opened Storage
  import JsString

  /** The key the journal is stored under. */
  const TradesStoreKey := "scalpe_trades"

  /** One journaled position idea; `entry` and `target` are the strings `toFixed(2)` produced. */
  datatype Trade = Trade(id: string, asset: string, market: string, bias: string, entry: string, target: string)

  /** The trade form's fields as `FormData.get` returns them. */
  datatype TradeForm = TradeForm(tradeId: string, asset: string, market: string, bias: string, entry: string, target: string)

  function Ids(trades: seq<Trade>): set<string>
  {
    set t | t in trades :: t.id
  }

  /** No two records share an id. */
  predicate UniqueIds(trades: seq<Trade>)
  {
    forall i, j :: 0 <= i < j < |trades| ==> trades[i].id != trades[j].id
  }

  lemma IdsAppend(a: seq<Trade>, b: seq<Trade>)
    ensures Ids(a + b) == Ids(a) + Ids(b)
  {
    assert forall t :: t in a + b <==> t in a || t in b;
  }

  /** `trades.findIndex(t => t.id === id)`: the first position holding `id`, or -1. */
  function FindIndex(trades: seq<Trade>, id: string): (k: int)
    ensures -1 <= k < |trades|
    ensures k >= 0 ==> trades[k].id == id
    ensures k >= 0 ==> forall j :: 0 <= j < k ==> trades[j].id != id
    ensures k < 0 <==> id !in Ids(trades)
  {
    if trades == [] then -1
    else if trades[0].id == id then
      assert trades[0] in trades;
      0
    else
      var k := FindIndex(trades[1..], id);
      assert trades == [trades[0]] + trades[1..];
      IdsAppend([trades[0]], trades[1..]);
      if k < 0 then -1 else k + 1
  }

  /** `trades.find(t => t.id === id)`: the first record holding `id`. */
  function FindTrade(trades: seq<Trade>, id: string): (r: Option<Trade>)
    ensures r.Some? <==> id in Ids(trades)
    ensures r.Some? ==> r.value in trades && r.value.id == id
    ensures r.Some? ==> r.value == trades[FindIndex(trades, id)]
  {
    var k := FindIndex(trades, id);
    if k >= 0 then Some(trades[k]) else None
  }

  /**
    The record the submit handler builds from the form: the form's id when
    it has one and the generated id otherwise, the asset upper-cased, the
    market `"global"` when the field is empty. `toFixed2` stands for
    `Number(text).toFixed(2)`.
   */
  function BuildPayload(form: TradeForm, generatedId: string, toFixed2: string -> string): (t: Trade)
    ensures form.tradeId != "" ==> t.id == form.tradeId
    ensures form.tradeId == "" ==> t.id == generatedId
    ensures t.asset == JsString.ToUpperCase(form.asset)
    ensures |t.asset| == |form.asset| && JsString.HasNoLower(t.asset)
    ensures JsString.HasNoLower(form.asset) ==> t.asset == form.asset
    ensures form.market == "" ==> t.market == "global"
    ensures form.market != "" ==> t.market == form.market
    ensures t.bias == form.bias && t.entry == toFixed2(form.entry) && t.target == toFixed2(form.target)
  {
    Trade(
      if form.tradeId != "" then form.tradeId else generatedId,
      JsString.ToUpperCase(form.asset),
      if form.market != "" then form.market else "global",
      form.bias,
      toFixed2(form.entry),
      toFixed2(form.target))
  }

  /**
    Create-or-replace by id: a record whose id is present replaces the first
    record with that id at the same position; any other record is appended.
    No other record moves or changes, and unique ids stay unique.
   */
  function Upsert(trades: seq<Trade>, payload: Trade): (r: seq<Trade>)
    ensures payload.id in Ids(trades) ==> |r| == |trades| && r[FindIndex(trades, payload.id)] == payload
    ensures payload.id !in Ids(trades) ==> r == trades + [payload]
    ensures forall i :: 0 <= i < |trades| && trades[i].id != payload.id ==> r[i] == trades[i]
    ensures forall i :: 0 <= i < |trades| && i != FindIndex(trades, payload.id) ==> r[i] == trades[i]
    ensures Ids(r) == Ids(trades) + {payload.id}
    ensures UniqueIds(trades) ==> UniqueIds(r)
  {
    var k := FindIndex(trades, payload.id);
    if k >= 0 then
      var r := trades[k := payload];
      assert forall t :: t in r ==> t == payload || t in trades;
      assert forall t :: t in trades ==> t in r || t.id == payload.id by {
        forall t | t in trades ensures t in r || t.id == payload.id {
          var i :| 0 <= i < |trades| && trades[i] == t;
          if i != k { assert r[i] == t; }
        }
      }
      r
    else
      IdsAppend(trades, [payload]);
      trades + [payload]
  }

  /** `trades.filter(t => t.id !== id)`. */
  function RemoveById(trades: seq<Trade>, id: string): seq<Trade>
  {
    if trades == [] then []
    else if trades[0].id == id then RemoveById(trades[1..], id)
    else [trades[0]] + RemoveById(trades[1..], id)
  }

  /**
    What the filter leaves: no record with the id, every other record as
    often as before, in the original order; an absent id changes nothing.
   */
  lemma {:induction false} RemoveByIdMeaning(trades: seq<Trade>, id: string)
    ensures id !in Ids(RemoveById(trades, id))
    ensures forall t :: multiset(RemoveById(trades, id))[t] == if t.id == id then 0 else multiset(trades)[t]
    ensures IsSubsequence(RemoveById(trades, id), trades)
    ensures id !in Ids(trades) ==> RemoveById(trades, id) == trades
  {
    if trades != [] {
      var rest := RemoveById(trades[1..], id);
      RemoveByIdMeaning(trades[1..], id);
      assert trades == [trades[0]] + trades[1..];
      IdsAppend([trades[0]], trades[1..]);
      if trades[0].id == id {
        assert rest != [] ==> rest[0] in rest;
      } else {
        IdsAppend([trades[0]], rest);
      }
    }
  }

  /** `a` is `b` with some elements left out and the rest in their original order. */
  predicate IsSubsequence(a: seq<Trade>, b: seq<Trade>)
  {
    if a == [] then true
    else if b == [] then false
    else if a[0] == b[0] then IsSubsequence(a[1..], b[1..])
    else IsSubsequence(a, b[1..])
  }

  /** Deleting keeps ids unique: the filter only drops records. */
  lemma {:induction false} RemoveByIdKeepsUnique(trades: seq<Trade>, id: string)
    requires UniqueIds(trades)
    ensures UniqueIds(RemoveById(trades, id))
  {
    if trades != [] {
      var rest := RemoveById(trades[1..], id);
      assert UniqueIds(trades[1..]);
      RemoveByIdKeepsUnique(trades[1..], id);
      if trades[0].id != id {
        RemoveByIdMeaning(trades[1..], id);
        assert trades[0].id !in Ids(trades[1..]);
        assert trades[0].id !in Ids(rest);
        var r := [trades[0]] + rest;
        forall i, j | 0 <= i < j < |r| ensures r[i].id != r[j].id {
          if i == 0 { assert r[j] in rest; }
        }
      }
    }
  }

  /** Filtering distributes over concatenation. */
  lemma {:induction false} RemoveByIdAppend(a: seq<Trade>, b: seq<Trade>, id: string)
    ensures RemoveById(a + b, id) == RemoveById(a, id) + RemoveById(b, id)
  {
    if a != [] {
      assert (a + b)[1..] == a[1..] + b;
      RemoveByIdAppend(a[1..], b, id);
    } else {
      assert a + b == b;
    }
  }

  /** Deleting a record that was just added under a fresh id gives back the list before the add. */
  lemma {:induction false} RemoveUndoesFreshUpsert(trades: seq<Trade>, payload: Trade)
    requires payload.id !in Ids(trades)
    ensures RemoveById(Upsert(trades, payload), payload.id) == trades
  {
    RemoveByIdAppend(trades, [payload], payload.id);
    RemoveByIdMeaning(trades, payload.id);
    assert [payload][1..] == [];
  }

  /** After a submit, looking the id up finds exactly the submitted record. */
  lemma FindAfterUpsert(trades: seq<Trade>, payload: Trade)
    ensures FindTrade(Upsert(trades, payload), payload.id) == Some(payload)
  {
  }

  /** Submitting several records in turn. */
  function UpsertAll(trades: seq<Trade>, batch: seq<Trade>): seq<Trade>
    decreases |batch|
  {
    if batch == [] then trades else UpsertAll(Upsert(trades, batch[0]), batch[1..])
  }

  /**
    Submitting records with pairwise distinct ids that are new to the
    journal appends them all, in submission order.
   */
  lemma {:induction false} UpsertAllFresh(trades: seq<Trade>, batch: seq<Trade>)
    requires UniqueIds(batch)
    requires Ids(trades) !! Ids(batch)
    ensures UpsertAll(trades, batch) == trades + batch
    decreases |batch|
  {
    if batch != [] {
      var e, rest := batch[0], batch[1..];
      FreshStep(trades, batch);
      var next := trades + [e];
      calc {
        UpsertAll(trades, batch);
        UpsertAll(Upsert(trades, e), rest);
        UpsertAll(next, rest);
        { UpsertAllFresh(next, rest); }
        next + rest;
        { assert batch == [e] + rest; }
        trades + batch;
      }
    }
  }

  /** One step of the above: the first record is appended and the rest stay fresh and unique. */
  lemma FreshStep(trades: seq<Trade>, batch: seq<Trade>)
    requires batch != [] && UniqueIds(batch)
    requires Ids(trades) !! Ids(batch)
    ensures Upsert(trades, batch[0]) == trades + [batch[0]]
    ensures UniqueIds(batch[1..])
    ensures Ids(trades + [batch[0]]) !! Ids(batch[1..])
  {
  }

  /** The edit action: the form filled in from a stored record. */
  function EditForm(t: Trade): TradeForm
  {
    TradeForm(t.id, t.asset, t.market, t.bias, t.entry, t.target)
  }

  /**
    Editing a record and submitting the form unchanged leaves the journal as
    it was, provided the record is already in normal form (id set, asset
    upper-case, market set, prices stable under `toFixed(2)`).
   */
  lemma ResubmitEditedTradeUnchanged(trades: seq<Trade>, t: Trade, generatedId: string, toFixed2: string -> string)
    requires FindTrade(trades, t.id) == Some(t)
    requires t.id != "" && JsString.HasNoLower(t.asset) && t.market != ""
    requires toFixed2(t.entry) == t.entry && toFixed2(t.target) == t.target
    ensures Upsert(trades, BuildPayload(EditForm(t), generatedId, toFixed2)) == trades
  {
  }

  /**
    The journal as the page stores it: the slot under `TradesStoreKey`.
    Every handler reloads the list, changes it and writes it back whole.
   */
  class TradeJournal {
    var slot: Slot<Trade>

    constructor(initial: Slot<Trade>)
      ensures slot == initial
    {
      slot := initial;
    }

    /** `loadTrades()`: the stored list, or empty when nothing readable is stored. */
    function Trades(): seq<Trade>
      reads this
    {
      ReadList(slot)
    }

    /**
      The submit handler. `generatedId` is what `generateId()` returns; it is
      used only when the form carries no id.
     */
    method Submit(form: TradeForm, generatedId: string, toFixed2: string -> string) returns (payload: Trade)
      modifies this
      ensures payload == BuildPayload(form, generatedId, toFixed2)
      ensures slot == Holds(Upsert(old(Trades()), payload))
      ensures UniqueIds(old(Trades())) ==> UniqueIds(Trades())
      ensures form.tradeId == "" && generatedId !in Ids(old(Trades())) ==> Trades() == old(Trades()) + [payload]
      ensures form.tradeId != "" && form.tradeId in Ids(old(Trades())) ==> |Trades()| == |old(Trades())|
    {
      var trades := Trades();
      payload := BuildPayload(form, generatedId, toFixed2);
      var existingIndex := FindIndex(trades, payload.id);
      if existingIndex >= 0 {
        trades := trades[existingIndex := payload];
      } else {
        trades := trades + [payload];
      }
      slot := Holds(trades);
    }

    /** The delete button of the row for `tradeId`. */
    method Delete(tradeId: string)
      modifies this
      ensures slot == Holds(RemoveById(old(Trades()), tradeId))
      ensures tradeId !in Ids(Trades())
      ensures tradeId !in Ids(old(Trades())) ==> Trades() == old(Trades())
      ensures UniqueIds(old(Trades())) ==> UniqueIds(Trades())
    {
      RemoveByIdMeaning(Trades(), tradeId);
      if UniqueIds(Trades()) {
        RemoveByIdKeepsUnique(Trades(), tradeId);
      }
      var trades := RemoveById(Trades(), tradeId);
      slot := Holds(trades);
    }

    /** The reset button; `confirmed` is the user's answer to the confirmation dialog. */
    method Reset(confirmed: bool)
      modifies this
      ensures confirmed ==> slot == Absent && Trades() == []
      ensures !confirmed ==> slot == old(slot)
    {
      if confirmed {
        slot := Absent;
      }
    }

    /** The edit button of the row for `tradeId`: the form contents, or nothing when the id is not stored. */
    method Edit(tradeId: string) returns (form: Option<TradeForm>)
      ensures form.Some? <==> tradeId in Ids(Trades())
      ensures form.Some? ==> form.value == EditForm(Trades()[FindIndex(Trades(), tradeId)])
      ensures form.Some? ==> form.value.tradeId == tradeId
    {
      var trade := FindTrade(Trades(), tradeId);
      if trade.Some? {
        form := Some(EditForm(trade.value));
      } else {
        form := None;
      }
    }
  }
}
