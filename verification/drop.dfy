/** Dropping a card on a board: the update call the drop handler sends. */
module Drop {
  import opened Wrappers
  import opened Values
  import opened Kanban
  import Js

  /** The update call: `{[columnName]: key}` for the record `id` of
      `tableName`, posted to `url`. */
  datatype DropUpdate = DropUpdate(url: string, columnName: string, key: string, id: Value, tableName: string)

  /** The first board whose id is identical to the drop target's `data-id`. */
  function TargetBoard(boards: seq<Board>, boardId: Value): (b: Option<Board>)
    ensures b.None? <==> forall i :: 0 <= i < |boards| ==> !Js.StrictEquals(Str(boards[i].id), boardId)
    ensures b.Some? ==> exists i :: (0 <= i < |boards| && boards[i] == b.value && Js.StrictEquals(Str(b.value.id), boardId) &&
      forall k :: 0 <= k < i ==> !Js.StrictEquals(Str(boards[k].id), boardId))
  {
    if |boards| == 0 then None
    else if Js.StrictEquals(Str(boards[0].id), boardId) then Some(boards[0])
    else
      var b := TargetBoard(boards[1..], boardId);
      assert forall i :: 1 <= i < |boards| ==> boards[1..][i - 1] == boards[i];
      b
  }

  /** The drop handler: with no matching board, or a board without a column
      name, nothing is sent (an error is shown); otherwise the card's category
      column is set to the board's key, at the card's own update URL. */
  function DropPayload(boards: seq<Board>, boardId: Value, card: Item): (call: Option<DropUpdate>)
    ensures call.None? <==> TargetBoard(boards, boardId).None? || TargetBoard(boards, boardId).value.columnName == ""
    ensures call.Some? ==> call.value == DropUpdate(card.updateUrl, TargetBoard(boards, boardId).value.columnName,
      TargetBoard(boards, boardId).value.key, card.dataid, card.tableName)
    ensures call.Some? ==> exists b :: (b in boards && Js.StrictEquals(Str(b.id), boardId) &&
      call.value == DropUpdate(card.updateUrl, b.columnName, b.key, card.dataid, card.tableName))
  {
    match TargetBoard(boards, boardId)
    case None => None
    case Some(b) =>
      if b.columnName == "" then None
      else Some(DropUpdate(card.updateUrl, b.columnName, b.key, card.dataid, card.tableName))
  }
}
