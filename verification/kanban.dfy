/** The board data the builder hands to the browser (embedded in the page as
    JSON) and the renderer keeps as its in-memory mirror. */
module Kanban {
  import opened Wrappers
  import opened Values
  import Decimal
  import Js

  /** One option of a select column (`createSelectOptions`): key => display text. */
  datatype SelectOption = SelectOption(key: string, text: string)

  /** Who a card belongs to: display name, e-mail and image URL. */
  datatype AvatarInfo = AvatarInfo(name: Value, email: Value, avatar: string)

  /** A card. `dataid` is the record id used in update calls; `id` is derived
      from it. `priority` is a property the renderer reads but the builder
      never writes, so on built cards it is absent (Null). */
  datatype Item = Item(
    id: string,
    title: Value,
    detail: Value,
    dataid: Value,
    tableName: string,
    updateUrl: string,
    originalItemData: Value,
    avatarInfo: AvatarInfo,
    tagColumn: Option<string>,
    tagOptions: seq<SelectOption>,
    currentTags: seq<Value>,
    allowMultipleTags: bool,
    rawTagValue: Value,
    priority: Value)

  /** A column of the board: one option of the category field. `drapTo` (sic)
      lists the boards a card may be dropped on. */
  datatype Board = Board(
    id: string,
    columnName: string,
    key: string,
    title: string,
    drapTo: seq<string>,
    items: seq<Item>)

  function BoardId(key: string): string {
    "board-id-" + key
  }

  function ItemId(recordId: int): string {
    "item-id-" + Decimal.IntToString(recordId)
  }

  /** The label of the first option with this key. */
  function LabelOf(options: seq<SelectOption>, key: string): (l: Option<string>)
    ensures l.Some? <==> exists i :: 0 <= i < |options| && options[i].key == key
    ensures l.Some? ==> exists i :: 0 <= i < |options| && options[i].key == key && options[i].text == l.value
    ensures forall i ::
      (0 <= i < |options| && options[i].key == key && forall j :: 0 <= j < i ==> options[j].key != key)
      ==> l == Some(options[i].text)
  {
    if |options| == 0 then None
    else if options[0].key == key then Some(options[0].text)
    else
      var rest := LabelOf(options[1..], key);
      assert forall i :: 1 <= i < |options| ==> options[1..][i - 1] == options[i];
      rest
  }

  /** `tagOptions[key]`, as text, on the plain object the options reach the
      page as: an option's own label wins; a key no option has reads what
      every object inherits under that name, if anything. */
  function OptionText(options: seq<SelectOption>, key: string): (t: Option<string>)
    ensures LabelOf(options, key).Some? ==> t == LabelOf(options, key)
    ensures LabelOf(options, key).None? ==> t == Js.InheritedText(key)
    ensures t.None? <==> LabelOf(options, key).None? && Js.InheritedText(key).None?
  {
    match LabelOf(options, key)
    case Some(l) => Some(l)
    case None => Js.InheritedText(key)
  }

  function Keys(options: seq<SelectOption>): (ks: seq<string>)
    ensures |ks| == |options| && forall i :: 0 <= i < |options| ==> ks[i] == options[i].key
  {
    seq(|options|, i requires 0 <= i < |options| => options[i].key)
  }

  /** Option keys are distinct, as the keys of a PHP array or a JavaScript object are. */
  predicate UniqueKeys(options: seq<SelectOption>) {
    forall i, j :: 0 <= i < j < |options| ==> options[i].key != options[j].key
  }

  /** Two different option keys never give the same board id. */
  lemma BoardIdInjective(a: string, b: string)
    ensures BoardId(a) == BoardId(b) ==> a == b
  {
    if BoardId(a) == BoardId(b) {
      assert a == BoardId(a)[9..];
    }
  }
}
