/** The renderer's tag handling: reading a card's tags, drawing the chip row,
    the selection popup, saving a selection and patching the in-memory board
    data after a successful save. */
module Tags {
  import opened Wrappers
  import opened Values
  import opened Kanban
  import Js

  // ---------------------------------------------------------------------------
  // Reading a card's tags

  /** `v.key || v.id || v.value`: the first truthy of the three, else undefined. */
  function KeyIdOrValue(v: Value): (k: Value)
    ensures Js.Truthy(k) ==> k in {Js.Get(v, "key"), Js.Get(v, "id"), Js.Get(v, "value")}
    ensures Js.Truthy(Js.Get(v, "key")) ==> k == Js.Get(v, "key")
    ensures !Js.Truthy(Js.Get(v, "key")) && Js.Truthy(Js.Get(v, "id")) ==> k == Js.Get(v, "id")
    ensures !Js.Truthy(Js.Get(v, "key")) && !Js.Truthy(Js.Get(v, "id")) && Js.Truthy(Js.Get(v, "value")) ==> k == Js.Get(v, "value")
    ensures !Js.Truthy(k) <==> !Js.Truthy(Js.Get(v, "key")) && !Js.Truthy(Js.Get(v, "id")) && !Js.Truthy(Js.Get(v, "value"))
  {
    if Js.Truthy(Js.Get(v, "key")) then Js.Get(v, "key")
    else if Js.Truthy(Js.Get(v, "id")) then Js.Get(v, "id")
    else if Js.Truthy(Js.Get(v, "value")) then Js.Get(v, "value")
    else Null
  }

  /** `es.filter(Boolean)`. */
  function TruthyOnly(es: seq<Value>): (ts: seq<Value>)
    ensures |ts| <= |es|
    ensures forall t :: t in ts <==> t in es && Js.Truthy(t)
    ensures (forall i :: 0 <= i < |es| ==> Js.Truthy(es[i])) ==> ts == es
  {
    if |es| == 0 then []
    else
      var rest := TruthyOnly(es[1..]);
      assert es == [es[0]] + es[1..];
      assert forall i :: 1 <= i < |es| ==> es[1..][i - 1] == es[i];
      (if Js.Truthy(es[0]) then [es[0]] else []) + rest
  }

  /** The filter keeps order and multiplicity: it distributes over concatenation. */
  lemma {:induction false} TruthyOnlyAppend(a: seq<Value>, b: seq<Value>)
    ensures TruthyOnly(a + b) == TruthyOnly(a) + TruthyOnly(b)
    decreases |a|
  {
    if |a| > 0 {
      assert (a + b)[1..] == a[1..] + b;
      TruthyOnlyAppend(a[1..], b);
    } else {
      assert a + b == b;
    }
  }

  /** `e.key || e.id || e.value || e`: an element's key, or the element itself. */
  function TagOf(e: Value): Value {
    if Js.Truthy(KeyIdOrValue(e)) then KeyIdOrValue(e) else e
  }

  /** `es.map(TagOf)`. */
  function TagsOf(es: seq<Value>): (ts: seq<Value>)
    ensures |ts| == |es| && forall i :: 0 <= i < |es| ==> ts[i] == TagOf(es[i])
  {
    seq(|es|, i requires 0 <= i < |es| => TagOf(es[i]))
  }

  /** `es.map(e => e.key || e.id || e.value || e).filter(Boolean)`. Reading a
      property of a null element raises a TypeError (None). */
  function KeysOrSelves(es: seq<Value>): (ts: Option<seq<Value>>)
    ensures ts.None? <==> Null in es
    ensures ts.Some? ==> ts.value == TruthyOnly(TagsOf(es))
  {
    if |es| == 0 then Some([])
    else if es[0] == Null then None
    else
      var rest := KeysOrSelves(es[1..]);
      assert es == [es[0]] + es[1..];
      match rest
      case None => None
      case Some(ts) =>
        var t := TagOf(es[0]);
        TagsStep(es);
        Some((if Js.Truthy(t) then [t] else []) + ts)
  }

  /** Unfolding the mapped filter by one element. */
  lemma TagsStep(es: seq<Value>)
    requires |es| > 0
    ensures TruthyOnly(TagsOf(es))
         == (if Js.Truthy(TagOf(es[0])) then [TagOf(es[0])] else []) + TruthyOnly(TagsOf(es[1..]))
  {
    assert TagsOf(es)[1..] == TagsOf(es[1..]);
  }

  /** The tags recovered from a truthy `raw_tag_value` (lines 334-358): a list
      whose first element is an object (or null, or a list) maps each element
      to its key; any other list keeps its truthy elements; an object gives its
      key; a scalar is the one tag. */
  function FromRaw(raw: Value): (ts: Option<seq<Value>>)
    ensures raw.Arr? && |raw.elems| == 0 ==> ts == Some([])
    ensures raw.Arr? && |raw.elems| > 0 && Js.TypeofObject(raw.elems[0]) ==> ts == KeysOrSelves(raw.elems)
    ensures raw.Arr? && |raw.elems| > 0 && !Js.TypeofObject(raw.elems[0]) ==> ts == Some(TruthyOnly(raw.elems))
    ensures raw.Obj? ==> ts == Some(if Js.Truthy(KeyIdOrValue(raw)) then [KeyIdOrValue(raw)] else [])
    ensures !raw.Arr? && !raw.Obj? ==> ts == Some(if Js.Truthy(raw) then [raw] else [])
    ensures ts.Some? ==> forall t :: t in ts.value ==> Js.Truthy(t)
    ensures ts.None? <==> raw.Arr? && |raw.elems| > 0 && Js.TypeofObject(raw.elems[0]) && Null in raw.elems
  {
    match raw
    case Arr(es) =>
      if |es| == 0 then Some([])
      else if Js.TypeofObject(es[0]) then KeysOrSelves(es)
      else Some(TruthyOnly(es))
    case Obj(_) =>
      var k := KeyIdOrValue(raw);
      Some(if Js.Truthy(k) then [k] else [])
    case _ =>
      Some(if Js.Truthy(raw) then [raw] else [])
  }

  /** The tags a card shows: its non-empty `current_tags` as they are, else
      what its raw stored value yields. None: the extraction raised. */
  function ClientTags(item: Item): (ts: Option<seq<Value>>)
    ensures |item.currentTags| > 0 ==> ts == Some(item.currentTags)
    ensures |item.currentTags| == 0 && !Js.Truthy(item.rawTagValue) ==> ts == Some([])
    ensures |item.currentTags| == 0 && Js.Truthy(item.rawTagValue) ==> ts == FromRaw(item.rawTagValue)
    ensures |item.currentTags| == 0 && ts.Some? ==> forall t :: t in ts.value ==> Js.Truthy(t)
    ensures ts.None? ==> item.rawTagValue.Arr? && Null in item.rawTagValue.elems
  {
    if |item.currentTags| > 0 then Some(item.currentTags)
    else if Js.Truthy(item.rawTagValue) then FromRaw(item.rawTagValue)
    else Some([])
  }

  // ---------------------------------------------------------------------------
  // The chip row

  /** A tag chip: the option key it stands for and the label it shows. */
  datatype Chip = Chip(key: string, text: string)

  /** A card's tag row: its chips, and whether the "タグなし" (no tags) note
      shows. The edit button is always there and is not modelled. */
  datatype TagRow = TagRow(chips: seq<Chip>, noTagsMessage: bool)

  /** `tagOptions[key]` is truthy: the key has a non-empty label, or names a
      property every object inherits. */
  predicate Shows(options: seq<SelectOption>, key: string) {
    OptionText(options, key).Some? && OptionText(options, key).value != ""
  }

  /** The chips for a list of tag keys: those `tagOptions` gives a truthy
      text for, in order; the others are skipped. */
  function ChipsFor(tags: seq<Value>, options: seq<SelectOption>): (chips: seq<Chip>)
    ensures |chips| <= |tags|
    ensures forall c :: c in chips ==> Shows(options, c.key) && OptionText(options, c.key) == Some(c.text)
    ensures forall t :: t in tags && Shows(options, Js.ToString(t)) ==>
      Chip(Js.ToString(t), OptionText(options, Js.ToString(t)).value) in chips
    ensures (forall t :: t in tags ==> Shows(options, Js.ToString(t))) ==> |chips| == |tags|
  {
    if |tags| == 0 then []
    else
      var rest := ChipsFor(tags[1..], options);
      assert tags == [tags[0]] + tags[1..];
      var key := Js.ToString(tags[0]);
      if Shows(options, key) then [Chip(key, OptionText(options, key).value)] + rest else rest
  }

  /** Chips come in tag order, one per shown tag: the row of a concatenation is
      the concatenation of the rows. */
  lemma {:induction false} ChipsForAppend(a: seq<Value>, b: seq<Value>, options: seq<SelectOption>)
    ensures ChipsFor(a + b, options) == ChipsFor(a, options) + ChipsFor(b, options)
    decreases |a|
  {
    if |a| > 0 {
      assert (a + b)[1..] == a[1..] + b;
      ChipsForAppend(a[1..], b, options);
    } else {
      assert a + b == b;
    }
  }

  /** A tag key no option has, but which names an inherited property such as
      "toString", still gets a chip, showing the inherited function's text. */
  lemma InheritedNameGetsChip()
    ensures ChipsFor([Str("toString")], [SelectOption("a", "A")])
         == [Chip("toString", "function toString() { [native code] }")]
  {
    var options := [SelectOption("a", "A")];
    assert LabelOf(options, "toString").None?;
    assert "toString" in Js.ObjectMethods;
    assert "function " + "toString" + "() { [native code] }" == "function toString() { [native code] }";
    assert OptionText(options, "toString") == Some("function toString() { [native code] }");
    assert ChipsFor([Str("toString")][1..], options) == [];
  }

  /** The row drawn for a list of tag keys (lines 381-398 and 519-532). */
  function RenderRow(tags: seq<Value>, options: seq<SelectOption>): (row: TagRow)
    ensures row.noTagsMessage <==> |tags| == 0
    ensures row.chips == ChipsFor(tags, options)
    ensures forall c :: c in row.chips ==> Shows(options, c.key)
  {
    TagRow(ChipsFor(tags, options), |tags| == 0)
  }

  function ChipKeys(row: TagRow): (ks: seq<string>)
    ensures |ks| == |row.chips| && forall i :: 0 <= i < |ks| ==> ks[i] == row.chips[i].key
  {
    seq(|row.chips|, i requires 0 <= i < |row.chips| => row.chips[i].key)
  }

  /** Option keys as the string values the popup hands on. */
  function AsValues(keys: seq<string>): (vs: seq<Value>)
    ensures |vs| == |keys| && forall i :: 0 <= i < |vs| ==> vs[i] == Str(keys[i])
  {
    seq(|keys|, i requires 0 <= i < |keys| => Str(keys[i]))
  }

  // ---------------------------------------------------------------------------
  // The selection popup

  /** The open popup: one chip per tag option, each selected or not. */
  datatype Popup = Popup(options: seq<SelectOption>, selected: seq<bool>)

  predicate ValidPopup(p: Popup) {
    |p.selected| == |p.options|
  }

  /** Opening the popup: an option chip starts selected iff its key is among
      the chips the card shows. */
  function OpenPopup(options: seq<SelectOption>, row: TagRow): (p: Popup)
    ensures ValidPopup(p) && p.options == options
    ensures forall i :: 0 <= i < |options| ==> (p.selected[i] <==> options[i].key in ChipKeys(row))
  {
    Popup(options, seq(|options|, i requires 0 <= i < |options| => options[i].key in ChipKeys(row)))
  }

  /** A click on option chip `i` flips it and nothing else. */
  function Toggle(p: Popup, i: nat): (q: Popup)
    requires ValidPopup(p) && i < |p.options|
    ensures ValidPopup(q) && q.options == p.options
    ensures q.selected[i] == !p.selected[i]
    ensures forall j :: 0 <= j < |p.options| && j != i ==> q.selected[j] == p.selected[j]
  {
    p.(selected := p.selected[i := !p.selected[i]])
  }

  /** The keys of the selected options, in option order. */
  function SelectedKeys(options: seq<SelectOption>, selected: seq<bool>): (keys: seq<string>)
    requires |selected| == |options|
    ensures |keys| <= |options|
    ensures forall k :: k in keys <==> exists i :: 0 <= i < |options| && selected[i] && options[i].key == k
    ensures (forall i :: 0 <= i < |options| ==> selected[i]) ==> keys == Keys(options)
    ensures (forall i :: 0 <= i < |options| ==> !selected[i]) ==> keys == []
  {
    if |options| == 0 then []
    else
      var rest := SelectedKeys(options[1..], selected[1..]);
      var head := if selected[0] then [options[0].key] else [];
      assert forall i :: 1 <= i < |options| ==> options[1..][i - 1] == options[i] && selected[1..][i - 1] == selected[i];
      assert (forall i :: 0 <= i < |options| ==> selected[i]) ==> head + rest == Keys(options) by {
        if forall i :: 0 <= i < |options| ==> selected[i] {
          assert Keys(options) == [options[0].key] + Keys(options[1..]);
        }
      }
      head + rest
  }

  /** The selected keys come in option order: the keys of two runs of options
      are those of the first run followed by those of the second. */
  lemma {:induction false} SelectedKeysAppend(o1: seq<SelectOption>, s1: seq<bool>, o2: seq<SelectOption>, s2: seq<bool>)
    requires |s1| == |o1| && |s2| == |o2|
    ensures SelectedKeys(o1 + o2, s1 + s2) == SelectedKeys(o1, s1) + SelectedKeys(o2, s2)
    decreases |o1|
  {
    if |o1| > 0 {
      assert (o1 + o2)[1..] == o1[1..] + o2;
      assert (s1 + s2)[1..] == s1[1..] + s2;
      SelectedKeysAppend(o1[1..], s1[1..], o2, s2);
    } else {
      assert o1 + o2 == o2 && s1 + s2 == s2;
    }
  }

  /** Clicking an option chip twice restores the selection. */
  lemma ToggleTwice(p: Popup, i: nat)
    requires ValidPopup(p) && i < |p.options|
    ensures Toggle(Toggle(p, i), i) == p
  {
  }

  /** With distinct option keys, a click moves exactly that option's key into
      or out of what Apply hands on. */
  lemma ToggleFlipsMembership(p: Popup, i: nat)
    requires ValidPopup(p) && i < |p.options| && UniqueKeys(p.options)
    ensures var k := p.options[i].key;
      k in SelectedKeys(p.options, Toggle(p, i).selected) <==> k !in SelectedKeys(p.options, p.selected)
    ensures forall j :: 0 <= j < |p.options| && j != i ==>
      (p.options[j].key in SelectedKeys(p.options, Toggle(p, i).selected) <==> p.options[j].key in SelectedKeys(p.options, p.selected))
  {
    var q := Toggle(p, i);
    forall j | 0 <= j < |p.options|
      ensures p.options[j].key in SelectedKeys(p.options, q.selected) <==> q.selected[j]
      ensures p.options[j].key in SelectedKeys(p.options, p.selected) <==> p.selected[j]
    {
    }
  }

  datatype Outcome = Apply | Cancel

  /** Closing the popup. Apply redraws the row from the selected keys and
      hands them on to be saved; Cancel or the close button discards the
      selection: the row stays and nothing is saved. */
  function ClosePopup(row: TagRow, p: Popup, outcome: Outcome): (r: (TagRow, Option<seq<string>>))
    requires ValidPopup(p)
    ensures outcome == Cancel ==> r == (row, None)
    ensures outcome == Apply ==> r.1 == Some(SelectedKeys(p.options, p.selected))
    ensures outcome == Apply ==> r.0 == UpdateTagSelectionUI(p.options, SelectedKeys(p.options, p.selected))
  {
    match outcome
    case Cancel => (row, None)
    case Apply =>
      var keys := SelectedKeys(p.options, p.selected);
      (UpdateTagSelectionUI(p.options, keys), Some(keys))
  }

  /** `updateTagSelectionUI`: the row redrawn for the applied keys. */
  function UpdateTagSelectionUI(options: seq<SelectOption>, keys: seq<string>): (row: TagRow)
    ensures row.noTagsMessage <==> |keys| == 0
    ensures row.chips == ChipsFor(AsValues(keys), options)
    ensures forall c :: c in row.chips ==> c.key in keys && Shows(options, c.key)
    ensures forall k :: k in keys && Shows(options, k) ==> k in ChipKeys(row)
  {
    var row := RenderRow(AsValues(keys), options);
    assert forall k :: k in keys ==> Str(k) in AsValues(keys);
    assert forall c :: c in row.chips ==> c.key in keys by {
      forall c | c in row.chips ensures c.key in keys {
        ChipKeyFromTag(AsValues(keys), options, c);
      }
    }
    forall k | k in keys && Shows(options, k) ensures k in ChipKeys(row) {
      assert Js.ToString(Str(k)) == k;
      var c := Chip(k, OptionText(options, k).value);
      assert c in row.chips;
      var i :| 0 <= i < |row.chips| && row.chips[i] == c;
      assert ChipKeys(row)[i] == k;
    }
    row
  }

  /** Every chip is drawn for one of the tags. */
  lemma {:induction false} ChipKeyFromTag(tags: seq<Value>, options: seq<SelectOption>, c: Chip)
    requires c in ChipsFor(tags, options)
    ensures exists t :: t in tags && Js.ToString(t) == c.key
  {
    assert tags == [tags[0]] + tags[1..];
    var key := Js.ToString(tags[0]);
    if Shows(options, key) && c == Chip(key, OptionText(options, key).value) {
    } else {
      ChipKeyFromTag(tags[1..], options, c);
    }
  }

  /** Applying a selection and reopening the popup pre-selects exactly the
      options that were selected, provided option keys are distinct and every
      label is non-empty (a chip with an empty label is never drawn). */
  lemma ReopenShowsApplied(p: Popup)
    requires ValidPopup(p) && UniqueKeys(p.options)
    requires forall i :: 0 <= i < |p.options| ==> p.options[i].text != ""
    ensures OpenPopup(p.options, ClosePopup(TagRow([], true), p, Apply).0).selected == p.selected
  {
    var keys := SelectedKeys(p.options, p.selected);
    var row := UpdateTagSelectionUI(p.options, keys);
    var q := OpenPopup(p.options, row);
    forall i | 0 <= i < |p.options|
      ensures q.selected[i] == p.selected[i]
    {
      var k := p.options[i].key;
      SelectedKeyIn(p.options, p.selected, i);
      assert LabelOf(p.options, k) == Some(p.options[i].text);
      ChipKeysOfUpdate(p.options, keys, k);
    }
  }

  /** With distinct keys, an option's key is selected exactly when its box is. */
  lemma SelectedKeyIn(options: seq<SelectOption>, selected: seq<bool>, i: nat)
    requires |selected| == |options| && UniqueKeys(options) && i < |options|
    ensures options[i].key in SelectedKeys(options, selected) <==> selected[i]
  {
  }

  /** A key that shows gets a chip in the redrawn row exactly when it was applied. */
  lemma ChipKeysOfUpdate(options: seq<SelectOption>, keys: seq<string>, k: string)
    requires Shows(options, k)
    ensures k in ChipKeys(UpdateTagSelectionUI(options, keys)) <==> k in keys
  {
    var row := UpdateTagSelectionUI(options, keys);
    if k in ChipKeys(row) {
      var j :| 0 <= j < |row.chips| && row.chips[j].key == k;
      assert row.chips[j] in row.chips;
    }
  }

  // ---------------------------------------------------------------------------
  // Saving a selection

  /** The update URL of the first card, in board order, whose `dataid`
      loosely equals `itemId`; the empty string when there is none. */
  function GetUpdateUrlFromItemId(boards: seq<Board>, itemId: Value): (url: string)
    ensures (forall b, it :: b in boards && it in b.items ==> !Js.LooseEquals(it.dataid, itemId)) ==> url == ""
    ensures url == "" || exists b, it :: b in boards && it in b.items && Js.LooseEquals(it.dataid, itemId) && it.updateUrl == url
    ensures ((exists b, it :: b in boards && it in b.items && Js.LooseEquals(it.dataid, itemId)) &&
             (forall b, it :: b in boards && it in b.items ==> it.updateUrl != "")) ==> url != ""
  {
    if |boards| == 0 then ""
    else
      assert boards == [boards[0]] + boards[1..];
      match UrlIn(boards[0].items, itemId)
      case Some(u) => u
      case None => GetUpdateUrlFromItemId(boards[1..], itemId)
  }

  /** The update URL of the first item of one board whose `dataid` loosely equals `itemId`. */
  function UrlIn(items: seq<Item>, itemId: Value): (u: Option<string>)
    ensures u.None? <==> forall it :: it in items ==> !Js.LooseEquals(it.dataid, itemId)
    ensures u.Some? ==> exists it :: it in items && Js.LooseEquals(it.dataid, itemId) && it.updateUrl == u.value
  {
    if |items| == 0 then None
    else
      assert items == [items[0]] + items[1..];
      if Js.LooseEquals(items[0].dataid, itemId) then Some(items[0].updateUrl) else UrlIn(items[1..], itemId)
  }

  /** The URL found on one board is that of its first loosely-equal item. */
  lemma {:induction false} UrlInIsFirst(items: seq<Item>, itemId: Value, j: nat)
    requires j < |items| && Js.LooseEquals(items[j].dataid, itemId)
    requires forall k :: 0 <= k < j ==> !Js.LooseEquals(items[k].dataid, itemId)
    ensures UrlIn(items, itemId) == Some(items[j].updateUrl)
  {
    if j > 0 {
      assert forall k :: 0 <= k < j - 1 ==> items[1..][k] == items[k + 1];
      UrlInIsFirst(items[1..], itemId, j - 1);
    }
  }

  /** The URL found across boards is that of the first loosely-equal item of
      the first board that holds one. */
  lemma {:induction false} UpdateUrlIsFirst(boards: seq<Board>, itemId: Value, i: nat, j: nat)
    requires i < |boards| && j < |boards[i].items| && Js.LooseEquals(boards[i].items[j].dataid, itemId)
    requires forall k :: 0 <= k < j ==> !Js.LooseEquals(boards[i].items[k].dataid, itemId)
    requires forall a, it :: 0 <= a < i && it in boards[a].items ==> !Js.LooseEquals(it.dataid, itemId)
    ensures GetUpdateUrlFromItemId(boards, itemId) == boards[i].items[j].updateUrl
  {
    if i == 0 {
      UrlInIsFirst(boards[0].items, itemId, j);
    } else {
      assert UrlIn(boards[0].items, itemId).None?;
      assert forall a :: 0 <= a < i - 1 ==> boards[1..][a] == boards[a + 1];
      UpdateUrlIsFirst(boards[1..], itemId, i - 1, j);
    }
  }

  /** The update call for a tag selection: `{[column]: keys}` for the card,
      sent to its update URL. */
  datatype TagUpdate = TagUpdate(url: string, columnName: string, keys: seq<string>, id: Value, tableName: Value)

  /** `saveTagSelection`: no call when the card's update URL is not found. */
  function SaveTagSelection(boards: seq<Board>, itemId: Value, tableName: Value, columnName: string, keys: seq<string>)
    : (call: Option<TagUpdate>)
    ensures call.None? <==> GetUpdateUrlFromItemId(boards, itemId) == ""
    ensures call.Some? ==> call.value == TagUpdate(GetUpdateUrlFromItemId(boards, itemId), columnName, keys, itemId, tableName)
  {
    var url := GetUpdateUrlFromItemId(boards, itemId);
    if url == "" then None else Some(TagUpdate(url, columnName, keys, itemId, tableName))
  }

  /** A card after a successful save of `tags`: both its tag lists now hold them. */
  function Retagged(it: Item, tags: seq<Value>): (r: Item)
    ensures r.currentTags == tags && r.rawTagValue == Arr(tags)
  {
    it.(currentTags := tags, rawTagValue := Arr(tags))
  }

  /** Retagging changes nothing about a card but its two tag lists. */
  lemma RetaggedKeepsTheRest(it: Item, tags: seq<Value>)
    ensures Retagged(it, tags).(currentTags := it.currentTags, rawTagValue := it.rawTagValue) == it
  {
  }

  /** `j` is the first position of a card whose `dataid` is identical to `itemId`. */
  predicate FirstMatch(items: seq<Item>, itemId: Value, j: int) {
    && 0 <= j < |items|
    && Js.StrictEquals(items[j].dataid, itemId)
    && forall k :: 0 <= k < j ==> !Js.StrictEquals(items[k].dataid, itemId)
  }

  /** The inner loop of the success handler: the first card of one board
      whose `dataid` is identical to `itemId` is retagged; the rest stay. */
  function PatchItems(items: seq<Item>, itemId: Value, tags: seq<Value>): (r: seq<Item>)
    ensures |r| == |items|
    ensures forall j :: 0 <= j < |items| ==>
      r[j] == if FirstMatch(items, itemId, j) then Retagged(items[j], tags) else items[j]
  {
    if |items| == 0 then []
    else if Js.StrictEquals(items[0].dataid, itemId) then
      assert forall j :: 1 <= j < |items| ==> !FirstMatch(items, itemId, j);
      [Retagged(items[0], tags)] + items[1..]
    else
      var rest := PatchItems(items[1..], itemId, tags);
      FirstMatchShift(items, itemId);
      [items[0]] + rest
  }

  /** Past a first card that does not match, first matches shift by one. */
  lemma FirstMatchShift(items: seq<Item>, itemId: Value)
    requires |items| > 0 && !Js.StrictEquals(items[0].dataid, itemId)
    ensures !FirstMatch(items, itemId, 0)
    ensures forall j :: 1 <= j < |items| ==> (FirstMatch(items, itemId, j) <==> FirstMatch(items[1..], itemId, j - 1))
  {
    forall j | 1 <= j < |items|
      ensures FirstMatch(items, itemId, j) <==> FirstMatch(items[1..], itemId, j - 1)
    {
      assert forall k :: 0 <= k < j - 1 ==> items[1..][k] == items[k + 1];
    }
  }

  /** The in-memory board data after a successful tag save. */
  function PatchTags(boards: seq<Board>, itemId: Value, keys: seq<string>): (r: seq<Board>)
    ensures |r| == |boards|
    ensures forall i :: 0 <= i < |boards| ==> r[i] == boards[i].(items := PatchItems(boards[i].items, itemId, AsValues(keys)))
  {
    seq(|boards|, i requires 0 <= i < |boards| => boards[i].(items := PatchItems(boards[i].items, itemId, AsValues(keys))))
  }

  /** Saving the same selection twice leaves the board data as saving it once. */
  lemma PatchTagsIdempotent(boards: seq<Board>, itemId: Value, keys: seq<string>)
    ensures PatchTags(PatchTags(boards, itemId, keys), itemId, keys) == PatchTags(boards, itemId, keys)
  {
    var once := PatchTags(boards, itemId, keys);
    var twice := PatchTags(once, itemId, keys);
    forall i | 0 <= i < |boards|
      ensures twice[i] == once[i]
    {
      PatchItemsIdempotent(boards[i].items, itemId, AsValues(keys));
    }
  }

  /** One board: patching twice equals patching once. */
  lemma PatchItemsIdempotent(items: seq<Item>, itemId: Value, tags: seq<Value>)
    ensures PatchItems(PatchItems(items, itemId, tags), itemId, tags) == PatchItems(items, itemId, tags)
  {
    var p1 := PatchItems(items, itemId, tags);
    var p2 := PatchItems(p1, itemId, tags);
    assert forall k :: 0 <= k < |items| ==> p1[k].dataid == items[k].dataid;
    forall j | 0 <= j < |items|
      ensures p2[j] == p1[j]
    {
      assert FirstMatch(p1, itemId, j) <==> FirstMatch(items, itemId, j);
    }
  }

  /** The retagged card reads back exactly the saved keys, so redrawing it
      from the board data shows the row the popup already drew. */
  lemma RetaggedReadsBack(it: Item, keys: seq<string>)
    ensures ClientTags(Retagged(it, AsValues(keys))) == Some(AsValues(keys))
    ensures RenderRow(ClientTags(Retagged(it, AsValues(keys))).value, it.tagOptions) == UpdateTagSelectionUI(it.tagOptions, keys)
  {
  }

  /** When every card shares one non-empty update URL, saving for a card
      that is on a board posts to that URL. */
  lemma SaveWithSharedUrl(boards: seq<Board>, itemId: Value, tableName: Value, columnName: string, keys: seq<string>,
                          u: string, b: Board, it: Item)
    requires forall b', it' :: b' in boards && it' in b'.items ==> it'.updateUrl == u
    requires u != "" && b in boards && it in b.items && Js.LooseEquals(it.dataid, itemId)
    ensures SaveTagSelection(boards, itemId, tableName, columnName, keys) == Some(TagUpdate(u, columnName, keys, itemId, tableName))
  {
    var url := GetUpdateUrlFromItemId(boards, itemId);
    assert url != "";
  }
}
