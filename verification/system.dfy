/** Properties of the page as a whole: the renderer's rules applied to the
    boards the builder hands it. */
module System {
  import opened Wrappers
  import opened Values
  import opened Kanban
  import opened Builder
  import Js
  import Decimal
  import Tags
  import Card
  import Drop
  import BuilderProps

  /** Record ids are distinct, as primary keys are. */
  predicate UniqueIds(records: seq<Record>) {
    forall j, k :: 0 <= j < |records| && 0 <= k < |records| && records[j].id == records[k].id ==> j == k
  }

  /** Boards whose cards all have a numeric `dataid` and the `id` derived
      from it, as every built card does. */
  predicate Shaped(boards: seq<Board>) {
    forall b, it :: b in boards && it in b.items ==> it.dataid.Num? && it.id == ItemId(it.dataid.n)
  }

  lemma BuiltBoardsAreShaped(config: Config, host: Host, records: seq<Record>)
    ensures Shaped(GetBoardItems(config, host, records))
  {
    var boards := GetBoardItems(config, host, records);
    if ContextOf(config, host).Some? {
      var ctx := ContextOf(config, host).value;
      forall b, it | b in boards && it in b.items
        ensures it.dataid.Num? && it.id == ItemId(it.dataid.n)
      {
        var i :| 0 <= i < |boards| && boards[i] == b;
        assert b.items == Cards(records, ctx.category.options[i].key, ctx);
        var j :| 0 <= j < |records| && Matches(ctx, records[j], b.key) && it == BuildItem(records[j], ctx);
      }
    }
  }

  /** On a shaped card, the element id of record `x` names the card exactly
      when the card's `dataid` is `x`. */
  lemma ShapedMatch(it: Item, x: int)
    requires it.dataid.Num? && it.id == ItemId(it.dataid.n)
    ensures Card.MatchesEid(it, Str(ItemId(x))) <==> it.dataid == Num(x)
  {
    assert Js.ToString(it.dataid) == Decimal.IntToString(it.dataid.n);
    assert "item-id-" + Js.ToString(it.dataid) == ItemId(it.dataid.n);
    BuilderProps.ItemIdDeterminesRecord(it.dataid.n, x);
  }

  // ---------------------------------------------------------------------------
  // Dropping a card

  /** Dropping a card on the board of option `i` sends the category column's
      name and that option's key, to the card's update URL, when option keys
      are distinct and the column has a name. */
  lemma DropOnBuiltBoard(config: Config, host: Host, records: seq<Record>, i: nat, card: Item)
    requires ContextOf(config, host).Some?
    requires UniqueKeys(ContextOf(config, host).value.category.options)
    requires ContextOf(config, host).value.category.name != ""
    requires i < |ContextOf(config, host).value.category.options|
    ensures var ctx := ContextOf(config, host).value;
      var key := ctx.category.options[i].key;
      Drop.DropPayload(GetBoardItems(config, host, records), Str(BoardId(key)), card)
        == Some(Drop.DropUpdate(card.updateUrl, ctx.category.name, key, card.dataid, card.tableName))
  {
    var ctx := ContextOf(config, host).value;
    var boards := GetBoardItems(config, host, records);
    var key := ctx.category.options[i].key;
    assert Js.StrictEquals(Str(boards[i].id), Str(BoardId(key)));
    var t := Drop.TargetBoard(boards, Str(BoardId(key)));
    var m :| 0 <= m < |boards| && boards[m] == t.value && Js.StrictEquals(Str(t.value.id), Str(BoardId(key)));
    BoardIdInjective(ctx.category.options[m].key, key);
    assert m == i;
  }

  /** A drop target that is not one of the boards sends nothing. */
  lemma DropOnUnknownBoard(config: Config, host: Host, records: seq<Record>, target: string, card: Item)
    requires forall k :: 0 <= k < |GetBoardItems(config, host, records)| ==> GetBoardItems(config, host, records)[k].id != target
    ensures Drop.DropPayload(GetBoardItems(config, host, records), Str(target), card).None?
  {
  }

  // ---------------------------------------------------------------------------
  // Finding and drawing built cards

  /** The card element of a record whose card is on a board finds exactly
      that record's card. */
  lemma FindBuiltCard(config: Config, host: Host, records: seq<Record>, r: Record, i: nat)
    requires ContextOf(config, host).Some? && UniqueIds(records) && r in records
    requires i < |ContextOf(config, host).value.category.options|
    requires Matches(ContextOf(config, host).value, r, ContextOf(config, host).value.category.options[i].key)
    ensures Card.FindItem(GetBoardItems(config, host, records), Str(ItemId(r.id)))
         == Some(BuildItem(r, ContextOf(config, host).value))
  {
    var ctx := ContextOf(config, host).value;
    var boards := GetBoardItems(config, host, records);
    var eid := Str(ItemId(r.id));
    BuiltBoardsAreShaped(config, host, records);
    BuilderProps.BoardMembership(config, host, records, i, r);
    var own := BuildItem(r, ctx);
    assert own in boards[i].items;
    ShapedMatch(own, r.id);
    var found := Card.FindItem(boards, eid);
    assert found.Some?;
    var b :| b in boards && found.value in b.items;
    var m :| 0 <= m < |boards| && boards[m] == b;
    BuilderProps.BoardMembership(config, host, records, m, r);
    var j :| 0 <= j < |records| && Matches(ctx, records[j], b.key) && found.value == BuildItem(records[j], ctx);
    ShapedMatch(found.value, r.id);
    var k :| 0 <= k < |records| && records[k] == r;
  }

  /** Built cards carry no priority. */
  lemma BuiltCardsHaveNoPriority(config: Config, host: Host, records: seq<Record>)
    ensures forall b, it :: b in GetBoardItems(config, host, records) && it in b.items ==> it.priority == Null
  {
    var boards := GetBoardItems(config, host, records);
    if ContextOf(config, host).Some? {
      var ctx := ContextOf(config, host).value;
      forall b, it | b in boards && it in b.items
        ensures it.priority == Null
      {
        var i :| 0 <= i < |boards| && boards[i] == b;
        assert b.items == Cards(records, ctx.category.options[i].key, ctx);
        var j :| 0 <= j < |records| && Matches(ctx, records[j], b.key) && it == BuildItem(records[j], ctx);
      }
    }
  }

  /** No built card gets a priority bar: the builder never sets a priority. */
  lemma NoPriorityBarOnBuiltCards(config: Config, host: Host, records: seq<Record>, opts: Value, eid: Value, dom: Card.CardDom)
    ensures Card.RenderCard(opts, GetBoardItems(config, host, records), eid, dom).dom.prependedBars == dom.prependedBars
  {
    BuiltCardsHaveNoPriority(config, host, records);
    Card.NoPriorityNoBar(opts, GetBoardItems(config, host, records), eid, dom);
  }

  // ---------------------------------------------------------------------------
  // Saving tags

  /** The URL lookup on built boards yields the host's update URL or nothing. */
  lemma BuiltUpdateUrl(config: Config, host: Host, records: seq<Record>, itemId: Value)
    ensures var url := Tags.GetUpdateUrlFromItemId(GetBoardItems(config, host, records), itemId);
      url == "" || url == host.updateUrl
  {
    BuilderProps.SharedItemFields(config, host, records);
  }

  /** Saving a selection for a record whose card is on a board posts the tag
      column's keys to the host's update URL, unless that URL is empty. */
  lemma SaveOnBuiltBoard(config: Config, host: Host, records: seq<Record>, r: Record, i: nat,
                         tableName: Value, column: string, keys: seq<string>)
    requires ContextOf(config, host).Some? && r in records && host.updateUrl != ""
    requires i < |ContextOf(config, host).value.category.options|
    requires Matches(ContextOf(config, host).value, r, ContextOf(config, host).value.category.options[i].key)
    ensures Tags.SaveTagSelection(GetBoardItems(config, host, records), Num(r.id), tableName, column, keys)
         == Some(Tags.TagUpdate(host.updateUrl, column, keys, Num(r.id), tableName))
  {
    var ctx := ContextOf(config, host).value;
    var boards := GetBoardItems(config, host, records);
    BuilderProps.BoardMembership(config, host, records, i, r);
    BuilderProps.SharedItemFields(config, host, records);
    var own := BuildItem(r, ctx);
    assert own in boards[i].items && boards[i] in boards;
    assert Js.LooseEquals(own.dataid, Num(r.id));
    Tags.SaveWithSharedUrl(boards, Num(r.id), tableName, column, keys, host.updateUrl, boards[i], own);
  }

  /** Patching keeps a shaped card's identity: the patched boards find the
      same card, retagged. */
  lemma {:induction false} FindInPatched(items: seq<Item>, x: int, tags: seq<Value>)
    requires forall it :: it in items ==> it.dataid.Num? && it.id == ItemId(it.dataid.n)
    ensures Card.FindIn(Tags.PatchItems(items, Num(x), tags), Str(ItemId(x)))
         == if Card.FindIn(items, Str(ItemId(x))).Some? then Some(Tags.Retagged(Card.FindIn(items, Str(ItemId(x))).value, tags)) else None
  {
    if |items| > 0 {
      var eid := Str(ItemId(x));
      var patched := Tags.PatchItems(items, Num(x), tags);
      ShapedMatch(items[0], x);
      ShapedMatch(Tags.Retagged(items[0], tags), x);
      if items[0].dataid == Num(x) {
        assert patched[0] == Tags.Retagged(items[0], tags);
      } else {
        assert !Js.StrictEquals(items[0].dataid, Num(x));
        assert patched == [items[0]] + Tags.PatchItems(items[1..], Num(x), tags);
        assert patched[1..] == Tags.PatchItems(items[1..], Num(x), tags);
        FindInPatched(items[1..], x, tags);
      }
    }
  }

  lemma {:induction false} FindItemPatched(boards: seq<Board>, x: int, keys: seq<string>)
    requires Shaped(boards)
    ensures Card.FindItem(Tags.PatchTags(boards, Num(x), keys), Str(ItemId(x)))
         == if Card.FindItem(boards, Str(ItemId(x))).Some?
            then Some(Tags.Retagged(Card.FindItem(boards, Str(ItemId(x))).value, Tags.AsValues(keys))) else None
  {
    if |boards| > 0 {
      var patched := Tags.PatchTags(boards, Num(x), keys);
      assert boards[0] in boards;
      FindInPatched(boards[0].items, x, Tags.AsValues(keys));
      assert patched[1..] == Tags.PatchTags(boards[1..], Num(x), keys);
      assert Shaped(boards[1..]) by {
        forall b | b in boards[1..] ensures b in boards { }
      }
      FindItemPatched(boards[1..], x, keys);
    }
  }

  /** After a successful save, redrawing the record's card from the patched
      board data shows the row the popup drew when the selection was applied
      (unless the avatar step raises first). */
  lemma SavedTagsSurviveRedraw(config: Config, host: Host, records: seq<Record>, r: Record, i: nat,
                               keys: seq<string>, opts: Value, dom: Card.CardDom)
    requires ContextOf(config, host).Some? && UniqueIds(records) && r in records
    requires i < |ContextOf(config, host).value.category.options|
    requires Matches(ContextOf(config, host).value, r, ContextOf(config, host).value.category.options[i].key)
    requires Card.HasTagRow(BuildItem(r, ContextOf(config, host).value))
    requires !Card.Avatar(BuildItem(r, ContextOf(config, host).value).avatarInfo).AvatarThrows?
    ensures var boards := Tags.PatchTags(GetBoardItems(config, host, records), Num(r.id), keys);
      var after := Card.RenderCard(opts, boards, Str(ItemId(r.id)), dom);
      && !after.threw
      && after.dom.tags == Some(Tags.UpdateTagSelectionUI(TagOptions(ContextOf(config, host).value), keys))
  {
    var ctx := ContextOf(config, host).value;
    var boards := GetBoardItems(config, host, records);
    FindBuiltCard(config, host, records, r, i);
    BuiltBoardsAreShaped(config, host, records);
    FindItemPatched(boards, r.id, keys);
    var retagged := Tags.Retagged(BuildItem(r, ctx), Tags.AsValues(keys));
    Tags.RetaggedReadsBack(BuildItem(r, ctx), keys);
    assert "item-id-" + Decimal.IntToString(r.id) != "";
    assert Js.Truthy(Str(ItemId(r.id)));
    assert Card.Avatar(retagged.avatarInfo) == Card.Avatar(BuildItem(r, ctx).avatarInfo);
  }

  // ---------------------------------------------------------------------------
  // The builder's tag normalisation and the renderer's fallback extraction

  /** For a stored list of option objects with non-empty text keys, the
      renderer's reading of the raw value gives exactly the builder's tags. */
  lemma ClientReadsOptionLists(es: seq<Value>)
    requires |es| > 0
    requires forall i :: 0 <= i < |es| ==> es[i].Obj? && Php.Index(es[i], "key").Str? && Php.Index(es[i], "key").s != ""
    ensures Tags.FromRaw(Arr(es)) == Some(NormaliseTags(Arr(es)))
  {
    var server := NormaliseTags(Arr(es));
    var tags := Tags.TagsOf(es);
    forall i | 0 <= i < |es|
      ensures KeyIdOrValue(es[i]) == Some(Php.Index(es[i], "key"))
      ensures tags[i] == Php.Index(es[i], "key") && Js.Truthy(tags[i])
    {
      OptionKey(es[i]);
    }
    assert Php.IsArray(Php.At0(Arr(es)));
    assert server == KeysOfEach(es);
    assert Null !in es;
    assert Tags.FromRaw(Arr(es)) == Some(tags);
    assert |server| == |es| && forall i :: 0 <= i < |es| ==> server[i] == tags[i];
    assert tags == server;
  }

  /** An option object with a non-empty text key is read as that key on both sides. */
  lemma OptionKey(e: Value)
    requires e.Obj? && Php.Index(e, "key").Str? && Php.Index(e, "key").s != ""
    ensures KeyIdOrValue(e) == Some(Php.Index(e, "key"))
    ensures Tags.TagOf(e) == Php.Index(e, "key") && Js.Truthy(Php.Index(e, "key"))
  {
    assert Js.Get(e, "key") == Php.Index(e, "key");
  }

  /** For a stored list of plain text keys, none empty or "0", the renderer's
      reading of the raw value gives exactly the builder's tags. */
  lemma ClientReadsKeyLists(es: seq<Value>)
    requires |es| > 0
    requires forall i :: 0 <= i < |es| ==> es[i].Str? && es[i].s != "" && es[i].s != "0"
    ensures Tags.FromRaw(Arr(es)) == Some(NormaliseTags(Arr(es)))
  {
    assert !Php.IsArray(Php.At0(Arr(es)));
    assert KeyIdOrValue(Arr(es)).None?;
    assert forall i :: 0 <= i < |es| ==> Php.IsScalar(es[i]) && !Php.Empty(es[i]) && Js.Truthy(es[i]);
  }

  /** The key "0" is where the two readings part: the builder drops it as
      empty, so the card reaches the page with no current tags, and the
      renderer, falling back on the raw value, keeps it. */
  lemma ZeroKeyOnlyTheClientKeeps()
    ensures NormaliseTags(Arr([Str("0")])) == []
    ensures Tags.FromRaw(Arr([Str("0")])) == Some([Str("0")])
  {
    assert !Php.IsArray(Php.At0(Arr([Str("0")])));
    assert NonEmptyScalars([Str("0")][1..]) == [];
    assert Tags.TruthyOnly([Str("0")][1..]) == [];
  }
}
