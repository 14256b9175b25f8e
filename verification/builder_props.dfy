/** Properties of the boards `getBoardItems` builds, over all inputs, and
    concrete situations that show its behaviour. */
module BuilderProps {
  import opened Wrappers
  import opened Values
  import opened Kanban
  import opened Builder
  import Php
  import Decimal

  /** Every card on board `i` is the card of a record whose category value
      matches the board's key, and every such record has its card there. */
  lemma BoardMembership(config: Config, host: Host, records: seq<Record>, i: nat, r: Record)
    requires ContextOf(config, host).Some?
    requires i < |GetBoardItems(config, host, records)|
    ensures var ctx := ContextOf(config, host).value;
      var b := GetBoardItems(config, host, records)[i];
      && b.key == ctx.category.options[i].key
      && (forall it :: it in b.items ==>
            exists j :: 0 <= j < |records| && Matches(ctx, records[j], b.key) && it == BuildItem(records[j], ctx))
      && (r in records && Matches(ctx, r, b.key) ==> BuildItem(r, ctx) in b.items)
  {
    var ctx := ContextOf(config, host).value;
    var b := GetBoardItems(config, host, records)[i];
    assert b.items == Cards(records, b.key, ctx);
    if r in records && Matches(ctx, r, b.key) {
      var j :| 0 <= j < |records| && records[j] == r;
    }
  }

  /** A record id that no record's category value matches to any board key
      appears on no card. */
  lemma UnmatchedRecordIsDropped(config: Config, host: Host, records: seq<Record>, x: int)
    requires ContextOf(config, host).Some?
    requires forall j, k :: 0 <= j < |records| && records[j].id == x && 0 <= k < |ContextOf(config, host).value.category.options| ==>
      !Matches(ContextOf(config, host).value, records[j], ContextOf(config, host).value.category.options[k].key)
    ensures forall b, it :: b in GetBoardItems(config, host, records) && it in b.items ==> it.dataid != Num(x)
  {
    var ctx := ContextOf(config, host).value;
    var boards := GetBoardItems(config, host, records);
    forall b, it | b in boards && it in b.items
      ensures it.dataid != Num(x)
    {
      var i :| 0 <= i < |boards| && boards[i] == b;
      assert b.items == Cards(records, ctx.category.options[i].key, ctx);
      var j :| 0 <= j < |records| && Matches(ctx, records[j], b.key) && it == BuildItem(records[j], ctx);
    }
  }

  /** Table name, update URL, tag column and tag options are the same on
      every card, and every card allows several tags. */
  lemma SharedItemFields(config: Config, host: Host, records: seq<Record>)
    ensures forall b, it :: b in GetBoardItems(config, host, records) && it in b.items ==>
      it.tableName == host.tableName && it.updateUrl == host.updateUrl && it.allowMultipleTags
    ensures forall b1, b2, p, q ::
      b1 in GetBoardItems(config, host, records) && b2 in GetBoardItems(config, host, records) && p in b1.items && q in b2.items ==>
      p.tagColumn == q.tagColumn && p.tagOptions == q.tagOptions
  {
    var boards := GetBoardItems(config, host, records);
    if ContextOf(config, host).Some? {
      var ctx := ContextOf(config, host).value;
      assert WellBuilt(boards, ctx, records);
      forall b, it | b in boards && it in b.items
        ensures SharedFields(it, ctx)
      {
        var i :| 0 <= i < |boards| && boards[i] == b;
        CardSharesFields(records, ctx.category.options[i].key, ctx, it);
      }
    }
  }

  lemma CardSharesFields(records: seq<Record>, key: string, ctx: Context, it: Item)
    requires it in Cards(records, key, ctx)
    ensures SharedFields(it, ctx)
  {
    var j :| 0 <= j < |records| && Matches(ctx, records[j], key) && it == BuildItem(records[j], ctx);
  }

  /** A card's `id` is derived injectively from its `dataid`: two cards with
      the same `id` stand for the same record. */
  lemma ItemIdDeterminesRecord(a: int, b: int)
    ensures ItemId(a) == ItemId(b) ==> a == b
  {
    if ItemId(a) == ItemId(b) {
      assert Decimal.IntToString(a) == ItemId(a)[8..];
      assert Decimal.IntToString(b) == ItemId(b)[8..];
      Decimal.IntToStringInjective(a, b);
    }
  }

  /** Every card's avatar has an image URL, provided `url()` never yields the
      empty string. */
  lemma AvatarAlwaysHasImage(r: Record, col: Option<Column>, host: Host)
    requires forall p :: host.url(p) != ""
    ensures ResolveAvatar(r, col, host).avatar != ""
  {
    var v := FieldOf(r, col);
    if v != Null && FromAvatarField(v, host).Some? {
      if !Php.IsNumeric(v) && Php.IsArray(v) && Php.Index(v, "email") != Null {
        ChosenAvatarNonEmpty(v, host);
      } else if !Php.IsNumeric(v) && Php.IsArray(v) && Php.Index(v, "created_user") != Null {
        ChosenAvatarNonEmpty(Php.Index(v, "created_user"), host);
      }
    } else if r.createdUser != Null {
      ChosenAvatarNonEmpty(r.createdUser, host);
    }
  }

  lemma ChosenAvatarNonEmpty(u: Value, host: Host)
    requires forall p :: host.url(p) != ""
    ensures Absolutise(ChosenAvatar(u, host), host) != ""
  {
    var avatarUrl := Php.Index(u, "avatar_url");
    if !Php.Empty(avatarUrl) {
      NonEmptyText(avatarUrl);
    }
  }

  /** A value PHP does not consider empty has non-empty text. */
  lemma NonEmptyText(v: Value)
    requires !Php.Empty(v)
    ensures Php.ToString(v) != ""
  {
    if v.Num? {
      assert Decimal.IsIntString(Php.ToString(v));
    }
  }

  /** The detail text never depends on the record's default label. */
  lemma DetailIgnoresLabel(r: Record, col: Option<Column>, other: string)
    ensures ResolveDetail(r.(displayLabel := other), col) == ResolveDetail(r, col)
  {
  }

  /** When one column serves as both title and detail, a non-empty value that
      contributes text gives the same title and detail; an empty one (such as
      "0") still gives its text as the detail, but the default label as the
      title. */
  lemma TitleAgreesWithDetail(r: Record, col: Option<Column>)
    ensures !Php.Empty(FieldOf(r, col)) && LabelOrText(FieldOf(r, col)).Some? ==> ResolveTitle(r, col) == ResolveDetail(r, col)
    ensures Php.Empty(FieldOf(r, col)) ==> ResolveTitle(r, col) == Str(r.displayLabel)
    ensures FieldOf(r, col) == Str("0") ==> ResolveDetail(r, col) == Str("0")
  {
  }

  /** A multi-select value (a list of option objects that each have a `key`)
      gives the keys in list order. */
  lemma MultiSelectKeys(es: seq<Value>)
    requires |es| > 0 && es[0].Obj?
    requires forall i :: 0 <= i < |es| ==> Php.Index(es[i], "key") != Null
    ensures |NormaliseTags(Arr(es))| == |es|
    ensures forall i :: 0 <= i < |es| ==> NormaliseTags(Arr(es))[i] == Php.Index(es[i], "key")
  {
    assert Php.At0(Arr(es)) == es[0];
    assert es[0] != Null;
  }

  /** A bare scalar tag value "urgent" is read as the one key "urgent". */
  lemma BareScalarTag()
    ensures NormaliseTags(Str("urgent")) == [Str("urgent")]
  {
  }

  /** An avatar column holding user id 42, whose user has no stored avatar,
      shows the default image under the user's name, whatever the record's creator. */
  lemma NumericUserWithoutAvatar(r: Record, col: Column, host: Host, name: string)
    requires Php.Index(r.value, col.name) == Num(42)
    requires host.findUser(42) == Some(User(Str(name), Str(""), Null))
    ensures ResolveAvatar(r, Some(col), host) == AvatarInfo(Str(name), Str(""), DefaultAvatar(host))
  {
  }

  /** `isMatchString` read as comparison of the values' text. */
  predicate TextMatch(c: Value, key: string) {
    Php.ToString(c) == key
  }

  /** Category options {1: "Todo", 2: "Done"} and one record whose category
      value is the number 1: under text comparison it lands on the "Todo"
      board only. */
  lemma TodoScenario(config: Config, host: Host, r: Record, catName: string)
    requires host.findColumn(config.category) == Some(Column(catName, [SelectOption("1", "Todo"), SelectOption("2", "Done")]))
    requires Php.Truthy(config.category)
    requires host.isMatchString == TextMatch
    requires Php.Index(r.value, catName) == Num(1)
    ensures |GetBoardItems(config, host, [r])| == 2
    ensures GetBoardItems(config, host, [r])[0].title == "Todo"
    ensures |GetBoardItems(config, host, [r])[0].items| == 1
    ensures GetBoardItems(config, host, [r])[0].items[0].dataid == Num(r.id)
    ensures GetBoardItems(config, host, [r])[1].items == []
  {
    var ctx := ContextOf(config, host).value;
    assert Decimal.IntToString(1) == "1";
    assert Matches(ctx, r, "1");
    assert !Matches(ctx, r, "2");
    assert Cards([r], "1", ctx) == [BuildItem(r, ctx)];
    assert Cards([r], "2", ctx) == [];
  }
}
