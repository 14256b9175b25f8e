/** The board builder (`Plugin::getBoardItems`): turns the view's records into
    one board per option of the category column, each holding the cards of the
    records whose category value matches the board's key. */
module Builder {
  import opened Wrappers
  import opened Values
  import opened Kanban
  import Php
  import Decimal

  /** A custom column as the host resolves it: its storage name and, for a
      select column, its options. */
  datatype Column = Column(name: string, options: seq<SelectOption>)

  /** A login user as the host finds it by id. */
  datatype User = User(userName: Value, email: Value, avatar: Value)

  /** A stored record: its id, its field values (an object keyed by column
      name), its default display label, its `created_user` attribute and its
      full serialisation. */
  datatype Record = Record(id: int, value: Value, displayLabel: string, createdUser: Value, data: Value)

  /** The view's stored column choices, as raw option values. */
  datatype Config = Config(
    category: Value,
    titleColumn: Value,
    detailColumn: Value,
    avatarColumn: Value,
    tagColumn: Value)

  /** What the builder asks of the host platform: column lookup by id, the
      category-key comparison `isMatchString`, user lookup by id, `url()`,
      the plugin's update endpoint and the record table's name. */
  datatype Host = Host(
    findColumn: Value -> Option<Column>,
    isMatchString: (Value, string) -> bool,
    findUser: int -> Option<User>,
    url: string -> string,
    updateUrl: string,
    tableName: string)

  /** The columns of the mapping that resolved. */
  datatype Context = Context(
    host: Host,
    category: Column,
    title: Option<Column>,
    detail: Option<Column>,
    avatar: Option<Column>,
    tag: Option<Column>)

  const DefaultAvatarPath := "vendor/exment/images/user.png"
  const FilesPath := "admin/files/"

  // ---------------------------------------------------------------------------
  // Configuration

  /** A mapped column: an unset option maps nothing; a set one is looked up. */
  function ResolveColumn(host: Host, id: Value): (c: Option<Column>)
    ensures !Php.Truthy(id) ==> c.None?
    ensures Php.Truthy(id) ==> c == host.findColumn(id)
  {
    if Php.Truthy(id) then host.findColumn(id) else None
  }

  /** The resolved mapping, or None when the category column is unset or
      does not resolve (the configuration error that empties the board). */
  function ContextOf(config: Config, host: Host): (ctx: Option<Context>)
    ensures ctx.None? <==> ResolveColumn(host, config.category).None?
    ensures ctx.Some? ==> ctx.value.host == host && Some(ctx.value.category) == ResolveColumn(host, config.category)
    ensures ctx.Some? ==>
      && ctx.value.title == ResolveColumn(host, config.titleColumn)
      && ctx.value.detail == ResolveColumn(host, config.detailColumn)
      && ctx.value.avatar == ResolveColumn(host, config.avatarColumn)
      && ctx.value.tag == ResolveColumn(host, config.tagColumn)
  {
    match ResolveColumn(host, config.category)
    case None => None
    case Some(category) =>
      Some(Context(
        host, category,
        ResolveColumn(host, config.titleColumn),
        ResolveColumn(host, config.detailColumn),
        ResolveColumn(host, config.avatarColumn),
        ResolveColumn(host, config.tagColumn)))
  }

  /** `$item->value[$column->column_name]` when the column is mapped, else Null. */
  function FieldOf(r: Record, col: Option<Column>): Value {
    if col.Some? then Php.Index(r.value, col.value.name) else Null
  }

  // ---------------------------------------------------------------------------
  // Title and detail

  /** The text a title or detail value contributes: the `label` of an array,
      or a scalar as text. Any other shape contributes nothing. */
  function LabelOrText(v: Value): (t: Option<Value>)
    ensures v.Str? ==> t == Some(v)
    ensures v.Num? ==> t == Some(Str(Decimal.IntToString(v.n)))
    ensures v.Bool? ==> t == Some(Str(if v.b then "1" else ""))
    ensures v.Null? || v.Arr? ==> t.None?
    ensures v.Obj? ==> t == (if Php.Index(v, "label") != Null then Some(Php.Index(v, "label")) else None)
    ensures t.Some? ==> t.value != Null
  {
    if Php.IsArray(v) && Php.Index(v, "label") != Null then Some(Php.Index(v, "label"))
    else if Php.IsScalar(v) then Some(Str(Php.ToString(v)))
    else None
  }

  /** A card's title: the record's default label unless the title column
      holds a non-empty value that has a label or is a scalar. */
  function ResolveTitle(r: Record, col: Option<Column>): (t: Value)
    ensures col.None? ==> t == Str(r.displayLabel)
    ensures Php.Empty(FieldOf(r, col)) ==> t == Str(r.displayLabel)
    ensures FieldOf(r, col).Arr? ==> t == Str(r.displayLabel)
    ensures FieldOf(r, col).Str? && !Php.Empty(FieldOf(r, col)) ==> t == FieldOf(r, col)
    ensures !Php.Empty(FieldOf(r, col)) && LabelOrText(FieldOf(r, col)).Some? ==> t == LabelOrText(FieldOf(r, col)).value
    ensures LabelOrText(FieldOf(r, col)).None? ==> t == Str(r.displayLabel)
    ensures t != Str(r.displayLabel) ==> LabelOrText(FieldOf(r, col)) == Some(t)
  {
    var v := FieldOf(r, col);
    if v != Null && !Php.Empty(v) then LabelOrText(v).GetOr(Str(r.displayLabel)) else Str(r.displayLabel)
  }

  /** A card's detail text: what the detail column's value contributes, else
      the empty string. Unlike the title it never falls back to the label. */
  function ResolveDetail(r: Record, col: Option<Column>): (d: Value)
    ensures LabelOrText(FieldOf(r, col)).Some? ==> d == LabelOrText(FieldOf(r, col)).value
    ensures LabelOrText(FieldOf(r, col)).None? ==> d == Str("")
  {
    var v := FieldOf(r, col);
    if v != Null then LabelOrText(v).GetOr(Str("")) else Str("")
  }

  // ---------------------------------------------------------------------------
  // Tags

  /** The option key a stored option value names: its `key`, else its `id`,
      else its `value`, the first that is set. */
  function KeyIdOrValue(e: Value): (k: Option<Value>)
    ensures k.Some? ==> k.value != Null
    ensures k.Some? ==> k.value in {Php.Index(e, "key"), Php.Index(e, "id"), Php.Index(e, "value")}
    ensures k.None? <==> Php.Index(e, "key") == Null && Php.Index(e, "id") == Null && Php.Index(e, "value") == Null
    ensures Php.Index(e, "key") != Null ==> k == Some(Php.Index(e, "key"))
    ensures Php.Index(e, "key") == Null && Php.Index(e, "id") != Null ==> k == Some(Php.Index(e, "id"))
    ensures Php.Index(e, "key") == Null && Php.Index(e, "id") == Null && Php.Index(e, "value") != Null ==> k == Some(Php.Index(e, "value"))
  {
    if Php.Index(e, "key") != Null then Some(Php.Index(e, "key"))
    else if Php.Index(e, "id") != Null then Some(Php.Index(e, "id"))
    else if Php.Index(e, "value") != Null then Some(Php.Index(e, "value"))
    else None
  }

  /** The keys a list of option values names, in order; elements naming none are skipped. */
  function KeysOfEach(es: seq<Value>): (ks: seq<Value>)
    ensures |ks| <= |es|
    ensures forall t :: t in ks ==> exists i :: 0 <= i < |es| && KeyIdOrValue(es[i]) == Some(t)
    ensures forall i :: 0 <= i < |es| && KeyIdOrValue(es[i]).Some? ==> KeyIdOrValue(es[i]).value in ks
    ensures (forall i :: 0 <= i < |es| ==> KeyIdOrValue(es[i]).Some?) ==>
      |ks| == |es| && forall i :: 0 <= i < |es| ==> ks[i] == KeyIdOrValue(es[i]).value
  {
    if |es| == 0 then []
    else
      var rest := KeysOfEach(es[1..]);
      assert forall i :: 1 <= i < |es| ==> es[1..][i - 1] == es[i];
      match KeyIdOrValue(es[0])
      case Some(k) => [k] + rest
      case None => rest
  }

  /** The keys keep the order and multiplicity of their elements: the keys of
      a concatenation are the concatenation of the keys. */
  lemma {:induction false} KeysOfEachAppend(a: seq<Value>, b: seq<Value>)
    ensures KeysOfEach(a + b) == KeysOfEach(a) + KeysOfEach(b)
    decreases |a|
  {
    if |a| > 0 {
      assert (a + b)[1..] == a[1..] + b;
      KeysOfEachAppend(a[1..], b);
    } else {
      assert a + b == b;
    }
  }

  /** The non-empty scalars of a list, in order. */
  function NonEmptyScalars(es: seq<Value>): (ks: seq<Value>)
    ensures |ks| <= |es|
    ensures forall t :: t in ks <==> t in es && Php.IsScalar(t) && !Php.Empty(t)
    ensures (forall i :: 0 <= i < |es| ==> Php.IsScalar(es[i]) && !Php.Empty(es[i])) ==> ks == es
  {
    if |es| == 0 then []
    else
      var rest := NonEmptyScalars(es[1..]);
      assert es == [es[0]] + es[1..];
      assert forall i :: 1 <= i < |es| ==> es[1..][i - 1] == es[i];
      if Php.IsScalar(es[0]) && !Php.Empty(es[0]) then [es[0]] + rest else rest
  }

  /** The filter keeps order and multiplicity: it distributes over concatenation. */
  lemma {:induction false} NonEmptyScalarsAppend(a: seq<Value>, b: seq<Value>)
    ensures NonEmptyScalars(a + b) == NonEmptyScalars(a) + NonEmptyScalars(b)
    decreases |a|
  {
    if |a| > 0 {
      assert (a + b)[1..] == a[1..] + b;
      NonEmptyScalarsAppend(a[1..], b);
    } else {
      assert a + b == b;
    }
  }

  /** `t` is the stored value itself, one of its elements, or the key an
      element or the value itself names. */
  ghost predicate TakenFrom(t: Value, v: Value) {
    || t == v
    || KeyIdOrValue(v) == Some(t)
    || exists i :: 0 <= i < |Php.Elements(v)| && (t == Php.Elements(v)[i] || KeyIdOrValue(Php.Elements(v)[i]) == Some(t))
  }

  /** The current tag keys of a stored tag value, whatever its shape: a list
      of option values, one option value, a list of plain keys, or one key. */
  function NormaliseTags(v: Value): (tags: seq<Value>)
    ensures forall t :: t in tags ==> t != Null && TakenFrom(t, v)
    ensures Php.IsScalar(v) ==> tags == (if Php.Empty(v) then [] else [v])
    ensures v.Null? ==> tags == []
    ensures |tags| <= if Php.IsArray(v) then |Php.Elements(v)| + 1 else 1
    ensures Php.IsArray(v) && Php.IsArray(Php.At0(v)) ==> tags == KeysOfEach(Php.Elements(v))
    ensures Php.IsArray(v) && !Php.IsArray(Php.At0(v)) && KeyIdOrValue(v).Some? ==> tags == [KeyIdOrValue(v).value]
    ensures Php.IsArray(v) && !Php.IsArray(Php.At0(v)) && KeyIdOrValue(v).None? ==> tags == NonEmptyScalars(Php.Elements(v))
  {
    if Php.IsArray(v) then
      if Php.At0(v) != Null && Php.IsArray(Php.At0(v)) then KeysOfEach(Php.Elements(v))
      else if KeyIdOrValue(v).Some? then [KeyIdOrValue(v).value]
      else NonEmptyScalars(Php.Elements(v))
    else if Php.IsScalar(v) && !Php.Empty(v) then [v]
    else []
  }

  /** The tag keys a record's card starts with. */
  function CurrentTags(r: Record, col: Option<Column>): (tags: seq<Value>)
    ensures FieldOf(r, col) == Null ==> tags == []
    ensures tags == NormaliseTags(FieldOf(r, col))
    ensures forall t :: t in tags ==> t != Null && TakenFrom(t, FieldOf(r, col))
  {
    var v := FieldOf(r, col);
    if v != Null then NormaliseTags(v) else []
  }

  // ---------------------------------------------------------------------------
  // Avatar

  function DefaultAvatar(host: Host): string {
    host.url(DefaultAvatarPath)
  }

  /** A site-relative URL ("/...") is made absolute with `url()`; one that
      starts with "http", or does not start with "/", passes through. */
  function Absolutise(u: string, host: Host): (a: string)
    ensures Php.StartsWith(u, "http") || !Php.StartsWith(u, "/") ==> a == u
    ensures Php.StartsWith(u, "/") ==> a == host.url(u)
  {
    assert Php.StartsWith(u, "/") ==> u[0] == '/' && u != "0" && !Php.StartsWith(u, "http");
    if Php.Truthy(Str(u)) && !Php.StartsWith(u, "http") && Php.StartsWith(u, "/") then host.url(u) else u
  }

  /** The image of a user-like value before it is made absolute: a stored
      `avatar_url` wins over an `avatar` file, which wins over the default. */
  function ChosenAvatar(u: Value, host: Host): (a: string)
    ensures !Php.Empty(Php.Index(u, "avatar_url")) ==> a == Php.ToString(Php.Index(u, "avatar_url"))
    ensures Php.Empty(Php.Index(u, "avatar_url")) && !Php.Empty(Php.Index(u, "avatar")) ==>
      a == host.url(FilesPath + Php.ToString(Php.Index(u, "avatar")))
    ensures Php.Empty(Php.Index(u, "avatar_url")) && Php.Empty(Php.Index(u, "avatar")) ==> a == DefaultAvatar(host)
  {
    var avatarUrl := Php.Index(u, "avatar_url");
    var avatar := Php.Index(u, "avatar");
    if avatarUrl != Null && !Php.Empty(avatarUrl) then Php.ToString(avatarUrl)
    else if avatar != Null && !Php.Empty(avatar) then host.url(FilesPath + Php.ToString(avatar))
    else DefaultAvatar(host)
  }

  /** The avatar of a user-like value (an embedded user, a `created_user`). */
  function FromUserLike(u: Value, host: Host): (a: AvatarInfo)
    ensures a.name == Php.Coalesce(Php.Index(u, "name"), Str(""))
    ensures a.email == Php.Coalesce(Php.Index(u, "email"), Str(""))
    ensures a.avatar == Absolutise(ChosenAvatar(u, host), host)
  {
    AvatarInfo(
      Php.Coalesce(Php.Index(u, "name"), Str("")),
      Php.Coalesce(Php.Index(u, "email"), Str("")),
      Absolutise(ChosenAvatar(u, host), host))
  }

  /** The avatar of a login user found by id: their avatar file, else the default. */
  function FromUser(user: User, host: Host): (a: AvatarInfo)
    ensures a.name == Php.Coalesce(user.userName, Str(""))
    ensures a.email == Php.Coalesce(user.email, Str(""))
    ensures !Php.Truthy(user.avatar) ==> a.avatar == DefaultAvatar(host)
    ensures Php.Truthy(user.avatar) ==> a.avatar == host.url(FilesPath + Php.ToString(user.avatar))
  {
    AvatarInfo(
      Php.Coalesce(user.userName, Str("")),
      Php.Coalesce(user.email, Str("")),
      if Php.Truthy(user.avatar) then host.url(FilesPath + Php.ToString(user.avatar)) else DefaultAvatar(host))
  }

  /** What the avatar column's value yields, trying in order: a user id, an
      embedded user (has `email`), a `created_user` wrapper, a bare name. */
  function FromAvatarField(v: Value, host: Host): (a: Option<AvatarInfo>)
    ensures Php.IsNumeric(v) ==>
      a == (match host.findUser(Php.ToInt(v)) case Some(user) => Some(FromUser(user, host)) case None => None)
    ensures !Php.IsNumeric(v) && Php.IsArray(v) && Php.Index(v, "email") != Null ==> a == Some(FromUserLike(v, host))
    ensures !Php.IsNumeric(v) && Php.IsArray(v) && Php.Index(v, "email") == Null && Php.Index(v, "created_user") != Null ==>
      a == Some(FromUserLike(Php.Index(v, "created_user"), host))
    ensures !Php.IsNumeric(v) && Php.IsScalar(v) && !Php.Empty(v) ==>
      a == Some(AvatarInfo(Str(Php.ToString(v)), Str(""), DefaultAvatar(host)))
    ensures v.Null? || (Php.IsScalar(v) && Php.Empty(v) && !Php.IsNumeric(v)) ==> a.None?
    ensures !Php.IsNumeric(v) && Php.IsArray(v) && Php.Index(v, "email") == Null && Php.Index(v, "created_user") == Null ==> a.None?
  {
    if Php.IsNumeric(v) then
      match host.findUser(Php.ToInt(v))
      case Some(user) => Some(FromUser(user, host))
      case None => None
    else if Php.IsArray(v) && Php.Index(v, "email") != Null then Some(FromUserLike(v, host))
    else if Php.IsArray(v) && Php.Index(v, "created_user") != Null then Some(FromUserLike(Php.Index(v, "created_user"), host))
    else if Php.IsScalar(v) && !Php.Empty(v) then Some(AvatarInfo(Str(Php.ToString(v)), Str(""), DefaultAvatar(host)))
    else None
  }

  /** The placeholder used when nothing else yields an avatar. */
  function GenericAvatar(host: Host): AvatarInfo {
    AvatarInfo(Str("User"), Str(""), DefaultAvatar(host))
  }

  /** A card's avatar: the avatar column's, else the record creator's, else
      the generic placeholder. */
  function ResolveAvatar(r: Record, col: Option<Column>, host: Host): (a: AvatarInfo)
    ensures FieldOf(r, col) != Null && FromAvatarField(FieldOf(r, col), host).Some? ==>
      a == FromAvatarField(FieldOf(r, col), host).value
    ensures (FieldOf(r, col) == Null || FromAvatarField(FieldOf(r, col), host).None?) && r.createdUser != Null ==>
      a == FromUserLike(r.createdUser, host)
    ensures (FieldOf(r, col) == Null || FromAvatarField(FieldOf(r, col), host).None?) && r.createdUser == Null ==>
      a == GenericAvatar(host)
  {
    var v := FieldOf(r, col);
    var fromField := if v != Null then FromAvatarField(v, host) else None;
    if fromField.Some? then fromField.value
    else if r.createdUser != Null then FromUserLike(r.createdUser, host)
    else GenericAvatar(host)
  }

  // ---------------------------------------------------------------------------
  // Items and boards

  /** The option list every card of the board offers for tagging. */
  function TagOptions(ctx: Context): seq<SelectOption> {
    if ctx.tag.Some? then ctx.tag.value.options else []
  }

  function TagColumnName(ctx: Context): Option<string> {
    if ctx.tag.Some? then Some(ctx.tag.value.name) else None
  }

  /** The fields every card of one board build shares. */
  predicate SharedFields(it: Item, ctx: Context) {
    && it.tableName == ctx.host.tableName
    && it.updateUrl == ctx.host.updateUrl
    && it.tagColumn == TagColumnName(ctx)
    && it.tagOptions == TagOptions(ctx)
    && it.allowMultipleTags
  }

  /** The card of one record. */
  function BuildItem(r: Record, ctx: Context): (it: Item)
    ensures it.id == ItemId(r.id) && it.dataid == Num(r.id)
    ensures SharedFields(it, ctx)
    ensures it.title == ResolveTitle(r, ctx.title) && it.detail == ResolveDetail(r, ctx.detail)
    ensures it.avatarInfo == ResolveAvatar(r, ctx.avatar, ctx.host)
    ensures it.currentTags == CurrentTags(r, ctx.tag) && it.rawTagValue == FieldOf(r, ctx.tag)
    ensures it.originalItemData == r.data
    ensures it.priority == Null
  {
    Item(
      ItemId(r.id),
      ResolveTitle(r, ctx.title),
      ResolveDetail(r, ctx.detail),
      Num(r.id),
      ctx.host.tableName,
      ctx.host.updateUrl,
      r.data,
      ResolveAvatar(r, ctx.avatar, ctx.host),
      TagColumnName(ctx),
      TagOptions(ctx),
      CurrentTags(r, ctx.tag),
      true,
      FieldOf(r, ctx.tag),
      Null)
  }

  /** `array_get($item, 'value.' . $category->column_name)`. */
  function CategoryValue(r: Record, ctx: Context): Value {
    Php.Index(r.value, ctx.category.name)
  }

  predicate Matches(ctx: Context, r: Record, key: string) {
    ctx.host.isMatchString(CategoryValue(r, ctx), key)
  }

  /** Reference definition of a board's contents: the cards of the records
      whose category value matches `key`, in record order. */
  function Cards(records: seq<Record>, key: string, ctx: Context): (cs: seq<Item>)
    ensures |cs| <= |records|
    ensures forall it :: it in cs ==>
      exists j :: 0 <= j < |records| && Matches(ctx, records[j], key) && it == BuildItem(records[j], ctx)
    ensures forall j :: 0 <= j < |records| && Matches(ctx, records[j], key) ==> BuildItem(records[j], ctx) in cs
  {
    if |records| == 0 then []
    else
      var rest := Cards(records[1..], key, ctx);
      assert forall j :: 1 <= j < |records| ==> records[1..][j - 1] == records[j];
      (if Matches(ctx, records[0], key) then [BuildItem(records[0], ctx)] else []) + rest
  }

  function BoardIds(options: seq<SelectOption>): (ids: seq<string>)
    ensures |ids| == |options| && forall i :: 0 <= i < |options| ==> ids[i] == BoardId(options[i].key)
  {
    seq(|options|, i requires 0 <= i < |options| => BoardId(options[i].key))
  }

  /** The boards before any record is placed (lines 129-141). */
  function EmptyBoards(ctx: Context): (bs: seq<Board>)
    ensures |bs| == |ctx.category.options|
    ensures forall i :: 0 <= i < |bs| ==> bs[i] == EmptyBoard(ctx, i)
  {
    seq(|ctx.category.options|, i requires 0 <= i < |ctx.category.options| => EmptyBoard(ctx, i))
  }

  function EmptyBoard(ctx: Context, i: nat): Board
    requires i < |ctx.category.options|
  {
    var o := ctx.category.options[i];
    Board(BoardId(o.key), ctx.category.name, o.key, o.text, BoardIds(ctx.category.options), [])
  }

  /** One pass of the outer loop: the record's card is appended to every
      board whose key its category value matches. */
  function Place(boards: seq<Board>, r: Record, ctx: Context): (bs: seq<Board>)
    ensures |bs| == |boards|
    ensures forall i :: 0 <= i < |boards| ==>
      bs[i] == if Matches(ctx, r, boards[i].key) then boards[i].(items := boards[i].items + [BuildItem(r, ctx)]) else boards[i]
  {
    seq(|boards|, i requires 0 <= i < |boards| =>
      if Matches(ctx, r, boards[i].key) then boards[i].(items := boards[i].items + [BuildItem(r, ctx)]) else boards[i])
  }

  /** The outer loop over the records, in order. */
  function PlaceAll(boards: seq<Board>, records: seq<Record>, ctx: Context): (bs: seq<Board>)
    ensures |bs| == |boards|
    ensures forall i :: 0 <= i < |boards| ==> bs[i].(items := boards[i].items) == boards[i]
    ensures forall i :: 0 <= i < |boards| ==> boards[i].items <= bs[i].items
    decreases |records|
  {
    if |records| == 0 then boards else PlaceAll(Place(boards, records[0], ctx), records[1..], ctx)
  }

  /** Placing the records one by one fills every board with exactly its
      reference contents, appended to what it held. */
  lemma {:induction false} PlaceAllIsFilter(boards: seq<Board>, records: seq<Record>, ctx: Context)
    ensures |PlaceAll(boards, records, ctx)| == |boards|
    ensures forall i :: 0 <= i < |boards| ==>
      PlaceAll(boards, records, ctx)[i] == boards[i].(items := boards[i].items + Cards(records, boards[i].key, ctx))
    decreases |records|
  {
    if |records| == 0 {
      forall i | 0 <= i < |boards|
        ensures PlaceAll(boards, records, ctx)[i] == boards[i].(items := boards[i].items + Cards(records, boards[i].key, ctx))
      {
        assert boards[i].items + [] == boards[i].items;
      }
    } else {
      var placed := Place(boards, records[0], ctx);
      PlaceAllIsFilter(placed, records[1..], ctx);
      forall i | 0 <= i < |boards|
        ensures PlaceAll(boards, records, ctx)[i] == boards[i].(items := boards[i].items + Cards(records, boards[i].key, ctx))
      {
        PlaceStep(boards[i], placed[i], records, ctx);
      }
    }
  }

  lemma CardsUnfold(records: seq<Record>, key: string, ctx: Context)
    requires |records| > 0
    ensures Cards(records, key, ctx)
         == (if Matches(ctx, records[0], key) then [BuildItem(records[0], ctx)] else []) + Cards(records[1..], key, ctx)
  {
  }

  /** One board across one pass: what the first record adds, followed by the
      rest's reference contents, is the whole reference contents. */
  lemma PlaceStep(b: Board, placed: Board, records: seq<Record>, ctx: Context)
    requires |records| > 0
    requires placed == if Matches(ctx, records[0], b.key) then b.(items := b.items + [BuildItem(records[0], ctx)]) else b
    ensures placed.(items := placed.items + Cards(records[1..], placed.key, ctx))
         == b.(items := b.items + Cards(records, b.key, ctx))
  {
    var head := if Matches(ctx, records[0], b.key) then [BuildItem(records[0], ctx)] else [];
    var rest := Cards(records[1..], b.key, ctx);
    assert placed.key == b.key && placed.items == b.items + head;
    CardsUnfold(records, b.key, ctx);
    AppendAssoc(b.items, head, rest);
  }

  lemma AppendAssoc<T>(a: seq<T>, b: seq<T>, c: seq<T>)
    ensures (a + b) + c == a + (b + c)
  {
  }

  /** The boards a well-configured view shows: one per category option, in
      option order, each with its id, key, title, column name, the list of
      all board ids, and the cards of the records matching its key. */
  ghost predicate WellBuilt(boards: seq<Board>, ctx: Context, records: seq<Record>) {
    && |boards| == |ctx.category.options|
    && forall i :: 0 <= i < |boards| ==>
      boards[i] == Board(
        BoardId(ctx.category.options[i].key),
        ctx.category.name,
        ctx.category.options[i].key,
        ctx.category.options[i].text,
        BoardIds(ctx.category.options),
        Cards(records, ctx.category.options[i].key, ctx))
  }

  /** `getBoardItems`: no boards when the category column is unset or does not
      resolve; otherwise the boards described by `WellBuilt`. */
  function GetBoardItems(config: Config, host: Host, records: seq<Record>): (boards: seq<Board>)
    ensures !Php.Truthy(config.category) ==> boards == []
    ensures host.findColumn(config.category).None? ==> boards == []
    ensures ContextOf(config, host).Some? ==> WellBuilt(boards, ContextOf(config, host).value, records)
  {
    match ContextOf(config, host)
    case None => []
    case Some(ctx) =>
      var boards := PlaceAll(EmptyBoards(ctx), records, ctx);
      PlaceAllIsFilter(EmptyBoards(ctx), records, ctx);
      boards
  }
}
