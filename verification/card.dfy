/** Drawing one card: finding its data in the in-memory boards, the avatar
    (image, or coloured initial), the priority bar and the tag row. */
module Card {
  import opened Wrappers
  import opened Values
  import opened Kanban
  import Js
  import Tags

  // ---------------------------------------------------------------------------
  // Avatar colour and initial

  /** The 18 background colours an initial may get. */
  const Palette: seq<string> := [
    "#1abc9c", "#2ecc71", "#3498db", "#9b59b6", "#34495e", "#16a085",
    "#27ae60", "#2980b9", "#8e44ad", "#2c3e50", "#f1c40f", "#e67e22",
    "#e74c3c", "#95a5a6", "#f39c12", "#d35400", "#c0392b", "#bdc3c7"]

  /** The colour of a missing name. */
  const NoNameColour: string := "#bdc3c7"

  /** A character as JavaScript strings hold it: one UTF-16 code unit, or a
      surrogate pair beyond the Basic Multilingual Plane. */
  function CodeUnits(c: char): (us: seq<int>)
    ensures |us| == 1 <==> (c as int) < 0x1_0000
    ensures 1 <= |us| <= 2 && forall i :: 0 <= i < |us| ==> 0 <= us[i] < 0x1_0000
    ensures |us| == 2 ==> 0xD800 <= us[0] < 0xDC00 <= us[1] < 0xE000
  {
    var n := c as int;
    if n < 0x1_0000 then [n]
    else [0xD800 + (n - 0x1_0000) / 0x400, 0xDC00 + (n - 0x1_0000) % 0x400]
  }

  /** The code point a unit sequence of `CodeUnits` stands for. */
  function CodePoint(us: seq<int>): int {
    if |us| == 2 then 0x1_0000 + (us[0] - 0xD800) * 0x400 + (us[1] - 0xDC00)
    else if |us| == 1 then us[0]
    else 0
  }

  /** Decoding the code units gives the character back. */
  lemma CodeUnitsRoundTrip(c: char)
    ensures CodePoint(CodeUnits(c)) == c as int
  {
  }

  /** `name.split('').reduce((acc, ch) => acc + ch.charCodeAt(0), 0)`: the sum
      of the name's UTF-16 code units, folded from the left. */
  function CodeSum(name: string): (n: nat)
    ensures n <= 0x2_0000 * |name|
    ensures |name| == 1 && (name[0] as int) < 0x1_0000 ==> n == name[0] as int
    ensures |name| == 1 && (name[0] as int) >= 0x1_0000 ==> n == CodeUnits(name[0])[0] + CodeUnits(name[0])[1]
  {
    if |name| == 0 then 0
    else
      var units := CodeUnits(name[|name| - 1]);
      var last := if |units| == 1 then units[0] else units[0] + units[1];
      assert last >= 0;
      assert name[..|name| - 1] + [name[|name| - 1]] == name;
      var prefix := CodeSum(name[..|name| - 1]);
      assert forall i :: 0 <= i < |name| - 1 ==> name[..|name| - 1][i] == name[i];
      prefix + last
  }

  /** The sum is additive over concatenation. */
  lemma {:induction false} CodeSumAppend(a: string, b: string)
    ensures CodeSum(a + b) == CodeSum(a) + CodeSum(b)
    decreases |b|
  {
    if |b| == 0 {
      assert a + b == a;
    } else {
      var b' := b[..|b| - 1];
      assert (a + b)[..|a + b| - 1] == a + b';
      assert (a + b)[|a + b| - 1] == b[|b| - 1];
      CodeSumAppend(a, b');
    }
  }

  /** `getColorFromName`: the palette entry the code-unit sum selects, and the
      grey of a missing name. */
  function ColourOf(name: string): (c: string)
    ensures c in Palette
    ensures name == "" ==> c == NoNameColour
    ensures name != "" ==> c == Palette[CodeSum(name) % |Palette|]
  {
    if name == "" then NoNameColour else Palette[CodeSum(name) % |Palette|]
  }

  /** The colour does not depend on the order of the name's parts. */
  lemma ColourIgnoresOrder(a: string, b: string)
    ensures ColourOf(a + b) == ColourOf(b + a)
  {
    CodeSumAppend(a, b);
    CodeSumAppend(b, a);
    assert |a + b| == |b + a|;
    SameSumSameColour(a + b, b + a);
  }

  lemma SameSumSameColour(x: string, y: string)
    requires |x| == |y| && CodeSum(x) == CodeSum(y)
    ensures ColourOf(x) == ColourOf(y)
  {
  }

  /** `toUpperCase` on one code unit, for the ASCII letters. */
  function UpperUnit(u: int): (v: int)
    ensures 97 <= u <= 122 ==> v == u - 32
    ensures !(97 <= u <= 122) ==> v == u
  {
    if 97 <= u <= 122 then u - 32 else u
  }

  /** `name.charAt(0).toUpperCase()`: the first UTF-16 code unit, upper-cased;
      no unit for the empty name. Beyond the BMP it is a lone surrogate. */
  function Initial(name: string): (us: seq<int>)
    ensures |us| == (if name == "" then 0 else 1)
    ensures name != "" && name[0] as int < 0x1_0000 ==> us[0] == UpperUnit(name[0] as int)
    ensures name != "" && name[0] as int >= 0x1_0000 ==> 0xD800 <= us[0] < 0xDC00
    ensures name != "" && name[0] as int >= 0x1_0000 ==> us == [0xD800 + (name[0] as int - 0x1_0000) / 0x400]
  {
    if name == "" then [] else [UpperUnit(CodeUnits(name[0])[0])]
  }

  // ---------------------------------------------------------------------------
  // The avatar

  /** What the avatar container shows: the image (whose load-error handler
      swaps in the initial on the given colour), or the initial alone. */
  datatype AvatarView =
    | Image(src: string, title: string, fallbackColour: string, fallbackInitial: seq<int>)
    | Initials(colour: string, initial: seq<int>, title: string)

  /** The avatar step of a render: leave the container as it is, show a view,
      or raise a TypeError (`charAt` of a name that is not a string). */
  datatype AvatarStep = KeepAvatar | ShowAvatar(view: AvatarView) | AvatarThrows

  function Avatar(info: AvatarInfo): (step: AvatarStep)
    ensures step.AvatarThrows? <==> (info.avatar != "" || Js.Truthy(info.name)) && !info.name.Str?
    ensures step.KeepAvatar? <==> info.avatar == "" && !Js.Truthy(info.name)
    ensures step.ShowAvatar? && info.avatar != "" ==> step.view == Image(info.avatar, info.name.s, ColourOf(info.name.s), Initial(info.name.s))
    ensures step.ShowAvatar? && info.avatar == "" ==> step.view == Initials(ColourOf(info.name.s), Initial(info.name.s), info.name.s)
  {
    if info.avatar != "" then
      match info.name
      case Str(n) => ShowAvatar(Image(info.avatar, n, ColourOf(n), Initial(n)))
      case _ => AvatarThrows
    else if Js.Truthy(info.name) then
      match info.name
      case Str(n) => ShowAvatar(Initials(ColourOf(n), Initial(n), n))
      case _ => AvatarThrows
    else KeepAvatar
  }

  // ---------------------------------------------------------------------------
  // The priority bar

  const HighColour: string := "#ff4d4f"
  const MediumColour: string := "#ffa940"
  const LowColour: string := "#52c41a"
  const DefaultPriorityColour: string := "#bfbfbf"

  /** `String.prototype.toLowerCase` for the ASCII letters. */
  function LowerAscii(s: string): (t: string)
    ensures |t| == |s|
    ensures forall i :: 0 <= i < |s| ==> t[i] == if 'A' <= s[i] <= 'Z' then (s[i] as int + 32) as char else s[i]
  {
    if s == "" then "" else
      [if 'A' <= s[0] <= 'Z' then (s[0] as int + 32) as char else s[0]] + LowerAscii(s[1..])
  }

  lemma LowerAsciiIdempotent(s: string)
    ensures LowerAscii(LowerAscii(s)) == LowerAscii(s)
  {
  }

  /** `opts[name] || fallback`, as the text a style attribute gets. */
  function Override(opts: Value, name: string, fallback: string): (c: string)
    ensures Js.Truthy(Js.Get(opts, name)) ==> c == Js.ToString(Js.Get(opts, name))
    ensures !Js.Truthy(Js.Get(opts, name)) ==> c == fallback
  {
    if Js.Truthy(Js.Get(opts, name)) then Js.ToString(Js.Get(opts, name)) else fallback
  }

  /** The bar colour for a priority: its text, lower-cased, is looked up in
      the colour table, where "high", "medium" and "low" give their colours
      (each overridable by a plugin option); anything the table lacks is grey.
      The table is a plain object, so "constructor" and "__proto__" find the
      inherited values; the other inherited names are not all lower-case. */
  function PriorityColour(opts: Value, priority: Value): (c: string)
    ensures LowerAscii(Js.ToString(priority)) == "high" ==> c == Override(opts, "priority_color_high", HighColour)
    ensures LowerAscii(Js.ToString(priority)) == "medium" ==> c == Override(opts, "priority_color_medium", MediumColour)
    ensures LowerAscii(Js.ToString(priority)) == "low" ==> c == Override(opts, "priority_color_low", LowColour)
    ensures LowerAscii(Js.ToString(priority)) == "constructor" ==> c == Js.ConstructorText
    ensures LowerAscii(Js.ToString(priority)) == "__proto__" ==> c == Js.ProtoText
    ensures LowerAscii(Js.ToString(priority)) !in {"high", "medium", "low", "constructor", "__proto__"} ==> c == DefaultPriorityColour
  {
    var level := LowerAscii(Js.ToString(priority));
    if level == "high" then Override(opts, "priority_color_high", HighColour)
    else if level == "medium" then Override(opts, "priority_color_medium", MediumColour)
    else if level == "low" then Override(opts, "priority_color_low", LowColour)
    else if level == "constructor" then Js.ConstructorText
    else if level == "__proto__" then Js.ProtoText
    else DefaultPriorityColour
  }

  /** The colour ignores the case of the priority's text. */
  lemma PriorityIgnoresCase(opts: Value, s: string)
    ensures PriorityColour(opts, Str(s)) == PriorityColour(opts, Str(LowerAscii(s)))
  {
    LowerAsciiIdempotent(s);
  }

  /** Without plugin options, "High" gives the default high colour. */
  lemma HighPriorityDefault()
    ensures PriorityColour(Obj([]), Str("High")) == HighColour
  {
    assert LowerAscii("High") == "high";
  }

  // ---------------------------------------------------------------------------
  // Finding a card's data

  /** A card element's `data-eid` names this item: either the id built from
      its `dataid`, or its own `id`. */
  predicate MatchesEid(it: Item, eid: Value) {
    Js.StrictEquals(Str("item-id-" + Js.ToString(it.dataid)), eid) || Js.StrictEquals(Str(it.id), eid)
  }

  /** The first item of one board that `eid` names. */
  function FindIn(items: seq<Item>, eid: Value): (r: Option<Item>)
    ensures r.None? <==> forall it :: it in items ==> !MatchesEid(it, eid)
    ensures r.Some? ==> r.value in items && MatchesEid(r.value, eid)
  {
    if |items| == 0 then None
    else if MatchesEid(items[0], eid) then Some(items[0])
    else
      var r := FindIn(items[1..], eid);
      assert items == [items[0]] + items[1..];
      r
  }

  /** The card found is the first one the element id names. */
  lemma {:induction false} FindInIsFirst(items: seq<Item>, eid: Value, j: nat)
    requires j < |items| && MatchesEid(items[j], eid)
    requires forall k :: 0 <= k < j ==> !MatchesEid(items[k], eid)
    ensures FindIn(items, eid) == Some(items[j])
  {
    if j > 0 {
      assert forall k :: 0 <= k < j - 1 ==> items[1..][k] == items[k + 1];
      FindInIsFirst(items[1..], eid, j - 1);
    }
  }

  /** The item data a card element shows: the first board holding a match,
      the first match on it. */
  function FindItem(boards: seq<Board>, eid: Value): (r: Option<Item>)
    ensures r.None? <==> forall b, it :: b in boards && it in b.items ==> !MatchesEid(it, eid)
    ensures r.Some? ==> MatchesEid(r.value, eid) && exists b :: b in boards && r.value in b.items
  {
    if |boards| == 0 then None
    else
      assert boards == [boards[0]] + boards[1..];
      match FindIn(boards[0].items, eid)
      case Some(it) => Some(it)
      case None => FindItem(boards[1..], eid)
  }

  /** The card found across boards is the first match on the first board
      that holds one. */
  lemma {:induction false} FindItemIsFirst(boards: seq<Board>, eid: Value, i: nat, j: nat)
    requires i < |boards| && j < |boards[i].items| && MatchesEid(boards[i].items[j], eid)
    requires forall k :: 0 <= k < j ==> !MatchesEid(boards[i].items[k], eid)
    requires forall a, it :: 0 <= a < i && it in boards[a].items ==> !MatchesEid(it, eid)
    ensures FindItem(boards, eid) == Some(boards[i].items[j])
  {
    if i == 0 {
      FindInIsFirst(boards[0].items, eid, j);
    } else {
      assert FindIn(boards[0].items, eid).None?;
      assert forall a :: 0 <= a < i - 1 ==> boards[1..][a] == boards[a + 1];
      FindItemIsFirst(boards[1..], eid, i - 1, j);
    }
  }

  // ---------------------------------------------------------------------------
  // Rendering a card

  /** The parts of a card element the renderer writes. `None` is a part still
      as the item template left it. Priority bars are kept as their colours:
      the ones prepended to the card, and the one in the details placeholder. */
  datatype CardDom = CardDom(
    detailText: Option<string>,
    avatar: Option<AvatarView>,
    prependedBars: seq<string>,
    placeholderBars: seq<string>,
    tags: Option<Tags.TagRow>)

  /** A card element as the board library first draws it. */
  const Fresh: CardDom := CardDom(None, None, [], [], None)

  /** The outcome of a render: the element afterwards, and whether the render
      stopped on an exception (the parts written before it stay written). */
  datatype Render = Render(dom: CardDom, threw: bool)

  /** Whether an item gets a tag row: a non-empty tag column and at least one option. */
  predicate HasTagRow(it: Item) {
    it.tagColumn.Some? && it.tagColumn.value != "" && |it.tagOptions| > 0
  }

  function ShowsBar(opts: Value, it: Item): bool {
    Js.Truthy(Js.Get(opts, "show_priority_bar")) && Js.Truthy(it.priority)
  }

  /** The priority-bar step: the placeholder gets this render's bar, and a bar
      is prepended only when the card holds none yet. */
  function Bars(opts: Value, it: Item, dom: CardDom): (d: CardDom)
    ensures d.detailText == dom.detailText && d.avatar == dom.avatar && d.tags == dom.tags
    ensures ShowsBar(opts, it) ==> d.placeholderBars == [PriorityColour(opts, it.priority)]
    ensures !ShowsBar(opts, it) ==> d.placeholderBars == [] && d.prependedBars == dom.prependedBars
    ensures |d.prependedBars| <= |dom.prependedBars| + 1
    ensures |dom.prependedBars| + |dom.placeholderBars| > 0 ==> d.prependedBars == dom.prependedBars
  {
    if ShowsBar(opts, it) then
      var c := PriorityColour(opts, it.priority);
      var prepended := if |dom.prependedBars| + |dom.placeholderBars| == 0 then [c] + dom.prependedBars else dom.prependedBars;
      dom.(prependedBars := prepended, placeholderBars := [c])
    else dom.(placeholderBars := [])
  }

  /** `renderEnhancedCardContentForItem` on a card element with `data-eid`
      `eid`, given the plugin options and the in-memory boards. */
  function RenderCard(opts: Value, boards: seq<Board>, eid: Value, dom: CardDom): (r: Render)
    ensures !Js.Truthy(eid) || FindItem(boards, eid).None? ==> r == Render(dom, false)
    ensures r.threw ==> Js.Truthy(eid) && FindItem(boards, eid).Some?
    ensures FindItem(boards, eid).Some? && Js.Truthy(eid) ==>
      var it := FindItem(boards, eid).value;
      && (r.threw <==> Avatar(it.avatarInfo).AvatarThrows? || (HasTagRow(it) && Tags.ClientTags(it).None?))
      && (Js.Truthy(it.detail) ==> r.dom.detailText == Some(Js.ToString(it.detail)))
      && (!Js.Truthy(it.detail) ==> r.dom.detailText == dom.detailText)
      && (Avatar(it.avatarInfo).ShowAvatar? ==> r.dom.avatar == Some(Avatar(it.avatarInfo).view))
      && (!Avatar(it.avatarInfo).ShowAvatar? ==> r.dom.avatar == dom.avatar)
      && (!r.threw && HasTagRow(it) ==> r.dom.tags == Some(Tags.RenderRow(Tags.ClientTags(it).value, it.tagOptions)))
      && (!HasTagRow(it) ==> r.dom.tags == dom.tags)
      && (Avatar(it.avatarInfo).AvatarThrows? ==>
            r.dom.prependedBars == dom.prependedBars && r.dom.placeholderBars == dom.placeholderBars && r.dom.tags == dom.tags)
      && (!Avatar(it.avatarInfo).AvatarThrows? ==>
            r.dom.prependedBars == Bars(opts, it, dom).prependedBars && r.dom.placeholderBars == Bars(opts, it, dom).placeholderBars)
  {
    if !Js.Truthy(eid) then Render(dom, false)
    else
      match FindItem(boards, eid)
      case None => Render(dom, false)
      case Some(it) =>
        var d1 := if Js.Truthy(it.detail) then dom.(detailText := Some(Js.ToString(it.detail))) else dom;
        match Avatar(it.avatarInfo)
        case AvatarThrows => Render(d1, true)
        case KeepAvatar => RenderRest(opts, it, d1)
        case ShowAvatar(v) => RenderRest(opts, it, d1.(avatar := Some(v)))
  }

  /** The steps after the avatar: the priority bar, then the tag row. */
  function RenderRest(opts: Value, it: Item, dom: CardDom): (r: Render)
    ensures r.dom.detailText == dom.detailText && r.dom.avatar == dom.avatar
    ensures r.threw <==> HasTagRow(it) && Tags.ClientTags(it).None?
    ensures r.dom.prependedBars == Bars(opts, it, dom).prependedBars
    ensures r.dom.placeholderBars == Bars(opts, it, dom).placeholderBars
  {
    var d := Bars(opts, it, dom);
    if HasTagRow(it) then
      match Tags.ClientTags(it)
      case None => Render(d, true)
      case Some(ts) => Render(d.(tags := Some(Tags.RenderRow(ts, it.tagOptions))), false)
    else Render(d, false)
  }

  /** Rendering a card a second time changes nothing: not even a second
      prepended priority bar. */
  lemma RenderIdempotent(opts: Value, boards: seq<Board>, eid: Value, dom: CardDom)
    ensures RenderCard(opts, boards, eid, RenderCard(opts, boards, eid, dom).dom) == RenderCard(opts, boards, eid, dom)
  {
    if Js.Truthy(eid) && FindItem(boards, eid).Some? {
      var it := FindItem(boards, eid).value;
      var r := RenderCard(opts, boards, eid, dom);
      var d1 := if Js.Truthy(it.detail) then dom.(detailText := Some(Js.ToString(it.detail))) else dom;
      var d1' := if Js.Truthy(it.detail) then r.dom.(detailText := Some(Js.ToString(it.detail))) else r.dom;
      match Avatar(it.avatarInfo)
      case AvatarThrows =>
        assert r == Render(d1, true);
      case KeepAvatar =>
        assert r == RenderRest(opts, it, d1);
        assert d1' == r.dom;
        RenderRestIdempotent(opts, it, d1);
      case ShowAvatar(v) =>
        assert r == RenderRest(opts, it, d1.(avatar := Some(v)));
        assert d1'.(avatar := Some(v)) == r.dom;
        RenderRestIdempotent(opts, it, d1.(avatar := Some(v)));
    }
  }

  lemma RenderRestIdempotent(opts: Value, it: Item, dom: CardDom)
    ensures RenderRest(opts, it, RenderRest(opts, it, dom).dom) == RenderRest(opts, it, dom)
  {
    var d := Bars(opts, it, dom);
    assert Bars(opts, it, d) == d;
    if HasTagRow(it) && Tags.ClientTags(it).Some? {
      var row := Tags.RenderRow(Tags.ClientTags(it).value, it.tagOptions);
      assert Bars(opts, it, d.(tags := Some(row))) == d.(tags := Some(row));
    }
  }

  /** However often a card is drawn, it carries at most one prepended bar,
      so at most two bars in all. */
  lemma AtMostOneBar(opts: Value, boards: seq<Board>, eid: Value, dom: CardDom)
    requires |dom.prependedBars| <= 1 && |dom.placeholderBars| <= 1
    ensures |RenderCard(opts, boards, eid, dom).dom.prependedBars| <= 1
    ensures |RenderCard(opts, boards, eid, dom).dom.placeholderBars| <= 1
  {
    if Js.Truthy(eid) && FindItem(boards, eid).Some? {
      var it := FindItem(boards, eid).value;
      var d1 := if Js.Truthy(it.detail) then dom.(detailText := Some(Js.ToString(it.detail))) else dom;
      match Avatar(it.avatarInfo)
      case AvatarThrows =>
      case KeepAvatar =>
        assert |Bars(opts, it, d1).prependedBars| <= 1;
      case ShowAvatar(v) =>
        assert |Bars(opts, it, d1.(avatar := Some(v))).prependedBars| <= 1;
    }
  }

  /** Cards without a priority never get a bar, whatever the options say. */
  lemma NoPriorityNoBar(opts: Value, boards: seq<Board>, eid: Value, dom: CardDom)
    requires forall b, it :: b in boards && it in b.items ==> it.priority == Null
    ensures RenderCard(opts, boards, eid, dom).dom.prependedBars == dom.prependedBars
  {
    var found := FindItem(boards, eid);
    if Js.Truthy(eid) && found.Some? {
      var it := found.value;
      var b :| b in boards && it in b.items;
      assert it.priority == Null;
      var d1 := if Js.Truthy(it.detail) then dom.(detailText := Some(Js.ToString(it.detail))) else dom;
      match Avatar(it.avatarInfo)
      case AvatarThrows =>
      case KeepAvatar =>
        assert Bars(opts, it, d1).prependedBars == dom.prependedBars;
      case ShowAvatar(v) =>
        assert Bars(opts, it, d1.(avatar := Some(v))).prependedBars == dom.prependedBars;
    }
  }

  /** The bar check runs before the placeholder is refilled, so the first
      render of a card with a priority leaves two bars of the same colour:
      one prepended and one in the placeholder. */
  lemma FirstRenderDrawsTwoBars(opts: Value, boards: seq<Board>, eid: Value)
    requires Js.Truthy(eid) && FindItem(boards, eid).Some?
    requires ShowsBar(opts, FindItem(boards, eid).value)
    requires !Avatar(FindItem(boards, eid).value.avatarInfo).AvatarThrows?
    ensures var c := PriorityColour(opts, FindItem(boards, eid).value.priority);
      && RenderCard(opts, boards, eid, Fresh).dom.prependedBars == [c]
      && RenderCard(opts, boards, eid, Fresh).dom.placeholderBars == [c]
  {
  }
}
