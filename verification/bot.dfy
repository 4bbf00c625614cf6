/** The paginated select menus of the bot (bot.go) and the navigation state
    that swaps the active menu between the feed list and one feed's items.

    In the source a menu is a small struct holding a pointer to a shared page
    counter (`*SelectMenuBase`) and a slice; storing it in the `SelectMenu`
    interface copies the struct, so the pointer is shared but the slice is a
    snapshot. `SelectMenu` below is that copy: a class reference for the page
    counter and a sequence for the slice. */
module Bot {
  import opened Wrappers
  import opened GoLib
  import Rss

  const InitialPage: int := 0
  const EntriesPerPage: int := 3

  // ---------------------------------------------------------------------------
  // Pages

  /** The page counter shared by a menu and every copy of it. */
  class SelectMenuBase {
    var page: int

    constructor (page: int)
      ensures this.page == page
    {
      this.page := page;
    }

    function Page(): int
      reads this
    {
      page
    }

    /** Index of the first entry of the current page. */
    function Offset(): int
      reads this
    {
      page * EntriesPerPage
    }

    method PageInc()
      modifies this
      ensures page == old(page) + 1
    {
      page := page + 1;
    }

    method PageDec()
      modifies this
      ensures page == old(page) - 1
    {
      page := page - 1;
    }
  }

  /** `page` is a page of a collection of `len` entries: never negative, and
      either the first page or one that starts at an existing entry. */
  predicate WithinPages(page: int, len: int) {
    0 <= page && (page == 0 || page * EntriesPerPage < len)
  }

  /** The last page of `len` entries, ceil(len / EntriesPerPage) - 1, or 0. */
  function LastPage(len: nat): nat {
    if len == 0 then 0 else (len - 1) / EntriesPerPage
  }

  lemma WithinPagesIffAtMostLastPage(page: int, len: nat)
    ensures WithinPages(page, len) <==> 0 <= page <= LastPage(len)
  {
  }

  /** Every entry is shown on exactly one page, the page `i / EntriesPerPage`,
      and that page is within range. */
  lemma EntryOnOnePage(page: int, i: nat, len: nat)
    requires i < len
    ensures page * EntriesPerPage <= i < page * EntriesPerPage + EntriesPerPage <==> page == i / EntriesPerPage
    ensures WithinPages(i / EntriesPerPage, len)
  {
  }

  /** The page after `NextPage` on a menu of `len` entries. */
  function Advance(page: int, len: int): int {
    if page * EntriesPerPage + EntriesPerPage < len then page + 1 else page
  }

  /** The page after `PrevPage`. */
  function Retreat(page: int): int {
    if page > 0 then page - 1 else page
  }

  datatype Move = NextMove | PrevMove

  /** The page after applying `moves` in order. */
  function Run(page: int, len: int, moves: seq<Move>): int
    decreases moves
  {
    if moves == [] then page
    else
      var p := if moves[0] == NextMove then Advance(page, len) else Retreat(page);
      Run(p, len, moves[1..])
  }

  /** Starting within range, no sequence of NextPage / PrevPage leaves it. */
  lemma {:induction false} RunWithinPages(page: int, len: int, moves: seq<Move>)
    requires WithinPages(page, len)
    ensures WithinPages(Run(page, len, moves), len)
    decreases moves
  {
    if moves != [] {
      var p := if moves[0] == NextMove then Advance(page, len) else Retreat(page);
      assert WithinPages(p, len);
      RunWithinPages(p, len, moves[1..]);
    }
  }

  /** A NextPage that moved is undone by PrevPage, and within range a PrevPage
      that moved is undone by NextPage. */
  lemma AdvanceRetreatInverse(page: int, len: int)
    requires WithinPages(page, len)
    ensures Advance(page, len) != page ==> Retreat(Advance(page, len)) == page
    ensures Retreat(page) != page ==> Advance(Retreat(page), len) == page
  {
  }

  /** Having more entries never puts a page out of range. */
  lemma WithinPagesGrow(page: int, len: int, len': int)
    requires WithinPages(page, len) && len <= len'
    ensures WithinPages(page, len')
  {
  }

  // ---------------------------------------------------------------------------
  // Menus

  /** `ItemSelectMenu.TextOf` as written: an untitled item shows the first ten
      characters of its description and "..."; slicing a shorter description
      panics, which is None here. */
  function ItemTextAsWritten(item: Rss.Item): (r: Option<string>)
    ensures r.None? <==> item.title == "" && |item.description.value| < 10
    ensures r.Some? && item.title == "" ==>
      |r.value| == 13 && r.value[..10] == item.description.value[..10] && r.value[10..] == "..."
    ensures item.title != "" ==> r == Some(item.title)
  {
    if item.title == "" then
      if |item.description.value| < 10 then None
      else Some(item.description.value[..10] + "...")
    else Some(item.title)
  }

  /** An untitled item whose description is shorter than ten characters makes
      the as-written text panic. */
  lemma ShortDescriptionPanics()
    ensures ItemTextAsWritten(UntitledItem("Read more")) == None
  {
  }

  function UntitledItem(description: string): Rss.Item {
    Rss.Item("", [], Rss.Description(description), "", [], "", Rss.Enclosure("", 0, ""),
      Rss.Guid("true", ""), None, Rss.Source("", ""))
  }

  /** The item text with the description clamped to its length: the title
      when there is one, otherwise at most ten characters of the description
      and "...". It is never empty, and agrees with the as-written text
      wherever that does not panic. */
  function ItemText(item: Rss.Item): (r: string)
    ensures r != ""
    ensures item.title != "" ==> r == item.title
    ensures item.title == "" ==>
      var n := Min(10, |item.description.value|);
      |r| == n + 3 && r[..n] == item.description.value[..n] && r[n..] == "..."
    ensures ItemTextAsWritten(item).Some? ==> r == ItemTextAsWritten(item).value
  {
    if item.title == "" then
      item.description.value[..Min(10, |item.description.value|)] + "..."
    else
      item.title
  }

  /** One button: the text shown and the callback data sent back. */
  datatype Button = Button(text: string, data: string)

  type Row = seq<Button>

  /** A `SelectMenu` value: a shared page counter and a snapshot of the
      collection it pages through. */
  datatype SelectMenu =
    | FeedSelectMenu(base: SelectMenuBase, feeds: seq<Rss.Document>)
    | ItemSelectMenu(base: SelectMenuBase, items: seq<Rss.Item>)
  {
    function Len(): nat {
      if FeedSelectMenu? then |feeds| else |items|
    }

    function Page(): int
      reads base
    {
      base.Page()
    }

    function Offset(): int
      reads base
    {
      base.Offset()
    }

    /** A feed shows its channel title, an item its ItemText. */
    function TextOf(index: int): string
      requires 0 <= index < Len()
    {
      if FeedSelectMenu? then feeds[index].channel.title else ItemText(items[index])
    }

    /** "feed:<index>" or "item:<index>", the index in decimal. */
    function CallbackDataOf(index: int): (r: string)
      ensures |r| > 5 && r[..5] == (if FeedSelectMenu? then "feed:" else "item:")
      ensures r[5..] == DecimalString(index)
    {
      (if FeedSelectMenu? then "feed:" else "item:") + DecimalString(index)
    }
  }

  /** Every feed of a feed menu has a title, as validation guarantees. */
  predicate MenuReady(sm: SelectMenu) {
    sm.FeedSelectMenu? ==> forall i | 0 <= i < |sm.feeds| :: sm.feeds[i].channel.title != ""
  }

  lemma TextOfNonEmpty(sm: SelectMenu, index: int)
    requires MenuReady(sm) && 0 <= index < sm.Len()
    ensures sm.TextOf(index) != ""
  {
  }

  /** `NextPage`: advance only when the next page starts at an existing entry. */
  method NextPage(sm: SelectMenu)
    modifies sm.base
    ensures sm.Page() == Advance(old(sm.Page()), sm.Len())
  {
    if sm.Offset() + EntriesPerPage < sm.Len() {
      sm.base.PageInc();
    }
  }

  /** `PrevPage`: retreat only from a page after the first. */
  method PrevPage(sm: SelectMenu)
    modifies sm.base
    ensures sm.Page() == Retreat(old(sm.Page()))
  {
    if sm.Page() > 0 {
      sm.base.PageDec();
    }
  }

  // ---------------------------------------------------------------------------
  // Layout

  const BackText: string := "\U{FE0F}\U{2B06}\U{FE0F}"
  const PreviousText: string := "\U{2B05}\U{FE0F}"
  const NextText: string := "\U{FE0F}\U{27A1}\U{FE0F}"

  /** How many entries the current page shows. */
  function Shown(sm: SelectMenu): nat
    reads sm.base
  {
    if sm.Offset() < sm.Len() then Min(sm.Len() - sm.Offset(), EntriesPerPage) else 0
  }

  /** The keyboard of the current page: one row per shown entry, in index
      order from the page's offset, then the navigation row: back, previous,
      the page number counted from 1 (data "X"), and next only when a next
      page exists. */
  ghost predicate IsPageMarkup(sm: SelectMenu, rows: seq<Row>)
    reads sm.base
    requires sm.Page() >= 0
  {
    && |rows| == Shown(sm) + 1
    && (forall k | 0 <= k < |rows| - 1 ::
          rows[k] == [Button(sm.TextOf(sm.Offset() + k), sm.CallbackDataOf(sm.Offset() + k))])
    && var nav := rows[|rows| - 1];
       && |nav| == (if sm.Offset() + EntriesPerPage < sm.Len() then 4 else 3)
       && nav[..3] == [Button(BackText, "back"), Button(PreviousText, "previous"),
                       Button(DecimalString(sm.Page() + 1), "X")]
       && (|nav| == 4 ==> nav[3] == Button(NextText, "next"))
  }

  /** `PageMarkup`, the layout only. */
  method PageMarkup(sm: SelectMenu) returns (rows: seq<Row>)
    requires sm.Page() >= 0
    ensures IsPageMarkup(sm, rows)
  {
    rows := [];
    var offset := sm.Offset();
    var i := offset;
    while i < sm.Len() && i < offset + EntriesPerPage
      invariant offset <= i <= offset + EntriesPerPage
      invariant i == offset || i <= sm.Len()
      invariant |rows| == i - offset
      invariant forall k | 0 <= k < |rows| ::
        rows[k] == [Button(sm.TextOf(offset + k), sm.CallbackDataOf(offset + k))]
    {
      rows := rows + [[Button(sm.TextOf(i), sm.CallbackDataOf(i))]];
      i := i + 1;
    }
    var nav := [Button(BackText, "back"), Button(PreviousText, "previous")];
    nav := nav + [Button(DecimalString(sm.Page() + 1), "X")];
    if sm.Offset() + EntriesPerPage < sm.Len() {
      nav := nav + [Button(NextText, "next")];
    }
    rows := rows + [nav];
  }

  /** No button of a ready menu's keyboard is blank. */
  lemma PageMarkupTextsNonEmpty(sm: SelectMenu, rows: seq<Row>)
    requires sm.Page() >= 0 && IsPageMarkup(sm, rows) && MenuReady(sm)
    ensures forall k, j | 0 <= k < |rows| && 0 <= j < |rows[k]| :: rows[k][j].text != ""
  {
    forall k, j | 0 <= k < |rows| && 0 <= j < |rows[k]|
      ensures rows[k][j].text != ""
    {
      if k < |rows| - 1 {
        assert rows[k] == [Button(sm.TextOf(sm.Offset() + k), sm.CallbackDataOf(sm.Offset() + k))];
        TextOfNonEmpty(sm, sm.Offset() + k);
      } else if j == 2 {
        NatStringDigits(sm.Page() + 1);
        assert rows[k][..3][2] == rows[k][2];
      } else if j < 2 {
        assert rows[k][..3][j] == rows[k][j];
      }
    }
  }

  // ---------------------------------------------------------------------------
  // Callback data

  /** What a callback data string asks for, as the dispatch in `main` reads it. */
  datatype Command =
    | Back
    | OpenFeed(index: int)
    | OpenItem(index: int)
    | Next
    | Previous
    | Malformed(data: string)   // "feed:" or "item:" not followed by an int
    | NoCommand                 // anything else, e.g. the page number's "X"

  /** The dispatch tests "back", then the "feed:" prefix, then the "item:"
      prefix, then "next" and "previous". For "item:" the source slices off
      `len("feed:")` characters, which is the same five. */
  function ParseCallback(data: string): Command {
    if data == "back" then Back
    else if HasPrefix(data, "feed:") then
      match Atoi(data[|"feed:"|..])
      case Some(i) => OpenFeed(i)
      case None => Malformed(data)
    else if HasPrefix(data, "item:") then
      match Atoi(data[|"feed:"|..])
      case Some(i) => OpenItem(i)
      case None => Malformed(data)
    else if data == "next" then Next
    else if data == "previous" then Previous
    else NoCommand
  }

  /** Each command comes from exactly one shape of data: one of the three
      navigation literals, or a "feed:" / "item:" prefix followed by text
      that does or does not parse as an int. The literals and the prefixes
      rule each other out, so no data string passes two of the tests. */
  lemma ParseCallbackCases(data: string)
    ensures var r := ParseCallback(data);
      && (r == Back <==> data == "back")
      && (r.OpenFeed? <==> HasPrefix(data, "feed:") && Atoi(data[5..]).Some?)
      && (r.OpenItem? <==> HasPrefix(data, "item:") && Atoi(data[5..]).Some?)
      && (r.OpenFeed? || r.OpenItem? ==> Atoi(data[5..]) == Some(r.index))
      && (r.Malformed? <==> (HasPrefix(data, "feed:") || HasPrefix(data, "item:")) && Atoi(data[5..]).None?)
      && (r == Next <==> data == "next")
      && (r == Previous <==> data == "previous")
  {
    assert HasPrefix(data, "feed:") ==> data[0] == 'f';
    assert HasPrefix(data, "item:") ==> data[0] == 'i';
    assert "back"[0] == 'b' && "next"[0] == 'n' && "previous"[0] == 'p';
  }

  /** The data of entry `index` reads back as "open entry `index`" of the
      same kind. */
  lemma CallbackDataRoundTrip(sm: SelectMenu, index: int)
    requires MinInt64 <= index <= MaxInt64
    ensures ParseCallback(sm.CallbackDataOf(index)) ==
      if sm.FeedSelectMenu? then OpenFeed(index) else OpenItem(index)
  {
    var data := sm.CallbackDataOf(index);
    AtoiDecimalString(index);
    assert data[|"feed:"|..] == DecimalString(index);
    assert data[..5] == (if sm.FeedSelectMenu? then "feed:" else "item:");
  }

  /** The navigation buttons' data: back, previous and next are commands, the
      page number's "X" is none. */
  lemma NavigationCommands()
    ensures ParseCallback("back") == Back
    ensures ParseCallback("previous") == Previous
    ensures ParseCallback("next") == Next
    ensures ParseCallback("X") == NoCommand
  {
    assert "previous"[..5][0] == 'p';
  }

  /** Every button of a page keyboard asks for what it shows: an entry button
      opens that entry, the navigation buttons go back, page, or do nothing. */
  lemma PageMarkupCommands(sm: SelectMenu, rows: seq<Row>)
    requires sm.Page() >= 0 && IsPageMarkup(sm, rows) && sm.Offset() + EntriesPerPage <= MaxInt64
    ensures forall k | 0 <= k < |rows| - 1 ::
      ParseCallback(rows[k][0].data) ==
        if sm.FeedSelectMenu? then OpenFeed(sm.Offset() + k) else OpenItem(sm.Offset() + k)
    ensures var nav := rows[|rows| - 1];
      && ParseCallback(nav[0].data) == Back
      && ParseCallback(nav[1].data) == Previous
      && ParseCallback(nav[2].data) == NoCommand
      && (|nav| == 4 ==> ParseCallback(nav[3].data) == Next)
  {
    forall k | 0 <= k < |rows| - 1
      ensures ParseCallback(rows[k][0].data) ==
        if sm.FeedSelectMenu? then OpenFeed(sm.Offset() + k) else OpenItem(sm.Offset() + k)
    {
      assert rows[k] == [Button(sm.TextOf(sm.Offset() + k), sm.CallbackDataOf(sm.Offset() + k))];
      CallbackDataRoundTrip(sm, sm.Offset() + k);
    }
    NavRowCommands(sm, rows);
  }

  /** The navigation row's buttons go back, page, or do nothing. */
  lemma NavRowCommands(sm: SelectMenu, rows: seq<Row>)
    requires sm.Page() >= 0 && IsPageMarkup(sm, rows)
    ensures var nav := rows[|rows| - 1];
      && ParseCallback(nav[0].data) == Back
      && ParseCallback(nav[1].data) == Previous
      && ParseCallback(nav[2].data) == NoCommand
      && (|nav| == 4 ==> ParseCallback(nav[3].data) == Next)
  {
    var nav := rows[|rows| - 1];
    assert nav[0] == nav[..3][0] && nav[1] == nav[..3][1] && nav[2] == nav[..3][2];
    assert nav[0].data == "back" && nav[1].data == "previous" && nav[2].data == "X";
    NavigationCommands();
  }

  // ---------------------------------------------------------------------------
  // Navigation

  datatype NavError =
    | NoActiveMenu                 // a method is called on the nil SelectMenu
    | BadIndex(data: string)       // strconv.Atoi rejected the index
    | IndexOutOfRange(index: int)  // the index is outside the bound collection
    | FeedError(error: Rss.Error)  // NewDocument failed while adding a feed

  /** The part of `AddFeed` between the fetch and the append: decode the
      body, then add a self link to the fetch URL when SelfLink reports "".
      A document that comes out has a title. */
  method PrepareFeed(url: string, body: seq<Rss.byte>, unmarshal: seq<Rss.byte> -> Result<Rss.Document, Rss.Error>)
    returns (r: Result<Rss.Document, Rss.Error>)
    ensures r.Success? <==> unmarshal(body).Success? && Rss.Validate(unmarshal(body).value).Pass?
    ensures r.Success? ==>
      r.value == Rss.EnsureSelfLink(Rss.Postprocessed(unmarshal(body).value), url)
      && r.value.channel.title != ""
    ensures r.Failure? ==>
      r.error == if unmarshal(body).Failure? then unmarshal(body).error else Rss.Validate(unmarshal(body).value).error
  {
    var decoded := Rss.NewDocument(body, unmarshal);
    if decoded.Failure? {
      return decoded;
    }
    var d := decoded.value;
    var self := Rss.SelfLink(d);
    if self == "" {
      d := Rss.SetSelfLink(d, url);
    }
    assert d.channel.title == decoded.value.channel.title;
    assert !AllSpace(d.channel.title);
    r := Success(d);
  }

  /** The state `main` keeps between updates: the feed menu, the item menu
      (each a page counter and a collection) and the active menu, nil until
      the first "/list", "back" or "feed:" arrives. Every error here is a
      panic in the source; the model reports it and changes nothing. */
  class Session {
    var feedBase: SelectMenuBase
    var feeds: seq<Rss.Document>
    var itemBase: SelectMenuBase
    var items: seq<Rss.Item>
    var selectMenu: Option<SelectMenu>

    function FeedMenu(): SelectMenu
      reads this
    {
      FeedSelectMenu(feedBase, feeds)
    }

    function ItemMenu(): SelectMenu
      reads this
    {
      ItemSelectMenu(itemBase, items)
    }

    /** The two menus have their own page counters, each within range; the
      active menu is the item menu or a copy of the feed menu taken before
      some feeds were added, and its page is within range of its snapshot;
      every feed passed validation. */
    ghost predicate Valid()
      reads this, feedBase, itemBase
    {
      && feedBase != itemBase
      && WithinPages(feedBase.page, |feeds|)
      && WithinPages(itemBase.page, |items|)
      && MenuReady(FeedMenu())
      && match selectMenu
         case None => true
         case Some(m) =>
           || (m.FeedSelectMenu? && m.base == feedBase && m.feeds <= feeds
               && WithinPages(feedBase.page, |m.feeds|))
           || m == ItemMenu()
    }

    constructor ()
      ensures Valid() && fresh(feedBase) && fresh(itemBase)
      ensures feeds == [] && items == [] && selectMenu == None
      ensures feedBase.page == InitialPage && itemBase.page == InitialPage
    {
      feedBase := new SelectMenuBase(InitialPage);
      itemBase := new SelectMenuBase(InitialPage);
      feeds := [];
      items := [];
      selectMenu := None;
    }

    /** `AddFeed` after the fetch: decode the body; on success make sure it
      has a self link (the fetch URL when SelfLink reports "") and append it
      to the feeds. */
    method AddFeed(url: string, body: seq<Rss.byte>, unmarshal: seq<Rss.byte> -> Result<Rss.Document, Rss.Error>)
      returns (err: Option<NavError>)
      requires Valid()
      modifies this
      ensures Valid()
      ensures feedBase == old(feedBase) && itemBase == old(itemBase)
      ensures items == old(items) && selectMenu == old(selectMenu)
      ensures err.None? <==> unmarshal(body).Success? && Rss.Validate(unmarshal(body).value).Pass?
      ensures err.None? ==>
        feeds == old(feeds) + [Rss.EnsureSelfLink(Rss.Postprocessed(unmarshal(body).value), url)]
      ensures err.Some? ==> feeds == old(feeds)
      ensures err.Some? ==> err == Some(FeedError(
        if unmarshal(body).Failure? then unmarshal(body).error else Rss.Validate(unmarshal(body).value).error))
    {
      var r := PrepareFeed(url, body, unmarshal);
      if r.Failure? {
        return Some(FeedError(r.error));
      }
      AppendFeed(r.value);
      err := None;
    }

    /** `fsm.feeds = append(fsm.feeds, d)`. */
    method AppendFeed(d: Rss.Document)
      requires Valid() && d.channel.title != ""
      modifies this
      ensures Valid()
      ensures feeds == old(feeds) + [d]
      ensures feedBase == old(feedBase) && itemBase == old(itemBase)
      ensures items == old(items) && selectMenu == old(selectMenu)
    {
      ghost var before := feeds;
      feeds := feeds + [d];
      assert before <= feeds;
      assert MenuReady(FeedMenu()) by {
        forall i | 0 <= i < |feeds| ensures feeds[i].channel.title != "" {
          if i < |before| { assert feeds[i] == before[i]; }
        }
      }
    }

    /** The "/list" command: the active menu becomes a copy of the feed menu. */
    method List()
      requires Valid()
      modifies this
      ensures Valid()
      ensures selectMenu == Some(old(FeedMenu()))
      ensures feedBase == old(feedBase) && itemBase == old(itemBase)
      ensures feeds == old(feeds) && items == old(items)
    {
      selectMenu := Some(FeedMenu());
    }

    /** The callback branch of `main`. */
    method Callback(data: string) returns (err: Option<NavError>)
      requires Valid()
      modifies this, feedBase, itemBase
      ensures Valid()
      ensures feedBase == old(feedBase) && itemBase == old(itemBase) && feeds == old(feeds)
      ensures err.Some? ==>
        && items == old(items) && selectMenu == old(selectMenu)
        && feedBase.page == old(feedBase.page) && itemBase.page == old(itemBase.page)
      ensures match ParseCallback(data)
        case Back =>
          && err.None? && selectMenu == Some(FeedMenu()) && items == old(items)
          && feedBase.page == old(feedBase.page) && itemBase.page == old(itemBase.page)
        case OpenFeed(i) =>
          && (err.None? <==> 0 <= i < |feeds|)
          && (err.Some? ==> err == Some(IndexOutOfRange(i)))
          && (err.None? ==>
                && items == feeds[i].channel.items && itemBase.page == InitialPage
                && feedBase.page == old(feedBase.page) && selectMenu == Some(ItemMenu()))
        case OpenItem(i) =>
          && (err.None? <==> 0 <= i < |old(items)|)
          && (err.Some? ==> err == Some(IndexOutOfRange(i)))
          && items == old(items) && selectMenu == old(selectMenu)
          && feedBase.page == old(feedBase.page) && itemBase.page == old(itemBase.page)
        case Next =>
          && (err.None? <==> old(selectMenu).Some?)
          && (err.Some? ==> err == Some(NoActiveMenu))
          && items == old(items) && selectMenu == old(selectMenu)
          && (err.None? && selectMenu.value.FeedSelectMenu? ==>
                feedBase.page == Advance(old(feedBase.page), selectMenu.value.Len())
                && itemBase.page == old(itemBase.page))
          && (err.None? && selectMenu.value.ItemSelectMenu? ==>
                itemBase.page == Advance(old(itemBase.page), |items|)
                && feedBase.page == old(feedBase.page))
        case Previous =>
          && (err.None? <==> old(selectMenu).Some?)
          && (err.Some? ==> err == Some(NoActiveMenu))
          && items == old(items) && selectMenu == old(selectMenu)
          && (err.None? && selectMenu.value.FeedSelectMenu? ==>
                feedBase.page == Retreat(old(feedBase.page)) && itemBase.page == old(itemBase.page))
          && (err.None? && selectMenu.value.ItemSelectMenu? ==>
                itemBase.page == Retreat(old(itemBase.page)) && feedBase.page == old(feedBase.page))
        case Malformed(_) => err == Some(BadIndex(data))
        case NoCommand =>
          && err.None? && items == old(items) && selectMenu == old(selectMenu)
          && feedBase.page == old(feedBase.page) && itemBase.page == old(itemBase.page)
    {
      err := None;
      match ParseCallback(data) {
        case Back =>
          selectMenu := Some(FeedMenu());
        case OpenFeed(i) =>
          if i < 0 || i >= |feeds| {
            return Some(IndexOutOfRange(i));
          }
          items := feeds[i].channel.items;
          itemBase.page := InitialPage;
          selectMenu := Some(ItemMenu());
        case OpenItem(i) =>
          // The item's description would go to the HTML renderer.
          if i < 0 || i >= |items| {
            return Some(IndexOutOfRange(i));
          }
        case Next =>
          if selectMenu.None? {
            return Some(NoActiveMenu);
          }
          NextPage(selectMenu.value);
          if selectMenu.value.FeedSelectMenu? {
            WithinPagesGrow(feedBase.page, selectMenu.value.Len(), |feeds|);
          }
        case Previous =>
          if selectMenu.None? {
            return Some(NoActiveMenu);
          }
          PrevPage(selectMenu.value);
        case Malformed(_) =>
          return Some(BadIndex(data));
        case NoCommand =>
      }
    }

    /** The keyboard sent after every callback: the active menu's current
      page, or an error while no menu is active. */
    method Render() returns (r: Result<seq<Row>, NavError>)
      requires Valid()
      ensures selectMenu.None? ==> r == Failure(NoActiveMenu)
      ensures selectMenu.Some? ==> r.Success? && IsPageMarkup(selectMenu.value, r.value)
    {
      if selectMenu.None? {
        return Failure(NoActiveMenu);
      }
      var rows := PageMarkup(selectMenu.value);
      r := Success(rows);
    }
  }

  /** Opening feed `i` from the feed list and pressing "back" returns to the
      feed list on the page it was left at. */
  method OpenFeedAndGoBack(s: Session, i: int)
    requires s.Valid() && 0 <= i < |s.feeds| && i <= MaxInt64
    modifies s, s.feedBase, s.itemBase
    ensures s.Valid()
    ensures s.selectMenu == Some(s.FeedMenu())
    ensures s.feedBase.page == old(s.feedBase.page) && s.feeds == old(s.feeds)
    ensures s.items == old(s.feeds)[i].channel.items && s.itemBase.page == InitialPage
  {
    var data := s.FeedMenu().CallbackDataOf(i);
    CallbackDataRoundTrip(s.FeedMenu(), i);
    var openErr := s.Callback(data);
    assert openErr.None?;
    var back := s.Callback("back");
  }
}
