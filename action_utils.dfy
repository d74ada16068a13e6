/**
 * `lib/action-utils.ts`: the browser-side lists kept in `localStorage`
 * (saved articles, favorites per item type, saved chats, stored chat
 * transcripts) and the edition navigation. `localStorage` is the `Browser`
 * object: each key the code reads and writes is a field holding the value
 * `JSON.parse` would give back. `window.location.href` and page reloads are
 * fields too. Timestamps (`new Date().toISOString()`, `Date.now()`) are
 * parameters; toasts and the best-effort sync requests are not modelled.
 */
module ActionUtils {
  import opened Options
  import opened Text
  import opened Numerals
  import opened Ordering

  const EDITION_PREFIX := "edition-"
  const EDITIONS_PATH := "/editions/"
  const FIRST_EDITION := 1
  const LAST_EDITION := 10
  const CURRENT_CHAT := "currentChat"

  /** An element of `savedArticles`. */
  datatype SavedArticle = SavedArticle(id: string, title: string, savedAt: string)

  datatype ItemType = Article | Edition

  /** An element of `favorites[itemType]`. */
  datatype Favorite = Favorite(id: string, title: string, favoritedAt: string)

  /**
   * An element of `savedChats`: a new entry carries `savedAt`, an entry
   * rewritten by a later save carries `updatedAt` instead.
   */
  datatype SavedChat = SavedChat(id: string, messages: seq<string>, savedAt: Option<string>,
                                 updatedAt: Option<string>, title: string)

  datatype Direction = Prev | Next

  // ---------------------------------------------------------------- articles

  predicate HasArticle(articles: seq<SavedArticle>, id: string)
  {
    exists i :: 0 <= i < |articles| && articles[i].id == id
  }

  predicate UniqueArticles(articles: seq<SavedArticle>)
  {
    forall i, j :: 0 <= i < j < |articles| ==> articles[i].id != articles[j].id
  }

  /** The filter's test `article => article.id !== articleId`. */
  function OtherThan(id: string): SavedArticle -> bool
  {
    (a: SavedArticle) => a.id != id
  }

  /** `savedArticles.filter(article => article.id !== articleId)`. */
  function WithoutArticle(articles: seq<SavedArticle>, id: string): (r: seq<SavedArticle>)
    ensures !HasArticle(r, id)
    ensures forall a :: a in r <==> a in articles && a.id != id
  {
    var r := Filter(articles, OtherThan(id));
    assert forall k :: 0 <= k < |r| ==> r[k].id != id;
    r
  }

  lemma {:induction false} FilterAppend<T>(s: seq<T>, x: T, p: T -> bool)
    ensures Filter(s + [x], p) == Filter(s, p) + (if p(x) then [x] else [])
  {
    if |s| > 0 {
      assert (s + [x])[1..] == s[1..] + [x];
      FilterAppend(s[1..], x, p);
    } else {
      assert (s + [x])[1..] == [];
    }
  }

  lemma {:induction false} FilterKeepsAll<T>(s: seq<T>, p: T -> bool)
    requires forall k :: 0 <= k < |s| ==> p(s[k])
    ensures Filter(s, p) == s
  {
    if |s| > 0 {
      FilterKeepsAll(s[1..], p);
    }
  }

  /** `filter` on a concatenation is the concatenation of the filtered parts. */
  lemma {:induction false} FilterConcat<T>(s: seq<T>, t: seq<T>, p: T -> bool)
    ensures Filter(s + t, p) == Filter(s, p) + Filter(t, p)
  {
    if |s| > 0 {
      assert (s + t)[0] == s[0];
      assert (s + t)[1..] == s[1..] + t;
      FilterConcat(s[1..], t, p);
    } else {
      assert s + t == t;
    }
  }

  /**
   * Removal keeps the other articles in their order: it works piece by
   * piece, keeping an article exactly when its id differs.
   */
  lemma {:induction false} WithoutArticleKeepsOrder(a: seq<SavedArticle>, b: seq<SavedArticle>, x: SavedArticle, id: string)
    ensures WithoutArticle(a + b, id) == WithoutArticle(a, id) + WithoutArticle(b, id)
    ensures WithoutArticle([x], id) == if x.id != id then [x] else []
    ensures WithoutArticle([], id) == []
  {
    FilterConcat(a, b, OtherThan(id));
    assert [x][1..] == [];
  }

  /** Removing an article that was just saved gives back the list from before the save. */
  lemma {:induction false} RemoveUndoesSave(articles: seq<SavedArticle>, id: string, title: string, savedAt: string)
    requires !HasArticle(articles, id)
    ensures WithoutArticle(articles + [SavedArticle(id, title, savedAt)], id) == articles
  {
    var p := OtherThan(id);
    FilterAppend(articles, SavedArticle(id, title, savedAt), p);
    FilterKeepsAll(articles, p);
  }

  /** Removing keeps the ids unique and, on a list without the id, changes nothing. */
  lemma {:induction false} RemoveKeepsUnique(articles: seq<SavedArticle>, id: string)
    requires UniqueArticles(articles)
    ensures UniqueArticles(WithoutArticle(articles, id))
    ensures !HasArticle(articles, id) ==> WithoutArticle(articles, id) == articles
  {
    FilterUnique(articles, id);
    if !HasArticle(articles, id) {
      FilterKeepsAll(articles, OtherThan(id));
    }
  }

  lemma {:induction false} FilterUnique(articles: seq<SavedArticle>, id: string)
    requires UniqueArticles(articles)
    ensures UniqueArticles(Filter(articles, OtherThan(id)))
  {
    var p := OtherThan(id);
    if |articles| > 0 {
      FilterUnique(articles[1..], id);
      var t := Filter(articles[1..], p);
      forall k | 0 <= k < |t| ensures t[k].id != articles[0].id {
        var j :| 0 <= j < |articles[1..]| && articles[1..][j] == t[k];
        assert articles[1 + j] == t[k];
      }
    }
  }

  // --------------------------------------------------------------- editions

  /** `Number.parseInt(currentEditionId.replace("edition-", ""))`; `None` is NaN. */
  function EditionNumber(editionId: string): Option<int>
  {
    ParseIntAuto(ReplaceFirst(editionId, EDITION_PREFIX))
  }

  /** `Math.max(1, n - 1)` or `Math.min(10, n + 1)`; NaN stays NaN. */
  function EditionTarget(direction: Direction, n: Option<int>): (t: Option<int>)
    ensures t.None? <==> n.None?
    ensures n.Some? && direction == Prev ==> t.value >= FIRST_EDITION && (n.value >= FIRST_EDITION ==> t.value <= n.value)
    ensures n.Some? && direction == Prev && n.value > FIRST_EDITION ==> t.value == n.value - 1
    ensures n.Some? && direction == Next ==> t.value <= LAST_EDITION && t.value <= n.value + 1
    ensures n.Some? && direction == Next && n.value < LAST_EDITION ==> t.value == n.value + 1
  {
    match n
    case None => None
    case Some(k) => Some(if direction == Prev then Max(FIRST_EDITION, k - 1) else Min(LAST_EDITION, k + 1))
  }

  function Max(a: int, b: int): int { if a >= b then a else b }
  function Min(a: int, b: int): int { if a <= b then a else b }

  /** `targetEdition !== editionNumber`: NaN differs from everything, itself included. */
  predicate Moves(target: Option<int>, n: Option<int>)
  {
    target.None? || n.None? || target.value != n.value
  }

  /** The page a move goes to, `NaN` written out as JavaScript does. */
  function EditionHref(target: Option<int>): string
  {
    EDITIONS_PATH + EDITION_PREFIX + (if target.Some? then IntString(target.value) else "NaN")
  }

  /** The edition id of page `n`. */
  function EditionId(n: int): string
  {
    EDITION_PREFIX + IntString(n)
  }

  /** The prefix is removed before parsing: an id reads as the number after it. */
  lemma {:induction false} EditionNumberAfterPrefix(rest: string)
    ensures EditionNumber(EDITION_PREFIX + rest) == ParseIntAuto(rest)
  {
    PrefixOfAppend(EDITION_PREFIX, rest);
    assert (EDITION_PREFIX + rest)[|EDITION_PREFIX|..] == rest;
  }

  /** The id of the page a move lands on reads back as the edition moved to, negative ones included. */
  lemma {:induction false} EditionIdRoundTrip(n: int)
    ensures EditionNumber(EditionId(n)) == Some(n)
    ensures EditionHref(Some(n)) == EDITIONS_PATH + EditionId(n)
  {
    EditionNumberAfterPrefix(IntString(n));
    ParseIntAutoOfIntString(n);
  }

  /** White space after the prefix is skipped, as `Number.parseInt` skips it. */
  lemma {:induction false} SpacedIdReads(ws: string, n: nat)
    requires forall i :: 0 <= i < |ws| ==> IsSpace(ws[i])
    ensures EditionNumber(EDITION_PREFIX + ws + ToString(n, 10)) == Some(n)
  {
    assert EDITION_PREFIX + ws + ToString(n, 10) == EDITION_PREFIX + (ws + ToString(n, 10));
    EditionNumberAfterPrefix(ws + ToString(n, 10));
    ParseIntAutoSkipsSpaces(ws, ToString(n, 10));
    ParseIntAutoOfIntString(n);
  }

  /** A minus sign after the prefix makes the number negative (`-0` is zero). */
  lemma {:induction false} SignedIdReads(n: nat)
    ensures EditionNumber(EDITION_PREFIX + "-" + ToString(n, 10)) == Some(-(n as int))
  {
    var rest := "-" + ToString(n, 10);
    assert EDITION_PREFIX + "-" + ToString(n, 10) == EDITION_PREFIX + rest;
    EditionNumberAfterPrefix(rest);
    MinusReads(n);
  }

  /** A minus sign before the digits negates them, zero included. */
  lemma {:induction false} MinusReads(n: nat)
    ensures ParseIntAuto("-" + ToString(n, 10)) == Some(-(n as int))
  {
    if n > 0 {
      ParseIntAutoNegative(n);
    } else {
      MinusZero();
    }
  }

  /** A `0x` after the prefix reads the digits as hexadecimal. */
  lemma {:induction false} HexIdReads(n: nat)
    ensures EditionNumber(EDITION_PREFIX + "0x" + ToString(n, 16)) == Some(n)
  {
    assert EDITION_PREFIX + "0x" + ToString(n, 16) == EDITION_PREFIX + ("0x" + ToString(n, 16));
    EditionNumberAfterPrefix("0x" + ToString(n, 16));
    ParseIntAutoHex(n);
  }

  /** `-0` reads as zero. */
  lemma MinusZero()
    ensures ParseIntAuto("-" + ToString(0, 10)) == Some(0)
  {
    var s := "-" + ToString(0, 10);
    assert s == "-0";
    assert SkipSpaces(s) == s;
    assert Unsigned(s) == "0";
    assert !HasHexPrefix("0");
    assert LeadingDigits("0", 10) == 1;
    assert "0"[..1] == "0";
  }

  /**
   * Inside the range 1..10 a step moves exactly when it is not at the end
   * it points to, and lands on the neighbouring edition; a step back from
   * where a step forward landed returns to the start.
   */
  lemma {:induction false} NavigationInRange(n: int, direction: Direction)
    requires FIRST_EDITION <= n <= LAST_EDITION
    ensures var t := EditionTarget(direction, Some(n));
      && FIRST_EDITION <= t.value <= LAST_EDITION
      && (Moves(t, Some(n)) <==> (direction == Prev && n > FIRST_EDITION) || (direction == Next && n < LAST_EDITION))
      && (Moves(t, Some(n)) ==> t.value == if direction == Prev then n - 1 else n + 1)
    ensures n < LAST_EDITION ==> EditionTarget(Prev, Some(n + 1)) == Some(n)
  {
  }

  /**
   * Below the first edition a step back lands on the first and a step
   * forward on the next number, which for `-2` is `edition--1`.
   */
  lemma {:induction false} BelowRangeNavigates(n: int)
    requires n < FIRST_EDITION
    ensures EditionTarget(Prev, Some(n)) == Some(FIRST_EDITION) && Moves(EditionTarget(Prev, Some(n)), Some(n))
    ensures EditionTarget(Next, Some(n)) == Some(n + 1) && Moves(EditionTarget(Next, Some(n)), Some(n))
    ensures EditionHref(EditionTarget(Next, Some(n))) == EDITIONS_PATH + EditionId(n + 1)
  {
  }

  /** An id with no number after the prefix still navigates, to `edition-NaN`. */
  lemma {:induction false} UnparsableIdNavigates(direction: Direction, editionId: string)
    requires EditionNumber(editionId).None?
    ensures Moves(EditionTarget(direction, EditionNumber(editionId)), EditionNumber(editionId))
    ensures EditionHref(EditionTarget(direction, EditionNumber(editionId))) == "/editions/edition-NaN"
  {
  }

  /** "latest" is such an id. */
  lemma LatestIsNaN()
    ensures EditionNumber("latest").None?
  {
    MissingCharNotContained("latest", EDITION_PREFIX, 'd');
    assert ReplaceFirst("latest", EDITION_PREFIX) == "latest";
    assert SkipSpaces("latest") == "latest";
    assert Unsigned("latest") == "latest";
    assert !HasHexPrefix("latest");
    assert DigitValue('l') == -1;
  }

  // -------------------------------------------------------------- favorites

  predicate HasFavorite(list: seq<Favorite>, id: string)
  {
    exists i :: 0 <= i < |list| && list[i].id == id
  }

  predicate UniqueFavorites(list: seq<Favorite>)
  {
    forall i, j :: 0 <= i < j < |list| ==> list[i].id != list[j].id
  }

  /** `findIndex(p)`: the first index whose element passes `p`, or -1. */
  function FindIndex<T>(s: seq<T>, p: T -> bool): (k: int)
    ensures -1 <= k < |s|
    ensures k == -1 <==> forall j :: 0 <= j < |s| ==> !p(s[j])
    ensures k >= 0 ==> p(s[k]) && forall j :: 0 <= j < k ==> !p(s[j])
  {
    if |s| == 0 then -1
    else if p(s[0]) then 0
    else
      var k := FindIndex(s[1..], p);
      assert forall j :: 0 < j < |s| ==> s[j] == s[1..][j - 1];
      if k == -1 then -1 else k + 1
  }

  /** The test `item => item.id === itemId`. */
  function FavoriteIs(id: string): Favorite -> bool
  {
    (f: Favorite) => f.id == id
  }

  /** `favorites[itemType] || []` as the code initialises it. */
  function ListOf(favorites: map<ItemType, seq<Favorite>>, itemType: ItemType): seq<Favorite>
  {
    if itemType in favorites then favorites[itemType] else []
  }

  /** The list after `toggleFavorite`: the first match spliced out, or the new item pushed. */
  function Toggled(list: seq<Favorite>, id: string, title: string, now: string): (r: seq<Favorite>)
    ensures HasFavorite(list, id) ==> |r| == |list| - 1
    ensures !HasFavorite(list, id) ==> r == list + [Favorite(id, title, now)]
  {
    var k := FindIndex(list, FavoriteIs(id));
    if k >= 0 then list[..k] + list[k + 1..] else list + [Favorite(id, title, now)]
  }

  /** `k` is the first index holding a favorite with this id. */
  predicate FirstFavoriteAt(list: seq<Favorite>, id: string, k: int)
  {
    0 <= k < |list| && list[k].id == id && forall j :: 0 <= j < k ==> list[j].id != id
  }

  /** `findIndex(item => item.id === id)` finds the first favorite with the id, if there is one. */
  lemma {:induction false} FindFavorite(list: seq<Favorite>, id: string)
    requires HasFavorite(list, id)
    ensures FirstFavoriteAt(list, id, FindIndex(list, FavoriteIs(id)))
  {
    var i :| 0 <= i < |list| && list[i].id == id;
    assert FavoriteIs(id)(list[i]);
    var k := FindIndex(list, FavoriteIs(id));
    assert FavoriteIs(id)(list[k]);
    forall j | 0 <= j < k ensures list[j].id != id {
      assert !FavoriteIs(id)(list[j]);
    }
  }

  /** On a favorite already there, the toggle splices out its first entry and nothing else. */
  lemma {:induction false} ToggleRemovesFirstMatch(list: seq<Favorite>, id: string, title: string, now: string)
    requires HasFavorite(list, id)
    ensures exists k :: FirstFavoriteAt(list, id, k) && Toggled(list, id, title, now) == list[..k] + list[k + 1..]
  {
    FindFavorite(list, id);
    var k := FindIndex(list, FavoriteIs(id));
    assert Toggled(list, id, title, now) == list[..k] + list[k + 1..];
  }

  /** The `findIndex`, then the `splice` or the `push`, of `toggleFavorite`. */
  method ToggleList(list: seq<Favorite>, itemId: string, title: string, now: string) returns (r: seq<Favorite>)
    ensures r == Toggled(list, itemId, title, now)
  {
    r := list;
    var existingIndex := FindIndex(r, FavoriteIs(itemId));
    if existingIndex >= 0 {
      r := r[..existingIndex] + r[existingIndex + 1..];
    } else {
      r := r + [Favorite(itemId, title, now)];
    }
  }

  /** Toggling flips whether the item is a favorite and keeps the ids unique. */
  lemma {:induction false} ToggleFlips(list: seq<Favorite>, id: string, title: string, now: string)
    requires UniqueFavorites(list)
    ensures UniqueFavorites(Toggled(list, id, title, now))
    ensures HasFavorite(Toggled(list, id, title, now), id) <==> !HasFavorite(list, id)
    ensures forall x :: x != id ==> (HasFavorite(Toggled(list, id, title, now), x) <==> HasFavorite(list, x))
  {
    var k := FindIndex(list, FavoriteIs(id));
    if k >= 0 {
      SpliceFavorite(list, k);
    } else {
      PushFavorite(list, Favorite(id, title, now));
    }
  }

  /** Splicing out the entry at `k` of a unique list removes its id and no other. */
  lemma {:induction false} SpliceFavorite(list: seq<Favorite>, k: nat)
    requires UniqueFavorites(list) && k < |list|
    ensures var r := list[..k] + list[k + 1..];
      && UniqueFavorites(r) && !HasFavorite(r, list[k].id)
      && forall x :: x != list[k].id ==> (HasFavorite(r, x) <==> HasFavorite(list, x))
  {
    var r := list[..k] + list[k + 1..];
    assert forall i :: 0 <= i < |r| ==> r[i] == if i < k then list[i] else list[i + 1];
    forall x | HasFavorite(list, x) && x != list[k].id ensures HasFavorite(r, x) {
      var i :| 0 <= i < |list| && list[i].id == x;
      if i < k { assert r[i].id == x; } else { assert r[i - 1].id == x; }
    }
  }

  /** Pushing an entry with a new id onto a unique list adds exactly that id. */
  lemma {:induction false} PushFavorite(list: seq<Favorite>, f: Favorite)
    requires UniqueFavorites(list) && !HasFavorite(list, f.id)
    ensures var r := list + [f];
      && UniqueFavorites(r) && HasFavorite(r, f.id)
      && forall x :: x != f.id ==> (HasFavorite(r, x) <==> HasFavorite(list, x))
  {
    var r := list + [f];
    assert r[|list|].id == f.id;
    assert forall i :: 0 <= i < |list| ==> r[i] == list[i] && list[i].id != f.id;
    forall x | HasFavorite(r, x) && x != f.id ensures HasFavorite(list, x) {
      var i :| 0 <= i < |r| && r[i].id == x;
      assert i < |list| && list[i].id == x;
    }
  }

  /** Favoriting an item and toggling it again gives back the list from before. */
  lemma {:induction false} ToggleTwiceRestores(list: seq<Favorite>, id: string, title: string, now: string, later: string)
    requires !HasFavorite(list, id)
    ensures Toggled(Toggled(list, id, title, now), id, title, later) == list
  {
    var r := list + [Favorite(id, title, now)];
    var k := FindIndex(r, FavoriteIs(id));
    assert r[|list|].id == id;
    assert forall j :: 0 <= j < |list| ==> r[j].id != id;
    assert k == |list|;
    assert r[..k] == list;
  }

  // ------------------------------------------------------------------ chats

  /** The `localStorage` key of a session's transcript. */
  function ChatKey(sessionId: string): string
  {
    "chat-" + sessionId
  }

  /** `Chat ${n}`. */
  function ChatTitle(n: nat): string
  {
    "Chat " + ToString(n, 10)
  }

  /** Different counts give different default titles. */
  lemma {:induction false} ChatTitlesDistinct(n: nat, m: nat)
    requires n != m
    ensures ChatTitle(n) != ChatTitle(m)
  {
    assert ChatTitle(n)[5..] == ToString(n, 10) + "";
    assert ChatTitle(m)[5..] == ToString(m, 10) + "";
    ParseToString(n, 10, "");
    ParseToString(m, 10, "");
  }

  /** `urlParams.get("session") || \`session-${Date.now()}\``. */
  function SessionIdFor(sessionParam: Option<string>, now: nat): string
  {
    if Truthy(sessionParam) then sessionParam.value else "session-" + ToString(now, 10)
  }

  /** `JSON.parse(localStorage.getItem(key) || "[]")`. */
  function StoredMessages(chats: map<string, seq<string>>, key: string): seq<string>
  {
    if key in chats then chats[key] else []
  }

  predicate HasChat(saved: seq<SavedChat>, id: string)
  {
    exists i :: 0 <= i < |saved| && saved[i].id == id
  }

  predicate UniqueChats(saved: seq<SavedChat>)
  {
    forall i, j :: 0 <= i < j < |saved| ==> saved[i].id != saved[j].id
  }

  /** The test `chat => chat.id === sessionId`. */
  function ChatIs(id: string): SavedChat -> bool
  {
    (c: SavedChat) => c.id == id
  }

  /**
   * `savedChats` after saving `messages` under `id`: the existing entry is
   * rewritten in place, keeping a non-empty title; otherwise a new entry
   * titled after the list's new length is pushed.
   */
  function SavedChats(saved: seq<SavedChat>, id: string, messages: seq<string>, stamp: string): (r: seq<SavedChat>)
    ensures HasChat(saved, id) ==> |r| == |saved|
    ensures !HasChat(saved, id) ==> r == saved + [SavedChat(id, messages, Some(stamp), None, ChatTitle(|saved| + 1))]
  {
    var k := FindIndex(saved, ChatIs(id));
    if k >= 0 then
      var title := if saved[k].title != "" then saved[k].title else ChatTitle(|saved| + 1);
      saved[k := SavedChat(id, messages, None, Some(stamp), title)]
    else
      saved + [SavedChat(id, messages, Some(stamp), None, ChatTitle(|saved| + 1))]
  }

  /**
   * Saving keeps one entry per session, holding the latest messages; every
   * other entry is untouched, and a rewritten entry keeps its title.
   */
  lemma {:induction false} SaveChatKeepsOnePerSession(saved: seq<SavedChat>, id: string, messages: seq<string>, stamp: string)
    requires UniqueChats(saved)
    ensures var r := SavedChats(saved, id, messages, stamp);
      && UniqueChats(r)
      && (exists k :: 0 <= k < |r| && r[k].id == id && r[k].messages == messages)
      && (forall k :: 0 <= k < |saved| && saved[k].id != id ==> r[k] == saved[k])
      && (forall k :: 0 <= k < |saved| && saved[k].id == id && saved[k].title != "" ==> r[k].title == saved[k].title)
  {
    var r := SavedChats(saved, id, messages, stamp);
    var k := FindIndex(saved, ChatIs(id));
    if k >= 0 {
      assert r[k].id == id && r[k].messages == messages;
      forall j | 0 <= j < |saved| && saved[j].id == id ensures j == k {
      }
    } else {
      assert r[|saved|].id == id && r[|saved|].messages == messages;
    }
  }

  class Browser {
    var savedArticles: seq<SavedArticle>
    var favorites: map<ItemType, seq<Favorite>>
    /** The transcripts under `chat-<sessionId>` and `currentChat`. */
    var chats: map<string, seq<string>>
    var savedChats: seq<SavedChat>
    /** `window.location.href`. */
    var location: string
    /** How many times `window.location.reload()` ran. */
    var reloads: nat

    /** No list holds the same id twice. */
    ghost predicate Valid()
      reads this
    {
      UniqueArticles(savedArticles) && UniqueChats(savedChats)
      && forall t :: t in favorites ==> UniqueFavorites(favorites[t])
    }

    /** Empty storage on page `location`. */
    constructor (location: string)
      ensures Valid() && this.location == location && reloads == 0
      ensures savedArticles == [] && favorites == map[] && chats == map[] && savedChats == []
    {
      savedArticles := [];
      favorites := map[];
      chats := map[];
      savedChats := [];
      this.location := location;
      reloads := 0;
    }

    /**
     * `saveArticle`: refuses an id already saved, otherwise pushes the
     * article. Answers whether it was added.
     */
    method SaveArticle(articleId: string, title: string, now: string) returns (saved: bool)
      modifies this
      ensures old(Valid()) ==> Valid()
      ensures saved <==> !HasArticle(old(savedArticles), articleId)
      ensures savedArticles == if saved then old(savedArticles) + [SavedArticle(articleId, title, now)] else old(savedArticles)
      ensures favorites == old(favorites) && chats == old(chats) && savedChats == old(savedChats)
      ensures location == old(location) && reloads == old(reloads)
    {
      if HasArticle(savedArticles, articleId) {
        return false;
      }
      ghost var before := savedArticles;
      savedArticles := savedArticles + [SavedArticle(articleId, title, now)];
      assert forall i :: 0 <= i < |before| ==> savedArticles[i] == before[i];
      return true;
    }

    /** `getSavedArticles`: `[]` when rendered on the server. */
    function GetSavedArticles(onServer: bool): (r: seq<SavedArticle>)
      reads this
      ensures onServer ==> r == []
      ensures !onServer ==> r == savedArticles
    {
      if onServer then [] else savedArticles
    }

    /** `removeSavedArticle`: drops every entry with the id; always answers `true`. */
    method RemoveSavedArticle(articleId: string) returns (ok: bool)
      modifies this
      ensures old(Valid()) ==> Valid()
      ensures ok
      ensures savedArticles == WithoutArticle(old(savedArticles), articleId)
      ensures favorites == old(favorites) && chats == old(chats) && savedChats == old(savedChats)
      ensures location == old(location) && reloads == old(reloads)
    {
      if UniqueArticles(savedArticles) {
        RemoveKeepsUnique(savedArticles, articleId);
      }
      savedArticles := WithoutArticle(savedArticles, articleId);
      return true;
    }

    /**
     * `navigateEditions`: goes to the neighbouring edition, clamped to
     * 1..10, and answers `true`; answers `false` and stays when the clamp
     * leaves the number unchanged.
     */
    method NavigateEditions(direction: Direction, currentEditionId: string) returns (moved: bool)
      modifies this
      ensures var n := EditionNumber(currentEditionId);
        && moved == Moves(EditionTarget(direction, n), n)
        && location == if moved then EditionHref(EditionTarget(direction, n)) else old(location)
      ensures savedArticles == old(savedArticles) && favorites == old(favorites)
      ensures chats == old(chats) && savedChats == old(savedChats) && reloads == old(reloads)
    {
      var editionNumber := EditionNumber(currentEditionId);
      var targetEdition := EditionTarget(direction, editionNumber);
      if Moves(targetEdition, editionNumber) {
        location := EditionHref(targetEdition);
        return true;
      }
      return false;
    }

    /** `toggleFavorite`: removes the item from its type's list when there, adds it otherwise. */
    method ToggleFavorite(itemId: string, itemType: ItemType, title: string, now: string) returns (ok: bool)
      modifies this
      ensures old(Valid()) ==> Valid()
      ensures ok
      ensures favorites == old(favorites)[itemType := Toggled(ListOf(old(favorites), itemType), itemId, title, now)]
      ensures savedArticles == old(savedArticles) && chats == old(chats) && savedChats == old(savedChats)
      ensures location == old(location) && reloads == old(reloads)
    {
      var list := if itemType in favorites then favorites[itemType] else [];
      list := ToggleList(list, itemId, title, now);
      if UniqueFavorites(ListOf(favorites, itemType)) {
        ToggleFlips(ListOf(favorites, itemType), itemId, title, now);
      }
      favorites := favorites[itemType := list];
      return true;
    }

    /** `isFavorited`. */
    function IsFavorited(itemId: string, itemType: ItemType): (r: bool)
      reads this
      ensures r <==> itemType in favorites && HasFavorite(favorites[itemType], itemId)
    {
      if itemType !in favorites then false
      else HasFavorite(favorites[itemType], itemId)
    }

    /**
     * `clearChat`: removes the session's transcript, or `currentChat`
     * without a session parameter, and reloads the page.
     */
    method ClearChat(sessionParam: Option<string>) returns (ok: bool)
      modifies this
      ensures old(Valid()) ==> Valid()
      ensures ok && reloads == old(reloads) + 1
      ensures chats == old(chats) - {if Truthy(sessionParam) then ChatKey(sessionParam.value) else CURRENT_CHAT}
      ensures savedArticles == old(savedArticles) && favorites == old(favorites) && savedChats == old(savedChats)
      ensures location == old(location)
    {
      if Truthy(sessionParam) {
        chats := chats - {ChatKey(sessionParam.value)};
      } else {
        chats := chats - {CURRENT_CHAT};
      }
      reloads := reloads + 1;
      return true;
    }

    /**
     * `saveChat`: copies the session's transcript into `savedChats`;
     * refuses when there is none.
     */
    method SaveChat(sessionParam: Option<string>, now: nat, stamp: string) returns (saved: bool)
      modifies this
      ensures old(Valid()) ==> Valid()
      ensures var id := SessionIdFor(sessionParam, now);
        var messages := StoredMessages(old(chats), ChatKey(id));
        && (saved <==> |messages| > 0)
        && savedChats == if saved then SavedChats(old(savedChats), id, messages, stamp) else old(savedChats)
      ensures savedArticles == old(savedArticles) && favorites == old(favorites) && chats == old(chats)
      ensures location == old(location) && reloads == old(reloads)
    {
      var sessionId := SessionIdFor(sessionParam, now);
      var chatMessages := StoredMessages(chats, ChatKey(sessionId));
      if |chatMessages| == 0 {
        return false;
      }
      if UniqueChats(savedChats) {
        SaveChatKeepsOnePerSession(savedChats, sessionId, chatMessages, stamp);
      }
      savedChats := SavedChats(savedChats, sessionId, chatMessages, stamp);
      return true;
    }
  }

  /** After `clearChat` on a session, `saveChat` on it finds nothing to save. */
  lemma {:induction false} ClearedChatNotSaved(chats: map<string, seq<string>>, sessionId: string, now: nat)
    requires sessionId != ""
    ensures StoredMessages(chats - {ChatKey(sessionId)}, ChatKey(SessionIdFor(Some(sessionId), now))) == []
  {
  }
}
