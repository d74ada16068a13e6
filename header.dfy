/**
 * `components/header.tsx`: the floating navigation. What it shows is a
 * function of the path (`currentPage`, `showSubscribe`, `getPageActions`);
 * the two toggled panels and the scroll position are the `Header` object.
 * Page actions are modelled by their labels; what each one does (alerts,
 * share, clipboard) is not modelled.
 */
module Header {
  import opened Text

  datatype NavItem = NavItem(caption: string, href: string)

  const BACK_TO_TOP_AFTER := 300

  function NavItems(): (items: seq<NavItem>)
    ensures |items| == 5
    ensures items[0] == NavItem("Home", "/")
  {
    [NavItem("Home", "/"), NavItem("Articles", "/articles"), NavItem("Editions", "/editions"),
     NavItem("Chat", "/chat"), NavItem("Exclusive", "/exclusive")]
  }

  /** `item.href === pathname || pathname.startsWith(item.href + "/")`. */
  predicate IsCurrent(item: NavItem, pathname: string)
  {
    item.href == pathname || IsPrefix(item.href + "/", pathname)
  }

  /** `navItems.find(...)`: the index of the first current item, or -1. */
  function FindCurrent(items: seq<NavItem>, pathname: string): (k: int)
    ensures -1 <= k < |items|
    ensures k >= 0 ==> IsCurrent(items[k], pathname) && forall j :: 0 <= j < k ==> !IsCurrent(items[j], pathname)
    ensures k == -1 ==> forall j :: 0 <= j < |items| ==> !IsCurrent(items[j], pathname)
  {
    if |items| == 0 then -1
    else if IsCurrent(items[0], pathname) then 0
    else
      var k := FindCurrent(items[1..], pathname);
      if k == -1 then -1 else k + 1
  }

  /** `currentPage`: the first current item, Home when none is. */
  function CurrentPage(pathname: string): (item: NavItem)
    ensures item in NavItems()
    ensures item != NavItems()[0] ==> IsCurrent(item, pathname)
  {
    var k := FindCurrent(NavItems(), pathname);
    if k >= 0 then NavItems()[k] else NavItems()[0]
  }

  /** `showSubscribe`. */
  predicate ShowSubscribe(pathname: string)
  {
    pathname == "/" || pathname == "/articles" || pathname == "/editions"
  }

  /** An item naming the path exactly, after items that are not current, is the current page. */
  lemma ExactItemCurrent(pathname: string, k: nat)
    requires k < |NavItems()| && NavItems()[k].href == pathname
    requires forall j :: 0 <= j < k ==> !IsCurrent(NavItems()[j], pathname)
    ensures CurrentPage(pathname) == NavItems()[k]
  {
    var items := NavItems();
    assert IsCurrent(items[k], pathname);
    var c := FindCurrent(items, pathname);
    assert c != -1;
    assert !(c < k);
  }

  /** The subscribe button shows only on a page a nav item names exactly: the item is the current page, and no article or edition below an index gets it. */
  lemma SubscribeOnNavPages(pathname: string)
    requires ShowSubscribe(pathname)
    ensures CurrentPage(pathname).href == pathname
    ensures !IsPrefix("/articles/", pathname) && !IsPrefix("/editions/", pathname)
  {
    if pathname == "/" {
      RootIsHome();
    } else if pathname == "/articles" {
      ArticlesIndexIsArticles();
    } else {
      EditionsIndexIsEditions();
    }
  }

  /** On "/" Home is current and neither index prefix matches. */
  lemma RootIsHome()
    ensures CurrentPage("/") == NavItems()[0]
    ensures !IsPrefix("/articles/", "/") && !IsPrefix("/editions/", "/")
  {
    ExactItemCurrent("/", 0);
    IsPrefixSlice("/articles/", "/");
    IsPrefixSlice("/editions/", "/");
  }

  /** On "/articles" Articles is current and neither index prefix matches. */
  lemma ArticlesIndexIsArticles()
    ensures CurrentPage("/articles") == NavItems()[1]
    ensures !IsPrefix("/articles/", "/articles") && !IsPrefix("/editions/", "/articles")
  {
    var p := "/articles";
    var items := NavItems();
    assert !IsCurrent(items[0], p) by {
      assert items[0].href + "/" == "//";
      DiffersAt("//", p, 1);
    }
    ExactItemCurrent(p, 1);
    IsPrefixSlice("/articles/", p);
    DiffersAt("/editions/", p, 1);
  }

  /** On "/editions" Editions is current and neither index prefix matches. */
  lemma EditionsIndexIsEditions()
    ensures CurrentPage("/editions") == NavItems()[2]
    ensures !IsPrefix("/articles/", "/editions") && !IsPrefix("/editions/", "/editions")
  {
    var p := "/editions";
    var items := NavItems();
    assert !IsCurrent(items[0], p) by {
      assert items[0].href + "/" == "//";
      DiffersAt("//", p, 1);
    }
    assert !IsCurrent(items[1], p) by {
      assert items[1].href + "/" == "/articles/";
      DiffersAt("/articles/", p, 1);
    }
    ExactItemCurrent(p, 2);
    DiffersAt("/articles/", p, 1);
    IsPrefixSlice("/editions/", p);
  }

  /** `getPageActions()`, by label: the first matching path test wins. */
  function PageActions(pathname: string): (labels: seq<string>)
    ensures |labels| >= 2
  {
    if IsPrefix("/articles/", pathname) then ["Share", "Save", "Listen", "Copy Link"]
    else if IsPrefix("/editions", pathname) then ["Download", "Previous", "Next", "Favorite"]
    else if IsPrefix("/chat", pathname) then ["New Chat", "Clear", "Save", "Share"]
    else if IsPrefix("/about", pathname) then ["Share", "Contact"]
    else if IsPrefix("/subscribe", pathname) then ["Options", "Support"]
    else if IsPrefix("/quiz", pathname) then ["Save Results", "Share Results", "Restart"]
    else if pathname == "/" then ["Search", "Filter", "Favorites"]
    else ["Share", "Home"]
  }

  /**
   * An article page is current under Articles and gets the article
   * actions; the article index itself gets the default actions, since the
   * article test needs the trailing slash.
   */
  lemma {:induction false} ArticlePaths(slug: string)
    ensures CurrentPage("/articles/" + slug) == NavItem("Articles", "/articles")
    ensures PageActions("/articles/" + slug) == ["Share", "Save", "Listen", "Copy Link"]
    ensures PageActions("/articles") == ["Share", "Home"]
  {
    PrefixOfAppend("/articles/", slug);
    assert !IsCurrent(NavItem("Home", "/"), "/articles/" + slug) by {
      assert ("/articles/" + slug)[1] == 'a';
      IsPrefixSlice("//", "/articles/" + slug);
    }
    var items := NavItems();
    assert items[1].href + "/" == "/articles/";
    assert IsCurrent(items[1], "/articles/" + slug);
    assert FindCurrent(items, "/articles/" + slug) == 1;
    IsPrefixSlice("/articles/", "/articles");
    IsPrefixSlice("/editions", "/articles");
    IsPrefixSlice("/chat", "/articles");
    IsPrefixSlice("/about", "/articles");
    IsPrefixSlice("/subscribe", "/articles");
    IsPrefixSlice("/quiz", "/articles");
  }

  /** The home actions are shown on the root page and nowhere else. */
  lemma {:induction false} HomeActionsOnlyAtRoot(pathname: string)
    ensures PageActions(pathname) == ["Search", "Filter", "Favorites"] <==> pathname == "/"
  {
    if pathname == "/" {
      IsPrefixSlice("/articles/", pathname);
      IsPrefixSlice("/editions", pathname);
      IsPrefixSlice("/chat", pathname);
      IsPrefixSlice("/about", pathname);
      IsPrefixSlice("/subscribe", pathname);
      IsPrefixSlice("/quiz", pathname);
    } else {
      var labels := PageActions(pathname);
      assert labels[0] != "Search" || |labels| != 3 || labels[2] != "Favorites";
    }
  }

  /**
   * A path that extends the Chat href without a slash (`/chatroom`) is not
   * under Chat: the header falls back to Home, yet it still gets the chat
   * actions, whose path test has no trailing slash.
   */
  lemma {:induction false} NoPartialSegment(rest: string)
    requires |rest| > 0 && rest[0] != '/'
    ensures CurrentPage("/chat" + rest) == NavItems()[0]
    ensures PageActions("/chat" + rest) == ["New Chat", "Clear", "Save", "Share"]
  {
    var p := "/chat" + rest;
    var items := NavItems();
    assert p[1] == 'c' && p[5] == rest[0];
    DiffersAt("//", p, 1);
    DiffersAt("/articles/", p, 1);
    DiffersAt("/editions/", p, 1);
    DiffersAt("/chat/", p, 5);
    DiffersAt("/exclusive/", p, 1);
    assert !IsCurrent(items[0], p) by { assert items[0].href + "/" == "//"; }
    assert !IsCurrent(items[1], p) by { assert items[1].href + "/" == "/articles/"; }
    assert !IsCurrent(items[2], p) by { assert items[2].href + "/" == "/editions/"; }
    assert !IsCurrent(items[3], p) by { assert items[3].href + "/" == "/chat/"; }
    assert !IsCurrent(items[4], p) by { assert items[4].href + "/" == "/exclusive/"; }
    assert FindCurrent(items, p) == -1;
    DiffersAt("/editions", p, 1);
    PrefixOfAppend("/chat", rest);
  }

  class Header {
    const pathname: string
    var isOpen: bool
    var showPageActions: bool
    var scrollPosition: int

    /** At most one of the two panels is open. */
    ghost predicate Valid()
      reads this
    {
      !(isOpen && showPageActions)
    }

    constructor (pathname: string)
      ensures Valid() && this.pathname == pathname
      ensures !isOpen && !showPageActions && scrollPosition == 0
    {
      this.pathname := pathname;
      isOpen := false;
      showPageActions := false;
      scrollPosition := 0;
    }

    /** The main button: flips the menu and closes the page actions. */
    method ToggleMenu()
      requires Valid()
      modifies this
      ensures Valid()
      ensures isOpen == !old(isOpen) && !showPageActions && scrollPosition == old(scrollPosition)
    {
      isOpen := !isOpen;
      showPageActions := false;
    }

    /** The secondary button: flips the page actions and closes the menu. */
    method TogglePageActions()
      requires Valid()
      modifies this
      ensures Valid()
      ensures showPageActions == !old(showPageActions) && !isOpen && scrollPosition == old(scrollPosition)
    {
      showPageActions := !showPageActions;
      isOpen := false;
    }

    /** A page action's button: runs the action (not modelled) and closes the panel. */
    method RunPageAction(index: nat)
      requires Valid()
      requires index < |PageActions(pathname)|
      modifies this
      ensures Valid()
      ensures !showPageActions && isOpen == old(isOpen) && scrollPosition == old(scrollPosition)
    {
      showPageActions := false;
    }

    /** A nav link or the subscribe link: closes the menu. */
    method FollowLink()
      requires Valid()
      modifies this
      ensures Valid()
      ensures !isOpen && showPageActions == old(showPageActions) && scrollPosition == old(scrollPosition)
    {
      isOpen := false;
    }

    /** The scroll listener. */
    method Scroll(y: int)
      requires Valid()
      modifies this
      ensures Valid()
      ensures scrollPosition == y && isOpen == old(isOpen) && showPageActions == old(showPageActions)
      ensures BackToTopVisible() <==> y > BACK_TO_TOP_AFTER
    {
      scrollPosition := y;
    }

    /** The secondary button shows whenever the menu is closed, because every page has actions. */
    function SecondaryVisible(): (r: bool)
      reads this
      ensures r <==> !isOpen
    {
      !isOpen && |PageActions(pathname)| > 0
    }

    /** The back-to-top button. */
    predicate BackToTopVisible()
      reads this
    {
      scrollPosition > BACK_TO_TOP_AFTER
    }
  }
}
