/** Exporting every page of the navigation tree once, in the order of its first appearance. */
module LlmsExport {
  import opened Options

  // ---------------------------------------------------------------- the navigation tree

  /** The items of the navigation dictionaries, taken together in order. */
  datatype Item = Leaf(title: string, destination: string) | Branch(title: string, items: seq<Item>)

  datatype Page = Page(section: string, title: string, source: string)

  predicate IsAlpha(c: char) {
    'a' <= c <= 'z' || 'A' <= c <= 'Z'
  }

  predicate IsSchemeChar(c: char) {
    IsAlpha(c) || '0' <= c <= '9' || c == '+' || c == '-' || c == '.'
  }

  /** Leading control characters and spaces are dropped, and tabs and line ends anywhere. */
  function Cleaned(url: string): string {
    if url != "" && url[0] <= ' ' then Cleaned(url[1..]) else WithoutLineEnds(url)
  }

  function WithoutLineEnds(s: string): string {
    if s == "" then ""
    else if s[0] == '\t' || s[0] == '\r' || s[0] == '\n' then WithoutLineEnds(s[1..])
    else [s[0]] + WithoutLineEnds(s[1..])
  }

  /** `urlsplit(destination).scheme` is not empty. */
  predicate HasScheme(destination: string) {
    var url := Cleaned(destination);
    exists i :: 0 < i < |url| && url[i] == ':' && IsAlpha(url[0]) && forall k :: 0 <= k < i ==> IsSchemeChar(url[k])
  }

  /** A Markdown file of this checkout, and not a link elsewhere. */
  predicate IsLocalPage(destination: string) {
    |destination| >= 3 && destination[|destination| - 3..] == ".md" && !HasScheme(destination)
  }

  function JoinTitles(titles: seq<string>): string {
    if titles == [] then ""
    else if |titles| == 1 then titles[0]
    else titles[0] + ": " + JoinTitles(titles[1..])
  }

  /** A page below these parent titles: the outermost is its section, the others prefix its own title. */
  function PageAt(parents: seq<string>, title: string, source: string): Page {
    Page(if parents == [] then "Overview" else parents[0],
         JoinTitles((if parents == [] then [] else parents[1..]) + [title]), source)
  }

  /** `navigation_pages`. */
  function NavigationPages(items: seq<Item>, parents: seq<string>): seq<Page>
    decreases items
  {
    if items == [] then []
    else
      (match items[0]
       case Leaf(title, source) => if IsLocalPage(source) then [PageAt(parents, title, source)] else []
       case Branch(title, below) => NavigationPages(below, parents + [title])) +
      NavigationPages(items[1..], parents)
  }

  // ---------------------------------------------------------------- which destinations are pages

  /** A page is a destination that ends in ".md" and that, once cleaned, opens with no letter-led scheme and colon. */
  lemma LocalPagesExactly(destination: string)
    ensures IsLocalPage(destination) <==>
            && (exists stem: string :: destination == stem + ".md")
            && !exists scheme: string, rest: string ::
                  Cleaned(destination) == scheme + ":" + rest && NamesScheme(scheme)
  {
    var url := Cleaned(destination);
    SchemeIff(url);
    if |destination| >= 3 && destination[|destination| - 3..] == ".md" {
      assert destination == destination[..|destination| - 3] + ".md";
    }
    hide Cleaned, NamesScheme;
  }

  predicate IsLetter(c: char) {
    c in "abcdefghijklmnopqrstuvwxyz" || c in "ABCDEFGHIJKLMNOPQRSTUVWXYZ"
  }

  predicate NamesScheme(scheme: string) {
    && scheme != "" && IsLetter(scheme[0])
    && forall i :: 0 <= i < |scheme| ==> IsLetter(scheme[i]) || scheme[i] in "0123456789+-."
  }

  lemma LowerLetters(c: char)
    ensures 'a' <= c <= 'z' <==> c in "abcdefghijklmnopqrstuvwxyz"
  {
  }

  lemma UpperLetters(c: char)
    ensures 'A' <= c <= 'Z' <==> c in "ABCDEFGHIJKLMNOPQRSTUVWXYZ"
  {
  }

  lemma SchemeChars(c: char)
    ensures IsAlpha(c) <==> IsLetter(c)
    ensures IsSchemeChar(c) <==> IsLetter(c) || c in "0123456789+-."
  {
    LowerLetters(c);
    UpperLetters(c);
  }

  lemma SchemeNamed(scheme: string)
    ensures NamesScheme(scheme) <==>
            scheme != "" && IsAlpha(scheme[0]) && forall k :: 0 <= k < |scheme| ==> IsSchemeChar(scheme[k])
  {
    forall c ensures IsAlpha(c) <==> IsLetter(c)
             ensures IsSchemeChar(c) <==> IsLetter(c) || c in "0123456789+-."
    {
      SchemeChars(c);
    }
    hide IsAlpha, IsLetter, IsSchemeChar;
  }

  lemma SchemeIff(url: string)
    ensures (exists i :: 0 < i < |url| && url[i] == ':' && IsAlpha(url[0]) &&
                         forall k :: 0 <= k < i ==> IsSchemeChar(url[k])) <==>
            exists scheme: string, rest: string :: url == scheme + ":" + rest && NamesScheme(scheme)
  {
    hide IsAlpha, IsSchemeChar, NamesScheme;
    if i :| 0 < i < |url| && url[i] == ':' && IsAlpha(url[0]) && forall k :: 0 <= k < i ==> IsSchemeChar(url[k]) {
      assert url == url[..i] + ":" + url[i + 1..];
      SchemeNamed(url[..i]);
    }
    if scheme: string, rest: string :| url == scheme + ":" + rest && NamesScheme(scheme) {
      SchemeNamed(scheme);
      assert forall k :: 0 <= k < |scheme| ==> url[k] == scheme[k];
      assert url[|scheme|] == ':';
    }
  }

  /** What cleaning drops: everything up to the first character beyond the space, and every tab and line end. */
  lemma {:induction false} CleanedExactly(blanks: string, url: string)
    requires (forall i :: 0 <= i < |blanks| ==> blanks[i] <= ' ') && (url == "" || url[0] > ' ')
    ensures Cleaned(blanks + url) == WithoutLineEnds(url)
  {
    if blanks != "" {
      assert (blanks + url)[1..] == blanks[1..] + url;
      CleanedExactly(blanks[1..], url);
    } else {
      assert blanks + url == url;
    }
  }

  lemma {:induction false} LineEndsExactly(a: string, b: string)
    ensures WithoutLineEnds(a + b) == WithoutLineEnds(a) + WithoutLineEnds(b)
    ensures forall c :: WithoutLineEnds([c]) == if c in "\t\r\n" then "" else [c]
  {
    if a == "" {
      assert a + b == b;
    } else {
      assert (a + b)[1..] == a[1..] + b;
      LineEndsExactly(a[1..], b);
    }
  }

  // ---------------------------------------------------------------- how they are labelled

  lemma {:induction false} JoinMore(titles: seq<string>, title: string)
    ensures JoinTitles(titles + [title]) == if titles == [] then title else JoinTitles(titles) + ": " + title
  {
    if titles != [] {
      assert (titles + [title])[1..] == titles[1..] + [title];
      JoinMore(titles[1..], title);
    }
  }

  /** A page at the top is in the overview; any other is in the section of its outermost title, and its label names the
    * titles below that and its own, one after the other. */
  lemma PagesAreLabelled(section: string, between: seq<string>, title: string, source: string)
    ensures PageAt([], title, source) == Page("Overview", title, source)
    ensures PageAt([section], title, source) == Page(section, title, source)
    ensures between != [] ==>
              PageAt([section] + between, title, source) == Page(section, JoinTitles(between) + ": " + title, source)
  {
    JoinMore([], title);
    JoinMore(between, title);
    assert [section][1..] == [] && ([section] + between)[1..] == between;
  }

  // ---------------------------------------------------------------- which pages are listed

  /** Following item positions from the top leads to this page. */
  predicate Leads(items: seq<Item>, parents: seq<string>, path: seq<nat>, page: Page)
    decreases path
  {
    && path != [] && path[0] < |items|
    && match items[path[0]]
       case Leaf(title, source) => |path| == 1 && IsLocalPage(source) && page == PageAt(parents, title, source)
       case Branch(title, below) => Leads(below, parents + [title], path[1..], page)
  }

  /** Exactly the local pages of the tree are listed, each with the titles on the way to it. */
  lemma ListedIff(items: seq<Item>, parents: seq<string>, page: Page)
    ensures page in NavigationPages(items, parents) <==> exists path :: Leads(items, parents, path, page)
  {
    if page in NavigationPages(items, parents) {
      var path := PathOf(items, parents, page);
      assert exists p :: Leads(items, parents, p, page);
    } else {
      forall path | Leads(items, parents, path, page) ensures false {
        PathIsListed(items, parents, path, page);
      }
    }
  }

  lemma {:induction false} PathIsListed(items: seq<Item>, parents: seq<string>, path: seq<nat>, page: Page)
    requires Leads(items, parents, path, page)
    ensures page in NavigationPages(items, parents)
    decreases items
  {
    if path[0] > 0 {
      var rest := [path[0] - 1] + path[1..];
      assert rest[1..] == path[1..] && items[path[0]] == items[1..][rest[0]];
      PathIsListed(items[1..], parents, rest, page);
    } else if items[0].Branch? {
      PathIsListed(items[0].items, parents + [items[0].title], path[1..], page);
    }
  }

  lemma {:induction false} PathOf(items: seq<Item>, parents: seq<string>, page: Page) returns (path: seq<nat>)
    requires page in NavigationPages(items, parents)
    ensures Leads(items, parents, path, page)
    decreases items
  {
    if page in NavigationPages(items[1..], parents) {
      var rest := PathOf(items[1..], parents, page);
      path := [rest[0] + 1] + rest[1..];
      assert path[1..] == rest[1..] && items[path[0]] == items[1..][rest[0]];
    } else if items[0].Leaf? {
      path := [0];
    } else {
      var rest := PathOf(items[0].items, parents + [items[0].title], page);
      path := [0] + rest;
      assert path[1..] == rest;
    }
  }

  // ---------------------------------------------------------------- the exports

  predicate Has(pages: seq<Page>, source: string) {
    exists i :: 0 <= i < |pages| && pages[i].source == source
  }

  /** The pages whose source did not appear before. */
  function Firsts(pages: seq<Page>): seq<Page> {
    if pages == [] then []
    else
      var before := pages[..|pages| - 1];
      var last := pages[|pages| - 1];
      Firsts(before) + if Has(before, last.source) then [] else [last]
  }

  /** A line of the index: a section heading or the link of a page. */
  datatype Line = Heading(section: string) | Link(page: Page)

  function Links(index: seq<Line>): seq<Page> {
    if index == [] then []
    else
      var last := index[|index| - 1];
      Links(index[..|index| - 1]) + if last.Link? then [last.page] else []
  }

  /** The section that a reader of the index is in; at the start it has no name. */
  function CurrentSection(index: seq<Line>): string {
    if index == [] then ""
    else
      var last := index[|index| - 1];
      if last.Heading? then last.section else CurrentSection(index[..|index| - 1])
  }

  /** Every link stands under the heading of its section. */
  predicate WellHeaded(index: seq<Line>) {
    forall k :: 0 <= k < |index| && index[k].Link? ==> CurrentSection(index[..k]) == index[k].page.section
  }

  /** No heading repeats the one before it. */
  predicate NoRepeatedHeading(index: seq<Line>) {
    forall k :: 0 <= k < |index| && index[k].Heading? ==> CurrentSection(index[..k]) != index[k].section
  }

  datatype Export = Export(index: seq<Line>, full: seq<Page>)

  /** The loop of `generate`; None is the `ValueError` for a page that is not a documentation page. */
  method CollectPages(pages: seq<Page>, isPage: string -> bool) returns (r: Option<Export>)
    ensures r.None? <==> exists i :: 0 <= i < |pages| && !isPage(pages[i].source)
    ensures r.Some? ==>
              && r.value.full == Firsts(pages) && Links(r.value.index) == Firsts(pages)
              && WellHeaded(r.value.index) && NoRepeatedHeading(r.value.index)
  {
    hide Firsts, Links, WellHeaded, NoRepeatedHeading, CurrentSection, Has;
    StartsEmpty(pages);
    var index: seq<Line>, full: seq<Page> := [], [];
    var seen: set<string> := {};
    var currentSection := "";
    for i := 0 to |pages|
      invariant forall source :: source in seen <==> Has(pages[..i], source)
      invariant forall k :: 0 <= k < i ==> isPage(pages[k].source)
      invariant full == Firsts(pages[..i]) && Links(index) == full
      invariant WellHeaded(index) && NoRepeatedHeading(index) && currentSection == CurrentSection(index)
    {
      var page := pages[i];
      HasGrows(pages, i);
      if page.source !in seen {
        seen := seen + {page.source};
        if !isPage(page.source) {
          return None;
        }
        if page.section != currentSection {
          AddLine(index, Heading(page.section));
          index := index + [Heading(page.section)];
          currentSection := page.section;
        }
        AddLine(index, Link(page));
        index := index + [Link(page)];
        full := full + [page];
      } else {
        SeenBefore(pages, i, isPage);
      }
    }
    assert pages[..|pages|] == pages;
    r := Some(Export(index, full));
  }

  lemma StartsEmpty(pages: seq<Page>)
    ensures Firsts(pages[..0]) == [] && forall source :: !Has(pages[..0], source)
    ensures Links([]) == [] && WellHeaded([]) && NoRepeatedHeading([]) && CurrentSection([]) == ""
  {
  }

  lemma HasGrows(pages: seq<Page>, i: nat)
    requires i < |pages|
    ensures forall source :: Has(pages[..i + 1], source) <==> Has(pages[..i], source) || source == pages[i].source
    ensures Firsts(pages[..i + 1]) == Firsts(pages[..i]) + if Has(pages[..i], pages[i].source) then [] else [pages[i]]
  {
    assert pages[..i + 1][..i] == pages[..i];
    forall source ensures Has(pages[..i + 1], source) <==> Has(pages[..i], source) || source == pages[i].source {
      if k :| 0 <= k < i && pages[..i][k].source == source {
        assert pages[..i + 1][k].source == source;
      }
      if source == pages[i].source {
        assert pages[..i + 1][i].source == source;
      }
    }
  }

  lemma SeenBefore(pages: seq<Page>, i: nat, isPage: string -> bool)
    requires i < |pages| && Has(pages[..i], pages[i].source)
    requires forall k :: 0 <= k < i ==> isPage(pages[k].source)
    ensures isPage(pages[i].source)
  {
  }

  lemma AddLine(index: seq<Line>, line: Line)
    ensures Links(index + [line]) == Links(index) + if line.Link? then [line.page] else []
    ensures CurrentSection(index + [line]) == if line.Heading? then line.section else CurrentSection(index)
    ensures WellHeaded(index) && (line.Link? ==> CurrentSection(index) == line.page.section) ==>
        WellHeaded(index + [line])
    ensures NoRepeatedHeading(index) && (line.Heading? ==> CurrentSection(index) != line.section) ==>
              NoRepeatedHeading(index + [line])
  {
    assert (index + [line])[..|index|] == index;
    forall k | 0 <= k < |index| ensures (index + [line])[..k] == index[..k] { }
  }

  // ---------------------------------------------------------------- main results

  /** Every source of the navigation is exported exactly once. */
  lemma {:induction false} ExportedOnce(pages: seq<Page>)
    ensures forall source :: Has(pages, source) <==> Has(Firsts(pages), source)
    ensures forall i, j :: 0 <= i < j < |Firsts(pages)| ==> Firsts(pages)[i].source != Firsts(pages)[j].source
  {
    if pages != [] {
      var last := |pages| - 1;
      var before := pages[..last];
      ExportedOnce(before);
      HasGrows(pages, last);
      assert pages[..last + 1] == pages;
      var kept := Firsts(before);
      forall source ensures Has(Firsts(pages), source) <==> Has(kept, source) || source == pages[last].source {
        if Has(before, pages[last].source) {
          assert Firsts(pages) == kept;
        } else {
          HasGrows(Firsts(pages), |kept|);
          assert Firsts(pages)[..|kept|] == kept && Firsts(pages)[..|kept| + 1] == Firsts(pages);
        }
      }
      forall j | 0 <= j < |kept| && !Has(before, pages[last].source) ensures kept[j].source != pages[last].source {
        assert Has(kept, kept[j].source);
      }
    }
  }

  predicate IsFirst(pages: seq<Page>, i: nat)
    requires i < |pages|
  {
    !Has(pages[..i], pages[i].source)
  }

  /** A first occurrence is exported after exactly as many pages as were first before it. */
  lemma {:induction false} FirstRank(pages: seq<Page>, i: nat)
    requires i < |pages| && IsFirst(pages, i)
    ensures var rank := |Firsts(pages[..i])|;
            rank < |Firsts(pages)| && Firsts(pages)[rank] == pages[i]
    decreases |pages|
  {
    var last := |pages| - 1;
    HasGrows(pages, last);
    assert pages[..last + 1] == pages;
    if i < last {
      assert pages[..last][..i] == pages[..i];
      FirstRank(pages[..last], i);
    }
  }

  lemma {:induction false} RanksGrow(pages: seq<Page>, i: nat, j: nat)
    requires i < j <= |pages| && IsFirst(pages, i)
    ensures |Firsts(pages[..i])| < |Firsts(pages[..j])|
  {
    HasGrows(pages, j - 1);
    if i < j - 1 {
      RanksGrow(pages, i, j - 1);
    }
  }

  /** The export keeps the order of first appearance: of two first occurrences, the earlier is exported earlier. */
  lemma FirstAppearanceOrder(pages: seq<Page>, i: nat, j: nat)
    requires i < j < |pages| && IsFirst(pages, i) && IsFirst(pages, j)
    ensures var exported := Firsts(pages);
            var a, b := |Firsts(pages[..i])|, |Firsts(pages[..j])|;
            a < b < |exported| && exported[a] == pages[i] && exported[b] == pages[j]
  {
    FirstRank(pages, i);
    FirstRank(pages, j);
    RanksGrow(pages, i, j);
  }

  /** From the tree to the export: a source is exported just when some path leads to a local page with it. */
  lemma ExportedIffInTree(items: seq<Item>, source: string)
    ensures Has(Firsts(NavigationPages(items, [])), source) <==>
            exists path, page :: Leads(items, [], path, page) && page.source == source
  {
    var pages := NavigationPages(items, []);
    ExportedOnce(pages);
    if Has(pages, source) {
      var i :| 0 <= i < |pages| && pages[i].source == source;
      ListedIff(items, [], pages[i]);
      assert pages[i] in pages;
    }
    if path, page :| Leads(items, [], path, page) && page.source == source {
      PathIsListed(items, [], path, page);
      var i :| 0 <= i < |pages| && pages[i] == page;
      assert pages[i].source == source;
    }
  }
}
