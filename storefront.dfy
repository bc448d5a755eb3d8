/** The storefront page: the visible-product filter, the gallery buttons, the image error latch
    and the view state of the page with its event handlers. */
module Storefront {
  import opened Text
  import opened Seqs
  import opened Types
  import opened Catalog

  // ---------------------------------------------------------------------------------------
  // The visible-product filter

  /** `p.name.toLowerCase().includes(searchQuery.toLowerCase())`: the query is lower-cased but
      not trimmed. */
  predicate MatchesSearch(p: Product, query: string)
  {
    Contains(Lower(p.name), Lower(query))
  }

  /** The callback `filteredProducts` hands to `products.filter`: a query that is not blank after
      trimming searches every tab; otherwise the product must also be in the active tab. Both
      branches test the untrimmed query. */
  predicate IsShown(p: Product, tab: Category, query: string)
  {
    if Trim(query) != [] then MatchesSearch(p, query)
    else p.category == tab && MatchesSearch(p, query)
  }

  function Shown(tab: Category, query: string): Product -> bool {
    (p: Product) => IsShown(p, tab, query)
  }

  /** Every product matches the empty query, and none matches a query longer than its name. */
  lemma MatchesSearchBound(p: Product, query: string)
    ensures MatchesSearch(p, "")
    ensures MatchesSearch(p, query) ==> |query| <= |p.name|
  {
    ContainsEmpty(Lower(p.name));
    ContainsBound(Lower(p.name), Lower(query));
  }

  /** With the empty query the callback keeps exactly the products of the active tab. */
  lemma ShownEmptyQuery(p: Product, tab: Category)
    ensures IsShown(p, tab, "") <==> p.category == tab
  {
    ContainsEmpty(Lower(p.name));
  }

  function Matching(query: string): Product -> bool {
    (p: Product) => MatchesSearch(p, query)
  }

  function InTab(tab: Category): Product -> bool {
    (p: Product) => p.category == tab
  }

  /** `filteredProducts`: the products of `catalog` the grid shows for this tab and query. */
  function FilteredProducts(catalog: seq<Product>, tab: Category, query: string): (r: seq<Product>)
    ensures |r| <= |catalog|
    ensures forall i :: 0 <= i < |r| ==> IsShown(r[i], tab, query)
  {
    Keep(catalog, Shown(tab, query))
  }

  /** The grid is the catalog read at exactly the positions of the products it shows, in
      catalog order: a subsequence that keeps every shown product and drops every other. */
  lemma FilteredIsSubsequence(catalog: seq<Product>, tab: Category, query: string)
    ensures exists idx :: IsEmbedding(idx, FilteredProducts(catalog, tab, query), catalog)
                         && forall j :: 0 <= j < |catalog| ==> (j in idx <==> IsShown(catalog[j], tab, query))
  {
    var f := Shown(tab, query);
    KeepExact(catalog, f);
    var idx := KeptPositions(catalog, f);
    assert FilteredProducts(catalog, tab, query) == Keep(catalog, f);
    assert IsEmbedding(idx, FilteredProducts(catalog, tab, query), catalog);
    assert forall j :: 0 <= j < |catalog| ==> (j in idx <==> IsShown(catalog[j], tab, query));
  }

  lemma FilteredMembership(catalog: seq<Product>, tab: Category, query: string, p: Product)
    ensures p in FilteredProducts(catalog, tab, query) <==> p in catalog && IsShown(p, tab, query)
  {
    KeepMembership(catalog, Shown(tab, query), p);
  }

  /** A query that is not blank after trimming overrides the tab: the grid is the products whose
      lower-cased name contains the lower-cased, untrimmed query, whatever the tab. */
  lemma SearchIgnoresTab(catalog: seq<Product>, tab: Category, query: string)
    requires Trim(query) != []
    ensures FilteredProducts(catalog, tab, query) == Keep(catalog, Matching(query))
  {
    KeepCongruent(catalog, Shown(tab, query), Matching(query));
  }

  /** With an empty query the grid is exactly the products of the active tab, because every
      name contains the empty string. */
  lemma EmptyQueryShowsTab(catalog: seq<Product>, tab: Category)
    ensures FilteredProducts(catalog, tab, "") == Keep(catalog, InTab(tab))
  {
    forall i | 0 <= i < |catalog|
      ensures Shown(tab, "")(catalog[i]) == InTab(tab)(catalog[i])
    {
      ContainsEmpty(Lower(catalog[i].name));
      assert Trim([]) == [];
    }
    KeepCongruent(catalog, Shown(tab, ""), InTab(tab));
  }

  /** A query made only of white space still filters by tab, and also by name: the grid is the
      empty-query grid further filtered by the query, so it is a part of it. */
  lemma BlankQueryNarrowsTab(catalog: seq<Product>, tab: Category, query: string)
    requires Trim(query) == []
    ensures FilteredProducts(catalog, tab, query) == Keep(FilteredProducts(catalog, tab, ""), Matching(query))
  {
    EmptyQueryShowsTab(catalog, tab);
    KeepNarrower(catalog, Shown(tab, query), InTab(tab));
    var inTab := Keep(catalog, InTab(tab));
    KeepCongruent(inTab, Shown(tab, query), Matching(query));
  }

  /** The grid uses product ids as list keys; they stay distinct in any filtered grid. */
  lemma FilteredIdsDistinct(catalog: seq<Product>, tab: Category, query: string)
    requires DistinctBy(catalog, (p: Product) => p.id)
    ensures DistinctBy(FilteredProducts(catalog, tab, query), (p: Product) => p.id)
  {
    KeepDistinct(catalog, Shown(tab, query), (p: Product) => p.id);
  }

  /** No product of the catalog is in the `demais` tab, so that tab is empty unless a query
      that is not blank is typed. */
  lemma DemaisTabEmpty(ps: seq<Product>, query: string)
    requires TabSplit(ps)
    requires Trim(query) == []
    ensures FilteredProducts(ps, Demais, query) == []
  {
    forall i | 0 <= i < |ps|
      ensures ps[i].category != Demais
    {
      assert ps[i].category == (if i < 12 then Iphone else Xiaomi);
    }
    AbsentTabEmpty(ps, Demais, query);
  }

  /** A tab none of whose products is in the catalog shows nothing under a blank query. */
  lemma AbsentTabEmpty(ps: seq<Product>, tab: Category, query: string)
    requires forall i :: 0 <= i < |ps| ==> ps[i].category != tab
    requires Trim(query) == []
    ensures FilteredProducts(ps, tab, query) == []
  {
    forall i | 0 <= i < |ps|
      ensures !Shown(tab, query)(ps[i])
    {
    }
    KeepNoneOrAll(ps, Shown(tab, query));
  }

  /** No entry of `products` is in the `demais` tab: with a blank query that tab's grid is
      empty. */
  lemma ProductsDemaisEmpty(roll: int -> Roll, query: string)
    requires Trim(query) == []
    ensures FilteredProducts(Products(roll), Demais, query) == []
  {
    CatalogFacts(roll);
    DemaisTabEmpty(Products(roll), query);
  }

  /** With an empty query a tab shows the block of the catalog that is in it, in catalog
      order. */
  lemma TabOfBlocks(a: seq<Product>, b: seq<Product>, tab: Category)
    requires forall i :: 0 <= i < |a| ==> a[i].category == tab
    requires forall i :: 0 <= i < |b| ==> b[i].category != tab
    ensures FilteredProducts(a + b, tab, "") == a
    ensures FilteredProducts(b + a, tab, "") == a
  {
    EmptyQueryShowsTab(a + b, tab);
    EmptyQueryShowsTab(b + a, tab);
    KeepAppend(a, b, InTab(tab));
    KeepAppend(b, a, InTab(tab));
    KeepNoneOrAll(a, InTab(tab));
    KeepNoneOrAll(b, InTab(tab));
  }

  /** With an empty query the iPhone tab shows the twelve iPhones and the Xiaomi tab the other
      ten, in catalog order. */
  lemma CatalogTabsSplit(ps: seq<Product>)
    requires TabSplit(ps)
    ensures FilteredProducts(ps, Iphone, "") == ps[..12]
    ensures FilteredProducts(ps, Xiaomi, "") == ps[12..]
  {
    var a, b := ps[..12], ps[12..];
    assert a + b == ps;
    TabOfBlocks(a, b, Iphone);
    TabOfBlocks(b, a, Xiaomi);
  }

  // A two-product catalog: an iPhone and a Redmi, given by their names and tabs.

  /** The iPhone is in the iPhone tab, the Redmi in the Xiaomi tab. */
  predicate SamplePair(iphone: Product, redmi: Product) {
    && iphone.name == "iPhone 16 128GB" && iphone.category == Iphone
    && redmi.name == "Redmi 13C 8/256GB" && redmi.category == Xiaomi
  }

  /** The Xiaomi tab with an empty query shows the Redmi alone, the iPhone tab the iPhone
      alone. */
  lemma SampleTab(iphone: Product, redmi: Product)
    requires SamplePair(iphone, redmi)
    ensures FilteredProducts([iphone, redmi], Xiaomi, "") == [redmi]
    ensures FilteredProducts([iphone, redmi], Iphone, "") == [iphone]
  {
    assert [iphone] + [redmi] == [iphone, redmi];
    TabOfBlocks([iphone], [redmi], Iphone);
    TabOfBlocks([redmi], [iphone], Xiaomi);
  }

  /** "iphone" is in the iPhone's name and not in the Redmi's. */
  lemma SampleMatches(iphone: Product, redmi: Product)
    requires SamplePair(iphone, redmi)
    ensures MatchesSearch(iphone, "iphone") && !MatchesSearch(redmi, "iphone")
  {
    var q := "iphone";
    assert Lower(q) == q;
    assert q <= Lower(iphone.name);
    if Contains(Lower(redmi.name), q) {
      ContainsEach(Lower(redmi.name), q, 1);
      assert false;
    }
  }

  /** The query "iphone" finds the iPhone alone, whatever the tab. */
  lemma SampleSearch(iphone: Product, redmi: Product, tab: Category)
    requires SamplePair(iphone, redmi)
    ensures FilteredProducts([iphone, redmi], tab, "iphone") == [iphone]
  {
    SampleMatches(iphone, redmi);
    var q := "iphone";
    assert Trim(q) != [];
    assert Keep([iphone, redmi], Shown(tab, q)) == [iphone] + Keep([redmi], Shown(tab, q));
  }

  /** The query "zzz" finds nothing. */
  lemma SampleNoMatch(iphone: Product, redmi: Product, tab: Category)
    requires SamplePair(iphone, redmi)
    ensures FilteredProducts([iphone, redmi], tab, "zzz") == []
  {
    assert Lower("zzz") == "zzz";
    if Contains(Lower(iphone.name), "zzz") {
      ContainsEach(Lower(iphone.name), "zzz", 0);
      assert false;
    }
    if Contains(Lower(redmi.name), "zzz") {
      ContainsEach(Lower(redmi.name), "zzz", 0);
      assert false;
    }
    KeepNoneOrAll([iphone, redmi], Shown(tab, "zzz"));
  }

  /** A name in which white space comes one character at a time never contains two spaces. */
  lemma NoDoubleSpace(name: string)
    requires SingleSpaced(name)
    ensures !Contains(Lower(name), "  ")
  {
    LowerKeepsSpace(name);
    if Contains(Lower(name), "  ") {
      ContainsPair(Lower(name), ' ', ' ');
      assert false;
    }
  }

  /** A query of two spaces is blank after trimming, so the filter still applies the active tab,
      whose buttons are hidden because the query is not empty; and since the filter matches the
      untrimmed query, every tab of a catalog whose names are single-spaced is empty. */
  lemma DoubleSpaceHidesEverything(catalog: seq<Product>, tab: Category)
    requires forall i :: 0 <= i < |catalog| ==> SingleSpaced(catalog[i].name)
    ensures Trim("  ") == []
    ensures FilteredProducts(catalog, tab, "  ") == []
  {
    assert Lower("  ") == "  ";
    forall i | 0 <= i < |catalog|
      ensures !Shown(tab, "  ")(catalog[i])
    {
      NoDoubleSpace(catalog[i].name);
    }
    KeepNoneOrAll(catalog, Shown(tab, "  "));
  }

  // ---------------------------------------------------------------------------------------
  // The gallery

  /** The gallery buttons of the detail view: the keys of `images` in their order front, side,
      back, without those whose photo string is empty. */
  function ThumbnailKeys(images: Images): (keys: seq<ImageKey>)
    ensures forall k :: k in keys <==> images.Has(k)
    ensures forall i, j :: 0 <= i < j < |keys| ==> keys[i] != keys[j]
    ensures keys != [] && images.Has(Front) ==> keys[0] == Front
  {
    (if images.Has(Front) then [Front] else [])
      + (if images.Has(Side) then [Side] else [])
      + (if images.Has(Back) then [Back] else [])
  }

  // ---------------------------------------------------------------------------------------
  // The image error latch

  /** What a `SafeImage` shows: the photo, or the "Imagem indisponível" placeholder. */
  datatype Picture = Photo(url: string) | Unavailable

  /** `SafeImage`: an image that, once its photo has failed to load, shows the placeholder for as
      long as the instance lives. Each instance has its own latch. */
  class SafeImage {
    var src: string
    var error: bool

    constructor(src: string)
      ensures this.src == src && !error
    {
      this.src := src;
      error := false;
    }

    /** The placeholder exactly when the latch has tripped, the photo of `src` otherwise. */
    function Render(): (r: Picture)
      reads this
      ensures r == Unavailable <==> error
      ensures r.Photo? ==> r.url == src
    {
      if error then Unavailable else Photo(src)
    }

    /** `onError`: the photo failed to load. */
    method OnError()
      modifies this
      ensures error && src == old(src)
      ensures Render() == Unavailable
    {
      error := true;
    }

    /** The parent renders the same instance with a new `src`: React keeps the instance's state,
        so a tripped latch stays tripped. */
    method SetSource(src: string)
      modifies this
      ensures this.src == src && error == old(error)
      ensures old(error) ==> Render() == Unavailable
    {
      this.src := src;
    }
  }

  /** The grid renders one `SafeImage` per card: a failed photo trips its own latch and leaves
      every other image as it was. */
  method FailOne(a: SafeImage, b: SafeImage)
    requires a != b
    modifies a
    ensures a.Render() == Unavailable && a.src == old(a.src)
    ensures b.Render() == old(b.Render())
  {
    a.OnError();
  }

  // ---------------------------------------------------------------------------------------
  // The page

  /** The state of `App`: the six `useState` fields, over a fixed catalog. */
  class App {
    const catalog: seq<Product>
    var isSidebarOpen: bool
    var activeTab: Category
    var searchQuery: string
    var selectedProduct: Option<Product>
    var activeImageKey: ImageKey
    var showAlert: bool

    /** With no product open the gallery is on the front photo; with one open, the product is
        from the catalog and the gallery is on the front photo or on a photo the product has. */
    ghost predicate Valid()
      reads this
      ensures Valid() && activeImageKey != Front ==> selectedProduct.Some?
    {
      && (selectedProduct.None? ==> activeImageKey == Front)
      && (selectedProduct.Some? ==>
            selectedProduct.value in catalog
            && (activeImageKey == Front || selectedProduct.value.images.Has(activeImageKey)))
    }

    /** The grid. */
    function VisibleProducts(): (r: seq<Product>)
      reads this
      ensures forall p :: p in r <==> p in catalog && IsShown(p, activeTab, searchQuery)
    {
      var r := FilteredProducts(catalog, activeTab, searchQuery);
      forall p ensures p in r <==> p in catalog && IsShown(p, activeTab, searchQuery) {
        FilteredMembership(catalog, activeTab, searchQuery, p);
      }
      r
    }

    /** The tab bar is only on the page while the query is the empty string, so whenever it is
        shown the query is blank and the grid is filtered by the active tab. */
    predicate TabsShown()
      reads this
      ensures TabsShown() ==> Trim(searchQuery) == []
    {
      searchQuery == []
    }

    /** The initial state: sidebar closed, iPhone tab, empty query, no product open, front photo,
        alert showing. */
    constructor(catalog: seq<Product>)
      ensures Valid()
      ensures this.catalog == catalog
      ensures !isSidebarOpen && activeTab == Iphone && searchQuery == []
      ensures selectedProduct == None && activeImageKey == Front && showAlert
    {
      this.catalog := catalog;
      isSidebarOpen := false;
      activeTab := Iphone;
      searchQuery := [];
      selectedProduct := None;
      activeImageKey := Front;
      showAlert := true;
    }

    /** The menu button of the header. */
    method OpenSidebar()
      requires Valid()
      modifies this
      ensures Valid()
      ensures isSidebarOpen
      ensures activeTab == old(activeTab) && searchQuery == old(searchQuery)
      ensures selectedProduct == old(selectedProduct) && activeImageKey == old(activeImageKey)
      ensures showAlert == old(showAlert)
    {
      isSidebarOpen := true;
    }

    /** The close button of the sidebar, or a click on the shade behind it. */
    method CloseSidebar()
      requires Valid()
      modifies this
      ensures Valid()
      ensures !isSidebarOpen
      ensures activeTab == old(activeTab) && searchQuery == old(searchQuery)
      ensures selectedProduct == old(selectedProduct) && activeImageKey == old(activeImageKey)
      ensures showAlert == old(showAlert)
    {
      isSidebarOpen := false;
    }

    /** The window's `resize` handler: at 768 pixels or wider the sidebar closes; otherwise
        nothing changes. */
    method OnResize(width: int)
      requires Valid()
      modifies this
      ensures Valid()
      ensures isSidebarOpen == (old(isSidebarOpen) && width < 768)
      ensures activeTab == old(activeTab) && searchQuery == old(searchQuery)
      ensures selectedProduct == old(selectedProduct) && activeImageKey == old(activeImageKey)
      ensures showAlert == old(showAlert)
    {
      if width >= 768 {
        isSidebarOpen := false;
      }
    }

    /** A tab button; the buttons exist only while the query is empty. */
    method SelectTab(tab: Category)
      requires Valid()
      requires TabsShown()
      modifies this
      ensures Valid()
      ensures activeTab == tab
      ensures VisibleProducts() == FilteredProducts(catalog, tab, "")
      ensures isSidebarOpen == old(isSidebarOpen) && searchQuery == old(searchQuery)
      ensures selectedProduct == old(selectedProduct) && activeImageKey == old(activeImageKey)
      ensures showAlert == old(showAlert)
    {
      activeTab := tab;
    }

    /** Typing in the search field: the query becomes the field's whole text. */
    method SetSearchQuery(query: string)
      requires Valid()
      modifies this
      ensures Valid()
      ensures searchQuery == query
      ensures isSidebarOpen == old(isSidebarOpen) && activeTab == old(activeTab)
      ensures selectedProduct == old(selectedProduct) && activeImageKey == old(activeImageKey)
      ensures showAlert == old(showAlert)
    {
      searchQuery := query;
    }

    /** A click on a card of the grid. The detail view's backdrop covers the grid, so no card can
        be clicked while a product is open; the gallery therefore opens on the front photo. */
    method SelectProduct(p: Product)
      requires Valid()
      requires selectedProduct.None? && p in VisibleProducts()
      modifies this
      ensures Valid()
      ensures selectedProduct == Some(p) && activeImageKey == Front
      ensures isSidebarOpen == old(isSidebarOpen) && activeTab == old(activeTab)
      ensures searchQuery == old(searchQuery) && showAlert == old(showAlert)
    {
      selectedProduct := Some(p);
    }

    /** `closeModal`: the close button or the backdrop of the detail view. */
    method CloseModal()
      requires Valid()
      modifies this
      ensures Valid()
      ensures selectedProduct == None && activeImageKey == Front
      ensures isSidebarOpen == old(isSidebarOpen) && activeTab == old(activeTab)
      ensures searchQuery == old(searchQuery) && showAlert == old(showAlert)
    {
      selectedProduct := None;
      activeImageKey := Front;
    }

    /** A gallery button of the detail view; there is one only for a photo the product has. */
    method SelectImage(key: ImageKey)
      requires Valid()
      requires selectedProduct.Some? && key in ThumbnailKeys(selectedProduct.value.images)
      modifies this
      ensures Valid()
      ensures activeImageKey == key && selectedProduct == old(selectedProduct)
      ensures selectedProduct.Some? && selectedProduct.value.images.Has(key)
      ensures isSidebarOpen == old(isSidebarOpen) && activeTab == old(activeTab)
      ensures searchQuery == old(searchQuery) && showAlert == old(showAlert)
    {
      activeImageKey := key;
    }

    /** The close button of the price alert. Nothing sets `showAlert` back to true. */
    method DismissAlert()
      requires Valid()
      modifies this
      ensures Valid()
      ensures !showAlert
      ensures isSidebarOpen == old(isSidebarOpen) && activeTab == old(activeTab)
      ensures searchQuery == old(searchQuery) && selectedProduct == old(selectedProduct)
      ensures activeImageKey == old(activeImageKey)
    {
      showAlert := false;
    }

    /** `selectedProduct.images[activeImageKey]`, the photo the detail view shows. Away from the
        front photo it is never the empty string: the gallery only moves to a photo that exists. */
    function ModalPhoto(): (url: string)
      reads this
      requires Valid() && selectedProduct.Some?
      ensures activeImageKey != Front ==> url != []
      ensures url in [selectedProduct.value.images.front, selectedProduct.value.images.side,
                      selectedProduct.value.images.back]
    {
      selectedProduct.value.images.Get(activeImageKey)
    }
  }
}
