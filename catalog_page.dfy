/** The products page: the search box, the category dropdown and the current page,
    over the listing fetched on mount. */
module CatalogPage {
  import opened Products
  import opened Catalog
  import opened Listing

  /** What the grid area shows. */
  datatype GridView =
    | Skeletons(count: nat)
    | Cards(shown: seq<Product>)
    | NoResults(offersClearFilters: bool)

  class ProductsPage {
    const listing: ProductListing
    var searchTerm: string
    var selectedCategory: string
    var currentPage: int

    /** Pages are numbered from 1. */
    ghost predicate Valid()
      reads this
    {
      currentPage >= 1
    }

    /** An empty search, "all" categories and page 1. */
    constructor(listing: ProductListing)
      ensures Valid()
      ensures this.listing == listing
      ensures searchTerm == "" && selectedCategory == AllCategories && currentPage == 1
    {
      this.listing := listing;
      searchTerm := "";
      selectedCategory := AllCategories;
      currentPage := 1;
    }

    function Filtered(): seq<Product>
      reads this, listing
    {
      FilterProducts(listing.products, searchTerm, selectedCategory)
    }

    function PageCount(): nat
      reads this, listing
    {
      TotalPages(|Filtered()|)
    }

    /** The products of the current page. */
    function CurrentProducts(): seq<Product>
      requires Valid()
      reads this, listing
    {
      PageOf(Filtered(), currentPage)
    }

    /** Nine skeletons while loading; otherwise the current page's cards, or the
        "No Products Found" panel, whose Clear Filters button appears only while a
        filter is active. */
    function Grid(): (g: GridView)
      requires Valid()
      reads this, listing
      ensures listing.loading <==> g == Skeletons(PageSize)
      ensures g.Cards? ==> 1 <= |g.shown| <= PageSize && forall p :: p in g.shown ==> p in listing.products
      ensures g.Cards? ==> g.shown == CurrentProducts()
      // once loaded, cards appear exactly when the current page holds products, which on
      // a page within range is exactly when some product matches the filters
      ensures !listing.loading ==> (g.Cards? <==> CurrentProducts() != [])
      ensures !listing.loading && currentPage <= PageCount() ==> (g.Cards? <==> Filtered() != [])
      ensures g.NoResults? ==> (g.offersClearFilters <==> searchTerm != "" || selectedCategory != AllCategories)
    {
      LastPageNonEmpty(Filtered(), currentPage);
      if listing.loading then Skeletons(PageSize)
      else if CurrentProducts() != [] then Cards(CurrentProducts())
      else NoResults(searchTerm != "" || selectedCategory != AllCategories)
    }

    /** Typing in the search box; the effect on [searchTerm, selectedCategory] goes back
        to page 1 only when the value really changed. */
    method SetSearchTerm(term: string)
      requires Valid()
      modifies this
      ensures Valid()
      ensures searchTerm == term && selectedCategory == old(selectedCategory)
      ensures currentPage == if term != old(searchTerm) then 1 else old(currentPage)
    {
      if term != searchTerm {
        searchTerm := term;
        currentPage := 1;
      }
    }

    /** Choosing a category, with the same page reset. */
    method SelectCategory(category: string)
      requires Valid()
      modifies this
      ensures Valid()
      ensures selectedCategory == category && searchTerm == old(searchTerm)
      ensures currentPage == if category != old(selectedCategory) then 1 else old(currentPage)
    {
      if category != selectedCategory {
        selectedCategory := category;
        currentPage := 1;
      }
    }

    /** Clear Filters: empty search and "all"; one reset when either changed. */
    method ClearFilters()
      requires Valid()
      modifies this
      ensures Valid()
      ensures searchTerm == "" && selectedCategory == AllCategories
      ensures Filtered() == FilterProducts(listing.products, "", AllCategories)
      ensures currentPage ==
        if old(searchTerm) != "" || old(selectedCategory) != AllCategories then 1 else old(currentPage)
    {
      var changed := searchTerm != "" || selectedCategory != AllCategories;
      searchTerm := "";
      selectedCategory := AllCategories;
      if changed {
        currentPage := 1;
      }
    }

    /** The Previous button, present only while the bar is shown. */
    method GoToPrevious()
      requires Valid() && PaginationShown(PageCount())
      modifies this
      ensures Valid()
      ensures searchTerm == old(searchTerm) && selectedCategory == old(selectedCategory)
      ensures currentPage == PreviousPage(old(currentPage))
    {
      currentPage := Max(currentPage - 1, 1);
    }

    /** The Next button: never goes past the last page. */
    method GoToNext()
      requires Valid() && PaginationShown(PageCount())
      modifies this
      ensures Valid()
      ensures searchTerm == old(searchTerm) && selectedCategory == old(selectedCategory)
      ensures currentPage == NextPage(old(currentPage), PageCount())
      ensures currentPage <= PageCount()
    {
      currentPage := Min(currentPage + 1, PageCount());
    }

    /** A button of the page-number bar: a number jumps to that page, "..." does nothing. */
    method PressPageButton(item: PageItem)
      requires Valid() && (item.Number? ==> item.n >= 1)
      modifies this
      ensures Valid()
      ensures searchTerm == old(searchTerm) && selectedCategory == old(selectedCategory)
      ensures currentPage == if item.Number? then item.n else old(currentPage)
    {
      if item.Number? {
        currentPage := item.n;
      }
    }
  }
}
