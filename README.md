# Gadget-Finder storefront logic in Dafny

Gadget-Finder is a Next.js storefront for electronic gadgets. Under its markup sit a few
pieces of sequential, deterministic logic, and this project models them and proves their
properties:

- **The catalog query engine of the products page.** It covers:
  - the case-insensitive search over name and description, and the category filter;
  - the category dropdown;
  - pages of nine products;
  - the windowed page-number bar, and the Previous and Next clamps;
  - the page reset when a filter changes.
- **The image fallback logic:**
  - the per-card image index and `fallbackUsed` machine (identical in the products page and the featured section);
  - the two category placeholder tables;
  - `ImageLoader`'s single fallback, `OptimizedImage`'s source chain and `ImageGallery`'s loaded set;
  - the helpers of `imageUtils.js`.
- **The product submission workflow:**
  - the form helpers: field updates, checkbox lists, the features textarea and the attached images;
  - the ordered validation gates;
  - the optional upload stage, which aborts on failure;
  - the insert, and the form reset that happens only on success.
- **The upload aggregation of `imageUpload.js`**, and the server-side `POST /api/AddProduct` gate.
- **The client stores:** the toast queue and the loading registry.
- **The navigation bar:** link activeness, the link list and the menu flags.

The model takes the source's own form:

- **Pure expressions** (filters, lookups, the response decision) are functions. Lemmas state their properties.
- **State that handlers update** is a class:
  - the products page, the fetch state, the image cards and loaders;
  - the add-product page, the toast queue, the loading registry and the menus.
  Each method states the whole new state in terms of the old one.
- **`getPageNumbers` builds its list with loops**, so it is a method with loop invariants.

JavaScript's value model is in `js.dfy`: `undefined` is `None`, JSON values, and truthiness. String operations are in `text.dfy`. The order-preserving filter shared by every list operation is in `seqs.dfy`.

The network, the database, the upload service, the browser's number parsers, timers, random ids and the session are all parameters:

- a fetch or insert is given as its outcome;
- the upload service as its reply for the i-th file;
- `parseFloat` and `parseInt` as functions to a number or NaN;
- ids and timestamps as given values.

## Model

| member | source | states |
|---|---|---|
| Catalog.FilterProducts | Gadget-Finder/src/app/Products/page.jsx:45-55 | A product is kept iff the lowercased term occurs in its lowercased name or description, and the category filter is "all" or equals its lowercased category. A missing field never matches. The result is no longer than the input. |
| Catalog.FilterKeepsOrder | Gadget-Finder/src/app/Products/page.jsx:45-55 | The filtered list is an order-preserving subsequence of the products. |
| Catalog.FilterProductsIdempotent | Gadget-Finder/src/app/Products/page.jsx:45-55 | Filtering the filtered list again with the same term and category changes nothing. |
| Catalog.SearchIgnoresCase | Gadget-Finder/src/app/Products/page.jsx:46-48 | Searching for the lowercased term gives the same list as searching for the term. |
| Catalog.CategoryIgnoresCase | Gadget-Finder/src/app/Products/page.jsx:50-52 | Selecting a category by its lowercased name gives the same list (unless either spelling is "all"). |
| Catalog.EmptySearchListsDescribedProducts | Gadget-Finder/src/app/Products/page.jsx:45-55 | With an empty search and "all", exactly the products that have a name or a description are listed, in order. |
| Catalog.CategoryValues | Gadget-Finder/src/app/Products/page.jsx:60 | The truthy categories: exactly the non-empty category strings some product carries. |
| Catalog.Distinct | Gadget-Finder/src/app/Products/page.jsx:60 | `new Set` keeps the same elements, without duplicates, and is no longer than its input. |
| Catalog.FirstIndex | Gadget-Finder/src/app/Products/page.jsx:60 | The index of the first occurrence of a value. |
| Catalog.DistinctFirstOccurrenceOrder | Gadget-Finder/src/app/Products/page.jsx:60 | The distinct values appear in the order of their first occurrence in the input. |
| Catalog.CategoryOptions | Gadget-Finder/src/app/Products/page.jsx:58-61 | The options start with "all". The rest are exactly the distinct non-empty categories of the products, each once. |
| Catalog.FirstCarrier | Gadget-Finder/src/app/Products/page.jsx:60 | The index of the first product carrying a category: no earlier product carries it. |
| Catalog.CarrierOrder | Gadget-Finder/src/app/Products/page.jsx:60 | A category comes first among the truthy categories only if its first carrier comes first among the products. |
| Catalog.CategoryOptionsInCatalogOrder | Gadget-Finder/src/app/Products/page.jsx:58-61 | After "all", every option is carried by some product. The options are ordered by the product that first carries each, as the `Set` keeps insertion order. |
| Catalog.AllOfferedOnce | Gadget-Finder/src/app/Products/page.jsx:58-61 | "all" appears again after the first option iff some product's category is literally "all". |
| Catalog.TotalPages | Gadget-Finder/src/app/Products/page.jsx:64 | `ceil(n/9)`: the least t with 9t ≥ n; zero exactly for an empty list. |
| Catalog.PageOf | Gadget-Finder/src/app/Products/page.jsx:65-67 | Page p has `max(0, min(9, n-(p-1)*9))` items, and its i-th item is item `(p-1)*9+i` of the list. |
| Catalog.FirstPagesArePrefix | Gadget-Finder/src/app/Products/page.jsx:64-67 | Pages 1..k concatenated are the first `min(9k, n)` items. |
| Catalog.PagesCoverList | Gadget-Finder/src/app/Products/page.jsx:64-67 | Pages 1..totalPages concatenated give back the whole filtered list. |
| Catalog.LastPageNonEmpty | Gadget-Finder/src/app/Products/page.jsx:64-67 | Every page up to totalPages holds 1 to 9 items. Every page after it is empty. |
| Catalog.PreviousPage | Gadget-Finder/src/app/Products/page.jsx:333 | Previous gives p-1, but never less than 1. |
| Catalog.NextPage | Gadget-Finder/src/app/Products/page.jsx:360-361 | Next gives p+1, but never more than totalPages. |
| Catalog.FullBarWellFormed | Gadget-Finder/src/app/Products/page.jsx:296-299 | With at most five pages, the bar 1..t meets every bar property. |
| Catalog.HeadBarWellFormed | Gadget-Finder/src/app/Products/page.jsx:301-306 | Near the start, the bar `1 2 3 4 … t` meets every bar property. |
| Catalog.TailBarWellFormed | Gadget-Finder/src/app/Products/page.jsx:307-312 | Near the end, the bar `1 … t-3 t-2 t-1 t` meets every bar property. |
| Catalog.MiddleBarWellFormed | Gadget-Finder/src/app/Products/page.jsx:313-321 | In the middle, the bar `1 … c-1 c c+1 … t` meets every bar property. |
| Catalog.PageNumbers | Gadget-Finder/src/app/Products/page.jsx:292-325 | With t ≤ 5 pages, the bar is exactly 1..t. Otherwise it has 6 or 7 entries, first 1 and last t. Its numbers strictly increase and stay in [1, t]. An ellipsis stands exactly between non-adjacent numbers. The current page is listed. |
| CatalogPage.ProductsPage.constructor | Gadget-Finder/src/app/Products/page.jsx:13-15 | Starts on page 1 with an empty search and "all". |
| CatalogPage.ProductsPage.Grid | Gadget-Finder/src/app/Products/page.jsx:447-484 | Nine skeletons exactly while loading. Otherwise cards exactly when the current page holds products, and then they are that page's 1 to 9 products. On a page within range, that is exactly when some product matches the filters. Otherwise the empty panel, whose Clear Filters button appears iff a filter is active. |
| CatalogPage.ProductsPage.SetSearchTerm | Gadget-Finder/src/app/Products/page.jsx:70-72 | Typing a different search term goes back to page 1. The same term keeps the page. The category is unchanged. |
| CatalogPage.ProductsPage.SelectCategory | Gadget-Finder/src/app/Products/page.jsx:70-72 | Choosing a different category goes back to page 1. The search is unchanged. |
| CatalogPage.ProductsPage.ClearFilters | Gadget-Finder/src/app/Products/page.jsx:474-477 | Clears both filters. The list becomes the unfiltered one, and the page resets iff a filter changed. |
| CatalogPage.ProductsPage.GoToPrevious | Gadget-Finder/src/app/Products/page.jsx:327-333 | Only with more than one page. The page becomes `max(p-1, 1)`. |
| CatalogPage.ProductsPage.GoToNext | Gadget-Finder/src/app/Products/page.jsx:327-362 | Only with more than one page. The page becomes `min(p+1, totalPages)`. |
| CatalogPage.ProductsPage.PressPageButton | Gadget-Finder/src/app/Products/page.jsx:344 | A number goes to that page. The ellipsis does nothing. |
| Listing.ProductListing.constructor | Gadget-Finder/src/app/Products/page.jsx:10-12 | Starts loading, with no products and no error. |
| Listing.ProductListing.SectionHidden | Gadget-Finder/src/app/component/FeaturedProducts.jsx:247-249 | The featured section renders nothing once loading is over with no products and no error. Settle states when that holds. |
| Listing.ProductListing.Settle | Gadget-Finder/src/app/component/FeaturedProducts.jsx:16-37 | Loading ends in every case. Success stores the products. A refusal sets the reply's error or the default message. A thrown fetch sets the network message. The featured section renders nothing iff the reply succeeded with no products and no earlier error. |
| Fallbacks.FallbackImage | Gadget-Finder/src/lib/imageUtils.js:48-77 | Always a non-empty url from the exact table. |
| Fallbacks.FallbackImageExact | Gadget-Finder/src/lib/imageUtils.js:76 | A key of the table gives its own url. Anything else, including a missing category, gives the default url. |
| Fallbacks.FallbackImageCaseSensitive | Gadget-Finder/src/app/component/FeaturedProducts.jsx:52-80 | "Tablets" gives the tablets image, while "tablets" gives the default. |
| Fallbacks.ShortFallbackImage | Gadget-Finder/src/components/ui/ImageLoader.jsx:207-236 | Always a non-empty url from the short table. |
| Fallbacks.ShortFallbackImageLookup | Gadget-Finder/src/components/ui/ImageLoader.jsx:235-236 | The lowercased category's url, or the default for a key the table lacks. |
| Fallbacks.ShortTableMissesStoreNames | Gadget-Finder/src/components/ui/ImageLoader.jsx:207-227 | "Tablets" gives the tablets image. "Laptops & Computers" and a missing category give the default. |
| CardImage.ShownImage | Gadget-Finder/src/app/Products/page.jsx:118-135 | Never empty, and always one of the product's images or its category fallback. After the fallback is chosen, it is the fallback. Before that, it is the current image when that is truthy, and the category fallback when the current entry is empty or past the end. |
| CardImage.ErrorRun | Gadget-Finder/src/app/Products/page.jsx:137-156 | k errors in a row advance the index one image at a time. Once the images run out, `fallbackUsed` is set and the category fallback is shown. |
| CardImage.FallbackIsFinal | Gadget-Finder/src/app/Products/page.jsx:137-162 | Once the fallback is used, further errors and loads keep it. |
| CardImage.DeadImageShowsCategoryArt | Gadget-Finder/src/app/component/FeaturedProducts.jsx:102-121 | A tablet whose only image fails shows the tablets placeholder. |
| CardImage.ProductCard.constructor | Gadget-Finder/src/app/Products/page.jsx:81-84 | The fresh state: index 0, no fallback, loading. |
| CardImage.ProductCard.CurrentImage | Gadget-Finder/src/app/Products/page.jsx:118-135 | The card's image is the shown image of its state. |
| CardImage.ProductCard.HandleImageError | Gadget-Finder/src/app/Products/page.jsx:137-156 | Advances while the index is below `length-1`. Otherwise it marks the error and uses the fallback. |
| CardImage.ProductCard.HandleImageLoad | Gadget-Finder/src/app/Products/page.jsx:158-161 | Clears loading and the error flag. Nothing else changes. |
| CardImage.ProductCard.ReceiveProduct | Gadget-Finder/src/app/Products/page.jsx:164-169 | A product with a different `_id` resets the image state. The same `_id` keeps it. |
| ImageUtils.BestProductImage | Gadget-Finder/src/lib/imageUtils.js:103-116 | The first image when there are any, else the category fallback. |
| ImageUtils.BestImageIsFirstShown | Gadget-Finder/src/lib/imageUtils.js:103-116 | It agrees with what a fresh card shows (when the first image is truthy). |
| ImageUtils.ValidateImageUrl | Gadget-Finder/src/lib/imageUtils.js:8-22 | Only a non-empty string can be valid. |
| ImageUtils.ValidateGuardSkipsRequest | Gadget-Finder/src/lib/imageUtils.js:9-11 | An empty or non-string url is invalid whatever the network would answer. |
| ImageUtils.FilterValidImages | Gadget-Finder/src/lib/imageUtils.js:84-96 | A non-array gives []. Otherwise the result is exactly the entries the validator accepts, each as many times as it occurs in the input. |
| ImageUtils.FilterValidImagesOrdered | Gadget-Finder/src/lib/imageUtils.js:89-95 | The accepted urls keep their input order, and all are non-empty strings. |
| ImageUtils.PreloadImage | Gadget-Finder/src/lib/imageUtils.js:29-40 | A missing or empty source is rejected at once with "No image source provided". A load resolves with the source. |
| ImageUtils.ImageLoaderHandle.constructor | Gadget-Finder/src/lib/imageUtils.js:124-147 | The returned fields are the source, loading, and no error. |
| ImageUtils.ImageLoaderHandle.HandleLoad | Gadget-Finder/src/lib/imageUtils.js:129-132 | Changes only the closure variables: not loading, no error. The returned fields stay. |
| ImageUtils.ImageLoaderHandle.HandleError | Gadget-Finder/src/lib/imageUtils.js:134-138 | Changes only the closure variables, to the fallback with an error. The returned fields stay. |
| ImageLoading.ImageLoader.constructor | Gadget-Finder/src/components/ui/ImageLoader.jsx:23-25 | Loading the given source, and in view exactly when not lazy. |
| ImageLoading.ImageLoader.Intersect | Gadget-Finder/src/components/ui/ImageLoader.jsx:30-51 | The view flag only ever turns on. |
| ImageLoading.ImageLoader.ImageLoaded | Gadget-Finder/src/components/ui/ImageLoader.jsx:59-62 | Loaded, and `onLoad` is called. |
| ImageLoading.ImageLoader.ImageFailed | Gadget-Finder/src/components/ui/ImageLoader.jsx:64-72 | Switches to the fallback at most once, and only when one is set and not current. Otherwise it fails and calls `onError`. |
| ImageLoading.ImageLoader.SetSrc | Gadget-Finder/src/components/ui/ImageLoader.jsx:83-86 | A new source resets the current source, goes back to loading and re-arms the single fallback switch. The same source changes nothing. |
| ImageLoading.AllSources | Gadget-Finder/src/components/ui/ImageLoader.jsx:204 | The source followed by the fallbacks. |
| ImageLoading.SourceAt | Gadget-Finder/src/components/ui/ImageLoader.jsx:253 | The rendered source, or `undefined` past the end of the list. |
| ImageLoading.StepAsWritten | Gadget-Finder/src/components/ui/ImageLoader.jsx:229-244 | The error handler as written: the pushed placeholder is lost, so past the listed sources the index moves one further. Its behaviour is stated by AsWrittenRunsPastEnd. |
| ImageLoading.AsWrittenRunsPastEnd | Gadget-Finder/src/components/ui/ImageLoader.jsx:229-245 | As written, each error moves the index on. From the last source on, the rendered source is `undefined`, and the state never becomes "error". |
| ImageLoading.AsWrittenNeverShowsPlaceholder | Gadget-Finder/src/components/ui/ImageLoader.jsx:234-239 | As written, a placeholder that is not among the listed sources is never rendered. |
| ImageLoading.DeadTabletImageAsWritten | Gadget-Finder/src/components/ui/ImageLoader.jsx:229-245 | A tablet with one dead image is handed `undefined` after the error. |
| ImageLoading.StepFixed | Gadget-Finder/src/components/ui/ImageLoader.jsx:229-245 | The corrected step keeps the index within a list that only grows. |
| ImageLoading.ErrorsFixed | Gadget-Finder/src/components/ui/ImageLoader.jsx:229-245 | After any number of errors, the corrected index is within the list. |
| ImageLoading.FixedRun | Gadget-Finder/src/components/ui/ImageLoader.jsx:229-245 | Corrected, the listed sources are tried in order, then the placeholder (unless the list already ends with it), then the state settles in "error". |
| ImageLoading.DeadTabletImageFixed | Gadget-Finder/src/components/ui/ImageLoader.jsx:234-240 | Corrected, the dead tablet image is replaced by the tablets placeholder. |
| ImageLoading.OptimizedImageAsWritten.HandleImageError | Gadget-Finder/src/components/ui/ImageLoader.jsx:229-245 | The handler as written, on a list rebuilt every render. |
| ImageLoading.OptimizedImage.HandleImageError | Gadget-Finder/src/components/ui/ImageLoader.jsx:229-245 | The corrected handler, on a list kept in state. |
| ImageLoading.OptimizedImage.HandleImageLoad | Gadget-Finder/src/components/ui/ImageLoader.jsx:247-249 | Loaded. Index and list are unchanged. |
| ImageLoading.ImageGallery.HandleImageLoad | Gadget-Finder/src/components/ui/ImageLoader.jsx:272-276 | The loaded set only grows, by the loaded index. |
| ImageUpload.UploadImage | Gadget-Finder/src/lib/imageUpload.js:2-41 | A missing file throws "No image file provided". A hosted upload copies url, display url, delete url and size. A refusal or network error gives its message, or "Failed to upload image". |
| ImageUpload.Results | Gadget-Finder/src/lib/imageUpload.js:45-50 | One result per file, in file order (`Promise.all`). |
| ImageUpload.UploadMultipleImages | Gadget-Finder/src/lib/imageUpload.js:44-70 | A missing file rejects the batch: failure with empty lists and an error. Otherwise there is no error, and success holds iff nothing failed. The urls are the uploaded results' urls, in order. |
| ImageUpload.BatchPartition | Gadget-Finder/src/lib/imageUpload.js:51-52 | Uploaded and failed split the results (as multisets, sizes adding up to the file count), each in input order. |
| ImageUpload.BatchSuccessIffAllHosted | Gadget-Finder/src/lib/imageUpload.js:49-59 | The batch succeeds iff every file is present and every upload was hosted. |
| ImageUpload.BatchUrlsAreHostedUrls | Gadget-Finder/src/lib/imageUpload.js:58 | A url is listed iff some file was hosted at it. |
| ImageUpload.MissingFileBatch | Gadget-Finder/src/lib/imageUpload.js:60-69 | A batch with a missing file fails with nothing in `failed`. |
| ProductForm.InputChange | Gadget-Finder/src/app/dashboard/AddProduct/page.jsx:120-138 | A dotted name replaces one child of its parent object and keeps the other children. Any other name sets the top-level field, to `checked` for a checkbox. |
| ProductForm.DottedUpdateIsLocal | Gadget-Finder/src/app/dashboard/AddProduct/page.jsx:124-133 | "parent.child" changes only that child. Every other field and sibling is unchanged. |
| ProductForm.Toggle | Gadget-Finder/src/app/dashboard/AddProduct/page.jsx:583-605 | Checking appends the option at the end. Unchecking removes every occurrence, keeping the others in order and with their counts. |
| ProductForm.ToggleTopLevel | Gadget-Finder/src/app/dashboard/AddProduct/page.jsx:684-696 | The colours list changes as Toggle says. Every other field is unchanged. |
| ProductForm.ToggleNested | Gadget-Finder/src/app/dashboard/AddProduct/page.jsx:630-646 | The connectivity or ports list changes as Toggle says. The other specifications and fields are unchanged. |
| ProductForm.ToggleRoundTrip | Gadget-Finder/src/app/dashboard/AddProduct/page.jsx:583-605 | Checking then unchecking an unselected option restores the list. |
| ProductForm.ParseFeatures | Gadget-Finder/src/app/dashboard/AddProduct/page.jsx:714-720 | Every feature is a non-blank line without a newline. The features are the lines of the text in their order, and every non-blank line is kept as often as it occurs. Blank lines are dropped. |
| ProductForm.FeaturesRoundTrip | Gadget-Finder/src/app/dashboard/AddProduct/page.jsx:713-720 | Parsing the displayed `join("\n")` gives the same features back. |
| ProductForm.TrailingNewlineDropped | Gadget-Finder/src/app/dashboard/AddProduct/page.jsx:713-720 | A newline typed at the end is dropped. The features do not change. |
| ProductForm.AddFiles | Gadget-Finder/src/app/dashboard/AddProduct/page.jsx:160-168 | The new entries follow the current ones, one per file, in file order. |
| ProductForm.RemoveImage | Gadget-Finder/src/app/dashboard/AddProduct/page.jsx:170-172 | Removes exactly the entries with the id. The rest keep their order and counts. |
| ProductForm.Files | Gadget-Finder/src/app/dashboard/AddProduct/page.jsx:209 | The files of the attached images, in order. |
| ProductForm.Validate | Gadget-Finder/src/app/dashboard/AddProduct/page.jsx:183-194 | The gates run in order and report only the first that fails: a blank trimmed name, then a missing price or one ≤ 0, then a missing stock or one < 0. |
| ProductForm.InitialFormRejected | Gadget-Finder/src/app/dashboard/AddProduct/page.jsx:10-50 | The initial form fails the name gate. |
| ProductForm.UnparsablePricePasses | Gadget-Finder/src/app/dashboard/AddProduct/page.jsx:187-194 | A price that parses to NaN passes the price gate. |
| Submission.UploadFailureNoticeAsWritten | Gadget-Finder/src/app/dashboard/AddProduct/page.jsx:219 | The page's notice: the prefix followed by the batch's `error`, rendered "undefined" when absent. Stated by UploadFailureNoticeSaysUndefined. |
| Submission.UploadFailureNoticeSaysUndefined | Gadget-Finder/src/app/dashboard/AddProduct/page.jsx:219 | As written, every failed batch of real files shows "Image upload failed: undefined". |
| Submission.UploadFailureReason | Gadget-Finder/src/lib/imageUpload.js:54-68 | The corrected reason is never empty. |
| Submission.UploadFailureNamesFirstFailedFile | Gadget-Finder/src/lib/imageUpload.js:50-57 | The corrected reason is the error of the first file the service did not host. |
| Submission.SaveNotice | Gadget-Finder/src/app/dashboard/AddProduct/page.jsx:240-297 | The toast after the insert. It is a success toast exactly when the insert was accepted, with the launch message for 6 s. A refusal shows "Failed to add product: " and the reply's error or "Unknown error occurred". A throw shows the generic message. |
| Submission.AddProductPage.HandleDrag | Gadget-Finder/src/app/dashboard/AddProduct/page.jsx:140-148 | Enter and over activate the drop zone. Leave deactivates it. Other events change nothing. |
| Submission.AddProductPage.HandleFiles | Gadget-Finder/src/app/dashboard/AddProduct/page.jsx:160-168 | The files join the attached images, in order. |
| Submission.AddProductPage.HandleDrop | Gadget-Finder/src/app/dashboard/AddProduct/page.jsx:150-158 | The zone deactivates, and dropped files, if any, are attached. |
| Submission.AddProductPage.RemoveImage | Gadget-Finder/src/app/dashboard/AddProduct/page.jsx:170-172 | Only the image list changes, as RemoveImage says. |
| Submission.AddProductPage.HandleInputChange | Gadget-Finder/src/app/dashboard/AddProduct/page.jsx:120-138 | Only the form changes, as InputChange says. |
| Submission.AddProductPage.ToggleColor | Gadget-Finder/src/app/dashboard/AddProduct/page.jsx:684-696 | Only the colours list changes. |
| Submission.AddProductPage.ToggleSpecification | Gadget-Finder/src/app/dashboard/AddProduct/page.jsx:583-646 | Only the connectivity or ports list changes. |
| Submission.AddProductPage.EditFeatures | Gadget-Finder/src/app/dashboard/AddProduct/page.jsx:714-720 | Only the features change, to the parsed lines. |
| Submission.AddProductPage.UploadStage | Gadget-Finder/src/app/dashboard/AddProduct/page.jsx:203-223 | The stage succeeds iff the batch succeeds, and then yields the batch's urls. It shows "Uploading n images...", then the success count or the failure notice as the page writes it. For attached real files, that notice is "Image upload failed: undefined". The progress text is set per outcome. Form and images are unchanged. |
| Submission.SubmissionToastsInOrder | Gadget-Finder/src/app/dashboard/AddProduct/page.jsx:202-297 | The toasts past the gates, one by one: two from the upload stage when images are attached ("Uploading n images...", then the hosted count or the failure notice) and two from the insert stage when a payload is sent ("Saving product to database...", then SaveNotice of the reply). No other toast is shown. |
| Submission.AddProductPage.UploadAttached | Gadget-Finder/src/app/dashboard/AddProduct/page.jsx:202-223 | Without attached images nothing is uploaded or shown. Otherwise it shows two toasts: "Uploading n images..." for the n attached images, then "Successfully uploaded k images" for the k hosted urls, or the page's failure notice. Success and urls are the batch's. |
| Submission.AddProductPage.InsertStage | Gadget-Finder/src/app/dashboard/AddProduct/page.jsx:231-297 | It shows "Saving product to database..." first. The second toast is SaveNotice of the reply. Only an accepted insert resets the form, the images and the progress text. Otherwise the progress reads "Saving product...". |
| Submission.AddProductPage.SubmitValidated | Gadget-Finder/src/app/dashboard/AddProduct/page.jsx:196-301 | Busy flags end cleared. A failed upload sends nothing, and its last notice is the one the page writes, from the batch's `error`. The payload is the form with the uploaded urls in batch order, or with [] when no image is attached. The toasts are exactly SubmissionToasts: the upload stage's two when images are attached, then, when a payload is sent, "Saving product to database..." and SaveNotice of the reply. Only an accepted insert resets. |
| Submission.AddProductPage.Submit | Gadget-Finder/src/app/dashboard/AddProduct/page.jsx:179-302 | A failed gate shows only its message and changes nothing. Past the gates, everything SubmitValidated states holds: the page's own upload-failure notice, the payload, and the full toast sequence SubmissionToasts. |
| AddProductRoute.Stamped | Gadget-Finder/src/app/api/AddProduct/route.js:19-23 | The record is the body plus `createdAt` and `updatedAt`. The other fields are kept. |
| AddProductRoute.MissingRequired | Gadget-Finder/src/app/api/AddProduct/route.js:10 | The gate: name, price or sku is falsy or missing. Post states that it decides the 400. |
| AddProductRoute.Post | Gadget-Finder/src/app/api/AddProduct/route.js:4-47 | The status is 201, 400 or 500. It is 400 iff a parsed non-null body lacks a truthy name, price or sku, and then nothing is inserted. It is 201 iff the insert is acknowledged with a truthy id, and then the id is returned. An acknowledged insert without one gives 500 "Failed to insert product into database". Every throw gives the generic 500. |
| AddProductRoute.ZeroPriceRefused | Gadget-Finder/src/app/api/AddProduct/route.js:10 | A numeric price of 0 is refused with 400. |
| AddProductRoute.ServerGateAfterClientGates | Gadget-Finder/src/app/api/AddProduct/route.js:10-15 | A form that passes the page's gates is refused by the server iff its sku is empty. The page never checks the sku. |
| Toasts.MakeToast | Gadget-Finder/src/components/ui/Toast.jsx:224-232 | duration defaults to 5000 and position to "top-right". Any field in the options, id, message and type included, overrides because the options are spread last. |
| Toasts.WithoutToast | Gadget-Finder/src/components/ui/Toast.jsx:242-244 | No toast with the id remains. Every other toast stays, in order. |
| Toasts.AddThenRemove | Gadget-Finder/src/components/ui/Toast.jsx:223-244 | Removing a just-added toast under a fresh id restores the queue. |
| Toasts.ToastQueue.AddToast | Gadget-Finder/src/components/ui/Toast.jsx:223-240 | Exactly one toast is appended, and the earlier ones are unchanged. |
| Toasts.ToastQueue.RemoveToast | Gadget-Finder/src/components/ui/Toast.jsx:242-244 | The queue becomes WithoutToast. |
| Toasts.ToastQueue.ShowSuccess | Gadget-Finder/src/components/ui/Toast.jsx:246-247 | AddToast with type "success". |
| Toasts.ToastQueue.ShowError | Gadget-Finder/src/components/ui/Toast.jsx:248 | AddToast with type "error". |
| Toasts.ToastQueue.ShowWarning | Gadget-Finder/src/components/ui/Toast.jsx:249-250 | AddToast with type "warning". |
| Toasts.ToastQueue.ShowInfo | Gadget-Finder/src/components/ui/Toast.jsx:251 | AddToast with type "info". |
| Loading.Entry | Gadget-Finder/src/context/LoadingContext.jsx:41-47 | The entry holds the flag and the timestamp. The message is the given one, or "Loading...", and never empty. The progress is zero iff none, or 0, is given. |
| Loading.LoadingRegistry.SetLoading | Gadget-Finder/src/context/LoadingContext.jsx:39-49 | Only the key's entry changes. |
| Loading.LoadingRegistry.GetLoading | Gadget-Finder/src/context/LoadingContext.jsx:52-59 | The key's entry, or `{false, "", 0}` when absent. |
| Loading.LoadingRegistry.IsAnyLoading | Gadget-Finder/src/context/LoadingContext.jsx:62-67 | Some entry is loading, or the global flag is set. ClearAllLoading ends with it false. |
| Loading.LoadingRegistry.ClearLoading | Gadget-Finder/src/context/LoadingContext.jsx:70-76 | Only the key is removed. |
| Loading.LoadingRegistry.ClearAllLoading | Gadget-Finder/src/context/LoadingContext.jsx:79-82 | Empty map, flag cleared, and so nothing is loading. |
| Loading.LoadingRegistry.SetGlobalLoadingState | Gadget-Finder/src/context/LoadingContext.jsx:85-95 | On: the flag and a loading "global" entry. Off: the flag is cleared and "global" removed. |
| Loading.LoadingRegistry.WithLoading | Gadget-Finder/src/context/LoadingContext.jsx:98-111 | The key is loading during the operation. Afterwards it is present but not loading, whether the operation returned or threw. The outcome is passed on. |
| Loading.LoadingRegistry.UpdateProgress | Gadget-Finder/src/context/LoadingContext.jsx:114-123 | Sets the progress. The message is the given one, else the previous one, else "Loading...". The other fields are spread back. Other keys are unchanged. |
| Loading.ImageLoadingStates.SetImageLoading | Gadget-Finder/src/context/LoadingContext.jsx:196-201 | Only the source's flag changes. |
| Loading.ImageLoadingStates.IsImageLoading | Gadget-Finder/src/context/LoadingContext.jsx:203-208 | A source is loading only when its flag is recorded as true. An unknown source is not loading. |
| Loading.ImageLoadingStates.ClearImageLoading | Gadget-Finder/src/context/LoadingContext.jsx:210-216 | Only the source is removed, and it then reads as not loading. |
| Navbar.IsActiveLink | Gadget-Finder/src/app/component/Navber.jsx:50-54 | The home link only on "/" itself. Any other link on every path that starts with its href. Its properties are the three lemmas below. |
| Navbar.HomeActiveOnlyAtRoot | Gadget-Finder/src/app/component/Navber.jsx:51 | The home link is active iff the path is exactly "/". |
| Navbar.PrefixActivates | Gadget-Finder/src/app/component/Navber.jsx:52 | Any other link is active on every path that extends it, "/ProductsX" for "/Products" included. |
| Navbar.ActiveLinkIsPrefix | Gadget-Finder/src/app/component/Navber.jsx:50-54 | Any other link is active only on paths that start with it. |
| Navbar.NavLinks | Gadget-Finder/src/app/component/Navber.jsx:56-62 | Home, then Products, then Add Product iff there is a session. |
| Navbar.NavMenus.ToggleMenu | Gadget-Finder/src/app/component/Navber.jsx:38-40 | Flips the mobile menu only. |
| Navbar.NavMenus.ToggleUserMenu | Gadget-Finder/src/app/component/Navber.jsx:42-44 | Flips the user menu only. |
| Navbar.NavMenus.RouteChanged | Gadget-Finder/src/app/component/Navber.jsx:33-36 | A changed path closes both menus. The same path changes nothing. |
| Text.ContainsOccurs | Gadget-Finder/src/app/Products/page.jsx:47-48 | `includes` holds iff the needle occurs at some index. |
| Text.TrimEmptyIffBlank | Gadget-Finder/src/app/dashboard/AddProduct/page.jsx:184 | `trim()` is empty iff the string is all white space. |
| Text.JoinSplit | Gadget-Finder/src/app/dashboard/AddProduct/page.jsx:716-718 | Joining the split pieces gives the string back. |
| Text.SplitJoin | Gadget-Finder/src/app/dashboard/AddProduct/page.jsx:713-718 | Splitting the join of separator-free pieces gives the pieces back. |
| Seqs.FilterIsSubsequence | Gadget-Finder/src/lib/imageUpload.js:51-52 | `filter` keeps the relative order of what it keeps. |
| Seqs.FilterPartition | Gadget-Finder/src/lib/imageUpload.js:51-52 | Filtering by a predicate and by its negation splits the input exactly. |

## Left out

- All rendering (JSX, styling, animation), the skeleton and spinner components, and the static pages.
- Network, database and service calls are parameters, given as their outcomes:
  - the product fetches;
  - `Mdata` (`lib/PostData.js`, which turns the HTTP reply into success or an error text);
  - the ImgBB POST;
  - the HEAD request of `validateImageUrl`;
  - `dbConnect` and `insertOne`.
- The database-side sort and limit of the products and featured endpoints are not modelled.
- Authentication is a session boolean. Sign-out is not modelled.
- The toast auto-dismiss timer and the page-loading timers are not modelled.
- `Date.now()`/`Math.random()` ids and timestamps are given values. The preview URLs of attached files come from the browser and are given.
- `parseFloat` and `parseInt` are function parameters returning a number or NaN. `toLowerCase` is modelled on ASCII letters only.
- IntersectionObserver and image load/error events are method calls that drive the handlers.
- Spreading a non-object parent in a dotted field update is treated as spreading nothing. Inherited `Object.prototype` keys in the category tables are not modelled.
- `CardImage.ProductCard`: the cards in the source declare these handlers but render through `OptimizedImage`, which never calls them. The model states what the handlers would do.
- The checkbox handlers read the list from the rendered form rather than from the previous state. The model applies them to the current form, so a stale list read between two quick clicks is not captured.
- Ids are removed by exact JSON equality, where the source compares with `!==`. The two agree on the numeric ids `addToast` creates.
- `Loading.LoadEntry`: an entry written only by `updateProgress` has no `isLoading` or timestamp in the source. It is modelled with `false` and no timestamp, which is how every reader treats it.
- Submission.AddProductPage.Submit: `handleSubmit` runs as one step. In the page the inputs stay editable across its two awaits, on the upload and on the insert; only the submit button is disabled. An edit made meanwhile is discarded by the reset after an accepted insert and kept otherwise. The model has no interleaving, so it captures neither case.
- Loading.LoadingRegistry.UpdateProgress: progress is an integer here, in `Loading.LoadEntry` and in `Loading.Entry`, where the source stores any JavaScript number. Fractional progress is not modelled, and neither is NaN, which `options.progress || 0` turns into 0.
- Behaviours of the code that may surprise; the model follows the code:
  - The category options can contain "all" twice when a product's category is literally "all" (`Catalog.AllOfferedOnce`).
  - The batch's `success` is not "failed is empty" when a file is missing (`ImageUpload.MissingFileBatch`).
  - A price that parses to NaN passes the client gate (`ProductForm.UnparsablePricePasses`).
  - A trailing newline typed in the features box disappears (`ProductForm.TrailingNewlineDropped`).

## Findings

| source | as written | input that shows it | evidently intended | confidence | as-written member | corrected member |
|---|---|---|---|---|---|---|
| Gadget-Finder/src/components/ui/ImageLoader.jsx:204-238 | The category placeholder is pushed onto `allSources`, which is rebuilt on the next render. The index then points past the end, and the image is given `undefined`. | `OptimizedImage` with one dead `src`, no fallbacks, category "Tablets": after one error the rendered source is `undefined` | After the listed sources fail, the category placeholder is shown once. If it fails too, the state is "error". | high (not executed) | ImageLoading.DeadTabletImageAsWritten | ImageLoading.DeadTabletImageFixed |
| Gadget-Finder/src/app/dashboard/AddProduct/page.jsx:219 | The notice interpolates `uploadResult.error`, which the batch only sets when a file is missing. Every ordinary upload failure reads "Image upload failed: undefined". | Two attached files, the service refuses the second | The notice names why the upload failed: the batch error, or the first failed file's error. | high (not executed) | Submission.UploadFailureNoticeSaysUndefined | Submission.UploadFailureNamesFirstFailedFile |
