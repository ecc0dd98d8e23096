# Catalogo Brands portal logic, modelled in Dafny

This project models the decision logic of the catalogo-brands e-commerce portal: a React and
TypeScript front end for a private-label product catalogue, its sample orders and its
onboarding. The portal keeps its data in a hosted database.

The logic lives in small rules spread across components and hooks:

- the onboarding wizard's step machine and answer map;
- order, shipping and points arithmetic;
- the drag-and-drop image reorder and the product gallery;
- pagination and case-insensitive search in the admin pages and the product hooks;
- the sign-up form and the order payload;
- the bounded retries of the analytics layer;
- formatting and classification rules in the CRM, task and project screens, and in the main menu.

Each source file has one Dafny module.

- State that a component changes step by step is a `class` with `modifies` clauses. This covers the quiz, the gallery, the admin pager, the search box, the sign-up page and the analytics flag.
- The drag-and-drop reorder works on an `array` in place.
- The polling for the analytics object is a `while` loop.
- Everything else is a function over datatypes.
- Database writes, toasts, navigation and analytics calls become values in an effect log. What a remote call answers is a parameter.
- Money is integer cents: 4.50 is `450` and 2 is `200`.
- Absent values are `Option`. JavaScript's `||` (truthiness) is kept apart from `??` and from default parameters.

Shared modules:

- `Wrappers`: `Option` and `Result`.
- `Text`: ASCII lowering, substring search, `trim`, truthiness, `join`.
- `Lists`: an order-keeping filter.
- `Paging`: page ranges and ceiling division.

## Model

| member | source | states |
|---|---|---|
| Text.Lower | src/pages/admin/AdminCatalog.tsx:47-49 | `toLowerCase` keeps the length and lowers each letter |
| Text.LowerIdempotent | src/pages/admin/AdminCatalog.tsx:47-49 | lowering twice is lowering once |
| Text.IncludesIff | src/pages/admin/AdminCatalog.tsx:51-52 | `includes` holds iff the term occurs at some position |
| Text.IncludesEmpty | src/pages/admin/AdminCatalog.tsx:51-52 | every string includes the empty term |
| Text.Trim | src/components/UserMenu.tsx:67 | `trim` returns the slice of the text with only whitespace before and after it, starting and ending with a non-space; empty iff the text is all whitespace |
| Text.TrimmedUnique | src/components/UserMenu.tsx:67 | at most one slice of a text is that text without its outer whitespace, so the trim contract pins the result |
| Text.TrimUnchanged | src/components/UserMenu.tsx:67 | trimming text without outer whitespace changes nothing |
| Text.OrElse | src/components/admin/crm/CRMTable.tsx:90 | `o \|\| fallback` gives the value when truthy, the fallback otherwise |
| Text.NonEmpty | src/components/admin/crm/CRMTable.tsx:87 | `filter(Boolean)` keeps only non-empty parts and is empty iff all are missing; characterised fully by NonEmptyOne and NonEmptyAppend |
| Text.NonEmptyOne | src/components/admin/crm/CRMTable.tsx:87 | a single part is kept, with its value, iff it is truthy |
| Text.NonEmptyAppend | src/components/admin/crm/CRMTable.tsx:87 | `filter(Boolean)` over two lists is the concatenation of the two results, so with NonEmptyOne every truthy value is kept in order |
| Text.JoinPresent | src/components/admin/projects/manage/ProjectPointsCard.tsx:55-60 | `filter(Boolean).join(sep)`; specified by JoinPresentEmptyIff and JoinPresentTwo |
| Text.Join | src/components/admin/projects/manage/ProjectPointsCard.tsx:60 | `parts.join(sep)`; specified by JoinEmptyIff and JoinSmall |
| Text.JoinEmptyIff | src/components/admin/projects/manage/ProjectPointsCard.tsx:60 | a join of non-empty strings is empty exactly when there are no parts |
| Text.JoinSmall | src/components/admin/projects/manage/ProjectPointsCard.tsx:60 | one part joins to itself; two parts join with exactly one separator between them |
| Text.TrimStart | src/components/admin/projects/manage/ProjectPointsCard.tsx:41 | the suffix left after the leading whitespace: only whitespace was dropped, and the result is empty or starts with a non-space |
| Text.TrimEnd | src/components/admin/projects/manage/ProjectPointsCard.tsx:41 | the prefix left before the trailing whitespace: only whitespace was dropped, and the result is empty or ends with a non-space |
| Text.ShowNullable | src/components/UserMenu.tsx:67 | a template literal renders a null string as "null"; used by UserName and NullFirstNameShowsNull |
| Text.TruthyOpt | src/components/admin/projects/manage/ProjectPointsCard.tsx:46 | JavaScript truthiness of a possibly missing string: present and non-empty |
| Text.StartsWith | src/components/products/ProductHeader.tsx:35 | `startsWith`: the string begins with the prefix; IsValidImage applies it to "https://" |
| Text.Includes | src/components/ProductSearch.tsx:37 | `includes` as a left-to-right search; IncludesPrefix shows a string that starts with the text includes it |
| Text.IncludesPrefix | src/components/ProductSearch.tsx:37 | any string that starts with the text includes it |
| Text.JoinPresentEmptyIff | src/components/admin/projects/manage/ProjectPointsCard.tsx:55-60 | the filtered join is empty iff every part is missing or empty |
| Text.JoinPresentTwo | src/components/admin/crm/CRMTable.tsx:87 | two parts join with one separator, one part stands alone |
| Lists.Filter | src/components/ProductSearch.tsx:36 | `filter` keeps exactly the elements that pass and never grows |
| Lists.FilterIsSubsequence | src/components/ProductSearch.tsx:36 | `filter` keeps the original order |
| OnboardingQuiz.Keys | src/components/onboarding/OnboardingQuiz.tsx:45 | `Object.keys(answers)` lists the keys in insertion order |
| OnboardingQuiz.Lookup | src/components/onboarding/OnboardingQuiz.tsx:45-46 | a key is found iff it was answered, with its stored answer |
| OnboardingQuiz.Put | src/components/onboarding/OnboardingQuiz.tsx:37-39 | the answered key maps to the new value and every other key keeps its answer |
| OnboardingQuiz.PutKeys | src/components/onboarding/OnboardingQuiz.tsx:37-39 | an existing key keeps its position; a new key is appended |
| OnboardingQuiz.PutDistinct | src/components/onboarding/OnboardingQuiz.tsx:37-39 | answering keeps the keys distinct |
| OnboardingQuiz.PutTwice | src/components/onboarding/OnboardingQuiz.tsx:37-39 | answering the same step twice keeps only the last answer |
| OnboardingQuiz.LookupAt | src/components/onboarding/OnboardingQuiz.tsx:45-46 | the i-th key finds the i-th answer |
| OnboardingQuiz.StepValidByPosition | src/components/onboarding/OnboardingQuiz.tsx:41-50 | a middle step is valid iff the answer under the (step-1)-th inserted key is a non-empty list or a truthy value |
| OnboardingQuiz.InOrderAnswersMatchSteps | src/components/onboarding/OnboardingQuiz.tsx:41-50 | when steps are answered in order, validity checks the step's own answer |
| OnboardingQuiz.OutOfOrderAnswersMisleadValidity | src/components/onboarding/OnboardingQuiz.tsx:45 | answering out of order makes validity read another step's answer |
| OnboardingQuiz.EndStepsAlwaysValid | src/components/onboarding/OnboardingQuiz.tsx:42-43 | the first and last steps are valid whatever the answers |
| OnboardingQuiz.IsStepValid | src/components/onboarding/OnboardingQuiz.tsx:41-50 | `isStepValid`; specified by StepValidByPosition, InOrderAnswersMatchSteps, OutOfOrderAnswersMisleadValidity and EndStepsAlwaysValid |
| OnboardingQuiz.Filled | src/components/onboarding/OnboardingQuiz.tsx:46-49 | a non-empty array, or a truthy non-array; read through StepValidByPosition |
| OnboardingQuiz.BackButtonShown | src/components/onboarding/OnboardingQuiz.tsx:183 | the Back button exists strictly between the first and last steps; used by Quiz.PressNextButton |
| OnboardingQuiz.NextButtonShown | src/components/onboarding/OnboardingQuiz.tsx:183-192 | the Next button is shown on the Back-button steps except the phone step; used by Quiz.PressNextButton |
| OnboardingQuiz.NextButtonEnabled | src/components/onboarding/OnboardingQuiz.tsx:192-196 | shown and `isStepValid`; Quiz.PressNextButton advances iff it holds |
| OnboardingQuiz.Progress | src/components/onboarding/OnboardingQuiz.tsx:156 | progress is 0 at the first step, 100 at the last and in between otherwise |
| OnboardingQuiz.ProgressMonotone | src/components/onboarding/OnboardingQuiz.tsx:156 | progress grows with the step and reaches 100 only at the last |
| OnboardingQuiz.BuildPayload | src/components/onboarding/OnboardingQuiz.tsx:63-76 | each of the five fields holds its key's answer when that answer is truthy and the fallback (`[]` or `""`) otherwise; onboarding is always completed |
| OnboardingQuiz.AnswerOr | src/components/onboarding/OnboardingQuiz.tsx:64-68 | `answers[key] \|\| fallback`; specified per key by BuildPayload and PayloadCarriesAnswers |
| OnboardingQuiz.Answered | src/components/onboarding/OnboardingQuiz.tsx:64-68 | the answer under a key exists and is truthy, which decides each payload field in BuildPayload |
| OnboardingQuiz.Truthy | src/components/onboarding/OnboardingQuiz.tsx:64-68 | JavaScript truthiness of an answer: an array always, a string when non-empty; used by Answered |
| OnboardingQuiz.Field | src/components/onboarding/OnboardingQuiz.tsx:63-69 | the payload field each answer key fills; BuildPayload fixes every one |
| OnboardingQuiz.Default | src/components/onboarding/OnboardingQuiz.tsx:64-68 | the fallback of each key, an empty array for the categories and "" otherwise; BuildPayload uses it for unanswered keys |
| OnboardingQuiz.PayloadCarriesAnswers | src/components/onboarding/OnboardingQuiz.tsx:63-69 | for every question key, a truthy answer reaches its field unchanged and an empty string gives the fallback |
| OnboardingQuiz.PayloadFieldsIndependent | src/components/onboarding/OnboardingQuiz.tsx:63-69 | answering any question key leaves the fields of the four other keys unchanged |
| OnboardingQuiz.SaveQuizData | src/components/onboarding/OnboardingQuiz.tsx:52-95 | without a user only the "User not authenticated" error; otherwise one write, then either the "Failed to save your responses" error or the "Your profile has been updated successfully" toast and the move to /start-here, which happens iff the write succeeds |
| OnboardingQuiz.Quiz.constructor | src/components/onboarding/OnboardingQuiz.tsx:22-23 | the quiz starts at step 0 with no answers |
| OnboardingQuiz.Quiz.HandleNext | src/components/onboarding/OnboardingQuiz.tsx:25-29 | advances only below the last step and keeps the answers |
| OnboardingQuiz.Quiz.HandleBack | src/components/onboarding/OnboardingQuiz.tsx:31-35 | goes back only above step 0 and keeps the answers |
| OnboardingQuiz.Quiz.HandleAnswer | src/components/onboarding/OnboardingQuiz.tsx:37-39 | overwrites one answer in place and keeps the step |
| OnboardingQuiz.Quiz.PressNextButton | src/components/onboarding/OnboardingQuiz.tsx:183-199 | the Next button advances only when shown and valid, never onto the last step |
| OrderCalculations.QuantityOf | src/lib/orderCalculations.ts:4 | a missing or zero quantity counts as 1 |
| OrderCalculations.PriceOf | src/lib/orderCalculations.ts:3 | `from_price \|\| 0`; used by LineTotal |
| OrderCalculations.LineTotal | src/lib/orderCalculations.ts:3-5 | price times quantity of one line; specified by SubtotalSmall |
| OrderCalculations.Subtotal | src/lib/orderCalculations.ts:1-7 | the `reduce` from 0; specified by SubtotalAppend, SubtotalSmall and SubtotalNonNegative |
| OrderCalculations.SubtotalAppend | src/lib/orderCalculations.ts:1-7 | the subtotal of two lists is the sum of their subtotals |
| OrderCalculations.SubtotalSmall | src/lib/orderCalculations.ts:1-7 | the empty list costs 0 and one line costs price times quantity |
| OrderCalculations.SubtotalNonNegative | src/lib/orderCalculations.ts:1-7 | non-negative prices and non-negative quantities give a non-negative subtotal |
| OrderCalculations.Shipping | src/lib/orderCalculations.ts:9-13 | 4.50 plus 2 per line beyond the first, and 4.50 for an empty list |
| OrderCalculations.ShippingGrowth | src/lib/orderCalculations.ts:12 | shipping never falls when a line is added and grows by exactly 2 from one line on |
| OrderCalculations.ShippingIgnoresQuantities | src/lib/orderCalculations.ts:10 | shipping depends only on the number of lines |
| OrderCalculations.Total | src/lib/orderCalculations.ts:15-19 | the total exceeds the subtotal by at least the base shipping |
| OrderCalculations.TotalAddLine | src/lib/orderCalculations.ts:15-19 | adding a line adds its cost plus 2 |
| OrderCalculations.EmptyOrderTotal | src/lib/orderCalculations.ts:15-19 | an empty order still costs 4.50 |
| ShippingCalculation.FindRate | src/hooks/useShippingCalculation.ts:24-28 | no rate is found iff none applies; a found rate applies |
| ShippingCalculation.Applies | src/hooks/useShippingCalculation.ts:25-27 | at least `min_items`, and at most `max_items` when it is set; FindRate finds a rate iff one applies |
| ShippingCalculation.ShippingCost | src/hooks/useShippingCalculation.ts:30-44 | 0 without a rate, else the base rate plus the guarded extra; specified by CostIsBaseRate and FirstApplicableWins |
| ShippingCalculation.TruthyNumber | src/hooks/useShippingCalculation.ts:35-36 | JavaScript truthiness of a nullable number; the extra-item charge needs both fields truthy, as CostIsBaseRate shows |
| ShippingCalculation.FindRateIsFirst | src/hooks/useShippingCalculation.ts:24-28 | the first applicable rate in list order is the one found |
| ShippingCalculation.CostIsBaseRate | src/hooks/useShippingCalculation.ts:30-44 | the cost is 0 without a rate and else always the base rate: the extra charge can never fire |
| ShippingCalculation.FirstApplicableWins | src/hooks/useShippingCalculation.ts:24-44 | the cost is the first applicable rate's base rate |
| ShippingCalculation.ShippingQuery | src/hooks/useShippingCalculation.ts:46 | the query runs iff a country is set and there are items |
| ShippingCalculation.QueryEnabled | src/hooks/useShippingCalculation.ts:46 | `Boolean(country && totalItems > 0)`; ShippingQuery answers only when it holds |
| ImageSorting.RemoveAt | src/components/admin/catalog/image-upload/useImageSorting.ts:18 | `splice(i, 1)` shortens the list by one |
| ImageSorting.InsertAt | src/components/admin/catalog/image-upload/useImageSorting.ts:19 | `splice(j, 0, x)` lengthens the list by one |
| ImageSorting.Moved | src/components/admin/catalog/image-upload/useImageSorting.ts:17-19 | remove at the old index, insert at the new one; specified by MovedAt, MovedFacts and MovedBack |
| ImageSorting.MovedAt | src/components/admin/catalog/image-upload/useImageSorting.ts:17-19 | where each element lands after the move |
| ImageSorting.MovedFacts | src/components/admin/catalog/image-upload/useImageSorting.ts:17-19 | the move keeps the length and the multiset, puts the moved image at the target, and keeps the others' order |
| ImageSorting.MovedBack | src/components/admin/catalog/image-upload/useImageSorting.ts:17-19 | moving back restores the list |
| ImageSorting.MoveInPlace | src/components/admin/catalog/image-upload/useImageSorting.ts:17-19 | the in-place array move leaves exactly the moved list |
| ImageSorting.ReorderImages | src/components/admin/catalog/image-upload/useImageSorting.ts:17-19 | the copy is reordered into a permutation with the moved image at the new index |
| ImageSorting.FindIndex | src/components/admin/catalog/image-upload/useImageSorting.ts:14-15 | `findIndex` gives the first matching index, or -1 iff there is none |
| ImageSorting.PositionUpdates | src/components/admin/catalog/image-upload/useImageSorting.ts:23-29 | updates number the images 0..n-1 in order and mark only index 0 primary |
| ImageSorting.ExactlyOnePrimary | src/components/admin/catalog/image-upload/useImageSorting.ts:28 | a non-empty list has exactly one primary image |
| ImageSorting.HandleDragEnd | src/components/admin/catalog/image-upload/useImageSorting.ts:10-43 | no drop target or the same id changes nothing; otherwise upsert, product image, refresh |
| ProductHeader.InitialSelected | src/components/products/ProductHeader.tsx:19 | the product image, or the placeholder when it is absent |
| ProductHeader.IsValidImage | src/components/products/ProductHeader.tsx:35 | the URL exists and starts with "https://"; ValidImages keeps exactly these |
| ProductHeader.ValidImages | src/components/products/ProductHeader.tsx:35 | keeps exactly the images with an https URL |
| ProductHeader.ValidImagesOrdered | src/components/products/ProductHeader.tsx:35 | in their original order |
| ProductHeader.FindPrimary | src/components/products/ProductHeader.tsx:38 | finds a primary image iff one exists, and the one found is the first image marked primary |
| ProductHeader.FirstIndex | src/components/products/ProductHeader.tsx:57 | `findIndex` of a present URL: the position of its first occurrence |
| ProductHeader.SelectedAfterLoadSpec | src/components/products/ProductHeader.tsx:38-41 | a loaded primary image becomes the selection, otherwise it stays |
| ProductHeader.SelectedAfterLoad | src/components/products/ProductHeader.tsx:38-41 | the selection after the image query; specified by SelectedAfterLoadSpec |
| ProductHeader.KeepFirst | src/components/products/ProductHeader.tsx:56-58 | exactly the URLs not seen before, each once, ordered by the position of their first occurrence in the input |
| ProductHeader.KeepFirstOrdered | src/components/products/ProductHeader.tsx:56-58 | dedup keeps the order |
| ProductHeader.UniqueImages | src/components/products/ProductHeader.tsx:53-58 | the main image first when present, then every loaded image, each URL once and nothing else, in the order of first occurrence among the candidates |
| ProductHeader.Candidates | src/components/products/ProductHeader.tsx:53-55 | the main image when present, then every loaded URL, in that order |
| ProductHeader.NavigationCycles | src/components/products/ProductHeader.tsx:60-74 | prev and next stay in range, wrap around and undo each other |
| ProductHeader.PrevIndex | src/components/products/ProductHeader.tsx:62 | the previous index, wrapping to the last; specified by NavigationCycles |
| ProductHeader.NextIndex | src/components/products/ProductHeader.tsx:70 | the next index, wrapping to the first; specified by NavigationCycles |
| ProductHeader.Gallery.Images | src/components/products/ProductHeader.tsx:53-58 | the gallery list starts with the main image |
| ProductHeader.Gallery.constructor | src/components/products/ProductHeader.tsx:19-21 | starts on the product image at index 0 |
| ProductHeader.Gallery.ImagesFetched | src/components/products/ProductHeader.tsx:35-43 | stores the valid images and selects the primary one |
| ProductHeader.Gallery.ThumbnailClick | src/components/products/ProductHeader.tsx:47-50 | selects the clicked image and index |
| ProductHeader.Gallery.PreviousImage | src/components/products/ProductHeader.tsx:60-66 | steps back cyclically and selects the image shown there |
| ProductHeader.Gallery.NextImage | src/components/products/ProductHeader.tsx:68-74 | steps forward cyclically and selects the image shown there |
| UserMenu.BalanceIsPointsMinusUsed | src/components/UserMenu.tsx:37-39 | the fold equals total points minus total used, a null used counting 0 |
| UserMenu.Balance | src/components/UserMenu.tsx:38 | `points - (points_used \|\| 0)` of one project; summed by SumBalances |
| UserMenu.SumBalances | src/components/UserMenu.tsx:37-39 | the `reduce` from 0; specified by BalanceIsPointsMinusUsed and WithinBudgetNonNegative |
| UserMenu.SumPoints | src/components/UserMenu.tsx:37-39 | the `points` column summed; BalanceIsPointsMinusUsed relates it to SumBalances |
| UserMenu.SumUsed | src/components/UserMenu.tsx:37-39 | the `points_used` column summed with nulls as 0; BalanceIsPointsMinusUsed relates it to SumBalances |
| UserMenu.TotalPoints | src/components/UserMenu.tsx:28-40 | 0 without a user or rows, else points minus used |
| UserMenu.OverspentIsNegative | src/components/UserMenu.tsx:38 | the balance is not clamped at 0 |
| UserMenu.WithinBudgetNonNegative | src/components/UserMenu.tsx:37-39 | never overspent projects give a non-negative balance |
| UserMenu.BeforeAt | src/components/UserMenu.tsx:67 | `split("@")[0]` is the prefix before the first @ |
| UserMenu.UserName | src/components/UserMenu.tsx:66-67 | with a profile, `"first last"` (nulls rendered "null") with its outer whitespace removed; without one, the e-mail's part before the first "@" when non-empty, else "User" |
| UserMenu.ProfileName | src/components/UserMenu.tsx:67 | a profile shows as "first last" |
| UserMenu.NullFirstNameShowsNull | src/components/UserMenu.tsx:67 | a null first name shows as "null" before the last name |
| UserMenu.NoLocalPartShowsUser | src/components/UserMenu.tsx:67 | an empty local part shows "User" |
| UserMenu.AvatarFallback | src/components/UserMenu.tsx:88 | the first character of the name |
| Paging.CeilDiv | src/pages/admin/AdminCatalog.tsx:38 | `Math.ceil(count / n)` is the least number of pages that holds every row |
| Paging.RangeFrom | src/pages/admin/AdminCatalog.tsx:25 | `(page - 1) * perPage`; specified by PagesTile and RowOnOnePage |
| Paging.RangeTo | src/pages/admin/AdminCatalog.tsx:26 | `from + perPage - 1`; specified by PagesTile and RowOnOnePage |
| Paging.PagesTile | src/pages/admin/AdminCatalog.tsx:25-26 | a page spans exactly n rows and the next page starts right after it |
| Paging.RowOnOnePage | src/pages/admin/AdminCatalog.tsx:25-26 | every row lies on exactly one page |
| Paging.PageHasRowsIff | src/hooks/useProducts.ts:55-58 | a page starts before the row count iff it is at most the page count |
| AdminCatalog.PageRange | src/pages/admin/AdminCatalog.tsx:16-26 | page p asks for 15 rows from (p-1)*15, contiguous with the next page |
| Paging.TotalPages | src/pages/admin/AdminCatalog.tsx:38 | ceiling of the count over the page size, a missing count giving 0; AdminOrders.tsx:55 computes the same with 15 rows a page |
| AdminCatalog.FilterProducts | src/pages/admin/AdminCatalog.tsx:44-53 | keeps a product iff its lowered name or category includes the lowered term; all for an empty term |
| AdminCatalog.Matches | src/pages/admin/AdminCatalog.tsx:44-53 | the search test; FilterProducts keeps exactly the products it accepts |
| AdminCatalog.FilterOrdered | src/pages/admin/AdminCatalog.tsx:44 | in the page's order |
| AdminCatalog.NameFindsItself | src/pages/admin/AdminCatalog.tsx:51 | searching a product's name finds it |
| AdminCatalog.PageLinks | src/pages/admin/AdminCatalog.tsx:100 | links 1..totalPages |
| AdminCatalog.ControlsShown | src/pages/admin/AdminCatalog.tsx:89 | the pager is rendered only for more than one page |
| AdminCatalog.Pager.constructor | src/pages/admin/AdminCatalog.tsx:20 | starts on page 1 |
| AdminCatalog.Pager.Previous | src/pages/admin/AdminCatalog.tsx:95 | `max(1, p-1)`, staying in range |
| AdminCatalog.Pager.Next | src/pages/admin/AdminCatalog.tsx:114 | `min(totalPages, p+1)`, staying in range |
| AdminCatalog.Pager.GoTo | src/pages/admin/AdminCatalog.tsx:103 | a page link selects its page |
| AdminOrders.StatusFilter | src/pages/admin/AdminOrders.tsx:40-42 | the status condition applies iff the selection is not "all" |
| AdminOrders.PageRange | src/pages/admin/AdminOrders.tsx:9-45 | page p asks for 15 rows from (p-1)*15 |
| AdminOrders.OrderNumber | src/pages/admin/AdminOrders.tsx:66 | "SPL" plus the first six characters of the id |
| AdminOrders.CustomerEmail | src/pages/admin/AdminOrders.tsx:67 | a missing e-mail matches as the empty string |
| AdminOrders.ShowCustomerField | src/pages/admin/AdminOrders.tsx:65 | "undefined" without a customer, "null" for a null column; specified by MissingCustomerRendersUndefined |
| AdminOrders.CustomerName | src/pages/admin/AdminOrders.tsx:65 | the template `first last`; specified by MissingCustomerRendersUndefined |
| AdminOrders.Matches | src/pages/admin/AdminOrders.tsx:61-72 | the search test; FilterOrders keeps exactly the orders it accepts, and OrderNumberFindsOrder and MissingEmailNeverMatches pin two cases |
| AdminOrders.FilterOrders | src/pages/admin/AdminOrders.tsx:61-72 | keeps an order iff name, order number or e-mail includes the lowered term; all for an empty term |
| AdminOrders.FilterOrdered | src/pages/admin/AdminOrders.tsx:61 | in the page's order |
| AdminOrders.OrderNumberFindsOrder | src/pages/admin/AdminOrders.tsx:66-70 | searching an order's number finds it |
| AdminOrders.MissingEmailNeverMatches | src/pages/admin/AdminOrders.tsx:67-71 | a missing e-mail never matches a non-empty term |
| AdminOrders.MissingCustomerRendersUndefined | src/pages/admin/AdminOrders.tsx:65 | an order without a customer is named "undefined undefined" and matches that word |
| UseProducts.PageOption | src/hooks/useProducts.ts:20 | a given `page` option is kept and a missing one is 1 |
| UseProducts.LimitOption | src/hooks/useProducts.ts:20 | a given `limit` option is kept and a missing one is 9 |
| UseProducts.CurrentPage | src/hooks/useProducts.ts:25 | an explicit page parameter wins over `page` |
| UseProducts.FetchMeta | src/hooks/useProducts.ts:20-59 | asks for `limit` rows from `(currentPage - 1) * limit`; ceiling page count, count or 0, next page, `hasMore` |
| UseProducts.HasMoreIffBeforeLastPage | src/hooks/useProducts.ts:55-58 | `hasMore` holds iff the page is before the last |
| UseProducts.NextPageParam | src/hooks/useProducts.ts:66 | the next page exactly when there is more |
| UseProducts.InfiniteScrollStopsAtLastPage | src/hooks/useProducts.ts:66-67 | infinite scrolling from page 1 asks for a next page iff one exists |
| ProductSearch.FilterByName | src/components/ProductSearch.tsx:36-38 | keeps a product iff its lowered name includes the lowered query; all for an empty query |
| ProductSearch.NameMatches | src/components/ProductSearch.tsx:37 | the lowered name includes the lowered query; FilterByName keeps exactly the matching products |
| ProductSearch.FilterOrdered | src/components/ProductSearch.tsx:36 | in the products' order |
| ProductSearch.FilteredAsWritten | src/components/ProductSearch.tsx:15-36 | as written, the filter throws as soon as the products have loaded |
| ProductSearch.SearchResults | src/components/ProductSearch.tsx:15-38 | corrected: the filter over the loaded rows, nothing while loading |
| ProductSearch.LoadedResponseBreaksFilter | src/components/ProductSearch.tsx:15-36 | one loaded product: found when corrected, an exception as written |
| ProductSearch.SearchBox.constructor | src/components/ProductSearch.tsx:13-14 | closed with an empty query |
| ProductSearch.SearchBox.Focus | src/components/ProductSearch.tsx:69 | focusing opens the dropdown |
| ProductSearch.SearchBox.Type | src/components/ProductSearch.tsx:68 | typing sets the query |
| ProductSearch.SearchBox.ClickOutside | src/components/ProductSearch.tsx:22-29 | a click outside closes the dropdown |
| ProductSearch.SearchBox.Clear | src/components/ProductSearch.tsx:73-83 | clears the query and refocuses, reopening the dropdown |
| ProductSearch.SearchBox.ClearButtonShown | src/components/ProductSearch.tsx:73 | the clear button exists while there is a query |
| ProductSearch.SearchBox.Select | src/components/ProductSearch.tsx:40-59 | success closes, clears, reports and calls back only if given; failure only reports |
| SignUp.ErrorsFor | src/pages/pt/SignUp.tsx:27-41 | a password error iff fewer than 6 characters, a phone error iff no phone |
| SignUp.ValidIffNoErrors | src/pages/pt/SignUp.tsx:26-50 | valid iff no inline error and names and e-mail are present |
| SignUp.NamesPresent | src/pages/pt/SignUp.tsx:43 | first name, last name and e-mail are filled in; specified by ValidIffNoErrors |
| SignUp.IsFormValid | src/pages/pt/SignUp.tsx:33-49 | every rule of `validateForm` holds; specified by ValidIffNoErrors and SignUpPage.ValidateForm |
| SignUp.FailureMessage | src/pages/pt/SignUp.tsx:111 | the error's message, or the fallback when it is empty |
| SignUp.AfterRequest | src/pages/pt/SignUp.tsx:75-111 | navigates to login iff a user came back and the profile was written; with a user, the effects are the profile upsert (role "member"), then either the sign-up tracking (method "email") and the navigation, or the profile-error toast |
| SignUp.AlreadyRegisteredStays | src/pages/pt/SignUp.tsx:76-79 | an already registered e-mail gets its own message and no navigation |
| SignUp.OtherErrorsReported | src/pages/pt/SignUp.tsx:80-111 | other errors are reported with their message |
| SignUp.TrackedOnlyAfterProfile | src/pages/pt/SignUp.tsx:83-107 | the sign-up event follows the profile write and precedes navigation |
| SignUp.SignUpPage.constructor | src/pages/pt/SignUp.tsx:13-24 | empty form, no errors, not loading |
| SignUp.SignUpPage.Edit | src/pages/pt/SignUp.tsx:14-20 | editing replaces the form |
| SignUp.SignUpPage.ValidateForm | src/pages/pt/SignUp.tsx:26-50 | rebuilds the errors from the form alone, toasts once for missing names, answers validity |
| SignUp.SignUpPage.HandleSignUp | src/pages/pt/SignUp.tsx:52-115 | an invalid form sends nothing; otherwise the request, its handling and loading cleared |
| CreateOrder.ValidLineItems | src/lib/shopify/createOrder.ts:35 | exactly the items with a truthy variant id |
| CreateOrder.HasVariant | src/lib/shopify/createOrder.ts:35 | a truthy variant id; ValidLineItems keeps exactly these items |
| CreateOrder.ValidLineItemsOrdered | src/lib/shopify/createOrder.ts:35 | in their original order |
| CreateOrder.BuildOrderData | src/lib/shopify/createOrder.ts:41-62 | identical shipping and billing addresses with names and "US", filtered items, "paid" |
| CreateOrder.CreateShopifyOrder | src/lib/shopify/createOrder.ts:27-90 | no items: error before any call; the sample request updated iff an order id came back; every failure reported and rethrown |
| CreateOrder.SuccessDescription | src/lib/shopify/createOrder.ts:76 | "Order #<number> was created successfully.", with "undefined" for a missing number; the last effect of CreateShopifyOrder on success |
| CreateOrder.Fail | src/lib/shopify/createOrder.ts:81-88 | the catch block: the failure toast after the earlier effects, then the rethrown error; CreateShopifyOrder ends every failure this way |
| CreateOrder.NoVariantsNoInvoke | src/lib/shopify/createOrder.ts:37-39 | nothing reaches Shopify without a variant |
| SignUpAnalytics.RetriesCountDown | src/components/auth/signup/pt/SignUpAnalytics.ts:23-71 | retries carry budgets retries-1, retries-2, ... and number at most `retries` |
| SignUpAnalytics.Attempt | src/components/auth/signup/pt/SignUpAnalytics.ts:23-71 | `trackSignUpEvents`; specified by RetriesCountDown, AtMostFourAttempts, MissingSchedulesRetry, ReadySendsInOrder, ErrorIffAllFail, ErrorOnceAndLast and SuccessEndsWithSends |
| SignUpAnalytics.RetryOrReport | src/components/auth/signup/pt/SignUpAnalytics.ts:66-70 | a failure retries with one less while the budget lasts, else reports; specified by FailureAtZeroReports and ErrorIffAllFail |
| SignUpAnalytics.AtMostFourAttempts | src/components/auth/signup/pt/SignUpAnalytics.ts:23 | the default budget allows four attempts at most |
| SignUpAnalytics.MissingSchedulesRetry | src/components/auth/signup/pt/SignUpAnalytics.ts:25-28 | a missing object with budget left sends nothing and schedules one retry |
| SignUpAnalytics.FailureAtZeroReports | src/components/auth/signup/pt/SignUpAnalytics.ts:29-69 | at budget zero a failure reports the error and schedules nothing |
| SignUpAnalytics.ReadySendsInOrder | src/components/auth/signup/pt/SignUpAnalytics.ts:34-63 | identify, track, onboarding completed, once each and in order |
| SignUpAnalytics.ErrorIffAllFail | src/components/auth/signup/pt/SignUpAnalytics.ts:25-71 | the error is shown iff every one of the retries + 1 attempts fails |
| SignUpAnalytics.ErrorOnceAndLast | src/components/auth/signup/pt/SignUpAnalytics.ts:29-69 | a shown error is the last effect and appears once |
| SignUpAnalytics.SuccessEndsWithSends | src/components/auth/signup/pt/SignUpAnalytics.ts:34-63 | without an error the log ends with identify, track and onboarding completed |
| Analytics.ChecksNeeded | src/lib/analytics/index.ts:22-34 | between 1 and 10 checks, ending at the first success |
| Analytics.ReadyWithin | src/lib/analytics/index.ts:25-34 | some of the first ten checks finds the object; WaitForAnalytics resolves iff it holds |
| Analytics.Present | src/lib/analytics/index.ts:25-29 | whether check i finds the analytics object; checks past the given ones find none |
| Analytics.ChecksFrom | src/lib/analytics/index.ts:22-35 | the polling from check i: it stops at the first check that finds the object, or after the tenth |
| Analytics.ReadyIffLastCheckSucceeds | src/lib/analytics/index.ts:25-34 | the wait resolves iff its last check found the object |
| Analytics.PageName | src/lib/analytics/index.ts:92-99 | "Homepage Viewed", "Portuguese Start Page Viewed" or "Page Viewed" by path |
| Analytics.PagePath | src/lib/analytics/index.ts:93 | the caller's path when given, the location's otherwise |
| Analytics.EventProperties | src/lib/analytics/index.ts:72-77 | the defaults override same-named caller properties |
| Analytics.IdentifyTraits | src/lib/analytics/index.ts:53-58 | the defaults override same-named traits |
| Analytics.PageProperties | src/lib/analytics/index.ts:101-112 | caller properties override the defaults, and a given url is formatted |
| Analytics.PageDefaultsFor | src/lib/analytics/index.ts:101-108 | the page-view defaults, which PageProperties lets the caller override |
| Analytics.Given | src/lib/analytics/index.ts:93 | a caller property given with a non-empty value, which overrides the page default |
| Analytics.EmptyPathNamesByLocation | src/lib/analytics/index.ts:93-110 | an empty caller path names the page by location yet is sent as "" |
| Analytics.Client.constructor | src/lib/analytics/index.ts:3 | the flag starts unset |
| Analytics.Client.Initialize | src/lib/analytics/index.ts:5-13 | succeeds and sets the flag iff the window and the object exist |
| Analytics.Client.WaitForAnalytics | src/lib/analytics/index.ts:15-37 | immediate when set; otherwise up to 10 checks, resolving at the first success |
| Analytics.Client.TrackEvent | src/lib/analytics/index.ts:68-85 | one track call when ready and the call does not throw; otherwise only the error toast; never rethrows |
| Analytics.Client.IdentifyUser | src/lib/analytics/index.ts:49-66 | one identify call when ready and the call does not throw; otherwise only the error toast |
| Analytics.Client.TrackPage | src/lib/analytics/index.ts:87-120 | one named page call when ready and the call does not throw; otherwise only the error toast |
| CRMTable.EffectiveType | src/components/admin/crm/CRMTable.tsx:42 | projects make a customer; otherwise the stored type or "lead" |
| CRMTable.HasProjects | src/components/admin/crm/CRMTable.tsx:42 | a non-empty project list; specified by ProjectsMakeCustomer and EmptyProjectsShowNothing |
| CRMTable.Label | src/components/admin/crm/CRMTable.tsx:51-60 | "Unknown" iff the type is not one of the four |
| CRMTable.Style | src/components/admin/crm/CRMTable.tsx:44-49 | gray iff the type is not one of the four |
| CRMTable.UserTypeBadge | src/components/admin/crm/CRMTable.tsx:41-63 | "Customer" with projects, "Lead" with no type, "Unknown" iff an unknown stored type |
| CRMTable.ProjectsMakeCustomer | src/components/admin/crm/CRMTable.tsx:42-92 | any user with projects shows as a customer |
| CRMTable.NameCell | src/components/admin/crm/CRMTable.tsx:87 | present names joined by one space |
| CRMTable.PhoneCell | src/components/admin/crm/CRMTable.tsx:90 | a missing phone shows "-" |
| CRMTable.ProjectsCellFor | src/components/admin/crm/CRMTable.tsx:96-100 | project names, or "-" only when the list is missing |
| CRMTable.EmptyProjectsShowNothing | src/components/admin/crm/CRMTable.tsx:92-100 | an empty list shows no dash and keeps the stored type |
| TaskAssignee.StaticEntry | src/components/stages/TaskAssigneeSelect.tsx:14-31 | the four role entries |
| TaskAssignee.ReplaceFirst | src/components/stages/TaskAssigneeSelect.tsx:49 | `replace` leaves a string without the pattern unchanged |
| TaskAssignee.ReplacePrefix | src/components/stages/TaskAssigneeSelect.tsx:48-49 | replacing the leading "admin-" drops exactly that prefix |
| TaskAssignee.FindAdmin | src/components/stages/TaskAssigneeSelect.tsx:50 | finds an admin with the id iff one is loaded, and the one found is the first with that id |
| TaskAssignee.FindIn | src/components/stages/TaskAssigneeSelect.tsx:50 | `find` over a loaded list: found iff an admin has the id, and the one found is the first with it |
| TaskAssignee.AssigneeDataFor | src/components/stages/TaskAssigneeSelect.tsx:47-57 | an admin by id with "first last" and avatar or "", else the role entry, else "none" |
| TaskAssignee.CurrentAssignee | src/components/stages/TaskAssigneeSelect.tsx:33 | no assignee shows the "none" entry |
| TaskAssignee.AdminsLoadingShowNone | src/components/stages/TaskAssigneeSelect.tsx:50-54 | while admins load, admin ids show as unassigned |
| TaskAssignee.UnknownKeyShowsNone | src/components/stages/TaskAssigneeSelect.tsx:56 | a role id shows unassigned iff it is not one of the three roles |
| ProjectPointsCard.ClientName | src/components/admin/projects/manage/ProjectPointsCard.tsx:41 | "N/A" when `first last` is all whitespace, otherwise that text with its outer whitespace removed |
| ProjectPointsCard.NameText | src/components/admin/projects/manage/ProjectPointsCard.tsx:41 | the template `first last` with missing parts as ""; ClientName trims it |
| ProjectPointsCard.FieldsOf | src/components/admin/projects/manage/ProjectPointsCard.tsx:41-60 | `project.user?.x`: a project without a user reads every field as missing |
| ProjectPointsCard.AddressParts | src/components/admin/projects/manage/ProjectPointsCard.tsx:55-59 | the address parts shown, in order, without the second street line |
| ProjectPointsCard.ClientNameParts | src/components/admin/projects/manage/ProjectPointsCard.tsx:41 | "first last", or one name without a stray space |
| ProjectPointsCard.EmailLine | src/components/admin/projects/manage/ProjectPointsCard.tsx:46 | the e-mail when present and non-empty, else "N/A" |
| ProjectPointsCard.PhoneLine | src/components/admin/projects/manage/ProjectPointsCard.tsx:50 | the phone when present and non-empty, else "N/A" |
| ProjectPointsCard.AddressLine | src/components/admin/projects/manage/ProjectPointsCard.tsx:55-60 | never empty: the joined parts or "N/A" |
| ProjectPointsCard.AddressNotAvailableIff | src/components/admin/projects/manage/ProjectPointsCard.tsx:55-60 | "N/A" when all four parts are missing, else their ", " join |
| ProjectPointsCard.Street2Ignored | src/components/admin/projects/manage/ProjectPointsCard.tsx:55-59 | the second street line never shows |
| NavigationMenu.RestrictedEntries | src/components/NavigationMenu.tsx:15-52 | exactly Dashboard, Projects and My Products are restricted; paths are distinct |
| NavigationMenu.RestrictedNavigation | src/components/NavigationMenu.tsx:54-61 | without full access, the upgrade message and /checkout/points; with it, the path |
| NavigationMenu.Click | src/components/NavigationMenu.tsx:74-96 | a link navigates to its path, a restricted button runs RestrictedNavigation; specified by ClickDestination |
| NavigationMenu.RenderMenuItem | src/components/NavigationMenu.tsx:63-97 | active iff the pathname is the path; a link iff unrestricted or full access |
| NavigationMenu.ClickDestination | src/components/NavigationMenu.tsx:54-96 | every entry leads to its own path except a restricted one without access |
| NavigationMenu.AtMostOneActive | src/components/NavigationMenu.tsx:65 | at most one entry is active |

## Findings

| source | as written | input that shows it | evidently intended | confidence | as-written member | corrected member |
|---|---|---|---|---|---|---|
| src/components/ProductSearch.tsx:15-36 | `useProducts()` without options resolves to a response object (`{ data, totalPages, ... }`, src/hooks/useProducts.ts:53-59,71-74), which is bound to `products` and then called with `.filter` | any loaded response, e.g. one product and an empty query: `products.filter is not a function` | filter the response's `data` rows | medium (the `= []` default suggests an array was expected); not executed | ProductSearch.FilteredAsWritten | ProductSearch.SearchResults |

## Left out

- Database, edge-function and authentication calls are not modelled as calls. Their answers are parameters, and the writes are entries in an effect log. Thrown network exceptions are not modelled, except for a throwing analytics call (the `callThrows` input of Analytics.Client).
- React rendering, styling, toasts and navigation are not modelled beyond their appearance as effects.
- `formatUrl`'s URL normalisation is the parameter `format`; the URL parser is not modelled.
- Clocks are parameters: `timestamp` and `lastIdentified`. So are `process.env.NODE_ENV` and the browser location.
- SignUp.AfterRequest: the upsert effect has no `updated_at` field (src/pages/pt/SignUp.tsx:93); the clock is not modelled there.
- Console logging (`console.log` and `console.error` in the analytics wrapper, in `saveQuizData` and in the sign-up handler) is not modelled.
- OnboardingQuiz.Keys and OnboardingQuiz.Quiz.HandleAnswer: keep pure insertion order. JavaScript lists integer-like keys such as "1" first, in numeric order; the five keys the quiz writes are not integer-like, so for them the two orders agree.
- Timers (`setTimeout`) are not modelled. A scheduled retry is an effect, followed by the effects of the later attempt.
- `window.analytics.debug()` and the logging in `initializeAnalytics` are not modelled. Neither is the call made when the module loads.
- Money is integer cents, so floating-point rounding in `orderCalculations.ts` and in the shipping rates is not modelled. `toFixed` formatting is not modelled either.
- OnboardingQuiz.Progress: uses exact real division rather than floating point.
- Text.Lower: models `toLowerCase` on ASCII letters only.
- Text.Trim: removes only the common whitespace characters: space, tab, line breaks, vertical tab, form feed, no-break space and the byte-order mark.
- String lengths count characters rather than UTF-16 code units.
- ImageSorting.HandleDragEnd: requires both dragged ids to be in the list. The source does not check this. When `findIndex` returns -1, `splice(-1, 1)` removes the last image instead; that path is not modelled.
- ImageSorting.HandleDragEnd: the error toast for a failed write is not modelled. The database answers are not inspected by the source either.
- ProductHeader.Gallery.PreviousImage and ProductHeader.Gallery.NextImage: require the current index to be inside a non-empty gallery. On an empty gallery the source reads an undefined entry and throws.
- UseProducts.FetchMeta: requires `limit > 0`. A zero limit makes the source divide by zero into `Infinity`/`NaN` page counts.
- AdminOrders: the page never changes, because `setCurrentPage` is never called in src/pages/admin/AdminOrders.tsx. So there is no pager class for it.
- Lookups in plain objects (`labels[type]`, `ASSIGNEE_DATA[id]`) are modelled on their own keys only. Inherited keys such as `"constructor"` are not modelled.
- SignUpAnalytics: the payloads of the three sends are not modelled, only their order. The contents of `trackOnboardingCompleted` are not modelled either; src/lib/analytics/onboarding.ts is not part of this model.
- CreateOrder.CreateShopifyOrder: the message of the exception raised by a response without an order is a stand-in for the engine's `TypeError` text.
- Analytics: property values are modelled as strings.
