# Store catalog, rating and product-form model

A Dafny model of the `store` app of a small Django shop. It covers three parts:

- **Rating aggregator** (`product_rate`). A product keeps only `average_rating` and `rating_votes`. Each submitted integer score updates them by an incremental mean: old total plus the score, divided by one more vote. The arithmetic is exact (`real`). A ghost history of the scores ties the stored pair to the mean of every score folded in.
- **Catalog listing** (`index`). The product list is narrowed by the optional parameters `category`, `max_price`, `min_price`, `name` and `rating`. Each one that is present and non-empty adds one more `.filter()`. The result is proved to be the subsequence of the stored products that satisfies all supplied conditions at once.
- **Data model and creation form** (`models.py`, `forms.py`). Category and product records with their field constraints and defaults, and the protect-on-delete rule of the product's category reference. The creation form is a validator from a payload to either cleaned values or per-field errors. An accepted payload is proved to yield a valid product row.

Files, one module each: `wrappers.dfy` (Option, Result, and `Arg`, a request parameter that is missing, blank, malformed or given), `digits.dfy` (powers of ten and digit counts), `querysets.dfy` (what `.filter()` does to a row sequence), `text.dfy` (case-insensitive prefix), `models.dfy`, `rating.dfy`, `catalog.dfy` and `forms.dfy`.

Representation choices:
- Prices on the model are integer cents. Prices in a form payload are decimals as written: `Decimal(unscaled, scale)` means `unscaled / 10^scale`. This keeps trailing zeros, which the decimal-places check counts.
- Times are opaque integers. An uploaded image is its file name, its size, whether it decodes as an image, and whether its extension is one the image library registers.
- The score and the query parameters arrive already typed. A score that is not an integer is `None`. A parameter whose text is not of the field's type is `Malformed`.

Behaviour of the code worth noting:
- The name filter is the `name` parameter (a case-insensitive prefix) and the rating filter is `rating` (a minimum average).
- A price of at least 1 is required only by the form. On the model the price just needs 10 digits and 2 places.
- `rating=0` is a non-empty text, so it does filter (average ≥ 0).
- The stored average equals the mean of the votes only if the product started from the defaults (0, 0) and was changed only by ratings. `ProductRow.Rate` keeps that consistency, but nothing establishes it for an arbitrary row.
- No score range is enforced: a score of 6 or −1 is folded into the average as it is.

## Model

| member | source | states |
|---|---|---|
| `Rating.RateStep` | store/views.py:26-31 | One rating adds exactly one vote; `Rating.RateStepKeepsTotal` and `Rating.RateStepExtendsMean` state what it does to the average. |
| `Rating.RateStepKeepsTotal` | store/views.py:26-31 | No score is lost: the new average times the new vote count is the old average times the old count plus the score. |
| `Rating.RateAll` | store/views.py:26-32 | Rating a never-rated product with n scores in turn leaves exactly n votes; `Rating.RateAllIsMean` gives its average. |
| `Rating.RateStepExtendsMean` | store/views.py:26-32 | If the stored pair is (mean of s, length of s), one rating with score x gives (mean of s + [x], one more vote). |
| `Rating.RateAllIsMean` | store/views.py:26-32 | Start from the defaults (0, 0) and rate with s1..sn. Then rating_votes is n and average_rating is (s1 + … + sn) / n, or 0 when n is 0. |
| `Rating.RateStepWithinScale` | store/views.py:29 | If the old average is in [0, 5] and the score is in [0, 5], the new average is in [0, 5]. |
| `Rating.RateStepLeavesScale` | store/views.py:24-29 | The score is not range-checked. The new average is above 5 exactly when old total plus score exceeds 5 × the new vote count. It is below 0 exactly when old total plus score is negative. |
| `Rating.UnratedProductRatedSix` | store/models.py:20 | A never-rated product given a score of 6 has average 6 over 1 vote, outside the declared bound of 5. |
| `Rating.FourOverThreeThenFive` | store/views.py:27-31 | Average 4.0 over 3 votes plus a score of 5 gives average 4.25 over 4 votes. |
| `Rating.MeanWithinScale` | store/models.py:20 | If every score is in [0, 5], their mean is in [0, 5]. |
| `Rating.ConsistentRowWithinScale` | store/models.py:20 | A row whose stored pair is the mean and count of its history, with every score in [0, 5], has average_rating within the declared [0, 5]. |
| `Rating.ProductRow.constructor` | store/views.py:22 | A loaded row reproduces the stored record, with the given score history. |
| `Rating.ProductRow.Rate` | store/views.py:26-33 | The new pair is the incremental-mean step of the old pair. rating_votes goes up by exactly one. The score is appended to the history, and a row consistent with its history stays consistent. Every other field is unchanged. |
| `Rating.ProductRate` | store/views.py:20-35 | The rows are keyed by their own id. An unknown product id answers not-found and changes nothing. A score that does not parse answers an error and leaves the row unchanged. Otherwise the row is rated as above and the answer is a redirect to that product's page. |
| `Catalog.Index` | store/views.py:48-79 | Fails exactly when some parameter is malformed, and names a malformed parameter. Otherwise the result is a subsequence of the products in storage order. It contains a product iff that product satisfies every supplied filter. Each matching product keeps its multiplicity. |
| `Catalog.IndexIsOneFilter` | store/views.py:64-79 | The five successive conditional filters equal one filter by their conjunction (`Matches`). |
| `Catalog.IndexDependsOnEffectOnly` | store/views.py:64-79 | Two queries whose parameters agree on malformed, supplied and value produce identical results. |
| `Catalog.EmptyParametersAreSkipped` | store/views.py:64-78 | An empty parameter (blank `category`, `max_price`, `min_price`, `rating`, or empty `name`) gives the same result as a missing one. |
| `Catalog.NoParametersListsAll` | store/views.py:49 | With no parameters every product is listed, in storage order. |
| `Catalog.PriceRangeIsIntersection` | store/views.py:69-73 | Both price bounds are inclusive. Giving both selects exactly the products that each bound alone selects. |
| `Catalog.CategoryAndRatingExample` | store/views.py:64-79 | `?category=2&rating=3` lists exactly the products of category 2 whose average rating is at least 3. |
| `QuerySets.Filter` | store/views.py:65 | `.filter()` keeps, in order, exactly the rows satisfying the predicate, with their multiplicities. |
| `QuerySets.FilterIf` | store/views.py:64-65 | `if supplied: rows = rows.filter(p)` keeps exactly the rows for which `supplied ==> p` holds, as a subsequence. |
| `QuerySets.FilterCommute` | store/views.py:64-79 | Two successive filters give the same rows in the same order whichever is applied first. |
| `Text.IStartsWith` | store/views.py:75-76 | The name lookup: the prefix is no longer than the name and matches it character by character ignoring ASCII letter case. `Text.IStartsWithIsLoweredPrefix` and `Text.IStartsWithIgnoresPrefixCase` state its properties. |
| `Text.IStartsWithIsLoweredPrefix` | store/views.py:75-76 | The case-insensitive prefix test holds iff the lower-cased name begins with the lower-cased text. |
| `Text.IStartsWithIgnoresPrefixCase` | store/views.py:75-76 | The letter case of the typed name text never changes which products match. |
| `Text.BoMatchesBottle` | store/views.py:76 | "Bo" matches a product named "bottle"; "Bx" does not. |
| `Models.ValidCategory` | store/models.py:6-7 | A category name is required and at most 50 characters; the description may be blank. |
| `Models.ValidPrice` | store/models.py:15 | A price in cents has magnitude below 10^10; `Models.PriceBoundIsDigitCount` shows this is the 10-digit, 2-place column. |
| `Models.ValidProduct` | store/models.py:13-21 | A product references an existing category, has a 1..100 character name, a representable price and an average rating in [0, 5]; votes are non-negative by type. |
| `Models.NewProduct` | store/models.py:17-21 | A new product is available, with average 0 and 0 votes; `Models.NewProductIsValid` shows these defaults meet the constraints. |
| `Models.PriceBoundIsDigitCount` | store/models.py:15 | A price in cents is within the column's bound iff it has at most 10 digits (10 digits, 2 of them after the point). |
| `Models.NewProductIsValid` | store/models.py:17-21 | The defaults (available true, average 0, 0 votes) satisfy the declared constraints. A product built with them is valid once its category, name and price are. |
| `Models.DeleteCategory` | store/models.py:13 | Deleting a category fails exactly when some product references it. The error lists exactly those products. On success the products are untouched and exactly the categories with that id are gone. |
| `Models.DeleteCategoryKeepsStoreValid` | store/models.py:5-21 | In a valid store, a successful category deletion leaves a valid store. Category names stay 1..50 characters, and every product keeps an existing category and its own constraints. |
| `Forms.DecimalErrors` | store/forms.py:12 | The digit checks report at most one error, in the order max digits, max decimal places, max whole digits; `Forms.DecimalErrorsIff` says when none. |
| `Forms.DecimalErrorsIff` | store/forms.py:12 | The digit checks (10 digits, 2 places, so 8 whole digits) pass iff the decimal has at most 2 written places and magnitude below 10^8. |
| `Forms.FieldErrorsIff` | store/forms.py:10-18 | For every field, its error list is empty iff that field's positively stated constraint holds. |
| `Forms.Validate` | store/forms.py:9-18 | The payload is accepted iff every field constraint holds. These are: name 1..100 characters; an existing category; price ≥ 1 with 2 places and under 10^8; a given datetime; the availability box ticked (any submitted text except an empty one or "false" in any case); a named, non-empty, decodable image with a registered image extension, checked in that order; description at most 500 characters or absent. Accepted values equal the submitted ones. A refusal maps exactly the failing fields to their non-empty error lists. |
| `Forms.CheckboxValue` | store/forms.py:16 | How the box is read: absent, empty or "false" in any case is false, any other text ("0" included) is true; `Forms.AvailableExamples` shows instances. |
| `Forms.ToProduct` | store/views.py:41 | The created row carries the cleaned id, category, name, datetime, availability, description and image name, a price in cents denoting the same number as the submitted decimal, and the model's rating defaults. |
| `Forms.AcceptedPriceFitsModel` | store/forms.py:12 | An accepted price, in cents, is at least 100, fits the model's price column, and denotes the same number. |
| `Forms.AcceptedPayloadMakesValidProduct` | store/views.py:41-42 | The row created from an accepted form is a valid product. It is also stricter than the model: available is true, an image is present, and it starts with 0 votes. |
| `Forms.PriceErrorExamples` | store/forms.py:12 | 1.005 fails on decimal places, 0.50 on the minimum value and 100000000 on whole digits; 1.99 passes. |
| `Forms.AvailableExamples` | store/forms.py:16 | An absent box, "", "False" and "FALSE" are refused as required; "on" and "0" pass. |

## Left out

- user_auth/ and user/ views, and every urls.py: registration, login, logout and the current-user view go straight to the framework's authentication and serializers, whose code is not part of this model.
- `product_detail`, template rendering, the `require_POST` decorator, admin and `__str__`. The redirect and the not-found answer of `product_rate` are kept as values of `RateResponse`.
- `create_product` beyond `Product(**cleaned_data)`, which `Forms.ToProduct` models. The page re-render with errors is not modelled.
- The list of categories that `index` passes to the page: it is not filtered.
- The image upload path by date, image decoding, and the image library's list of extensions. Whether a file decodes as an image and whether its extension is registered are input flags.
- Floating point: averages and rating filters are exact reals, so drift over many ratings is not modelled.
- The lost-update race between two ratings of the same product submitted at the same time. Each `Rate` call is modelled as atomic.
- Catalog.Index: a `rating` text of "inf" or "nan" is a valid float for the average_rating lookup, so it filters (and lists no products) rather than failing; `Query.rating` holds only finite reals, so that input is not represented.
- Parsing text into integers, decimals and datetimes. The model receives already-typed values, with a parse failure as `None` or `Malformed`.
- Text.IStartsWith: folds only ASCII letters. The database's case folding of other characters is not modelled.
- Forms.Validate: does not strip surrounding whitespace from the name or description before the length checks, and does not model the form's refusal of NUL characters.
- Forms.Validate: a non-finite decimal (NaN, infinity) is treated as a malformed number, not as a separate error.
- Models.ValidProduct: states the category reference, the name length, the price digits and the average_rating range. It omits two column limits: the image column's 100-character name, which storage meets by shortening the file name, and the database's upper bound on rating_votes, which `nat` leaves unbounded. It does not say where the constraints are enforced; `save()` does not run them, as `Rating.UnratedProductRatedSix` shows.
- The database's row order for an unordered query. Products are a sequence in storage order.
