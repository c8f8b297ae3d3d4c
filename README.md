# Delivery-risk dashboard: verified model of its deterministic core

The repository is an ML dashboard for delivery risk. It has a React front end and a FastAPI back end, plus the
pandas scripts that clean and label the training data. The model training, charts and HTTP plumbing
are not modelled here. This project models the small deterministic pieces beneath them and proves their properties:

- **Theme manager** (`theme.dfy`, module `Theme`). The persisted mode (`corporate` when absent or empty) is
  resolved against the OS "prefers dark" flag. The result is written to the `data-theme` attribute. The OS
  listener re-applies only while the mode is `corporate`, and teardown removes exactly that listener. The browser
  globals are the fields of class `ThemeEnv`: the storage map, the OS flag, the attribute and the listener list.
- **Session store and client headers** (`session.dfy`, modules `ApiClient` and `Session`). `setAuthToken` sets
  or deletes the default `Authorization` header. `AuthStore` holds the token, its storage mirror and the
  token→header effect. `useAuth` has a misuse guard.
- **Bearer parsing** (`bearer_auth.dfy`, module `BearerAuth`). `get_current_user` checks the prefix, strips it,
  decodes the token and checks the subject. The JWT decoder is a function parameter. The module also proves the
  header round trip against the client.
- **Routing** (`routes.dfy`, module `Routes`). This covers the token gate, the eight protected routes, the
  `/dashboard` fallback and the sidebar links.
- **Feature encoding and validation** (`schemas.dfy`, `preprocessing.dfy`, `insights.dfy`). This covers the
  request schema, the traffic index, the engineered features (written in place into a `Dict` object) and the
  45-column one-hot row. It also covers class counting and percentages, the seven-day trend, the upload-row
  mapping and the upload pipeline.
- **Cleaning and labelling scripts** (`feature_engineering.py` at the root, `Amazon-Delivery-ML/feature_engineering.py`,
  `cleaned_data/data_cleaning.py`, `Amazon-Delivery-ML/data_cleaning.py`). These are modelled in
  `feature_engineering.dfy` (modules `FeatureEngineering` and `TrainingFeatures`), `cleaning.dfy` (`Cleaning`,
  with a `Frame` class whose columns are overwritten in place) and `data_cleaning.dfy` (`DataCleaning`, with a
  `Table` class).
- **Front-end transforms**. `analytics.dfy` covers confusion-matrix flattening, class-balance rows and the scatter
  partition. `reports.dfy` covers the PDF cursor with page breaks; the document is a trace of calls. `kpi.dfy`
  covers the KPI colour.

`wrappers.dfy` (Option, Result and a Python float that may be NaN) and `text.dfy` (Python's `strip`, `lower`,
`replace`, `startswith`/`endswith` and JavaScript's `includes` over `seq<char>`) are shared helpers.

Python floats are exact reals, with NaN kept where a comparison with it changes a branch. `np.log1p`, medians,
quantiles, CSV number parsing and printing, and the classifier are function parameters.

## Model

| member | source | states |
|---|---|---|
| Theme.StoredModeDefault | Amazon-Delivery-ML/frontend/src/theme/themeManager.js:7-9 | an absent or empty `asci_theme` entry reads as `corporate` |
| Theme.StoredModeRoundTrip | Amazon-Delivery-ML/frontend/src/theme/themeManager.js:7-13 | storing a non-empty mode and reading it back gives that mode, whatever else storage holds |
| Theme.StoredEmptyModeReadsCorporate | Amazon-Delivery-ML/frontend/src/theme/themeManager.js:8-12 | storing "" reads back as `corporate`, not "" |
| Theme.ResolveCorporateFollowsOs | Amazon-Delivery-ML/frontend/src/theme/themeManager.js:3-18 | `corporate` resolves to dark exactly when the OS prefers dark, to light otherwise |
| Theme.ResolveExplicitIgnoresOs | Amazon-Delivery-ML/frontend/src/theme/themeManager.js:15-20 | any other mode, unknown strings included, ignores the OS flag, and only `dark` resolves to dark |
| Theme.WithoutSpec | Amazon-Delivery-ML/frontend/src/theme/themeManager.js:44-50 | removing a listener drops that handler and keeps every other one |
| Theme.WithoutAbsent | Amazon-Delivery-ML/frontend/src/theme/themeManager.js:44-50 | removing an unregistered handler changes nothing |
| Theme.WithoutIdempotent | Amazon-Delivery-ML/frontend/src/theme/themeManager.js:44-50 | a second teardown leaves the listener list as the first left it |
| Theme.ThemeEnv.constructor | Amazon-Delivery-ML/frontend/src/theme/themeManager.js:1-5 | the environment starts with the given storage and OS flag, no attribute and no listener |
| Theme.ThemeEnv.SetStoredThemeMode | Amazon-Delivery-ML/frontend/src/theme/themeManager.js:11-13 | only the `asci_theme` entry changes, and a non-empty mode reads back |
| Theme.ThemeEnv.ApplyThemeMode | Amazon-Delivery-ML/frontend/src/theme/themeManager.js:22-26 | the attribute becomes the resolved theme, which is returned; storage is untouched |
| Theme.ThemeEnv.OnSystemThemeChange | Amazon-Delivery-ML/frontend/src/theme/themeManager.js:32-36 | the attribute is recomputed from `corporate` only while that is the stored mode, and is otherwise unchanged |
| Theme.ThemeEnv.InitializeThemeSync | Amazon-Delivery-ML/frontend/src/theme/themeManager.js:28-42 | the stored mode is applied, and one fresh handler is appended to the listener list |
| Theme.ThemeEnv.Teardown | Amazon-Delivery-ML/frontend/src/theme/themeManager.js:44-50 | exactly the registered handler is removed, and the listener list stays duplicate-free |
| Theme.ThemeEnv.OsPreferenceChanged | Amazon-Delivery-ML/frontend/src/theme/themeManager.js:31-42 | an OS flip re-applies the theme only with a listener registered and `corporate` stored; otherwise the attribute stays |
| ApiClient.SetAuthTokenSpec | Amazon-Delivery-ML/frontend/src/api/client.js:7-13 | `Authorization` is `Bearer <t>` for non-empty t and absent for ""; all other headers are unchanged |
| ApiClient.LastCallWins | Amazon-Delivery-ML/frontend/src/api/client.js:7-13 | two calls in a row leave what the second alone leaves |
| ApiClient.SetAuthTokenIdempotent | Amazon-Delivery-ML/frontend/src/api/client.js:7-13 | repeating a call with the same token changes nothing |
| ApiClient.Client.SetAuthToken | Amazon-Delivery-ML/frontend/src/api/client.js:7-13 | the client's headers become the specified header map, so they match the token |
| Session.AuthStore.constructor | Amazon-Delivery-ML/frontend/src/state/AuthContext.jsx:7-12 | the token is the stored `asci_token` or "", and the first effect pushes it to the header |
| Session.AuthStore.UpdateToken | Amazon-Delivery-ML/frontend/src/state/AuthContext.jsx:8-12 | the new token is set, and the header reflects it whether or not the effect re-runs |
| Session.AuthStore.Login | Amazon-Delivery-ML/frontend/src/state/AuthContext.jsx:14-17 | storage holds the new token, the in-memory token equals it and the header carries it; the old token is fully replaced |
| Session.AuthStore.Logout | Amazon-Delivery-ML/frontend/src/state/AuthContext.jsx:19-22 | the storage key is removed (not emptied), the token is "" and the header is absent |
| Session.UseAuth | Amazon-Delivery-ML/frontend/src/state/AuthContext.jsx:29-35 | with no provider, it fails with "useAuth must be used inside AuthProvider"; otherwise it returns the provider's value |
| Text.ReplaceFirstOfPrefix | Amazon-Delivery-ML/backend/app/dependencies.py:10 | `replace("Bearer ", "", 1)` on a header that starts with the prefix removes exactly its first 7 characters |
| BearerAuth.GetCurrentUser | Amazon-Delivery-ML/backend/app/dependencies.py:7-18 | 401 for a missing prefix, then for a decoder failure, then for an absent or empty `sub`; on success, exactly `sub` |
| BearerAuth.HeaderRoundTrip | Amazon-Delivery-ML/frontend/src/api/client.js:7-12 | the header set for a non-empty token passes the prefix check and strips back to the token; with no token the request fails as missing |
| BearerAuth.RoundTripAuthenticates | Amazon-Delivery-ML/backend/app/dependencies.py:8-18 | a token whose claims have a non-empty subject authenticates as that subject after the client sends it |
| Routes.Lookup | Amazon-Delivery-ML/frontend/src/App.jsx:24-39 | a path is found exactly when some table entry has it, and the found page is that entry's |
| Routes.PublicRoutes | Amazon-Delivery-ML/frontend/src/App.jsx:48-49 | `/` renders Landing and `/login` renders Login, whatever the token |
| Routes.NoTokenRedirectsToLogin | Amazon-Delivery-ML/frontend/src/App.jsx:15-50 | with an empty token, every other path redirects to `/login` |
| Routes.ProtectedPathsDistinct | Amazon-Delivery-ML/frontend/src/App.jsx:25-38 | the eight protected paths are pairwise distinct |
| Routes.ProtectedPagesRender | Amazon-Delivery-ML/frontend/src/App.jsx:25-38 | with a token, each listed path renders its own page |
| Routes.UnlistedPathRedirectsToDashboard | Amazon-Delivery-ML/frontend/src/App.jsx:39 | with a token, an unlisted non-public path redirects to `/dashboard` |
| Routes.RedirectsSettle | Amazon-Delivery-ML/frontend/src/App.jsx:15-51 | the target of every redirect renders a page |
| Routes.SidebarLinksAreRoutes | Amazon-Delivery-ML/frontend/src/components/layout/Sidebar.jsx:3-12 | every sidebar link is a protected route that renders, never the wildcard |
| Schemas.ValidDivisorsPositive | Amazon-Delivery-ML/backend/app/schemas.py:52-53 | for a valid request, `distance_km + 1` and `package_weight_kg + 1` exceed 1 |
| Schemas.TokenTypeDefault | Amazon-Delivery-ML/backend/app/schemas.py:40-42 | `token_type` defaults to "bearer" |
| Preprocessing.TrafficIndex | Amazon-Delivery-ML/backend/app/preprocessing.py:54-62 | the traffic index lies in 0..5 |
| Preprocessing.TrafficIndexClosedForm | Amazon-Delivery-ML/backend/app/preprocessing.py:54-62 | the index is 2·[bad weather] + 2·[same day] + 1·[central/west], and it is odd exactly for a busy region |
| Preprocessing.RequestPayload | Amazon-Delivery-ML/backend/app/schemas.py:45-55 | a valid request's payload has the ten inputs with their values and non-zero divisors |
| Preprocessing.EngineeredKeepsInputs | Amazon-Delivery-ML/backend/app/preprocessing.py:65-80 | engineering keeps the ten inputs and gives a number under every numeric column |
| Preprocessing.WithEngineeredFeatures | Amazon-Delivery-ML/backend/app/preprocessing.py:65-80 | the argument dictionary itself receives the eight engineered keys and is returned |
| Preprocessing.FillRow | Amazon-Delivery-ML/backend/app/preprocessing.py:85-151 | the row has one cell per feature column; numeric cells are copied, and a one-hot cell is 1 exactly when its field selects it |
| Preprocessing.BuildFeatureFrame | Amazon-Delivery-ML/backend/app/preprocessing.py:83-152 | the caller's dictionary is not modified; the 45 cells are the engineered numbers, then 1 for each selected one-hot column and 0 elsewhere |
| Preprocessing.FeatureColumnsLayout | Amazon-Delivery-ML/backend/app/preprocessing.py:5-144 | `FEATURE_COLUMNS` is the twelve numeric columns followed by the six one-hot lists, in order |
| Preprocessing.CategoryColumnsAreFeatures | Amazon-Delivery-ML/backend/app/preprocessing.py:103-144 | every column named in `category_to_col` is a feature column |
| Preprocessing.ColumnListsDisjoint | Amazon-Delivery-ML/backend/app/preprocessing.py:103-144 | no one-hot column is listed under two fields |
| Preprocessing.OneHotPerField | Amazon-Delivery-ML/backend/app/preprocessing.py:146-149 | a field's column is set exactly when it is `"<field>_<value>"`, so at most one column per field is set |
| Preprocessing.BaselineCategories | Amazon-Delivery-ML/backend/app/schemas.py:5-32 | in each field, exactly the first literal (e.g. "amazon logistics", "bike", "central", "clear") has no one-hot column |
| Insights.ClassName | Amazon-Delivery-ML/backend/app/config.py:20-24 | `CLASS_MAP` is defined exactly on 0, 1 and 2 |
| Insights.TargetDistribution | Amazon-Delivery-ML/backend/app/insights_service.py:25-32 | each of the three keys counts its class id's occurrences, and an absent class counts 0 |
| Insights.TargetDistributionTotal | Amazon-Delivery-ML/backend/app/insights_service.py:25-32 | the counts sum to the number of statuses in {0,1,2}, so to all rows when every status is a class |
| Insights.RiskPercentages | Amazon-Delivery-ML/backend/app/insights_service.py:35-37 | each share lies in [0, 100]; an all-zero distribution gives zeros because the total is `max(sum, 1)` |
| Insights.RiskPercentagesShares | Amazon-Delivery-ML/backend/app/insights_service.py:35-37 | with a positive total, each share times the total is 100 times its count |
| Insights.PercentagesSumTo100 | Amazon-Delivery-ML/backend/app/insights_service.py:35-37 | with a positive total, the three shares sum to 100 |
| Insights.TrendShape | Amazon-Delivery-ML/backend/app/insights_service.py:46-48 | On-Time is nonincreasing and ≥ 60; At Risk and Delayed are nondecreasing and capped at 30 and 20 |
| Insights.RecentTrend | Amazon-Delivery-ML/backend/app/insights_service.py:40-51 | seven entries labelled "Day 1" to "Day 7", with the monotonicity and bounds above |
| Insights.RatingFor | Amazon-Delivery-ML/backend/app/insights_service.py:147-152 | the rating lies in [1, 5]; a value ≤ 1 is scaled by 5, one in (1, 5] is kept, and NaN gives 5 |
| Insights.UploadRequest | Amazon-Delivery-ML/backend/app/insights_service.py:144-182 | converts historical performance, order volume, shipment distance and warehouse time in that order and fails naming the first that is not a number; otherwise rating = the scaled historical value in [1,5], distance = max(1, distance), weight = max(0.5, volume/10), and cost = 4.2·distance + 18·weight + 5.5·max(1, warehouse time) |
| Insights.MapUploadPayload | Amazon-Delivery-ML/backend/app/insights_service.py:171-182 | the mapped payload has every input `build_feature_frame` reads, or the same error |
| Insights.UploadCategories | Amazon-Delivery-ML/backend/app/insights_service.py:145-177 | low/medium traffic gives same day, anything else standard; high gives west, anything else north; fixed partner, package and vehicle |
| Insights.WeatherSynonyms | Amazon-Delivery-ML/backend/app/insights_service.py:161-177 | rain→rainy, storm→stormy, fog→foggy; unknown values become clear; every result is a schema weather |
| Insights.UploadCategoriesValid | Amazon-Delivery-ML/backend/app/insights_service.py:144-182 | every categorical output lies in its schema literal set |
| Insights.TrafficLevelNormalised | Amazon-Delivery-ML/backend/app/insights_service.py:145 | for every row and level, capitals and surrounding white space in the traffic level do not change it; the level read is lower-case and stripped; an absent one is "medium" |
| Insights.MissingFrom | Amazon-Delivery-ML/backend/app/insights_service.py:203 | a column is reported missing exactly when it is required and absent |
| Insights.MissingFromAppend | Amazon-Delivery-ML/backend/app/insights_service.py:203 | the missing columns keep the order of the required list |
| Insights.Preview | Amazon-Delivery-ML/backend/app/insights_service.py:217 | the preview is the first min(rows, 10) rows with missing cells emptied |
| Insights.PredictUploadRow | Amazon-Delivery-ML/backend/app/insights_service.py:209-214 | one loop pass predicts the class of the mapped feature row, or fails on a non-numeric required cell |
| Insights.PredictCheckedRow | Amazon-Delivery-ML/backend/app/insights_service.py:209-215 | one loop pass succeeds exactly when the row maps and its class is a `CLASS_MAP` key |
| Insights.ClassifiedIff | Amazon-Delivery-ML/backend/app/insights_service.py:208-215 | the predictions exist exactly when every row has a class in 0..2, and then entry i is row i's class |
| Insights.PredictStep | Amazon-Delivery-ML/backend/app/insights_service.py:208-215 | one loop pass extends the classes of the rows before it by this row's class, or fails exactly when the rows so far no longer all predict |
| Insights.PredictRows | Amazon-Delivery-ML/backend/app/insights_service.py:208-215 | succeeds exactly when every row predicts a known class, and returns the classes in row order |
| Insights.ProcessUploadedDataset | Amazon-Delivery-ML/backend/app/insights_service.py:192-228 | missing required columns are reported in list order; on success the counts sum to `rows` and the preview has at most 10 rows |
| FeatureEngineering.ClassifyStatus | feature_engineering.py:4-10 | delay ≤ 0 gives On-Time, (0, 2] gives At Risk, > 2 (or NaN) gives Delayed |
| FeatureEngineering.ClassifyStatusMonotone | feature_engineering.py:4-10 | a larger delay never gets a less severe status |
| FeatureEngineering.LabelsDistinct | feature_engineering.py:6-10 | the three label strings are distinct |
| FeatureEngineering.WarehouseProcessingTime | feature_engineering.py:19-21 | the time is max(expected − delivery, 0), never negative |
| FeatureEngineering.PartnerRate | feature_engineering.py:24-30 | the rate lies in [0, 1] and is the partner's On-Time share of rows |
| FeatureEngineering.SamePartnerSameRate | feature_engineering.py:24-30 | rows of the same partner get the same rate |
| FeatureEngineering.RateOneIffAllOnTime | feature_engineering.py:24-30 | the rate is 1 exactly when all of that partner's rows are On-Time |
| FeatureEngineering.RunFeatureEngineering | feature_engineering.py:12-30 | each row gets its status, its clipped warehouse time and its partner's rate, in row order |
| TrainingFeatures.MapStatus | Amazon-Delivery-ML/feature_engineering.py:16-24 | after lowercasing and stripping, "delivered" gives 0, "delayed" gives 2 and anything else gives 1 |
| TrainingFeatures.MapStatusInClassMap | Amazon-Delivery-ML/feature_engineering.py:16-26 | every mapped label is a `CLASS_MAP` key |
| TrainingFeatures.MapStatusNormalised | Amazon-Delivery-ML/feature_engineering.py:17 | case and surrounding white space never change the class |
| TrainingFeatures.TrafficIndexColumn | Amazon-Delivery-ML/feature_engineering.py:35-39 | the three masked `+=` passes give each row the serving-time traffic index, in 0..5 |
| TrainingFeatures.ComplexityMatchesServing | Amazon-Delivery-ML/feature_engineering.py:45-49 | Complexity_Score equals the serving-time formula |
| TrainingFeatures.ComplexityIsWeightedMean | Amazon-Delivery-ML/feature_engineering.py:45-49 | the score is monotone in each input, lies between any lower and any upper bound of the three inputs, and equals them when they are equal |
| TrainingFeatures.EngineerTrainingRows | Amazon-Delivery-ML/feature_engineering.py:16-49 | each row gets its `CLASS_MAP` class, the serving traffic index and the serving complexity |
| Cleaning.NormalizeName | cleaned_data/data_cleaning.py:11 | a normalised column name contains no space |
| Cleaning.NormalizeNameIdempotent | cleaned_data/data_cleaning.py:11 | normalising a name twice is normalising it once |
| Cleaning.ToNumeric | cleaned_data/data_cleaning.py:27 | numbers and NaN are kept; text that parses to a number becomes that number, any other text becomes NaN; no text remains |
| Cleaning.FillMedian | cleaned_data/data_cleaning.py:29 | NaN becomes the median when the median is a number; every other cell, and every cell under a NaN median, is kept |
| Cleaning.MissingCategoryBecomesNan | cleaned_data/data_cleaning.py:34-35 | as written, a missing categorical value becomes "nan", never "unknown" |
| Cleaning.CategoryCellSpec | cleaned_data/data_cleaning.py:32-35 | missing values become "unknown"; present ones are lowercased and stripped exactly as the script does |
| Cleaning.MapWeatherSpec | cleaned_data/data_cleaning.py:39-44 | the synonyms map onto stormy/clear/foggy/windy, unmapped values are kept, and mapping is idempotent |
| Cleaning.CapSpec | cleaned_data/data_cleaning.py:47-54 | with Q1 ≤ Q3, a capped number lies in [Q1, Q3], one already inside is kept, and capping is idempotent |
| Cleaning.CapWithoutQuantiles | cleaned_data/data_cleaning.py:53-54 | NaN quantiles cap nothing |
| Cleaning.Frame.NormalizeColumnNames | cleaned_data/data_cleaning.py:11 | the labels are normalised and the columns are untouched |
| Cleaning.Frame.MapColumn | cleaned_data/data_cleaning.py:27-35 | only the named column is rewritten, cell by cell |
| Cleaning.Frame.CapOutliers | cleaned_data/data_cleaning.py:47-54 | an absent column is a no-op; otherwise the column is capped with its 5% and 95% quantiles |
| Cleaning.NumericColumnCleaned | cleaned_data/data_cleaning.py:25-29 | each cell of a cleaned numeric column is its coerced value, gaps filled by the coerced column's median: no text, numbers kept, only numbers once the median is one |
| Cleaning.CategoricalColumnCleaned | cleaned_data/data_cleaning.py:32-44 | each cell of a cleaned categorical column is text, "unknown" where the value was missing, lower-cased and stripped, and in the weather column then mapped |
| Cleaning.CappedColumnCleaned | cleaned_data/data_cleaning.py:47-57 | a cleaned capped column holds no text, and with ordered numeric quantiles of the imputed column every number lies between them |
| Cleaning.OtherColumnKept | cleaned_data/data_cleaning.py:25-57 | a column on neither list is unchanged by steps 3 to 6 |
| Cleaning.ColumnListsWellFormed | cleaned_data/data_cleaning.py:14-56 | each list names a column once, none is both numeric and categorical, and the capped columns are numeric |
| Cleaning.CleanedSteps | cleaned_data/data_cleaning.py:25-57 | steps 3 to 6 applied one after another to a column give its cleaned column |
| Cleaning.Frame.ImputeColumn | cleaned_data/data_cleaning.py:27-29 | only the named column changes, to its imputed column |
| Cleaning.Frame.ImputeNumericColumns | cleaned_data/data_cleaning.py:25-29 | every present numeric column is imputed once; every other column is kept |
| Cleaning.Frame.NormalizeCategoryColumn | cleaned_data/data_cleaning.py:34-35 | only the named column changes, to its normalised categorical column |
| Cleaning.Frame.NormalizeCategoricalColumns | cleaned_data/data_cleaning.py:32-35 | every present categorical column is normalised once; every other column is kept |
| Cleaning.Frame.MapWeatherColumn | cleaned_data/data_cleaning.py:43-44 | the weather column, when present, has its synonyms mapped; every other column is kept |
| Cleaning.Frame.CapListedColumns | cleaned_data/data_cleaning.py:56-57 | each present capped column is capped once with its own quantiles; every other column is kept |
| Cleaning.CleanDeliveries | cleaned_data/data_cleaning.py:11-57 | the labels are normalised, and each column becomes what steps 3 to 6 make of it under its new label (numeric, categorical, weather, capped or kept) |
| DataCleaning.FormatFor | Amazon-Delivery-ML/data_cleaning.py:9-14 | ".csv" selects CSV, otherwise ".xlsx" selects Excel; anything else is "Unsupported file format" |
| DataCleaning.ExtensionsExclusive | Amazon-Delivery-ML/data_cleaning.py:9-12 | no path ends in both extensions |
| DataCleaning.StripNames | Amazon-Delivery-ML/data_cleaning.py:19 | every label is whitespace-stripped |
| DataCleaning.RenamedStatus | Amazon-Delivery-ML/data_cleaning.py:22-23 | every "delivery_status" label becomes "Delivery_Status" and nothing else changes |
| DataCleaning.StatusLabels | Amazon-Delivery-ML/data_cleaning.py:22-25 | fails with "delivery_status column not found!" exactly when neither spelling is present |
| DataCleaning.Dedupe | Amazon-Delivery-ML/data_cleaning.py:49 | keeps the same rows without repeats and never adds rows |
| DataCleaning.CompleteRows | Amazon-Delivery-ML/data_cleaning.py:52 | keeps exactly the rows with no missing cell |
| DataCleaning.CleanSpec | Amazon-Delivery-ML/data_cleaning.py:9-52 | output columns are exactly `required_cols` in order; rows ≤ input rows, distinct and complete; missing columns are all reported |
| DataCleaning.Table.StripColumnNames | Amazon-Delivery-ML/data_cleaning.py:19 | the labels are stripped in place and the rows are kept |
| DataCleaning.Table.RenameStatusColumn | Amazon-Delivery-ML/data_cleaning.py:23 | the status label is renamed in place |
| DataCleaning.Table.SelectColumns | Amazon-Delivery-ML/data_cleaning.py:46 | the table becomes the selected columns, in the order given |
| DataCleaning.Table.DropDuplicates | Amazon-Delivery-ML/data_cleaning.py:49 | the rows become their first occurrences, in order |
| DataCleaning.Table.DropNa | Amazon-Delivery-ML/data_cleaning.py:52 | the rows become those without a missing cell, in order |
| DataCleaning.CleanData | Amazon-Delivery-ML/data_cleaning.py:4-52 | the procedure's steps give exactly the result or error of the specification `Clean` |
| Analytics.ConfusionDataRowMajor | Amazon-Delivery-ML/frontend/src/pages/AnalyticsPage.jsx:27-34 | n·n cells; the cell at r·n + c has actual labels[r], predicted labels[c] and value values[r][c] |
| Analytics.ClassBalanceRowsSpec | Amazon-Delivery-ML/frontend/src/pages/AnalyticsPage.jsx:36-45 | two rows, "Before SMOTE" then "After SMOTE", each carrying all of its distribution |
| Analytics.SeriesMultiplicity | Amazon-Delivery-ML/frontend/src/pages/AnalyticsPage.jsx:174-177 | a series holds every copy of each point with its label and nothing else |
| Analytics.ScatterPartition | Amazon-Delivery-ML/frontend/src/pages/AnalyticsPage.jsx:174-191 | each point with one of the three labels is in exactly that series; other labels are in none |
| Reports.WriteEntries | Amazon-Delivery-ML/frontend/src/pages/ReportsPage.jsx:24-27 | one line per entry at x 18, six apart, with the cursor advanced 6 per entry |
| Reports.WriteImpacts | Amazon-Delivery-ML/frontend/src/pages/ReportsPage.jsx:32-39 | the feature loop makes exactly the calls and leaves the cursor its specification gives |
| Reports.DownloadPdf | Amazon-Delivery-ML/frontend/src/pages/ReportsPage.jsx:12-58 | no calls without a report; otherwise exactly the calls of the layout |
| Reports.ImpactLinesStayOnPage | Amazon-Delivery-ML/frontend/src/pages/ReportsPage.jsx:32-39 | after each feature line the cursor is ≤ 270 (reset to 15 past it), and no feature line is written below 270 |
| Reports.EntryLinesTexts | Amazon-Delivery-ML/frontend/src/pages/ReportsPage.jsx:24-55 | an entries loop writes one line per entry, in order, and adds no page |
| Reports.ImpactLinesTexts | Amazon-Delivery-ML/frontend/src/pages/ReportsPage.jsx:32-39 | the feature loop writes one line per item, in order, with at most one page per item |
| Reports.LayoutTexts | Amazon-Delivery-ML/frontend/src/pages/ReportsPage.jsx:15-55 | the texts are the title, then each heading followed by one line per entry, in source order |
| Reports.LayoutPageBreaks | Amazon-Delivery-ML/frontend/src/pages/ReportsPage.jsx:24-55 | only the feature loop adds pages, at most one per feature |
| Reports.LayoutFrame | Amazon-Delivery-ML/frontend/src/pages/ReportsPage.jsx:17-57 | the export starts at font size 16 and ends with one save as "delivery-risk-report.pdf" |
| Kpi.ToneFor | Amazon-Delivery-ML/frontend/src/components/KpiCard.jsx:2-8 | green iff "On-Time"; else amber iff "Risk"; else red iff "Delayed"; else slate |
| Kpi.ToneClassInjective | Amazon-Delivery-ML/frontend/src/components/KpiCard.jsx:3-8 | the four colour classes are distinct |
| Kpi.ColorClass | Amazon-Delivery-ML/frontend/src/components/KpiCard.jsx:2-8 | the class is one of exactly four, with the same priority order |
| Kpi.OnTimeTakesPrecedence | Amazon-Delivery-ML/frontend/src/components/KpiCard.jsx:2-3 | a label containing "On-Time" is green whatever else it contains |
| Kpi.OverviewCardTones | Amazon-Delivery-ML/frontend/src/pages/OverviewPage.jsx:42-55 | "% On-Time", "% At Risk" and "% Delayed" are green, amber and red |
| Kpi.NeutralOverviewCards | Amazon-Delivery-ML/frontend/src/pages/OverviewPage.jsx:42-55 | the "Total Orders", "Avg Processing Time" and "Avg Shipment Distance" cards are slate |

## Left out

- React machinery: re-render timing, `useMemo`, StrictMode double effects and JSX rendering. The session is one shared `AuthStore` object, and "two consumers" are two references to it.
- The `addListener`/`removeListener` fallback branch of the theme manager; both branches register and remove the same handler.
- Storage that throws. The theme read is treated as always available, and session writes as always succeeding.
- Theme.ThemeEnv.OsPreferenceChanged: the media query's `change` event is taken to fire only when `matches` flips. Every registered handler is run in order, and handlers registered by other code are not modelled.
- Routes.App: paths are matched as exact strings. React Router's case-insensitive matching, trailing-slash tolerance and nested `/*` matching are not modelled.
- BearerAuth.GetCurrentUser: claims are string-valued, and any non-string `sub` is not modelled. PyJWT, the secret and the clock are a `decode` parameter (`security.py` is not part of this model).
- `round(…, 2)` in `_risk_percentages` and on the upload `delivery_cost` is not modelled; both are exact reals. `np.log1p` is a parameter. Insights.RiskPercentages and Insights.UploadRequest are stated before rounding.
- Insights.ProcessUploadedDataset: the `basic_stats` means and CSV decoding are not modelled. The CSV reader's cell parsing and printing (`float()`, `str()`) are the `parse`/`show` parameters, and the classifier is `predict`.
- `get_dashboard_overview`, `get_analytics_data`, `_feature_impact`, `get_about_model` and `get_report_summary` are left out: they load files and call the model.
- Python's `str.lower()` is modelled on ASCII letters only. `str.strip()` uses Python's white-space set.
- FeatureEngineering.RunFeatureEngineering: `pd.get_dummies` and the CSV output are left out. A missing (NaN) partner, which `groupby` would drop, is not modelled.
- TrainingFeatures.EngineerTrainingRows: steps 4–7 of `Amazon-Delivery-ML/feature_engineering.py` are left out. These are the interaction and log features (the same formulas as `Preprocessing.Engineered`), `get_dummies`, the random Gaussian noise, and the final `dropna`/`drop_duplicates`.
- Cleaning.CleanDeliveries: `median` and `quantile` are parameters, and reading and writing the CSV files is left out. After normalisation two columns may share a label; the model then reads and writes only the first of them.
- Cleaning.CleanDeliveries: step 4 runs the corrected `CategoryCell`, so a missing categorical value becomes "unknown". The script as written gives "nan" (see Findings); `CategoryCellAsWritten` models that order.
- Python's infinities are not modelled. `Float` is a finite real or NaN, so `parse` never yields `inf` and no division reaches one.
- DataCleaning.CleanData: `pd.read_csv`/`pd.read_excel` are the `read` parameter, and the CSV output is left out. With duplicate labels `df[cols]` would select every copy; the model selects the first.
- Analytics.ConfusionDataRowMajor: requires at least as many rows of values as labels. With fewer, the page throws a TypeError, which is not modelled.
- Reports.DownloadPdf: entry values come already rendered as strings. jsPDF's own rendering and pagination are left out.
- `ModelPerformancePage.jsx`, the form and page handlers, `main.py`, `database.py` and the training and prediction scripts are left out: they are UI wiring, HTTP plumbing, I/O or foreign calls.

## Findings

| source | as written | input that shows it | evidently intended | confidence | as-written member | corrected member |
|---|---|---|---|---|---|---|
| cleaned_data/data_cleaning.py:34-35 | `astype(str)` runs before `fillna("unknown")`, so NaN has already become the string "nan" and the fill never applies | a missing `region` cell comes out as "nan" | missing categorical values become "unknown" | high; not executed | Cleaning.MissingCategoryBecomesNan | Cleaning.CategoryCellSpec |
