# Report Flow — a Dafny model of the scheduled-report pipeline

Report Flow is a Shopify app that lets a merchant define reports (sales,
orders, products, customers, inventory, discounts, traffic, finance summary,
custom), schedule them daily, weekly or monthly, and receive them as CSV
attachments by e-mail. A background scheduler polls for due schedules and
hands each shop's batch to the execution service. That service:
- fetches the data through the Shopify Admin GraphQL API, with retry and cursor pagination;
- turns the records into report rows;
- writes the CSV file and e-mails it to every recipient;
- records a history entry and the next run time.

Forms and an API route validate what the merchant enters. Catalogue modules
describe the report types and the selectable custom fields.

This project models the decision logic of that pipeline and proves what it
promises. The database, the Admin API, the mail transport, the file system
and the clock become inputs or scripted objects:
- `GraphqlRetry.AdminClient` answers call number n with a scripted response and logs calls and sleeps;
- `EmailService.Transport` fails or delivers send number n by script and logs each mail;
- `ReportExecution.Store` holds schedules, history records and temporary files.

Dates are civil dates with a millisecond time of day, money is integer
cents, and an order's `createdAt` arrives already reduced to its
`yyyy-MM-dd` day key.

| module (file) | models |
|---|---|
| `Wrappers` (wrappers.dfy) | `Option` and `Result` |
| `Text` (text.dfy) | the JavaScript string built-ins the code relies on: `trim`, `toLowerCase`, `join`, `padStart`, `%`, `String(n)`, `\|\|`, code-unit order |
| `Calendar` (calendar.dfy) | proleptic Gregorian dates, day numbers, weekdays, instants |
| `DateRangeHelper` (date_range.dfy) | app/utils/dateRangeHelper.ts |
| `TimezoneHelper`, `TimezoneCatalog` (timezone.dfy, timezone_catalog.dfy) | app/utils/timezoneHelper.ts |
| `ErrorCategorization` (error_categorization.dfy) | app/utils/errorCategorization.ts |
| `ReportTypes`, `ReportTypeCatalog` (report_types.dfy, report_type_catalog.dfy) | app/config/reportTypes.ts |
| `CustomFieldCatalog`, `CustomReportFields` (custom_field_catalog.dfy, custom_report_fields.dfy) | app/config/customReportFields.ts |
| `ShopifyRecords`, `RecordReports`, `DayBuckets`, `SalesReport`, `FinanceReport`, `ReportProcessor` | app/services/reportDataProcessor.server.ts |
| `GraphqlRetry`, `QueryFilters`, `ShopifyFetch` | app/services/shopifyDataFetcher.server.ts |
| `EmailService` (email_service.dfy) | app/services/emailService.server.ts |
| `ReportExecution` (report_execution.dfy) | app/services/reportExecutionService.server.ts |
| `BackgroundScheduler` (background_scheduler.dfy) | app/services/backgroundScheduler.server.ts |
| `ReportValidation` (report_validation.dfy) | `validateReportData` in app/routes/api.reports.tsx |
| `RecipientForm` (recipient_form.dfy) | the list logic and `validateRecipients` of app/components/EmailRecipientsForm.tsx |
| `FilterForm` (filter_form.dfy) | the defaults, change handler and `validateFilterConfiguration` of app/components/FilterConfigurationForm.tsx |

The code that updates state in place is modelled with classes:
- the retry and pagination loops;
- the per-recipient send loops;
- the execution step sequence and its counters;
- the scheduler's running-shop set and flags;
- the recipient and filter form state.

Methods are specified in one of two ways:
- Some are proved equal to a specification function of their inputs and the scripted environment, and the properties are proved about that function. These are `GraphqlRetry.ExecuteGraphQLWithRetry`, the `ShopifyFetch` loops (`FetchAll`, `FetchInventoryItems`, `FetchRecords`, `FlattenProducts`, `FetchShopifyData`), `SalesReport.ProcessSalesData`, `FinanceReport.ProcessFinanceSummaryData`, `FinanceReport.OrderFinanceFigures`, `RecordReports.ProcessProductsData`, `EmailService.SendReportEmail`, `EmailService.SendErrorNotification`, `BackgroundScheduler.GroupByShop`, `BackgroundScheduler.Dispatch`, `FilterForm.InitialFilterValues`, `FilterForm.ValidateFilterConfiguration` and `TimezoneHelper.CalculateNextRunTime`.
- The others are characterised directly by the properties in their `ensures`: the result fields and store state case by case, counts, and first-failure order. These are `ReportProcessor.ProcessReportData`, `ReportExecution.ExecuteReport`, `ReportExecution.ExecuteScheduledReports`, `ReportExecution.RunDue`, `ReportExecution.Cleanup`, `ReportValidation.ValidateReportData`, `RecipientForm.FindInvalidEmail`, `RecipientForm.ValidateRecipients`, the `RecipientForm.RecipientList`, `FilterForm.Form` and `BackgroundScheduler.Scheduler` methods, `BackgroundScheduler.ExecuteReportsForShop`, and `TimezoneHelper.GenerateTimeOptions` and `TimezoneHelper.GenerateDayOfMonthOptions`.

Pure code (transforms, catalogues, calculators, validators) is modelled as
functions and lemmas.

## Model

Some functions carry no contract of their own, because their properties are stated as separate lemmas (rows below):
- `TimezoneHelper.ParseTimeOfDay` (app/utils/timezoneHelper.ts:207): `TimeOfDayRoundTrip`, `ParseTimeOfDayInverse`.
- `TimezoneHelper.FormatTimeDisplay` (app/utils/timezoneHelper.ts:87-92): `TimeDisplayParts`, `TimeDisplayPeriod`, `TimeDisplayInjective`, `FormatTimeDisplayExamples`.
- `QueryFilters.SalesQuery` (app/services/shopifyDataFetcher.server.ts:144-156): `SalesQueryShape`.
- `QueryFilters.OrdersQuery` (app/services/shopifyDataFetcher.server.ts:239-261): `OrdersQueryStart`, `OrdersQueryNames`.
- `QueryFilters.CatalogQuery` (app/services/shopifyDataFetcher.server.ts:351-360): `CatalogQueryEmpty`, `CatalogQueryStart`, `CatalogQueryNames`.
- `QueryFilters.CustomersQuery` (app/services/shopifyDataFetcher.server.ts:423-435): `CustomersQueryShape`.
- `CustomReportFields.GetAllCustomReportFields` (app/config/customReportFields.ts:194-200): `AllFieldsAreSourceSelections`, `FieldsBySourceAreTables`.

| member | source | states |
|---|---|---|
| Calendar.DaysInMonth | app/utils/dateRangeHelper.ts:108 | every month has 28 to 31 days, and 29 exactly for February of a leap year (what `endOfMonth` lands on) |
| Calendar.LastOfPrevMonthPrecedesFirst | app/utils/dateRangeHelper.ts:105-108 | the last day of the previous month is the day right before the first of the month |
| Calendar.NextDayNumber | app/utils/timezoneHelper.ts:216 | `setDate(getDate() + 1)` moves to the next civil day: the day number grows by one |
| Calendar.PrevDayNumber | app/utils/dateRangeHelper.ts:74 | `subDays(now, 1)` moves to the previous civil day: the day number shrinks by one |
| Calendar.AddDays | app/utils/dateRangeHelper.ts:82 | adding k days gives a valid date whose day number is k more |
| Calendar.AddDaysWithinMonth | app/utils/timezoneHelper.ts:230 | moving forward inside a month only changes the day of the month |
| Calendar.DayNumberInjective | app/utils/dateRangeHelper.ts:32-39 | two valid dates with the same day number are the same date |
| Calendar.YearBefore | app/utils/dateRangeHelper.ts:126 | every day of an earlier year comes before every day of a later year |
| Calendar.Weekday | app/utils/timezoneHelper.ts:223 | `getDay` is a weekday number in 0..6 |
| Calendar.EpochWasThursday | app/utils/timezoneHelper.ts:223 | 1970-01-01 has weekday 4, Thursday |
| Calendar.WeekdayAddDays | app/utils/timezoneHelper.ts:230 | moving k days moves the weekday by k modulo 7 |
| Calendar.MillisOrder | app/utils/timezoneHelper.ts:215 | comparing instants (`nextRun <= now`) is comparing date, then time of day |
| DateRangeHelper.StartOfDayUtc | app/utils/dateRangeHelper.ts:32-40 | the result is a multiple of a day and the last midnight at or before the instant |
| DateRangeHelper.EndOfDayUtc | app/utils/dateRangeHelper.ts:45-53 | the result is the last millisecond of the UTC day holding the instant |
| DateRangeHelper.DayBoundsSpan | app/utils/dateRangeHelper.ts:32-53 | end of day minus start of day is 86 399 999 ms, and both lie in the same day |
| DateRangeHelper.SubDays | app/utils/dateRangeHelper.ts:74-94 | `subDays` moves back exactly n whole days |
| DateRangeHelper.AddMonths | app/utils/dateRangeHelper.ts:105-131 | `subMonths`/`subQuarters`/`subYears` shift the month count by n and clamp the day to the length of the target month |
| DateRangeHelper.QuarterStart | app/utils/dateRangeHelper.ts:111-121 | the first month of a quarter is 1, 4, 7 or 10 and at most two months before the given one |
| DateRangeHelper.StartOf | app/utils/dateRangeHelper.ts:98-128 | `startOfMonth`/`startOfQuarter`/`startOfYear` give day 1 of a month no later than the given month, in the same year |
| DateRangeHelper.EndOf | app/utils/dateRangeHelper.ts:104-135 | `endOfMonth`/`endOfQuarter`/`endOfYear` give the last day of a month no earlier than the given month, in the same year |
| DateRangeHelper.CalculateDateRange | app/utils/dateRangeHelper.ts:59-153 | fails exactly for CUSTOM without both bounds; CUSTOM with both bounds is start of the first bound's day to end of the second's |
| DateRangeHelper.TodayIsOneDay | app/utils/dateRangeHelper.ts:67-71 | TODAY is exactly today's UTC day, midnight to 23:59:59.999 |
| DateRangeHelper.LastNDays | app/utils/dateRangeHelper.ts:80-96 | LAST_7/30/90_DAYS start 6/29/89 days before the start of today and end at the end of today |
| DateRangeHelper.UnknownTagIsLast30Days | app/utils/dateRangeHelper.ts:146-151 | a tag outside the twelve known ones gives the LAST_30_DAYS range |
| DateRangeHelper.PreviousPeriodAdjoins | app/utils/dateRangeHelper.ts:104-135 | the last day of the month, quarter or year one period back is the day before the current period's first day |
| DateRangeHelper.ThisPeriodIsValid | app/utils/dateRangeHelper.ts:98-128 | THIS_MONTH/QUARTER/YEAR are day-aligned and ordered, start on the period's first day and start no later than today |
| DateRangeHelper.LastPeriodAdjoinsThisPeriod | app/utils/dateRangeHelper.ts:104-135 | LAST_MONTH/QUARTER/YEAR are day-aligned and ordered, end one millisecond before the matching THIS_ range starts, so strictly before today |
| DateRangeHelper.NonCustomRangesAreValid | app/utils/dateRangeHelper.ts:66-153 | every tag except CUSTOM succeeds with a range whose start is at most its end and which is UTC-day-aligned |
| DateRangeHelper.PeriodTagsValid | app/utils/dateRangeHelper.ts:98-135 | the month, quarter and year tags succeed with an ordered, day-aligned range |
| DateRangeHelper.DayTagsValid | app/utils/dateRangeHelper.ts:67-96 | the day-based tags and the fallback succeed with an ordered, day-aligned range |
| DateRangeHelper.CustomRangeMayBeInverted | app/utils/dateRangeHelper.ts:137-144 | CUSTOM does not order its bounds: an end before the start gives a range that fails `isValidDateRange` |
| DateRangeHelper.GetDaysInRange | app/utils/dateRangeHelper.ts:187-191 | `ceil(|end − start| / day) + 1` is at least 1 |
| DateRangeHelper.DayCountsSymmetric | app/utils/dateRangeHelper.ts:187-191 | the day count does not depend on which bound comes first |
| DateRangeHelper.DaysInRangeOvercounts | app/utils/dateRangeHelper.ts:187-191 | for TODAY and LAST_n_DAYS the count as written is n + 1 (TODAY counts 2) |
| DateRangeHelper.DaysCovered | app/utils/dateRangeHelper.ts:187-191 | the number of UTC days a range touches is at least 1 |
| DateRangeHelper.DaysCoveredByTags | app/utils/dateRangeHelper.ts:187-191 | counting the days touched gives TODAY 1 and LAST_n_DAYS n |
| TimezoneHelper.TimeOfDayRoundTrip | app/utils/timezoneHelper.ts:207 | splitting "HH:MM" built from two zero-padded numbers below 100 gives those numbers back |
| TimezoneHelper.ParseTimeOfDayInverse | app/utils/timezoneHelper.ts:207 | a parsed "HH:MM" prints back, zero-padded, as the text it was read from |
| TimezoneHelper.DisplayHour | app/utils/timezoneHelper.ts:90 | the 12-hour clock hour is in 1..12 and agrees with the hour modulo 12 |
| TimezoneHelper.Period | app/utils/timezoneHelper.ts:89 | "PM" exactly when hours ≥ 12, "AM" exactly when below |
| TimezoneHelper.TimeDisplayParts | app/utils/timezoneHelper.ts:87-92 | the caption is the display hour, ":", the two padded minute digits, " " and the period |
| TimezoneHelper.TimeDisplayPeriod | app/utils/timezoneHelper.ts:89-91 | the caption ends in "PM" exactly for hours ≥ 12 |
| TimezoneHelper.TimeDisplayInjective | app/utils/timezoneHelper.ts:87-92 | two different times of day never get the same caption |
| TimezoneHelper.FormatTimeDisplayExamples | app/utils/timezoneHelper.ts:87-92 | 00:00 is "12:00 AM", 09:05 is "9:05 AM", 12:30 is "12:30 PM", 23:00 is "11:00 PM" |
| TimezoneHelper.GetDayOfWeekName | app/utils/timezoneHelper.ts:97-108 | the name is empty exactly outside 0..6 |
| TimezoneHelper.EpochDayName | app/utils/timezoneHelper.ts:97-108 | 1 January 1970 is named "Thursday" |
| TimezoneHelper.GetOrdinalSuffix | app/utils/timezoneHelper.ts:113-125 | for days 1..31: "st" exactly for 1, 21, 31, "nd" for 2, 22, "rd" for 3, 23; "th" for 4..20 and for days ≤ 0 |
| TimezoneHelper.FormatDayOfMonth | app/utils/timezoneHelper.ts:130-132 | the text ends with the day's ordinal suffix |
| TimezoneHelper.GenerateDayOfWeekOptions | app/utils/timezoneHelper.ts:156-169 | seven options, value i captioned with the name of weekday i |
| TimezoneHelper.ClockOptionParses | app/utils/timezoneHelper.ts:142-144 | every time option's value parses back to its hour and minute |
| TimezoneHelper.GenerateTimeOptions | app/utils/timezoneHelper.ts:137-151 | 48 options; options 2h and 2h+1 are h:00 and h:30 with their 12-hour captions, for every hour h |
| TimezoneHelper.GenerateDayOfMonthOptions | app/utils/timezoneHelper.ts:174-194 | 32 options: days 1..31 with their ordinal captions in order, then −1 "Last day of month" |
| TimezoneHelper.SetHours | app/utils/timezoneHelper.ts:210 | a valid hh:mm lands on the same date at that time of day |
| TimezoneHelper.ShiftDays | app/utils/timezoneHelper.ts:216 | `setDate(getDate() + k)` moves the instant by exactly k days and keeps the time of day |
| TimezoneHelper.SetDate | app/utils/timezoneHelper.ts:240 | a day within the month lands on that day of the same month, at the same time |
| TimezoneHelper.SetNextMonth | app/utils/timezoneHelper.ts:238 | `setMonth(getMonth() + 1, day)` gives a valid date at the same time of day |
| TimezoneHelper.CalculateNextRunTime | app/utils/timezoneHelper.ts:199-252 | the step-by-step update ends at the next run defined per frequency |
| TimezoneHelper.DailyNextRun | app/utils/timezoneHelper.ts:213-218 | DAILY runs at hh:mm:00.000, strictly after now and at most a day later |
| TimezoneHelper.WeeklyRunFollows | app/utils/timezoneHelper.ts:220-231 | from today's hh:mm, WEEKLY lands on the weekday, at that time, strictly after now and within 7 days |
| TimezoneHelper.WeeklyNextRun | app/utils/timezoneHelper.ts:220-231 | WEEKLY with a weekday 0..6 runs on that weekday at hh:mm, strictly after now, within 7 days |
| TimezoneHelper.MonthlyRunFollows | app/utils/timezoneHelper.ts:239-246 | from today's hh:mm, MONTHLY with a day 1..28 lands on that day, at that time, strictly after now; it is this month's occurrence, or next month's only when this month's is not after now |
| TimezoneHelper.NextMonthDayFollows | app/utils/timezoneHelper.ts:243-245 | day 1..28 of the next month is that date of the next month and comes after every day of this month |
| TimezoneHelper.MonthlyNextRun | app/utils/timezoneHelper.ts:234-247 | MONTHLY with a day 1..28 runs on that day at hh:mm, strictly after now, in this month, or in the next month only when this month's occurrence has passed |
| TimezoneHelper.MonthlyLastDay | app/utils/timezoneHelper.ts:236-238 | MONTHLY with −1 runs on the last day of the current month at hh:mm, even when that has passed |
| TimezoneHelper.UnadvancedNextRun | app/utils/timezoneHelper.ts:199-252 | other frequencies, and WEEKLY or MONTHLY without their day, give today at hh:mm, passed or not |
| TimezoneHelper.FormatScheduleDescription | app/utils/timezoneHelper.ts:257-289 | the text starts with the frequency's subject and " at " and ends with " " and the zone label |
| TimezoneHelper.DescriptionParts | app/utils/timezoneHelper.ts:264-287 | the time sits between "<subject> at " and " <zone>" |
| TimezoneHelper.DescriptionDeterminesTime | app/utils/timezoneHelper.ts:257-289 | with the same frequency, day and zone, different times give different descriptions |
| TimezoneHelper.DescriptionWithoutZone | app/utils/timezoneHelper.ts:265 | without a zone the description ends with the period and a trailing space |
| TimezoneCatalog.NorthAmericaZones | app/utils/timezoneHelper.ts:19-24 | every North American zone has a regional (longer than three characters) name |
| TimezoneCatalog.EuropeZones | app/utils/timezoneHelper.ts:27-33 | every European zone has a regional name |
| TimezoneCatalog.AsiaZones | app/utils/timezoneHelper.ts:36-42 | every Asian zone has a regional name |
| TimezoneCatalog.AustraliaPacificZones | app/utils/timezoneHelper.ts:45-49 | every Australian and Pacific zone has a regional name |
| TimezoneCatalog.SouthAmericaZones | app/utils/timezoneHelper.ts:52-54 | every South American zone has a regional name |
| TimezoneCatalog.AfricaZones | app/utils/timezoneHelper.ts:57-59 | every African zone has a regional name |
| TimezoneCatalog.UniversalZones | app/utils/timezoneHelper.ts:62 | the last group is the single zone "UTC" |
| TimezoneCatalog.FindZone | app/utils/timezoneHelper.ts:80 | `find` gives the first zone with that name, and none exactly when no zone has it |
| TimezoneCatalog.GetTimezoneLabel | app/utils/timezoneHelper.ts:79-82 | an unknown zone labels itself; a known one gets the caption of a zone with that name |
| TimezoneCatalog.FindZoneSkipsRegional | app/utils/timezoneHelper.ts:80 | a short name is never found among regional zones and the search continues past them |
| TimezoneCatalog.UtcLabel | app/utils/timezoneHelper.ts:62 | "UTC" is labelled "UTC (Coordinated Universal Time)" |
| TimezoneCatalog.ShortUnknownNameLabelsItself | app/utils/timezoneHelper.ts:79-82 | a name of at most three characters other than "UTC" labels itself |
| ErrorCategorization.CategoryName | app/utils/errorCategorization.ts:27-210 | every category name is non-empty (at least 11 characters) |
| ErrorCategorization.CategoryNameInjective | app/utils/errorCategorization.ts:27-210 | the twelve category names are pairwise different, so the name identifies the branch taken |
| ErrorCategorization.TipCount | app/utils/errorCategorization.ts:27-210 | every category lists between 4 and 5 tips |
| ErrorCategorization.TroubleshootingTips | app/utils/errorCategorization.ts:27-210 | the tips of a category are its listed tips, in the listed order |
| ErrorCategorization.ApiBranch | app/utils/errorCategorization.ts:20-72 | a Shopify category comes out exactly when an API word is present; a rate-limit word always gives the rate-limit category; "Shopify API Error" is the API branch without rate-limit, authentication or not-found words |
| ErrorCategorization.InvalidEmailBranch | app/utils/errorCategorization.ts:113-129 | "Invalid Email Address" exactly when no API, processing or file word is present, a mail word is, and both "invalid" and "email" are |
| ErrorCategorization.ConfigurationBranch | app/utils/errorCategorization.ts:144-160 | "Configuration Error" exactly when no earlier branch matches and a configuration word is present |
| ErrorCategorization.UnknownBranch | app/utils/errorCategorization.ts:200-210 | "Unknown Error" exactly when the message has none of the keywords |
| ErrorCategorization.CategorizeError | app/utils/errorCategorization.ts:15-211 | the category is the name of the branch chosen on the lower-cased message; non-empty, with 4–5 tips |
| ErrorCategorization.CategorizeIgnoresCase | app/utils/errorCategorization.ts:16 | lower-casing the message first does not change the analysis |
| ErrorCategorization.CategorizeIgnoresDetails | app/utils/errorCategorization.ts:17 | the details argument never changes the analysis |
| ErrorCategorization.ApiTakesPriority | app/utils/errorCategorization.ts:20-72 | a message with an API word is filed under a "Shopify " category, whatever else it contains |
| ErrorCategorization.InvalidWithoutMailIsConfiguration | app/utils/errorCategorization.ts:144-149 | "invalid" without a mail word and without earlier keywords is a configuration error |
| ErrorCategorization.NetworkErrorCallingApi | app/utils/errorCategorization.ts:20-72 | "network error calling api" is classified "Shopify API Error", not a network error |
| ErrorCategorization.GetUserFriendlyErrorMessage | app/utils/errorCategorization.ts:216-254 | no keyword gives the input unchanged; a keyword gives one of the seven sentences; a rate-limit word gives the rate-limit sentence |
| ErrorCategorization.RateLimitAgrees | app/utils/errorCategorization.ts:220-222 | a rate-limit message gets both the rate-limit category and the rate-limit sentence |
| ReportTypes.ParseTag | app/config/reportTypes.ts:8-17 | a tag names a type exactly when it is that type's own tag |
| ReportTypes.IndexOf | app/config/reportTypes.ts:135-561 | every type has a position in the catalogue's declaration order |
| ReportTypes.DeclarationOrderDistinct | app/config/reportTypes.ts:135-561 | the nine types are declared once each, each at its own position |
| ReportTypes.FilterCategory | app/config/reportTypes.ts:583 | `filter` keeps exactly the entries of the category and never adds entries |
| ReportTypes.FilterCategoryAfter | app/config/reportTypes.ts:583 | filtering keeps every entry after a given declaration position |
| ReportTypes.FilterCategoryKeepsOrder | app/config/reportTypes.ts:583 | filtering a list in declaration order gives a list in declaration order |
| ReportTypes.IsValidReportType | app/config/reportTypes.ts:589-591 | true exactly for the nine tags and for the names every object inherits |
| ReportTypes.InheritedNamePasses | app/config/reportTypes.ts:589-591 | "toString" and "constructor" pass the check without naming a report type |
| ReportTypeCatalog.GetReportTypeConfig | app/config/reportTypes.ts:566-568 | the entry stored under a type has that type and its category |
| ReportTypeCatalog.Configs | app/config/reportTypes.ts:574 | the list holds each given type's entry, in the given order |
| ReportTypeCatalog.GetAllReportTypes | app/config/reportTypes.ts:573-575 | nine entries, the i-th being the entry of the i-th declared type |
| ReportTypeCatalog.GetReportTypesByCategory | app/config/reportTypes.ts:580-584 | an entry is listed exactly when it is in the catalogue and has that category |
| ReportTypeCatalog.AllInDeclarationOrder | app/config/reportTypes.ts:573-575 | the catalogue lists the types in strictly increasing declaration order |
| ReportTypeCatalog.CategoryInDeclarationOrder | app/config/reportTypes.ts:580-584 | a category's entries are in declaration order, so no type appears twice |
| ReportTypeCatalog.CategoryListsItsTypes | app/config/reportTypes.ts:580-584 | every type's entry is listed under its own category |
| ReportTypeCatalog.CategoryListsOnlyItsTypes | app/config/reportTypes.ts:580-584 | everything listed under a category is the entry of a type of that category |
| ReportTypeCatalog.OnlyCustomLacksDataFields | app/config/reportTypes.ts:527-560 | CUSTOM has no output columns and every other type has some |
| ReportTypeCatalog.DateRangeFilterConventions | app/config/reportTypes.ts:142-150 | every type except INVENTORY starts with the date-range filter, required with default LAST_30_DAYS; no other filter is keyed "dateRange" |
| CustomFieldCatalog.OrderFields | app/config/customReportFields.ts:29-112 | every entry of `ORDER_FIELDS` has source ORDERS |
| CustomFieldCatalog.ProductFields | app/config/customReportFields.ts:114-162 | every entry of `PRODUCT_FIELDS` has source PRODUCTS |
| CustomFieldCatalog.CustomerFields | app/config/customReportFields.ts:164-189 | every entry of `CUSTOMER_FIELDS` has source CUSTOMERS |
| CustomFieldCatalog.OrderCustomerStartsWithCustomerEmail | app/config/customReportFields.ts:64 | the customer group of the order table starts with "customer_email" |
| CustomFieldCatalog.CustomerBasicInfoHasCustomerEmail | app/config/customReportFields.ts:167 | the customer table also has an entry keyed "customer_email" |
| CustomReportFields.FilterSource | app/config/customReportFields.ts:206 | `filter` by source keeps exactly the entries of that source and only those |
| CustomReportFields.FilterSourceConcat | app/config/customReportFields.ts:206 | filtering a concatenation is the concatenation of the filtered parts |
| CustomReportFields.FilterSourceDrawn | app/config/customReportFields.ts:206 | filtering a single-source table keeps all of it for that source and nothing for any other |
| CustomReportFields.FieldsBySourceAreTables | app/config/customReportFields.ts:205-207 | `getFieldsBySource` gives exactly the table of that source, in order; INVENTORY, SALES and FULFILLMENTS give nothing |
| CustomReportFields.GetFieldsBySource | app/config/customReportFields.ts:205-207 | an entry is selected iff it is in the catalogue with that source |
| CustomReportFields.AllFieldsAreSourceSelections | app/config/customReportFields.ts:194-200 | the whole catalogue is the order, product and customer selections, in that order |
| CustomReportFields.FindKey | app/config/customReportFields.ts:213 | the position found holds the key and no earlier position does; nothing is found exactly when no entry has the key |
| CustomReportFields.FieldByKey | app/config/customReportFields.ts:212-214 | `find` gives the first entry with the key, and nothing exactly when no entry has it |
| CustomReportFields.GetFieldByKey | app/config/customReportFields.ts:212-214 | nothing iff no catalogue entry has the key; otherwise a catalogue entry with that key |
| CustomReportFields.FieldByKeyInFront | app/config/customReportFields.ts:212-214 | a key found in the front part is never looked up in the rest |
| CustomReportFields.FieldByKeyPast | app/config/customReportFields.ts:212-214 | when the front part lacks the key, the result is the rest's |
| CustomReportFields.OrderTableCustomerEmail | app/config/customReportFields.ts:64 | within the order table "customer_email" is first found in its customer group |
| CustomReportFields.CustomerEmailResolvesToOrders | app/config/customReportFields.ts:194-214 | "customer_email" is a key of both the order and the customer table, and `getFieldByKey` returns the ORDERS entry |
| CustomReportFields.PresentCategories | app/config/customReportFields.ts:221 | the mapped and filtered categories are exactly the non-empty categories of the fields |
| CustomReportFields.FirstIndex | app/config/customReportFields.ts:222 | the first occurrence of a value holds it and has no earlier copy |
| CustomReportFields.Dedup | app/config/customReportFields.ts:222 | `Array.from(new Set(xs))` has the same members, no repeats, and keeps the order of first occurrence |
| CustomReportFields.CategoriesOf | app/config/customReportFields.ts:219-223 | the categories of a source are distinct, non-empty, exactly those its fields carry, in order of first occurrence |
| CustomReportFields.GetCategoriesBySource | app/config/customReportFields.ts:219-223 | distinct categories, exactly the non-empty categories of the source's fields |
| ReportProcessor.SanitizeChar | app/services/reportDataProcessor.server.ts:307 | a kept character is an ASCII letter or digit and comes out as a lower-case letter or digit; every other character becomes "_" |
| ReportProcessor.SanitizeName | app/services/reportDataProcessor.server.ts:307 | the stem has the name's length and only `[a-z0-9_]`; position i is "_" exactly when the name's character is not an ASCII letter or digit, and otherwise that character lowered |
| ReportProcessor.SanitizeSafeName | app/services/reportDataProcessor.server.ts:307 | a name already made of `[a-z0-9_]` is left unchanged |
| ReportProcessor.SanitizeIdempotent | app/services/reportDataProcessor.server.ts:307 | sanitising twice is sanitising once |
| ReportProcessor.SanitizeIgnoresCase | app/services/reportDataProcessor.server.ts:307 | names that differ only in letter case get the same stem |
| ReportProcessor.ReportFileName | app/services/reportDataProcessor.server.ts:306-308 | the file name is the stem, "_", the timestamp and ".csv" |
| ReportProcessor.Failed | app/services/reportDataProcessor.server.ts:90-97 | a thrown error gives success false, no file, a row count of 0 and the error message |
| ReportProcessor.ProcessReportData | app/services/reportDataProcessor.server.ts:33-98 | CUSTOM or an unknown tag fails with "Unknown report type: …"; a failing transform or CSV write fails with its message; success exactly when a transform exists and both steps succeed, and then the row count is the transform's and the path is the reports directory plus the file name |
| RecordReports.ItemCountAppend | app/services/reportDataProcessor.server.ts:156-159 | item counts add up over consecutive runs of line items |
| RecordReports.ItemCountOfOneLine | app/services/reportDataProcessor.server.ts:157 | a line without a quantity adds 0, and a line with one adds exactly it |
| RecordReports.FullNameOfNoNames | app/services/reportDataProcessor.server.ts:163 | no first and no last name trims to the empty name |
| RecordReports.OrderRowOf | app/services/reportDataProcessor.server.ts:154-177 | the order number and total are the order's; no customer gives "Guest" and no e-mail; the status is "CANCELLED" exactly when `cancelledAt` is set, else "OPEN"; the item count sums the quantities, missing ones as 0 |
| RecordReports.NamelessCustomerIsNotGuest | app/services/reportDataProcessor.server.ts:162-164 | a customer without names gets an empty name, not "Guest" |
| RecordReports.ProcessOrdersData | app/services/reportDataProcessor.server.ts:153-178 | one row per order, in input order |
| RecordReports.ProcessProductsData | app/services/reportDataProcessor.server.ts:183-204 | the pushes produce every variant's row, product by product, in input order |
| RecordReports.ProductRowsCount | app/services/reportDataProcessor.server.ts:186-201 | there are exactly as many rows as variants |
| RecordReports.ProductRowsCarryParent | app/services/reportDataProcessor.server.ts:190-199 | every row carries its product's title, vendor and type, with 0 units sold and 0 revenue |
| RecordReports.AverageOrderValue | app/services/reportDataProcessor.server.ts:211-213 | 0 without orders; otherwise the average times the number of orders is the amount spent |
| RecordReports.CustomerRowOf | app/services/reportDataProcessor.server.ts:215-226 | the name is "N/A" when first and last names trim to nothing, else the trimmed full name; the average is the per-order amount; the creation day appears as first order and customer-since |
| RecordReports.ProcessCustomersData | app/services/reportDataProcessor.server.ts:209-228 | one row per customer, in order; fails with "Invalid time value" exactly when some customer has no creation date |
| RecordReports.InventoryRowOf | app/services/reportDataProcessor.server.ts:235-250 | location "Default", nothing committed; available and on-hand are the quantity (missing counts 0); the value is quantity times unit cost |
| RecordReports.ProcessInventoryData | app/services/reportDataProcessor.server.ts:233-251 | one row per inventory item, in order |
| RecordReports.ProcessTrafficData | app/services/reportDataProcessor.server.ts:256-259 | the traffic report has no rows |
| RecordReports.DiscountType | app/services/reportDataProcessor.server.ts:270-275 | "UNKNOWN" without a type name; otherwise the last matching test wins: FreeShipping, then Bxgy, then Basic |
| RecordReports.DiscountRowOf | app/services/reportDataProcessor.server.ts:265-288 | the code is the first code or "", the type as above, uses default to 0, the three money columns are 0, the status is never empty |
| RecordReports.ProcessDiscountsData | app/services/reportDataProcessor.server.ts:264-289 | one row per discount, in order |
| RecordReports.UntypedDiscountsAreUnknown | app/services/reportDataProcessor.server.ts:270-275 | discounts without a type name, as the discount query returns them, all get "UNKNOWN" |
| DayBuckets.DistinctDays | app/services/reportDataProcessor.server.ts:107-131 | the bucket keys in insertion order: each day once, and exactly the days that occur |
| DayBuckets.DayCountPositive | app/services/reportDataProcessor.server.ts:110-119 | a day has a non-zero count exactly when some order falls on it |
| DayBuckets.DayTotalAbsent | app/services/reportDataProcessor.server.ts:110-119 | a day that never occurs keeps the zero bucket |
| DayBuckets.Deposit | app/services/reportDataProcessor.server.ts:110-130 | opening a bucket with zero figures the first time a day is seen and adding an order's figures keeps every bucket equal to its day's total |
| DayBuckets.Values | app/services/reportDataProcessor.server.ts:134 | `Object.values` reads the buckets back in key order, one per key |
| DayBuckets.InsertByKey | app/services/reportDataProcessor.server.ts:145 | one insertion step of the sort keeps the rows as a multiset, plus the new one |
| DayBuckets.SortByKey | app/services/reportDataProcessor.server.ts:145 | the sort returns a permutation of its input |
| DayBuckets.InsertKeepsAscending | app/services/reportDataProcessor.server.ts:145 | inserting a row with a new key into strictly ascending rows keeps them strictly ascending |
| DayBuckets.InsertStaysAbove | app/services/reportDataProcessor.server.ts:145 | inserting a row keyed above a bound among rows keyed above it keeps every key above it |
| DayBuckets.SortByKeyAscending | app/services/reportDataProcessor.server.ts:145 | rows with distinct keys come out of the sort strictly ascending |
| DayBuckets.SortRowsByDay | app/services/reportDataProcessor.server.ts:145 | rows keyed by distinct days come out strictly ascending and hold the same rows |
| DayBuckets.CountInSnoc | app/services/reportDataProcessor.server.ts:107-131 | counting one more day adds exactly that day's count |
| DayBuckets.SumCountsIsCountIn | app/services/reportDataProcessor.server.ts:107-131 | over distinct days, the sum of the day counts is the number of items on those days |
| DayBuckets.CountInNone | app/services/reportDataProcessor.server.ts:107-131 | no days count no items |
| DayBuckets.CountInAll | app/services/reportDataProcessor.server.ts:107-131 | when every item is on one of the days, all items are counted |
| DayBuckets.CountsCoverItems | app/services/reportDataProcessor.server.ts:107-131 | counting each bucket day once counts every order exactly once |
| SalesReport.SalesItems | app/services/reportDataProcessor.server.ts:108-119 | each order contributes its own day and figures, in input order |
| SalesReport.CountIsDayCount | app/services/reportDataProcessor.server.ts:121 | a bucket's order count is the number of orders on that day |
| SalesReport.ProcessSalesData | app/services/reportDataProcessor.server.ts:103-148 | the rows are strictly ascending by day, there is a row exactly for each day some order was placed, and each row is that day's bucket with the average total as total over count |
| SalesReport.ItemDays | app/services/reportDataProcessor.server.ts:108 | an order contributes to a day exactly when it was placed on it |
| SalesReport.SortedBucketRows | app/services/reportDataProcessor.server.ts:134-145 | the exact buckets, made into rows and sorted, form the sales report |
| SalesReport.RowsAreBucketRows | app/services/reportDataProcessor.server.ts:134-142 | every sorted row is the row of one bucket day |
| SalesReport.RowDaysArePlacedDays | app/services/reportDataProcessor.server.ts:134-145 | the sorted rows cover exactly the days orders were placed on |
| SalesReport.SalesOfDayIsSums | app/services/reportDataProcessor.server.ts:121-130 | a day's bucket is the order count and the sums of totals, discounts, taxes and net payments of that day's orders, a missing net payment counting as the total |
| SalesReport.Dates | app/services/reportDataProcessor.server.ts:134-142 | the dates of the rows, in order |
| SalesReport.TotalIsSumCounts | app/services/reportDataProcessor.server.ts:121 | the rows' order counts add up to the sum of the day counts |
| SalesReport.OrderCountsAddUp | app/services/reportDataProcessor.server.ts:121-139 | every row counts at least one order, so the average is defined, and the counts add up to the number of orders |
| FinanceReport.CostSplitPartitionsLines | app/services/reportDataProcessor.server.ts:401-415 | every line item counts on exactly one side of the split between sales with and without a unit cost |
| FinanceReport.CostlessLinesAddNoCost | app/services/reportDataProcessor.server.ts:405-414 | lines without a unit cost add no cost of goods and no sales with cost |
| FinanceReport.OnlyShopifySalesCount | app/services/reportDataProcessor.server.ts:420-429 | only successful SALE transactions through a gateway named like "shopify" add to Shopify Payments |
| FinanceReport.OrderFinanceFigures | app/services/reportDataProcessor.server.ts:384-445 | the per-order loops compute the order's figures: gross sales are total plus discounts, net sales current total less tax and shipping, the cost split over the lines, gross profit as sales with cost less cost, the Shopify Payments sum, and zero gift cards and tips |
| FinanceReport.OrderFinanceBalanced | app/services/reportDataProcessor.server.ts:391-417 | an order's figures are balanced and its gross sales are its total plus its discounts |
| FinanceReport.AddKeepsBalanced | app/services/reportDataProcessor.server.ts:432-445 | adding balanced figures gives balanced figures |
| FinanceReport.FinanceItems | app/services/reportDataProcessor.server.ts:384-445 | each order contributes its own day and figures, in input order |
| FinanceReport.ProcessFinanceSummaryData | app/services/reportDataProcessor.server.ts:350-475 | the rows are strictly ascending by day, there is a row exactly for each day some order was placed, and each row holds that day's bucket |
| FinanceReport.ItemDays | app/services/reportDataProcessor.server.ts:384 | an order contributes to a day exactly when it was placed on it |
| FinanceReport.SortedBucketRows | app/services/reportDataProcessor.server.ts:449-472 | the exact buckets, made into rows and sorted, form the finance summary |
| FinanceReport.RowsAreBucketRows | app/services/reportDataProcessor.server.ts:449-470 | every sorted row is the row of one bucket day |
| FinanceReport.RowDaysArePlacedDays | app/services/reportDataProcessor.server.ts:449-472 | the sorted rows cover exactly the days orders were placed on |
| FinanceReport.DayTotalBalanced | app/services/reportDataProcessor.server.ts:432-445 | a day's sum of balanced figures is balanced |
| FinanceReport.FinanceRowsBalanced | app/services/reportDataProcessor.server.ts:350-475 | every row has gross profit = sales with cost − cost, net sales = total − taxes − shipping, and zero gift-card and tips columns |
| GraphqlRetry.AdminClient.constructor | app/services/shopifyDataFetcher.server.ts:44-49 | a fresh client has made no calls and slept no delays |
| GraphqlRetry.AdminClient.Graphql | app/services/shopifyDataFetcher.server.ts:51-52 | a call returns the scripted answer for its call number and request, and counts one more call |
| GraphqlRetry.AdminClient.Sleep | app/services/shopifyDataFetcher.server.ts:37-39 | a sleep logs its delay and makes no call |
| GraphqlRetry.Pow2 | app/services/shopifyDataFetcher.server.ts:63 | a power of two is at least 1 |
| GraphqlRetry.DelaysBelowCap | app/services/shopifyDataFetcher.server.ts:27-32 | the three delays the budget of 3 retries allows are 1000, 2000 and 4000 ms, all below the 10 000 ms cap |
| GraphqlRetry.ExecuteGraphQLWithRetry | app/services/shopifyDataFetcher.server.ts:44-92 | the result, the calls made and the delays slept are those of the retry chain: data at once; any failure, THROTTLED or not, slept on and retried while the counter is below 3; the last failure's message once it is not |
| GraphqlRetry.Retried | app/services/shopifyDataFetcher.server.ts:68-69 | one sleep of the current delay followed by the retry is the chain from the current call |
| GraphqlRetry.RetryCallsBounded | app/services/shopifyDataFetcher.server.ts:60 | a chain from counter r makes between 1 and 4 − r calls, with one sleep before every call but the first |
| GraphqlRetry.Backoff | app/services/shopifyDataFetcher.server.ts:62-65 | the delays of k consecutive retries from counter r, one per retry |
| GraphqlRetry.RetrySleepsAreBackoff | app/services/shopifyDataFetcher.server.ts:62-68 | the delays slept are exactly the backoff delays of the retries made, in increasing order |
| GraphqlRetry.FailuresThenAnswered | app/services/shopifyDataFetcher.server.ts:44-92 | a server that fails k calls within the budget and then answers makes the call return that data after exactly k + 1 calls and the k backoff sleeps |
| GraphqlRetry.PersistentFailure | app/services/shopifyDataFetcher.server.ts:73 | a server that always fails is called 4 − r times and the last error is reported |
| GraphqlRetry.RetryResultIsLastAnswer | app/services/shopifyDataFetcher.server.ts:44-92 | the result is data exactly when the last call answered data, and then it is that data; a failure carries the last call's message; every earlier call failed |
| QueryFilters.Prefixed | app/services/shopifyDataFetcher.server.ts:249 | each status becomes its field prefix followed by the status, in order |
| QueryFilters.Quoted | app/services/shopifyDataFetcher.server.ts:353 | each type or vendor becomes `field:'value'`, in order |
| QueryFilters.QueryVariable | app/services/shopifyDataFetcher.server.ts:393 | an empty filter is sent as no query, any other as itself |
| QueryFilters.AnyOfShape | app/services/shopifyDataFetcher.server.ts:154-155 | no terms add nothing; otherwise the group opens with " AND (" and the first term, closes with ")" and holds every term |
| QueryFilters.SalesQueryShape | app/services/shopifyDataFetcher.server.ts:151-156 | the sales query opens with the created_at range, is the range alone without channels, and otherwise ends its channel group with ")" and names every channel |
| QueryFilters.GroupOpens | app/services/shopifyDataFetcher.server.ts:249-250 | a non-empty status group opens with " AND (", the field prefix and the first value |
| QueryFilters.GroupContained | app/services/shopifyDataFetcher.server.ts:249-260 | every value of a group occurs in the query with its field prefix |
| QueryFilters.FirstPresent | app/services/shopifyDataFetcher.server.ts:245-260 | the first non-empty group follows the leading clause directly |
| QueryFilters.OrdersQueryStart | app/services/shopifyDataFetcher.server.ts:245-261 | the orders query opens with the range, then the first present of the order, fulfillment and financial status groups, in that order; without statuses it is the range alone |
| QueryFilters.OrdersQueryNames | app/services/shopifyDataFetcher.server.ts:248-261 | the orders query names every requested order, fulfillment and financial status with its field prefix |
| QueryFilters.JoinedTermsNotEmpty | app/services/shopifyDataFetcher.server.ts:353 | a non-empty list of quoted terms joins into a non-empty text opening with the first term |
| QueryFilters.CatalogQueryEmpty | app/services/shopifyDataFetcher.server.ts:351-360 | the products query is empty, and sent as no query, exactly when there are no product types and no vendors |
| QueryFilters.CatalogQueryStart | app/services/shopifyDataFetcher.server.ts:351-360 | types come first; vendors stand alone without types and are grouped behind " AND (" and closed by ")" after them |
| QueryFilters.VendorsGrouped | app/services/shopifyDataFetcher.server.ts:359 | vendors after types open their group with the first vendor and close the query |
| QueryFilters.CatalogQueryNames | app/services/shopifyDataFetcher.server.ts:351-360 | the products and inventory query names every product type and every vendor |
| QueryFilters.JoinedWithin | app/services/shopifyDataFetcher.server.ts:353 | every term of a joined list occurs in any text around it |
| QueryFilters.CustomersQueryShape | app/services/shopifyDataFetcher.server.ts:430-435 | NEW customers are queried by the created_at range, RETURNING ones by "orders_count:>1", and any other type with no query |
| ShopifyFetch.FetchAll | app/services/shopifyDataFetcher.server.ts:158-229 | the nodes returned are those of every page the loop reads, in order, or the error of the page that failed for good; the calls and sleeps are exactly the loop's |
| ShopifyFetch.PageRead | app/services/shopifyDataFetcher.server.ts:217-222 | a page read appends its nodes and continues the loop from that page's `hasNextPage` and `endCursor` |
| ShopifyFetch.PageFailed | app/services/shopifyDataFetcher.server.ts:165-215 | a page that cannot be read ends the loop with its error |
| ShopifyFetch.PaginateShape | app/services/shopifyDataFetcher.server.ts:164-223 | the pages read extend the pages so far, every page but the last announced a next one, and the loop stops short of 20 pages only at a page announcing none |
| ShopifyFetch.PagesShape | app/services/shopifyDataFetcher.server.ts:158-223 | a successful fetch reads between 1 and 20 pages; every page but the last announced a next page, and fewer than 20 pages means the last announced none |
| ShopifyFetch.PaginateCursors | app/services/shopifyDataFetcher.server.ts:164-223 | each page is the answer to the request carrying the previous page's end cursor |
| ShopifyFetch.ChainExtends | app/services/shopifyDataFetcher.server.ts:212-221 | a page answered to the request with the last cursor extends the cursor chain |
| ShopifyFetch.EarlierPage | app/services/shopifyDataFetcher.server.ts:212-221 | appending a page leaves the cursors of the earlier pages as they were |
| ShopifyFetch.LastPage | app/services/shopifyDataFetcher.server.ts:212-221 | the new page was requested with the previous page's end cursor, or none for the first page |
| ShopifyFetch.PagesFollowCursors | app/services/shopifyDataFetcher.server.ts:158-223 | the first page is requested without a cursor, each later page with the end cursor of the page before it |
| ShopifyFetch.PaginateCalls | app/services/shopifyDataFetcher.server.ts:164-223 | from any loop state, the loop makes at most 4 calls and 3 sleeps per remaining page and keeps the delays already slept |
| ShopifyFetch.FetchCallsBounded | app/services/shopifyDataFetcher.server.ts:27-32 | a fetch makes at most 80 calls and sleeps at most 60 times |
| ShopifyFetch.PaginateWithoutFailures | app/services/shopifyDataFetcher.server.ts:164-223 | against an API that never fails, the loop succeeds with one call per page and no sleep |
| ShopifyFetch.FetchWithoutFailures | app/services/shopifyDataFetcher.server.ts:158-229 | against an API that never fails, a fetch makes one call per page and never sleeps |
| ShopifyFetch.FetchOutage | app/services/shopifyDataFetcher.server.ts:44-92 | against an API that always fails, a fetch gives up on its first page after 4 calls and sleeps of 1, 2 and 4 seconds, with the last error |
| ShopifyFetch.ProductItems | app/services/shopifyDataFetcher.server.ts:564-577 | one inventory item per variant of a product, in variant order, carrying the product's fields and a missing unit cost as 0 |
| ShopifyFetch.FlattenConcat | app/services/shopifyDataFetcher.server.ts:560-578 | flattening page by page is flattening all products: items keep their products' order |
| ShopifyFetch.FlattenLength | app/services/shopifyDataFetcher.server.ts:563-578 | there is exactly one inventory item per variant |
| ShopifyFetch.FlattenProducts | app/services/shopifyDataFetcher.server.ts:563-578 | the nested loops push exactly the flattened items |
| ShopifyFetch.FetchInventoryItems | app/services/shopifyDataFetcher.server.ts:518-583 | the inventory loop returns the flattened items of every page read, or the error; calls and sleeps are the loop's |
| ShopifyFetch.StockFilterMembers | app/services/shopifyDataFetcher.server.ts:585-599 | the stock filter keeps exactly the items of the requested level (IN_STOCK > 0, LOW_STOCK 1..9, OUT_OF_STOCK = 0) and no more items than there were |
| ShopifyFetch.StockFilterConcat | app/services/shopifyDataFetcher.server.ts:590-596 | filtering keeps the items in their order |
| ShopifyFetch.StockFilterKeepsAll | app/services/shopifyDataFetcher.server.ts:586-588 | without a known stock level every item is kept |
| ShopifyFetch.QueryFailsOnlyForIncompleteCustomRange | app/services/shopifyDataFetcher.server.ts:144-148 | the dated fetches fail before their first call exactly for a CUSTOM range missing a bound (LAST_30_DAYS standing in for no range), with the date range's message |
| ShopifyFetch.FetchRecords | app/services/shopifyDataFetcher.server.ts:140-229 | a fetch whose query could not be built makes no call and returns that error; otherwise it is the pagination loop |
| ShopifyFetch.Outcome | app/services/shopifyDataFetcher.server.ts:119-134 | success exactly when the fetch returned; then the data and its length, otherwise no data, a count of 0 and the message |
| ShopifyFetch.FetchShopifyData | app/services/shopifyDataFetcher.server.ts:97-135 | each type runs its own query on its own connection and leaves the other connections unchanged; TRAFFIC fails with its fixed message and any other unknown type with "Unknown report type: …", without calls; INVENTORY flattens and stock-filters; a failure carries no data and a count of 0 |
| EmailService.Transport.constructor | app/services/emailService.server.ts:59-61 | a fresh transport has sent nothing |
| EmailService.Transport.SendMail | app/services/emailService.server.ts:120-132 | a send's outcome is the scripted one for its send number and address, and the mail is logged |
| EmailService.BeforeFirst | app/services/emailService.server.ts:96 | `split(sep)[0]` is the longest prefix without the separator, ended by the separator or by the end of the text |
| EmailService.RecipientName | app/services/emailService.server.ts:96 | a non-empty name is used as given; otherwise the greeting is the part of the address before its first "@", or the whole address without one |
| EmailService.GreetsLocalPart | app/services/emailService.server.ts:96 | `local@domain` without a name greets `local` |
| EmailService.Summary | app/services/emailService.server.ts:146-151 | success exactly when some mail went out; the failed count is the number of errors, and `errors` is present exactly when some send failed |
| EmailService.DeliverCounts | app/services/emailService.server.ts:94-144 | every recipient is counted exactly once, as sent or as failed |
| EmailService.SentIffSomeDelivered | app/services/emailService.server.ts:134 | some mail went out exactly when some recipient's send was delivered |
| EmailService.ErrorsAreRejections | app/services/emailService.server.ts:136-143 | every error line names a recipient whose send failed, with that failure's message or "Unknown error" |
| EmailService.RejectionsAreErrors | app/services/emailService.server.ts:136-143 | every failed send has its error line among the errors |
| EmailService.AllDelivered | app/services/emailService.server.ts:94-144 | when every send is delivered, all recipients count as sent and there are no errors |
| EmailService.SendResultCounts | app/services/emailService.server.ts:94-151 | sent plus failed is the number of recipients, success means some delivery, and there is one error per failure |
| EmailService.DeliverStep | app/services/emailService.server.ts:94-144 | one more iteration counts one more recipient |
| EmailService.ReportMails | app/services/emailService.server.ts:94-132 | one report mail per recipient, in list order, to that address with its greeting |
| EmailService.NotificationMails | app/services/emailService.server.ts:435-443 | one notification per recipient, in list order, to that address |
| EmailService.ReportMailsStep | app/services/emailService.server.ts:94-132 | one more iteration logs one more report mail |
| EmailService.NotificationMailsStep | app/services/emailService.server.ts:435-445 | one more iteration logs one more notification |
| EmailService.SendReportEmail | app/services/emailService.server.ts:66-152 | a missing file sends nothing, counts every recipient as failed and reports one "Report file not found" error; otherwise one mail per recipient in order, with the counters of the sends' outcomes |
| EmailService.SendErrorNotification | app/services/emailService.server.ts:411-470 | one notification per recipient in order, subject "⚠️ Report Failed: " and the name, with the counters of the sends' outcomes |
| EmailService.NumberedTips | app/services/emailService.server.ts:684 | tip i is the line `i+1. tip` |
| EmailService.HtmlTipItems | app/services/emailService.server.ts:616 | tip i is the item `<li>tip</li>` |
| EmailService.TipsOmittedIffEmpty | app/services/emailService.server.ts:611-621 | the tips section is absent exactly when there are no tips, in both the HTML and the plain text |
| EmailService.TipNumbered | app/services/emailService.server.ts:680-687 | every tip appears in the plain text on its own line, numbered i + 1 in decimal |
| EmailService.TipListed | app/services/emailService.server.ts:611-618 | every tip appears in the HTML as its own list item |
| ReportExecution.TagIndex | app/services/reportExecutionService.server.ts:316-332 | the index found holds the tag, and no earlier tag matches |
| ReportExecution.FormatDateRangeForEmail | app/services/reportExecutionService.server.ts:315-333 | each of the 13 tags is shown as its label; any other value, CUSTOM included, is shown as it is |
| ReportExecution.LabelsAreNotTags | app/services/reportExecutionService.server.ts:316-330 | the map has 13 entries; the tags are upper case and the labels are not |
| ReportExecution.FormatDateRangeIdempotent | app/services/reportExecutionService.server.ts:332 | formatting a tag changes it, and formatting twice is formatting once |
| ReportExecution.KnownTagsLabelled | app/services/reportExecutionService.server.ts:316-330 | every date range tag but CUSTOM has a label |
| ReportExecution.Store.constructor | app/services/reportExecutionService.server.ts:52-58 | the store starts with the given schedules and files and no history |
| ReportExecution.HistoryId | app/services/reportExecutionService.server.ts:69-76 | a record's id is never the "unknown" placeholder |
| ReportExecution.HistoryIdsDistinct | app/services/reportExecutionService.server.ts:69-76 | different history records have different ids |
| ReportExecution.FindFilter | app/services/reportExecutionService.server.ts:127 | the value found is that of the first filter with the key, and there is one exactly when some filter has the key |
| ReportExecution.Cleanup | app/services/reportExecutionService.server.ts:182-191 | the temporary file is deleted when it exists, and a failed delete changes nothing |
| ReportExecution.ExecuteReport | app/services/reportExecutionService.server.ts:40-237 | a missing or inactive schedule fails with its message, id "unknown" and no record; otherwise exactly one record is added. It is FAILED with the fetch, processing or mail message and no counts, file or size, or SUCCESS with the record count, file, file size and the counts of the mails sent to every recipient; only success moves lastRunAt and nextRunAt; the CSV file is deleted on both paths |
| ReportExecution.RunsRecordedStep | app/services/reportExecutionService.server.ts:284-301 | one more run keeps the new records in step with the due reports run so far |
| ReportExecution.RunDue | app/services/reportExecutionService.server.ts:286-290 | a run of a due, active schedule adds its one record and keeps the schedules' keys and active flags |
| ReportExecution.CountSucceeded | app/services/reportExecutionService.server.ts:292-296 | at most every run succeeded |
| ReportExecution.ExecuteScheduledReports | app/services/reportExecutionService.server.ts:259-310 | every due report runs once, in order, each leaving one history record; executed is their number, succeeded the number of successful runs, and succeeded plus failed is executed |
| BackgroundScheduler.ShopsOfListsEachShopOnce | app/services/backgroundScheduler.server.ts:87-93 | the map's keys are the shops of the due reports, each once |
| BackgroundScheduler.GroupIsShopFilter | app/services/backgroundScheduler.server.ts:88-93 | a shop's list holds every due report of that shop and nothing else, and it is empty exactly when the shop has none |
| BackgroundScheduler.GroupSizesGrow | app/services/backgroundScheduler.server.ts:88-93 | one more report adds one to its shop's list and nothing to the others |
| BackgroundScheduler.GroupSizesAppendAbsent | app/services/backgroundScheduler.server.ts:88-93 | a shop with no due reports adds no reports |
| BackgroundScheduler.GroupsPartition | app/services/backgroundScheduler.server.ts:86-93 | every due report lands in exactly one shop's list: the list sizes add up to the number of due reports |
| BackgroundScheduler.GroupingStep | app/services/backgroundScheduler.server.ts:88-93 | one more report opens its shop's list when the shop is new and is pushed onto that list |
| BackgroundScheduler.GroupByShop | app/services/backgroundScheduler.server.ts:86-93 | the grouping loop yields the shops in first-appearance order, each with its due reports in query order |
| BackgroundScheduler.Batches | app/services/backgroundScheduler.server.ts:109 | one batch per started shop, carrying all its due reports |
| BackgroundScheduler.DispatchStep | app/services/backgroundScheduler.server.ts:98-106 | one more shop is started exactly when it is not busy, and then adds its batch |
| BackgroundScheduler.IdleShopsMembers | app/services/backgroundScheduler.server.ts:98-103 | the shops started are exactly the listed shops that are not busy, each once |
| BackgroundScheduler.DispatchLoopStep | app/services/backgroundScheduler.server.ts:98-120 | a busy shop is skipped; an idle one is marked busy and gets its batch |
| BackgroundScheduler.Dispatch | app/services/backgroundScheduler.server.ts:97-120 | every shop of the due reports that is not busy is marked busy, in first-appearance order, and gets one batch with all its due reports; busy shops are skipped |
| BackgroundScheduler.Scheduler.constructor | app/services/backgroundScheduler.server.ts:12-17 | the scheduler starts stopped, with no task and no busy shop |
| BackgroundScheduler.Scheduler.StartScheduler | app/services/backgroundScheduler.server.ts:22-38 | after a start the scheduler is running with a task; a second start changes nothing |
| BackgroundScheduler.Scheduler.StopScheduler | app/services/backgroundScheduler.server.ts:43-54 | after a stop there is no task and the scheduler is not running |
| BackgroundScheduler.Scheduler.CheckAndExecuteReports | app/services/backgroundScheduler.server.ts:59-124 | a failed query or no due reports changes nothing; otherwise the idle shops become busy and each gets its batch; the flags stay as they were |
| BackgroundScheduler.Scheduler.BatchSettled | app/services/backgroundScheduler.server.ts:116-119 | a settled batch removes its shop from the busy shops and nothing else |
| BackgroundScheduler.Scheduler.Status | app/services/backgroundScheduler.server.ts:202-208 | the status reports the running flag, the busy shops and their number |
| BackgroundScheduler.ExecuteReportsForShop | app/services/backgroundScheduler.server.ts:129-163 | without a session nothing runs; otherwise the shop's run is called once per report and the counters add up, a thrown run counting one failure |
| BackgroundScheduler.TotalsCountThrows | app/services/backgroundScheduler.server.ts:156-159 | runs that all throw count one failure each and no success |
| RecipientForm.FirstIndexOf | app/components/EmailRecipientsForm.tsx:34 | the index found is that of the first occurrence, or the length when there is none |
| RecipientForm.IsEmail | app/components/EmailRecipientsForm.tsx:33-36 | the scan accepts exactly the language of `/^[^\s@]+@[^\s@]+\.[^\s@]+$/`: no white space, one "@" with something before it, and a "." after it with something on each side |
| RecipientForm.MatchingEmailIsTrimmed | app/components/EmailRecipientsForm.tsx:56-68 | a matching address is left unchanged by `trim` and is not blank |
| RecipientForm.IsDuplicateEmail | app/components/EmailRecipientsForm.tsx:39-43 | true exactly when some recipient's address equals the new one ignoring case |
| RecipientForm.DropIndex | app/components/EmailRecipientsForm.tsx:83 | the recipient at the index is removed and the rest kept in order; an index outside the list keeps it whole |
| RecipientForm.AppendKeepsWellFormed | app/components/EmailRecipientsForm.tsx:56-72 | appending a matching, unlisted address keeps the list free of bad addresses and case-insensitive duplicates |
| RecipientForm.DropIndexKeepsWellFormed | app/components/EmailRecipientsForm.tsx:82-86 | removing a recipient keeps a well-formed list well-formed |
| RecipientForm.IsBlank | app/components/EmailRecipientsForm.tsx:51 | an address is blank exactly when it is all white space |
| RecipientForm.OptionalName | app/components/EmailRecipientsForm.tsx:69 | a name of only white space becomes no name; any other is trimmed and non-empty |
| RecipientForm.RecipientList.constructor | app/components/EmailRecipientsForm.tsx:25-30 | the list starts as the initial recipients, with empty inputs and no error |
| RecipientForm.RecipientList.AddRecipient | app/components/EmailRecipientsForm.tsx:46-79 | a blank, a non-matching, then a duplicate address is refused with its message and nothing else changes; otherwise the recipient is appended, the new list published and the inputs cleared; the list stays well-formed |
| RecipientForm.RecipientList.RemoveRecipient | app/components/EmailRecipientsForm.tsx:82-86 | the recipient at the index is removed, the list published, and a well-formed list stays so |
| RecipientForm.RecipientList.ClearAll | app/components/EmailRecipientsForm.tsx:89-92 | the list becomes empty and the empty list is published |
| RecipientForm.TooFewMessageSingular | app/components/EmailRecipientsForm.tsx:301 | with a minimum of 1 the message reads "At least 1 recipient is required" |
| RecipientForm.TooFewMessagePlural | app/components/EmailRecipientsForm.tsx:301 | any other minimum reads "At least N recipients are required" |
| RecipientForm.PluralWords | app/components/EmailRecipientsForm.tsx:301 | the plural wording regroups as "recipients are required" |
| RecipientForm.Regroup | app/components/EmailRecipientsForm.tsx:301 | the message's parts regroup around the plural wording |
| RecipientForm.FindInvalidEmail | app/components/EmailRecipientsForm.tsx:307-314 | the position found is that of the first address that does not match; none exactly when all match |
| RecipientForm.ValidateRecipients | app/components/EmailRecipientsForm.tsx:294-317 | valid exactly when the list reaches the minimum and every address matches; too short a list gets the count message, otherwise the first bad address is named |
| FilterForm.SeededKeys | app/components/FilterConfigurationForm.tsx:22-37 | only filter keys get a starting value; the caller's other keys are dropped |
| FilterForm.SeededOther | app/components/FilterConfigurationForm.tsx:26-34 | a key no filter names gets no starting value |
| FilterForm.SeededPrecedence | app/components/FilterConfigurationForm.tsx:27-33 | a filter starts from the caller's value, even null; else its own default; else the report type's default; else it has no value |
| FilterForm.InitialFilterValues | app/components/FilterConfigurationForm.tsx:22-37 | the initialiser's loop builds exactly the seeded starting values |
| FilterForm.FilterError | app/components/FilterConfigurationForm.tsx:186-194 | only a required filter that is not filled has an error: "… is required" for a missing, null or empty value, "Please select at least one …" with the lower-cased label for an empty list |
| FilterForm.ErrorsOfEmptyIffFilled | app/components/FilterConfigurationForm.tsx:185-199 | there are no errors exactly when every required filter is filled |
| FilterForm.ErrorsOfKeys | app/components/FilterConfigurationForm.tsx:185-195 | every error is keyed by a required filter that is not filled |
| FilterForm.ValidateFilterConfiguration | app/components/FilterConfigurationForm.tsx:179-201 | the errors are those of the required filters that are not filled, and the configuration is valid exactly when every required filter is filled |
| FilterForm.Form.constructor | app/components/FilterConfigurationForm.tsx:22-39 | the form starts from the seeded values with no errors |
| FilterForm.Form.FilterChange | app/components/FilterConfigurationForm.tsx:46-60 | one value is set, that field's error cleared, every other error kept |
| FilterForm.Form.ValidateFilters | app/components/FilterConfigurationForm.tsx:62-79 | the shown errors become the validation's errors, the values are unchanged, and the result is whether every required filter is filled |
| ReportValidation.ValidateReportData | app/routes/api.reports.tsx:171-240 | valid exactly when every check passes; otherwise the message of the first failing check in the order name, name length, type, schedule, frequency, time, timezone, weekday, day of month, recipients, and for the addresses the first one that does not match |
| ReportValidation.ValidTimeParses | app/routes/api.reports.tsx:195 | a time that passes the pattern reads back as hours and minutes below 100 |
| ReportValidation.TwoDigitsBelowHundred | app/routes/api.reports.tsx:195 | two digits make a number below 100 |
| ReportValidation.TimePatternIsLoose | app/routes/api.reports.tsx:195 | the pattern checks shape only: "99:99" and "24:00" pass |
| ReportValidation.ValidMonthDayInRange | app/routes/api.reports.tsx:214-225 | a valid monthly day is 1..31 or −1 |
| Text.OrElse | app/services/shopifyDataFetcher.server.ts:145 | `x \|\| fallback`: the value when it is present and non-empty, otherwise the fallback |
| Text.ToLower | app/utils/errorCategorization.ts:16 | `toLowerCase` keeps the length and lower-cases each ASCII capital, leaving every other character alone |
| Text.ToLowerIdempotent | app/components/EmailRecipientsForm.tsx:41 | lower-casing twice equals lower-casing once, so the duplicate test compares canonical forms |
| Text.Trim | app/components/EmailRecipientsForm.tsx:51 | `trim` returns a slice of the input flanked only by white space, starting and ending with non-white space, and is empty exactly when the input is all white space |
| Text.TrimNoWhitespace | app/components/EmailRecipientsForm.tsx:51 | trimming text without white space leaves it unchanged |
| Text.Join | app/services/shopifyDataFetcher.server.ts:154 | joining no parts gives "" and one part gives that part |
| Text.JoinLength | app/services/shopifyDataFetcher.server.ts:154 | the joined text is as long as all parts plus one separator between each pair of neighbours |
| Text.JoinContainsParts | app/services/shopifyDataFetcher.server.ts:154 | every part occurs in the joined text |
| Text.NatToStringRoundTrip | app/services/emailService.server.ts:684 | `String(n)` is a non-empty run of digits that reads back as n |
| Text.NatToStringInjective | app/services/emailService.server.ts:684 | different numbers render differently |
| Text.Pad2IsPaddedDecimal | app/utils/timezoneHelper.ts:142-144 | `padStart(2, "0")` is the decimal rendering with a leading zero below ten |
| Text.Pad2RoundTrip | app/utils/timezoneHelper.ts:142-144 | two padded digits below 100 read back as the number |
| Text.JsRem | app/utils/timezoneHelper.ts:90 | JavaScript `%` truncates toward zero: the remainder lies in [0, b) for a non-negative dividend and in (−b, 0] for a negative one |
| Text.LexTotal | app/services/reportDataProcessor.server.ts:145 | any two keys compare one way or the other |
| Text.LexAntisymmetric | app/services/reportDataProcessor.server.ts:145 | keys ordered both ways are equal |
| Text.LexTransitive | app/services/reportDataProcessor.server.ts:145 | the key order is transitive, so the sort by date key is well defined |

## Left out

In these places the model follows the code as written:
- `executeGraphQLWithRetry` returns its throttled retry without `await` inside the `try`. A failure of that retry is therefore not caught again, and a server that always answers THROTTLED gets 4 calls.
- Errors other than THROTTLED are retried from the `catch` with the same budget, so a persistent error also costs 4 calls.
- After a failed run, `executeReport` sends no error notification and does not reschedule: `nextRunAt` keeps its old value.
- `executeReportsForShop` calls `executeScheduledReports` for the whole shop once per due report in the group.
- When the report file is missing, `sendReportEmail` returns a single error message while `emailsFailed` is the number of recipients. One error per failed recipient therefore holds only on the send-loop path, and `EmailService.SendReportEmail` states both paths as written.

Inconsistencies in the source that are not logic, noted and not modelled:
- `executeReport` passes `{shop, accessToken}` where `fetchShopifyData` expects the Admin client (app/services/reportExecutionService.server.ts:89-94). The model passes the fetch outcome in.
- `executeReport` reads `scheduleTime`/`scheduleDay` and puts the time zone in the `dayOfMonth` slot of `calculateNextRunTime`. The new `nextRunAt` is therefore an input of `ReportExecution.ExecuteReport`. Schedules are created with `timeOfDay` (app/routes/api.reports.tsx:111), so `reportSchedule.scheduleTime` is undefined at app/services/reportExecutionService.server.ts:165-170. Then `timeOfDay.split` (app/utils/timezoneHelper.ts:207) throws after the SUCCESS update and the mails, and the `catch` block marks the record FAILED. The model treats that step as not throwing, so it does not capture this outcome.
- The discount query asks for `__typename` only inside `customerSelection` (app/services/shopifyDataFetcher.server.ts:649-695), never on the discount itself. So `discount.__typename` at app/services/reportDataProcessor.server.ts:271 is always undefined, and every discount row says "UNKNOWN" (`RecordReports.UntypedDiscountsAreUnknown`). `RecordReports.DiscountType` still models the type tests for a discount that carries a type name.
- The stored filters are JSON strings handed on unparsed. The model uses typed filter values.

Abstracted or not modelled:
- Prisma calls become the `ReportExecution.Store` class, and its writes are assumed to succeed. Session loading (`getShopSession`) becomes an optional session input. Each run reads one `now`.
- The Admin API transport and `response.json()` become `GraphqlRetry.AdminClient`. The `sleep` delays are recorded, not awaited.
- `nodemailer` becomes `EmailService.Transport`. `testEmailConfiguration` is not modelled. Of the HTML and plain-text bodies, only the greeting name, subject and tips numbering are modelled, because the rest is presentation.
- `csv-writer` and the `fs` calls become outcomes: the file exists or not, writing and deletion succeed or fail.
- `node-cron`, the non-awaited `.then/.finally` dispatch and timers are not modelled. Completion of a shop's batch is an explicit method, `BackgroundScheduler.Scheduler.BatchSettled`.
- `parseFloat`, `toFixed` and `formatCurrency` are not modelled. Money is exact integer cents, averages are exact rationals, and rounding to two decimals is left out.
- `date-fns` and `new Date` parsing are not modelled. The server's local zone is taken to be UTC. DST, `toLocaleString` and the locale-formatting helpers `formatDateRangeForDisplay`, `formatDateRangeForQuery` and `getDateRangeDescription` are left out because they are presentation.
- `calculateNextRunTime` receives the hours and minutes already split from `timeOfDay`.
- Strings are sequences of code points. Lower-casing covers the ASCII letters only. `localeCompare` is modelled as code-unit order, which agrees with it on the fixed-width `yyyy-MM-dd` keys it sorts.
- Key uniqueness within each custom-field table is not proved. Every table's entries are proved to carry the table's source. The `label` and `graphqlPath` columns of the catalogues are not modelled.
- The `onChange` callbacks of the forms are modelled as a log of published values.
- `validateReportData` receives `dayOfWeek` and `dayOfMonth` as optional integers. A JSON `null` or a numeric string cannot be expressed, although the source's `<`/`>` comparisons accept both (for example, `null < 0` is false, so a WEEKLY schedule with `dayOfWeek: null` passes; app/routes/api.reports.tsx:204-225).

Weaker contracts:
- TimezoneHelper.MonthlyNextRun: proved for days 1..28 only, as the source comments promise; −1 is covered by `TimezoneHelper.MonthlyLastDay`. Days 29..31 overflow into the next month through `setDate`, so they are computed but not characterised.
- ReportExecution.ExecuteReport: `nextRunAt` is an input rather than the value `calculateNextRunTime` would return, because of the argument mix-up noted above.

## Findings

| source | as written | input that shows it | evidently intended | confidence | as-written member | corrected member |
|---|---|---|---|---|---|---|
| app/utils/dateRangeHelper.ts:187-191 | `getDaysInRange` is `ceil(\|end − start\| / 86 400 000) + 1` | TODAY: start 00:00:00.000 and end 23:59:59.999 of one day are 86 399 999 ms apart, so the count is 2; LAST_7_DAYS gives 8 | the number of calendar days the range covers: 1 for TODAY, 7 for LAST_7_DAYS | not executed | `DateRangeHelper.DaysInRangeOvercounts` | `DateRangeHelper.DaysCoveredByTags` |
