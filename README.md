# Storiqa shared backend crates: a verified model

This project models the shared library crates of the Storiqa backend. The
model is in Dafny.

- **SQL statement builder (db).** Typed filter, insert and update payloads become parameterised Postgres text (`$1, $2, …`). The text comes with the argument list that binds to those placeholders by position.
- **Generic repository (db).** Create, get, update and remove run a statement through a connection and map the returned rows to entities. The connection goes back to the caller whether the call succeeds or fails.
- **Roles ACL (roles, acl).** The roles repository decides access per entry: superusers get everything, a user may read their own entries, and the anonymous caller gets nothing. Alongside it are the allow-all and deny-all ACLs.
- **First-match route table (http).** This is the HTTP layer's router. Below it sit the client-side path builders of the API crate: orders, roles and the base-URL join. The orders crate's phone validator is included.
- **Warehouse records and stock projections (api).**
- **Closed codecs of the enums.** These are currency, language, moderation status, delivery company, order status, model and service. Each has a display name, a parser and, for some, a wire form.
- **Small tables.** The display of `CurrencyId`, the ordering of the id newtypes, the HTTP status of each controller error, and the notification e-mails.

How the code is laid out:

- **Pure code** is written as datatypes, functions and lemmas.
- **Code that changes state** becomes classes. These are the three statement builders, whose `with_*` methods update their fields, and the `RouteParser` entry list.
- **The builders' loops** become methods with loop invariants. `build_where_from_filters` and the insert and update `build` loops are proved equal to specification functions: `WhereText`/`WhereArgs`, `InsertText`, `UpdateText`/`UpdateArgs`.
- **Placeholder numbering** is stated with `Placeholders.Scan`. It reads back the `$n` numbers of a text in order. The main theorems say each rendered statement scans to exactly `1, 2, …, |args|`.

Column maps are `BTreeMap`s in the source. Here they are association lists kept in ascending key order (`OrderedMap`). Inserting a key that is already present replaces its entry, as `BTreeMap::insert` does.

Two behaviours of the statement builder that a reader might not expect:

- `with_limit` stores a limit, but `build` never reads that field (db/src/statement.rs:176-179, 213-219). Only the limit carried by `FilteredOperation::Select` is rendered. `StatementProps.LimitNeverRendered` states this.
- An update with no values renders the filter builder's plain `SELECT`, and the update's own `extra` is dropped (db/src/statement.rs:306-308). `StatementProps.EmptyUpdateIsSelect` states this.

## Model

| member | source | states |
|---|---|---|
| Statement.SelectOperationSql | db/src/statement.rs:24-30 | the aggregate name is non-empty and holds no `$`, so it never introduces a placeholder |
| Statement.ModeText | db/src/statement.rs:74-90 | each comparison operator renders as a one- or two-character symbol that reads back as the same operator, with no `$` |
| Statement.RangeComparisons | db/src/statement.rs:150-170 | a range yields one comparison, or two exactly for `Between`; an integer range yields integer comparisons |
| Statement.RangeComparisonsMeaning | db/src/statement.rs:150-170 | an integer satisfies the produced comparisons exactly when it lies in the range: `Exact` is `=`; `From` is `>=`/`>` by inclusiveness; `To` is `<=`/`<`; `Between` is lower then upper |
| Statement.RangeOf | db/src/statement.rs:114-121 | a bare value is the exact range, one `=` comparison |
| Statement.BuildWhere | db/src/statement.rs:52-72 | the loop produces exactly `WhereText(filters, start)`: columns ascending, one `col op $i` per comparison joined by ` AND `, numbers counting up from `start`; the args are the comparison values in the same order |
| Statement.FilteredText | db/src/statement.rs:188-224 | the rendered filtered statement always ends in `;` |
| Statement.Dollars | db/src/statement.rs:255-281 | the k-th insert placeholder is `$(from+k)` |
| Statement.SetClauses | db/src/statement.rs:305-349 | the k-th SET clause is `column = $(k+1)` for the k-th value column |
| Statement.InsertText | db/src/statement.rs:255-281 | the insert text always ends in `;` |
| Statement.UpdateText | db/src/statement.rs:305-349 | the update text always ends in `;` |
| Statement.FilteredOperationBuilder.constructor | db/src/statement.rs:133-140 | a new builder holds the table, empty extra, no filters and no limit |
| Statement.FilteredOperationBuilder.WithFilter | db/src/statement.rs:143-174 | the column's comparisons are inserted into the ordered map, replacing any earlier entry for that column; nothing else changes |
| Statement.FilteredOperationBuilder.WithLimit | db/src/statement.rs:176-179 | only the stored limit changes |
| Statement.FilteredOperationBuilder.WithExtra | db/src/statement.rs:182-185 | only the extra text changes |
| Statement.FilteredOperationBuilder.Build | db/src/statement.rs:188-224 | the text is `FilteredText` of the builder state and the operation; the args are the WHERE values in placeholder order |
| Statement.InsertBuilder.constructor | db/src/statement.rs:235-241 | a new insert builder holds the table, empty extra and no values |
| Statement.InsertBuilder.WithArg | db/src/statement.rs:243-246 | the column's value is inserted, replacing an earlier value for that column |
| Statement.InsertBuilder.WithExtra | db/src/statement.rs:249-252 | only the extra text changes |
| Statement.InsertBuilder.Build | db/src/statement.rs:255-281 | the loop produces exactly `InsertText` of the state, with the values in column order as args |
| Statement.UpdateBuilder.From | db/src/statement.rs:352-359 | the update builder takes over the filter builder and copies its extra; it starts with no values |
| Statement.UpdateBuilder.WithValue | db/src/statement.rs:293-296 | the column's value is inserted, replacing an earlier one; the extra and filters are unchanged |
| Statement.UpdateBuilder.WithExtra | db/src/statement.rs:299-302 | only the update's own extra changes |
| Statement.UpdateBuilder.Build | db/src/statement.rs:305-349 | the text and args are `UpdateText`/`UpdateArgs` of the state: SET values first, WHERE values after, or the plain select when there are no values |
| StatementProps.FlattenColumns | db/src/statement.rs:52-72 | every rendered comparison is on a registered column |
| StatementProps.FlattenSource | db/src/statement.rs:52-72 | every rendered comparison is one of the comparisons registered for its column |
| StatementProps.FlattenAscending | db/src/statement.rs:52-72 | comparisons are rendered in ascending column order, as a `BTreeMap` iterates |
| StatementProps.WhereTextScan | db/src/statement.rs:52-72 | the WHERE text's placeholders are exactly `start, start+1, …`, one per argument |
| StatementProps.FilteredTextPlaceholders | db/src/statement.rs:188-224 | a built select or delete numbers its placeholders `1..n`, where n is the number of args, so `$k` binds the k-th argument |
| StatementProps.InsertTextPlaceholders | db/src/statement.rs:255-281 | an insert numbers its placeholders `1..n`, where n is the number of values |
| StatementProps.SetStringScan | db/src/statement.rs:315-332 | the SET list numbers its placeholders `1..m`, where m is the number of values |
| StatementProps.UpdateTextPlaceholders | db/src/statement.rs:305-349 | an update's placeholders run `1..m` over SET and then `m+1..` over WHERE, exactly matching its args |
| StatementProps.LimitNeverRendered | db/src/statement.rs:176-179 | the builder's stored limit has no effect on the built text |
| StatementProps.EmptyUpdateIsSelect | db/src/statement.rs:305-308 | an update without values is exactly the filter builder's plain select, whatever its own extra; its args are the WHERE args |
| StatementProps.RefilterReplaces | db/src/statement.rs:172 | filtering a column twice keeps only the second range |
| StatementExamples.SelectBuilderExample | db/src/statement.rs:366-398 | the select test: `SELECT count(*) FROM my_table WHERE filter_column1 = $1 AND filter_column2 > $2 AND filter_column2 <= $3 LIMIT 5;` with args 3, 25, 125 |
| StatementExamples.UpdateBuilderExample | db/src/statement.rs:400-432 | the update test: SET `$1`, `$2`, WHERE `$3..$5`, args 1, 2, 3, 25, 125 |
| OrderedMap.InsertGet | db/src/statement.rs:172 | after inserting `k`, looking up `k` gives the new value and every other key is unchanged |
| OrderedMap.InsertTwice | db/src/statement.rs:172 | inserting a key twice is the same as inserting it once with the second value |
| OrderedMap.InsertSorted | db/src/statement.rs:172 | insertion keeps the entries in strictly ascending key order |
| OrderedMap.InsertLength | db/src/statement.rs:172 | insertion adds an entry exactly when the key was absent |
| Repo.New | db/src/repo.rs:44-52 | the repository keeps the table name it is given |
| Repo.Create | db/src/repo.rs:62-79 | create executes the insert text and args for the repository's table; it succeeds exactly when rows come back, maps the last row; on zero rows the error names the statement; a driver error passes through; the connection is returned either way |
| Repo.PrepareFailureReported | db/src/repo.rs:66-67 | a failed prepare is the result of create, with its connection |
| Repo.CreateQueryNumbered | db/src/repo.rs:63-67 | the statement create sends numbers its placeholders `1..n` for its n args |
| Repo.Get | db/src/repo.rs:81-90 | get runs the filter's select for the table and maps every row, in order, keeping the count; errors pass through with the connection |
| Repo.Update | db/src/repo.rs:92-100 | update runs the update text and args for the table and maps every row in order |
| Repo.UpdateQueryNumbered | db/src/repo.rs:93-98 | the update statement numbers its placeholders `1..n` for its n args |
| Repo.Remove | db/src/repo.rs:102-111 | remove runs the filter's delete for the table and maps every row in order |
| RolesRepo.AnySuperuser | roles/src/repo.rs:50-55 | the loop finds a superuser role exactly when one of the caller's roles is a superuser role |
| RolesRepo.CheckAcl | roles/src/repo.rs:39-68 | never errors and returns the entry and action unchanged; anonymous is denied; a user is allowed exactly when some role is superuser, or the action is a select of the caller's own entry |
| RolesRepo.SuperuserAllowed | roles/src/repo.rs:50-55 | a caller with a superuser role is allowed any action on any entry |
| RolesRepo.OrdinaryUserAllowedIff | roles/src/repo.rs:58-62 | a caller without superuser roles is allowed exactly a select of their own entries |
| RolesRepo.MoreRolesMonotone | roles/src/repo.rs:50-62 | granting more roles never turns an allow into a deny |
| RolesRepo.MakeSuRepo | roles/src/repo.rs:32-37 | the unguarded repository works on the `roles` table |
| RolesRepo.MakeRepo | roles/src/repo.rs:71-76 | the guarded repository is the unguarded one plus the login its engine judges with |
| RolesRepo.AnonymousRepoDenies | roles/src/repo.rs:48 | the repository made for an anonymous login denies every entry and action |
| Acls.Allows | acl/src/lib.rs:39-66 | neither built-in ACL errors; the system ACL allows and the unauthorized ACL denies |
| Acls.AllowsIgnoresArguments | acl/src/lib.rs:39-66 | a built-in ACL's answer does not depend on resource, action, scope or connection |
| Router.GetMatches | http/src/router.rs:99-113 | no match gives None; otherwise exactly the values of the capture groups after group 0 that took part, in group order (`Picks` from position 1) |
| Router.AfterFirst | http/src/router.rs:99-113 | what is kept of a match is the values of the groups after group 0 that took part, in order |
| Router.AfterFirstPicks | http/src/router.rs:102-111 | skipping group 0 and keeping the groups that took part picks from position 1 on |
| Router.AfterFirstFrom | http/src/router.rs:102-111 | every value kept is the value of a group after group 0 |
| Router.AfterFirstAll | http/src/router.rs:102-111 | when every group after group 0 took part, all their values are kept, in order |
| Router.GetMatchesUnique | http/src/router.rs:99-113 | any list picked in increasing group order from position 1 is the answer of `get_matches`, so the characterisation fixes the result |
| Router.GetMatchesSkipsGap | http/src/router.rs:99-113 | groups `x`, `a`, none, `b` give `["a", "b"]` |
| Router.Participating | http/src/router.rs:104-110 | the kept values are never more than the groups |
| Router.ParticipatingPicks | http/src/router.rs:104-110 | the kept values are exactly the values of the groups that took part, at strictly increasing positions, with no such group missed |
| Router.PicksSnocSome | http/src/router.rs:105-107 | a last group that took part is kept after all earlier values |
| Router.PicksSnocNone | http/src/router.rs:105-107 | a last group that took no part adds nothing |
| Router.PicksShift | http/src/router.rs:102-103 | skipping the first group shifts every picked position by one |
| Router.PicksSamePrefix | http/src/router.rs:104-110 | two picks of the same groups agree position by position |
| Router.PicksUnique | http/src/router.rs:104-110 | at most one list of values is picked from a list of groups |
| Router.ParticipatingAll | http/src/router.rs:104-110 | when every group took part, all their values are kept, in group order |
| Router.ParticipatingNone | http/src/router.rs:104-110 | when no group took part, nothing is kept |
| Router.ParticipatingFrom | http/src/router.rs:104-110 | every kept value is the value of some group |
| Router.Always | http/src/router.rs:33-39 | `add_route`'s converter ignores the parameters and always yields the route |
| Router.RouteParser.constructor | http/src/router.rs:10-16 | a default router has no entries |
| Router.RouteParser.AddRouteWithParams | http/src/router.rs:62-69 | the entry is appended after every existing one |
| Router.RouteParser.AddRoute | http/src/router.rs:33-39 | appends an entry whose converter always yields the given route |
| Router.RouteParser.Test | http/src/router.rs:88-97 | answers Some exactly when some entry matches and converts, and then gives the first such entry's route |
| Router.TestFromFirstHit | http/src/router.rs:88-97 | the fold answers with the first entry that matches and converts, and None when there is none |
| Router.TestFromAppend | http/src/router.rs:62-69 | appending an entry changes an answer only where every earlier entry failed |
| Router.EarlierEntriesKeepPriority | http/src/router.rs:62-69 | registering a route never changes an answer the earlier routes already give |
| Router.RefusingEntrySkipped | http/src/router.rs:91-95 | an entry that matches but whose converter refuses does not stop the search |
| Router.EmptyRouterNone | http/src/router.rs:88-97 | an empty router recognises nothing |
| Router.UsersExample | http/src/router.rs:83-86 | after adding `^/users$` as `Users`, `/users` gives `Users` and `/user` gives None |
| RouteBuilders.BuildRoute | api/src/util.rs:28-39 | with no base the result is the route; with a base it is the base, `/` and the route; the route always ends the result |
| RouteBuilders.TrailingSlashKept | api/src/util.rs:33 | a trailing `/` on the base is kept, giving a doubled slash |
| RouteBuilders.BuildRouteInjective | api/src/util.rs:28-39 | for a fixed base, distinct routes give distinct URLs |
| RolesRoutes.RouteText | api/src/roles.rs:15-23 | every roles route starts with `roles`, never with `/`; by-id and by-user-id routes carry the id and the user's decimal number after their prefix |
| RolesRoutes.RouteTextInjective | api/src/roles.rs:15-23 | distinct roles routes render as distinct paths |
| OrderRoutes.FromRolesRoute | api/src/orders.rs:69-73 | a roles route wraps as the orders route `Roles` holding it |
| OrderRoutes.CustomerSegment | api/src/orders.rs:75-82 | `by-user/{id}` for a user and `by-session/{id}` for a session |
| OrderRoutes.CustomerSegmentInjective | api/src/orders.rs:75-82 | distinct customers give distinct segments |
| OrderRoutes.IdentifierSegment | api/src/orders.rs:84-91 | `by-id/{uuid}` for an id and `by-slug/{slug}` for a slug |
| OrderRoutes.IdentifierSegmentInjective | api/src/orders.rs:84-91 | distinct order identifiers give distinct segments |
| OrderRoutes.RouteTextRelative | api/src/orders.rs:93-157 | no orders route is empty or starts with `/` |
| OrderRoutes.CartRoutesUnderCart | api/src/orders.rs:98-141 | every per-customer cart route lies under `cart/{customer}` |
| OrderRoutes.ProductRoutesUnderProduct | api/src/orders.rs:98-141 | every per-product cart route lies under `cart/{customer}/products/{product}` |
| OrderRoutes.OrderRoutesUnderOrder | api/src/orders.rs:142-153 | order and order-status routes lie under `orders/{order}`, order diffs under `order_diffs/{order}` |
| OrderRoutes.RolesRouteVerbatim | api/src/orders.rs:154 | a wrapped roles route renders exactly as the roles route |
| OrderRoutes.IncrementExample | api/src/orders.rs:100-105 | incrementing product 42 in user 7's cart is `cart/by-user/7/products/42/increment` |
| OrderRoutes.ValidatePhone | api/src/orders.rs:366-380 | accepts exactly an optional `+` followed by at least seven digits and nothing else; a rejection is the `phone` error |
| OrderRoutes.PhoneDoublePlus | api/src/orders.rs:366-372 | a second `+` is rejected |
| OrderRoutes.PhoneTrailingLetter | api/src/orders.rs:366-372 | a trailing non-digit is rejected: the pattern is anchored |
| Warehouses.NewInput | api/src/warehouses.rs:45-63 | a new input keeps the store and the fresh id and leaves every optional field empty |
| Warehouses.SplitSlug | api/src/warehouses.rs:65-85 | splitting keeps the id and store and returns the slug |
| Warehouses.WithSlug | api/src/warehouses.rs:87-105 | joining keeps the id and store and sets the slug |
| Warehouses.SplitThenJoin | api/src/warehouses.rs:65-105 | splitting a warehouse and joining the parts gives it back |
| Warehouses.JoinThenSplit | api/src/warehouses.rs:65-105 | joining an input with a slug and splitting gives both back |
| Warehouses.ProductStock | api/src/warehouses.rs:121-130 | the product projection keeps the product and quantity |
| Warehouses.StockRecord | api/src/warehouses.rs:132-143 | the four-part projection keeps id, warehouse, product and quantity |
| Warehouses.StockRecordComplete | api/src/warehouses.rs:132-143 | the four-part projection loses nothing: the stock rebuilds from it |
| HttpErrors.Code | http/src/errors.rs:34-44 | 404 exactly for NotFound, 400 exactly for parse, bad-request and validation errors, 422 for unprocessable, 500 for internal, 403 for forbidden |
| HttpErrors.ServerErrorOnlyInternal | http/src/errors.rs:34-44 | only an internal error gets a 5xx status |
| HttpErrors.MessageNamesVariant | http/src/errors.rs:8-23 | each display text is non-empty and its first letter is fixed by the variant, seven letters for seven variants |
| HttpErrors.MessageInjective | http/src/errors.rs:8-23 | two errors with the same display text are the same error: the text gives the variant and the carried message |
| HttpErrors.FromJsonError | http/src/errors.rs:26-30 | a JSON decoding error becomes UnprocessableEntity and so answers 422 |
| OrderStatuses.WireName | static_resources/src/order_status.rs:97-111 | the wire names are ASCII |
| OrderStatuses.BuildFromRowToSql | static_resources/src/order_status.rs:70-111 | reading back what `to_sql` wrote gives the same status, for all eight |
| OrderStatuses.BuildFromRowSound | static_resources/src/order_status.rs:70-88 | a status is read only from exactly its wire bytes |
| OrderStatuses.NullRejected | static_resources/src/order_status.rs:85 | NULL is rejected with the "Unexpected null" error |
| OrderStatuses.UnknownBytesRejected | static_resources/src/order_status.rs:81-84 | any other bytes are rejected as an unrecognized variant, naming the bytes as `str::from_utf8` reads them |
| OrderStatuses.DecodeEncode | static_resources/src/order_status.rs:83 | the UTF-8 decoding behind `str::from_utf8` reads every text back from its UTF-8 bytes |
| OrderStatuses.EncodeDecode | static_resources/src/order_status.rs:83 | only the UTF-8 bytes of a text decode, and they decode to that text |
| OrderStatuses.DecodeOneEncodeChar | static_resources/src/order_status.rs:83 | one character's one to four bytes decode to that character, whatever follows them |
| OrderStatuses.EncodeCharDecodeOne | static_resources/src/order_status.rs:83 | a decoded character was read from exactly the bytes that encode it, so overlong forms and surrogates are refused |
| OrderStatuses.ShowBytesEncoded | static_resources/src/order_status.rs:81-84 | well-formed bytes appear in the error as the text they encode |
| OrderStatuses.ShowBytesMalformed | static_resources/src/order_status.rs:81-84 | bytes that encode no text appear as `unreadable value` |
| OrderStatuses.ShowBytesTwoByteExample | static_resources/src/order_status.rs:81-84 | the bytes `C3 A9` appear as the letter e with acute accent |
| OrderStatuses.ShowBytesLoneContinuation | static_resources/src/order_status.rs:81-84 | a lone continuation byte appears as `unreadable value` |
| OrderStatuses.AsciiIsUtf8 | static_resources/src/order_status.rs:97-109 | the ASCII bytes written for a status are its UTF-8 bytes |
| OrderStatuses.SerdeNameIsWireName | static_resources/src/order_status.rs:1-35 | the serde rename of each status equals its SQL wire name |
| OrderStatuses.AsVec | static_resources/src/order_status.rs:37-50 | all eight statuses, each once, in declaration order |
| Currencies.CurrencyName | static_resources/src/currency.rs:43-55 | parsing a currency's display name gives the currency back |
| Currencies.ParseCurrencyExact | static_resources/src/currency.rs:57-77 | parsing succeeds with c exactly on c's display name |
| Currencies.ParseCurrencyRejects | static_resources/src/currency.rs:67-75 | any other string is rejected with the unknown-currency error, code 300 |
| Currencies.CurrencyUpperCaseRejected | static_resources/src/currency.rs:57-77 | differently cased names are rejected |
| Currencies.CurrencyNameInjective | static_resources/src/currency.rs:45-52 | display names are pairwise distinct |
| Currencies.AsVec | static_resources/src/currency.rs:28-41 | six entries, keys 1 to 6 in order, each name parsing to the currency with that discriminant |
| Currencies.AsVecComplete | static_resources/src/currency.rs:28-41 | every currency appears with its discriminant and display name |
| Currencies.AsVecIgnoresReceiver | static_resources/src/currency.rs:29 | the list does not depend on the receiver |
| Languages.LanguageName | static_resources/src/language.rs:49-64 | parsing a language's display name gives the language back |
| Languages.ParseLanguageExact | static_resources/src/language.rs:66-90 | parsing succeeds with l exactly on l's display name |
| Languages.ParseLanguageRejects | static_resources/src/language.rs:80-87 | any other string is rejected with code 300 (the error text reads "Unknown service", as written) |
| Languages.LanguageNameInjective | static_resources/src/language.rs:51-61 | display names are pairwise distinct |
| Languages.AsVec | static_resources/src/language.rs:31-47 | nine entries, keys 1 to 9 in order with English first, each name parsing to its language |
| Languages.AsVecComplete | static_resources/src/language.rs:31-47 | every language appears with its discriminant and display name |
| ModerationStatuses.StatusName | static_resources/src/moderation_status.rs:26-35 | parsing a status's display name gives the status back |
| ModerationStatuses.ParseStatusExact | static_resources/src/moderation_status.rs:13-24 | parsing succeeds with m exactly on m's display name |
| ModerationStatuses.ParseStatusRejects | static_resources/src/moderation_status.rs:21 | any other string gives the unit error |
| ModerationStatuses.StatusNameInjective | static_resources/src/moderation_status.rs:28-33 | display names are pairwise distinct |
| ModerationStatuses.AsVec | static_resources/src/moderation_status.rs:37-46 | all four statuses, each once, in declaration order |
| Delivery.CompanyName | static_resources/src/delivery.rs:15-22 | parsing a company's display name gives the company back |
| Delivery.ParseCompanyExact | static_resources/src/delivery.rs:24-41 | parsing succeeds with d exactly on d's display name |
| Delivery.ParseCompanyRejects | static_resources/src/delivery.rs:31-38 | anything but `dhl` and `ups` is rejected with the unknown-company error |
| Delivery.UpperCaseRejected | static_resources/src/delivery.rs:31-38 | `DHL` and `UPS` are rejected |
| Delivery.CompanyNameInjective | static_resources/src/delivery.rs:17-20 | the two display names differ |
| Models.NameRoundTrip | routes/src/model.rs:31-93 | parsing a model's display name gives the model back, for all nineteen |
| Models.Lookup | routes/src/model.rs:64-84 | a string is accepted only by an arm that names it, with that arm's model |
| Models.LookupFirst | routes/src/model.rs:64-84 | the string match answers with the first arm whose name is the string |
| Models.ArmsAreDisplayNames | routes/src/model.rs:31-93 | each `FromStr` arm accepts exactly the `Display` name of the model it yields |
| Models.ArmsDistinct | routes/src/model.rs:64-84 | no two `FromStr` arms accept the same string |
| Models.ParseModelSound | routes/src/model.rs:61-93 | the parser accepts only display names, each for its own model |
| Models.ParseModelExact | routes/src/model.rs:61-93 | parsing succeeds with m exactly on m's display name |
| Models.ParseModelRejects | routes/src/model.rs:85-90 | an unknown name is rejected with code 300 |
| Models.ModelNameInjective | routes/src/model.rs:31-59 | display names are pairwise distinct |
| Models.ToUrl | routes/src/model.rs:95-119 | each URL segment reads back as its model |
| Models.ToUrlInjective | routes/src/model.rs:96-118 | URL segments are pairwise distinct |
| Models.UrlDiffersFromName | routes/src/model.rs:37 | for `User` the URL segment is `users` while the name is `user` |
| Models.UrlEqualsName | routes/src/model.rs:46 | for `CartStore` both are `cart_store` |
| Services.ServiceName | routes/src/service.rs:15-29 | parsing a service's display name gives the service back |
| Services.ParseServiceExact | routes/src/service.rs:31-49 | parsing succeeds with s exactly on s's display name |
| Services.ParseServiceRejects | routes/src/service.rs:41-46 | any other name is rejected with the unknown-service error |
| Services.CaseSensitive | routes/src/service.rs:36-40 | capitalised names are rejected |
| Services.ServiceNameInjective | routes/src/service.rs:20-26 | display names are pairwise distinct |
| FieldErrors.UnknownName | static_resources/src/currency.rs:67-75 | the parse errors carry code 300 and their message |
| Newtypes.CompareId | types/src/newtypes.rs:14-20 | an i32 newtype orders by its inner value |
| Newtypes.CompareSlug | types/src/newtypes.rs:21-27 | a string newtype orders by its inner string, lexicographically |
| Newtypes.CompareIdAntisymmetric | types/src/newtypes.rs:14-20 | swapping the arguments flips the ordering |
| Newtypes.CompareSlugAntisymmetric | types/src/newtypes.rs:21-27 | swapping the arguments flips the ordering |
| Newtypes.CompareSlugTransitive | types/src/newtypes.rs:21-27 | the string ordering is transitive |
| Newtypes.CurrencyIdNameOfCurrency | types/src/newtypes.rs:72-83 | a discriminant from 1 to 6 displays as that currency's name |
| Newtypes.CurrencyIdNameUnknown | types/src/newtypes.rs:84 | any other value displays as `unknown` |
| Structs.ToI32RoundTrip | types/src/structs.rs:12-72 | `i32::from` of a user, product or store id is its inner value, and wrapping it again gives the id |
| Structs.ProductIdCmp | types/src/structs.rs:48-52 | product ids compare as their inner i32 |
| Structs.ProductIdPartialCmp | types/src/structs.rs:54-58 | the partial comparison is always defined and gives Less, Equal or Greater exactly as the wrapped integers compare, as `cmp` does |
| Structs.ProductIdCmpAntisymmetric | types/src/structs.rs:48-52 | swapping the arguments flips the ordering |
| Structs.ProductIdCmpTransitive | types/src/structs.rs:48-52 | the ordering is transitive |
| Structs.CurrencyIdNameListed | types/src/structs.rs:166-181 | discriminants 2 to 6 display as their currency's name |
| Structs.CurrencyIdNameRouble | types/src/structs.rs:166-181 | Rouble's discriminant is not listed and displays as the empty string |
| Structs.CurrencyIdNameOther | types/src/structs.rs:166-181 | any value outside 2 to 6 displays as the empty string |
| Emails.IntoSendMail | static_resources/src/emails.rs:27-165 | every mail goes to the user's or the store's address; every order mail's text contains the link to the order's page |
| Emails.Linked | static_resources/src/emails.rs:33-34 | the mail text contains the link it is built around |
| Emails.OrderSubjects | static_resources/src/emails.rs:27-101 | state-update mails are titled `The order {slug} status`, creation mails `New order {slug}.` |
| Emails.TokenMails | static_resources/src/emails.rs:110-135 | verification and reset mails carry `{path}/{token}` under their fixed subjects |
| Emails.ConfirmationMails | static_resources/src/emails.rs:142-165 | the two confirmation mails have fixed subject and text |
| Emails.UserStateTextExample | static_resources/src/emails.rs:27-38 | the user state-update text in full, linking to `{cluster}/profile/orders/{slug}` |
| Emails.SampleOf | static_resources/src/emails.rs:167-186 | every template variant is the variant of some mail |
| Emails.VariantPerKind | static_resources/src/emails.rs:167-186 | two mails share a template variant exactly when they are of the same kind |

## Left out

- The async machinery, the bb8 pool and the `connection` module are not part of this model. A driver is a pair of functions from (statement, connection) to a value or an error, and the connection is an opaque token that comes back with either.
- `with_afterop_acl_engine`, `Verdict` and the per-row ACL fan-out are not part of this model, because their definitions are not available. `RolesRepo.MakeRepo` records the login the engine would judge with, and `RolesRepo.EngineVerdict` applies `CheckAcl` to it. Which rows the engine then keeps is not modelled.
- The repository's `Filter` payloads belong to a different version of the statement module from the builder modelled here. `Repo.Get` and `Repo.Remove` therefore take the filter as an abstract function from an operation tag (select or delete) and the table to a rendered query.
- `Repo.Create`: `insert_exactly_one` and the NoData/ExtraData errors are not part of this model. Create takes the last row as `pop` does.
- `DummyRoleUpdater` is not part of this model. Its `into_update_builder` is `unreachable!()` (roles/src/repo.rs:11-17): the roles repository is never asked to update, and a panic has no counterpart here.
- `RolesRepo.CheckAcl`: the role payload and `is_su` are type parameters. The `Action` enum is reduced to `Select` and everything else, since only `Select` is told apart.
- The regular-expression engine is not modelled.
  - A router pattern is an abstract `Matcher` from a string to its capture groups.
  - `OrderRoutes.ValidatePhone` matches `^\+?\d{7}\d*$` by hand with ASCII digits only. Rust's `\d` also accepts other Unicode decimal digits.
- `OrderRoutes.ValidatePhone`: the error's parameter map is always empty, and juniper's JSON shape for errors is not modelled.
- The HTTP layer is not part of this model: controllers, request utilities, the system routes, the RPC client, every `*Client` implementation and `JsonPayload`.
- The roles routing and service glue and the cache crate are not part of this model.
- Uuid identifiers (order ids, role entry ids, warehouse and stock ids) are carried as their display text. `Uuid::new_v4` is a parameter of `Warehouses.NewInput`.
- Floating-point values (`GeoPoint` coordinates, `ProductPrice`) are carried as opaque `real` pairs and never computed with.
- Serde, GraphQL and Diesel derives are left out. The order status serde names appear only through `OrderStatuses.SerdeNameIsWireName`.
- `Statement.UpdateBuilder.From`: the update builder refers to the filter builder it was made from. Later changes through another reference to that filter builder are not modelled separately.
- `Statement.SqlValue` is a closed union of the value kinds the crates bind, standing in for a boxed `ToSql`. How each kind is encoded on the wire is not modelled.
- `Emails.TemplateVariant`: the variants carry a `Template` suffix to keep them apart from the `Email` constructors of the same name in the same module.
- `OrderRoutes.RouteText` states nothing itself. Its properties are the lemmas next to it in the table.
