# Referral platform core, modelled in Dafny

The system is a small multi-tenant referral web application:

- An Express/Sequelize server keeps tenants, users, referrals, estimates, reward settings and tenant host names.
- A React client and a Next.js client let a business sign up as a tenant, invite its clients, and review referrals and estimates.

This project models the self-contained rule sets of that system and proves what they promise.

**Server**
- **Tenant host resolution** (`TenantHostResolver`):
  - how the request host is read;
  - the five-minute host cache, as a class whose `cache` map the methods update, with the clock passed in;
  - the fallback to a default slug and then to the first tenant.
- **Tenant onboarding and settings** (`TenantController`):
  - the slug and client-URL builders, and the preview;
  - the all-or-nothing tenant-plus-admin `confirm`;
  - the settings update;
  - the estimate-field configuration check, as a loop with its invariant.
- **Request handlers** over an in-memory store (`Database.Store`, one table per model file): referrals, estimates, users, rewards, login and the token middleware.
  - Each table is a sequence of rows in ascending id order.
  - Every insert enforces the NOT NULL, ENUM, default and UNIQUE rules the model files declare. A violation is refused and changes nothing, as the database would refuse it.
- **Pure rules**: the dashboard metrics (conversion rate, Monday week key, trend buckets and ordering, recommendations), the per-tenant estimate field lists, and the geography lookups.

**Clients**
- The Next.js request helper `apiFetch`: URL, header and body shaping, and response classification.
- Both sign-up wizards, as classes over their `step`, `error` and `preview` state.
- The client-selection lists of the invitation and bulk-email pages, as classes over their selection.
- The custom-field display of the estimate page, and the route guard.

**Foreign code and I/O become parameters:**
- `bcrypt` is `hash` and `compare`, `jsonwebtoken` is `sign` and `verify`, and `JSON.parse` is `parse`.
- Sequelize's `isEmail` validator is `isEmail`.
- `crypto.randomBytes` is the `random` bytes, and the slug suffix is a string.
- The current time is `now`, the environment variables are values, and `geo.json` is a `Geo` value.
- The confirmation dialog is a boolean.

The model follows the code as it stands. The user, referral, reward, estimate and login handlers do not scope their queries by tenant; only the metrics queries filter by `tenantId`. A referral accepts any number of estimates. Custom-field answers sent with an estimate are dropped, because neither `createEstimate` nor `Estimate.js` has such a field.

## Model

| member | source | states |
|---|---|---|
| TenantModel.BuildTenant | server/models/Tenant.js:4-57 | a tenant row is accepted exactly when name, slug and clientUrl are present and a present sender address is an e-mail; the row keeps every given column, with no logo and no field configuration |
| TenantModel.SlugTaken | server/models/Tenant.js:38-42 | true exactly when some row already has the slug |
| TenantModel.ClientUrlTaken | server/models/Tenant.js:43-47 | true exactly when some row already has the client URL |
| UserModel.ParseRole | server/models/User.js:38-41 | the ENUM accepts exactly the names "admin" and "client" |
| UserModel.BuildUser | server/models/User.js:4-41 | a user row is accepted exactly when tenantId, a valid e-mail and a name are present and a given role is in the ENUM; the role defaults to client; hash and phone may be null |
| UserModel.EmailTaken | server/models/User.js:43-49 | true exactly when the (email, tenantId) pair is already used |
| ReferralModel.ParseStatus | server/models/Referral.js:46-49 | the ENUM accepts exactly Open, Wait, Closed, Expired and Used |
| ReferralModel.StatusNameRoundTrip | server/models/Referral.js:46-49 | every status name parses back to its status |
| ReferralModel.BuildReferral | server/models/Referral.js:4-49 | a referral row is accepted exactly when tenantId, userId, code and selectedReward are present and a present prospect e-mail is valid; status defaults to Open |
| ReferralModel.CodeTaken | server/models/Referral.js:51-57 | true exactly when the (code, tenantId) pair is already used, so one code may exist in several tenants |
| ReferralModel.FindByCode | server/controllers/referralController.js:80 | the first referral with the code, or none exactly when no referral has it |
| EstimateModel.BuildEstimate | server/models/Estimate.js:4-49 | an estimate row is accepted exactly when referralId, name, a valid e-mail, phone and address are present; city and description may be null; status defaults to "Pending" |
| RewardSettingModel.BuildRewardSetting | server/models/RewardSetting.js:4-18 | a reward row needs a name; `active` is true unless false is given |
| RewardSettingModel.NameTaken | server/models/RewardSetting.js:10-14 | true exactly when the name is used by any row, with no tenant qualification |
| TenantHostModel.BuildTenantHost | server/models/TenantHost.js:5-27 | a host row needs a host; isPrimary and verified default to false |
| TenantHostModel.HostNamesOneRow | server/models/TenantHost.js:11-15 | under the unique constraint a host name identifies one row |
| Tables.AppendWellKeyed | server/models/Tenant.js:5-9 | appending a row under the next auto-increment id keeps the keys ascending and below the sequence |
| Tables.IndexOfId | server/controllers/userController.js:65 | `findByPk`: the position of the row with the id, or none exactly when no row has it |
| Tables.IndexOfIdUnique | server/controllers/userController.js:65 | in a table with ascending keys, the row found is the only one with that id |
| Tables.FindFirst | server/controllers/authController.js:10 | `findOne`: the first row in id order that matches, or none exactly when no row matches |
| Tables.Where | server/controllers/rewardController.js:14 | `findAll` with a condition: exactly the matching rows, each once and in ascending key order when the table's keys ascend |
| Tables.DeleteId | server/controllers/rewardController.js:36 | `destroy`: every row except the one with the id |
| Tables.DeleteIdWellKeyed | server/controllers/userController.js:72 | deleting keeps the keys ascending |
| Tables.DeleteIdBetween | server/controllers/userController.js:72 | deleting from an ascending table keeps it ascending, and keeps every key within the bounds the table had |
| Tables.DeleteIdKeepsOthers | server/controllers/userController.js:72 | the ids left are the old ids minus the deleted one |
| Database.Store.constructor | server/models/TenantHost.js:5-24 | an empty database whose id sequences start at 1, with a given host table |
| Database.Store.InsertTenant | server/models/Tenant.js:38-47 | the insert succeeds exactly when slug and client URL are both free; it appends one row under the next id; a refused insert changes nothing |
| Database.Store.InsertUser | server/models/User.js:43-49 | the insert succeeds exactly when (email, tenantId) is free; it appends one row; a refused insert changes nothing |
| Database.Store.InsertReferral | server/models/Referral.js:51-57 | the insert succeeds exactly when (code, tenantId) is free; it appends one row; a refused insert changes nothing |
| Database.Store.InsertEstimate | server/models/Estimate.js:10-17 | an estimate is always appended, since referralId carries no uniqueness |
| Database.Store.InsertReward | server/models/RewardSetting.js:10-14 | the insert succeeds exactly when the name is free; a refused insert changes nothing |
| Database.Store.RollbackTenants | server/controllers/tenantController.js:103-105 | the transaction's rollback restores the tenant table's earlier prefix |
| Database.Store.SaveTenant | server/controllers/tenantController.js:161 | `tenant.save()` replaces that row's name, logo and field configuration only |
| Database.Store.SaveReferralStatus | server/controllers/referralController.js:69-70 | `referral.save()` replaces that row's status only |
| Database.Store.SaveRewardActive | server/controllers/rewardController.js:49-50 | `reward.save()` replaces that row's `active` only |
| Database.Store.DeleteUser | server/controllers/userController.js:72 | `user.destroy()` removes exactly that row |
| Database.Store.DeleteReward | server/controllers/rewardController.js:36 | `destroy` removes exactly the row with the id, if any |
| TenantHostResolver.GetHostIsLowerCasedHostPart | server/middleware/tenantHostResolver.js:6-15 | the host is the chosen header's text up to its first ':', lower-cased; it contains no ':' |
| TenantHostResolver.TenantHostHeaderWins | server/middleware/tenantHostResolver.js:8-11 | a non-empty string `x-tenant-host` decides the host whatever `Host` says |
| TenantHostResolver.LookupHost | server/middleware/tenantHostResolver.js:24-38 | the intended lookup: a context is found exactly when a host row with that host points at an existing tenant, and it is that tenant's id, slug and name (as written the lookup always throws; see Findings) |
| TenantHostResolver.CacheHit | server/middleware/tenantHostResolver.js:19-22 | a cached entry is served exactly when its expiry is strictly after now |
| TenantHostResolver.LiveEntryServed | server/middleware/tenantHostResolver.js:19-22 | a live entry is returned without a lookup, and the cache is unchanged |
| TenantHostResolver.EntryAtExpiryIsMiss | server/middleware/tenantHostResolver.js:20 | an entry exactly at its expiry is a miss, so the directory is consulted |
| TenantHostResolver.LookupCachesWhatItReturns | server/middleware/tenantHostResolver.js:34-40 | a successful lookup returns the context and caches that same context until now + 300000; other hosts' entries are unchanged |
| TenantHostResolver.FailedLookupEvicts | server/middleware/tenantHostResolver.js:29-32 | a failed lookup removes the host's entry and leaves every other entry as it was |
| TenantHostResolver.StaleWithinTtl | server/middleware/tenantHostResolver.js:4-40 | within five minutes of a lookup the cached answer is served, even if the directory has changed since |
| TenantHostResolver.FallbackSlug | server/middleware/tenantHostResolver.js:56 | the configured default slug, else "default"; never empty |
| TenantHostResolver.FallbackTenant | server/middleware/tenantHostResolver.js:56-60 | on a table in ascending id order: the tenant with the fallback slug, else the tenant of lowest id; none exactly when there are no tenants |
| TenantHostResolver.MissingHostRefused | server/middleware/tenantHostResolver.js:45-46 | an empty host gives 400 "Missing host header" and leaves the cache untouched |
| TenantHostResolver.FallbackLeavesCache | server/middleware/tenantHostResolver.js:55-65 | the handler's only cache change is the host lookup's; the fallback never writes the cache |
| TenantHostResolver.NotFoundOnlyWithoutTenants | server/middleware/tenantHostResolver.js:62-71 | 404 "Unknown tenant host" occurs exactly when the host is unresolved and there are no tenants; 500 occurs exactly when the directory fails on a cache miss |
| TenantHostResolver.Resolver.constructor | server/middleware/tenantHostResolver.js:3 | the cache starts empty |
| TenantHostResolver.Resolver.ResolveHost | server/middleware/tenantHostResolver.js:17-41 | `resolveHost` returns the resolution and updates the cache map in place, as the resolution step says |
| TenantHostResolver.Resolver.Handle | server/middleware/tenantHostResolver.js:44-72 | the intended middleware's outcome and cache update are those of the handler step |
| TenantHostResolver.HandleStepAsWritten | server/middleware/tenantHostResolver.js:1-71 | as written, the cache never changes, and every request with a host that misses the cache is answered 500 "Failed to resolve tenant host" |
| TenantHostResolver.AsWrittenRefusesKnownHost | server/middleware/tenantHostResolver.js:17-71 | from the empty starting cache, a host the directory maps to a tenant is resolved by the intended middleware but answered 500 as written, and the cache stays empty |
| TenantController.CollapseRuns | server/controllers/tenantController.js:7 | replacing each run of non-`[a-z0-9]` characters by one '-' gives only slug characters and single dashes |
| TenantController.CollapseSlugRun | server/controllers/tenantController.js:7 | a text made only of `[a-z0-9]` is left exactly as it is |
| TenantController.CollapseAppend | server/controllers/tenantController.js:7 | after a slug character, the two halves of a text are collapsed independently |
| TenantController.CollapseLeadingSeparator | server/controllers/tenantController.js:7 | a non-empty leading run of other characters, up to the next slug character, becomes exactly one '-' |
| TenantController.CollapseSeparator | server/controllers/tenantController.js:7 | a maximal run between two slug characters becomes exactly one '-' and the text on both sides is collapsed on its own, so dashes stand exactly where runs were |
| TenantController.DropLeadingDashes | server/controllers/tenantController.js:7 | removes exactly the leading dashes |
| TenantController.DropTrailingDashes | server/controllers/tenantController.js:7 | removes exactly the trailing dashes |
| TenantController.SlugChars | server/controllers/tenantController.js:7 | the letters and digits of a string, in order; never longer than it |
| TenantController.SlugBaseIsClean | server/controllers/tenantController.js:7 | the cleaned base has only `[a-z0-9]` and single dashes, with no dash at either end |
| TenantController.SlugBaseKeepsLettersAndDigits | server/controllers/tenantController.js:7 | cleaning keeps every lower-cased letter and digit of the name, in order |
| TenantController.SlugBaseEmptyIff | server/controllers/tenantController.js:7-9 | the base is empty exactly when the name has no letter or digit |
| TenantController.SlugifyShape | server/controllers/tenantController.js:7-9 | the chosen base is clean and non-empty; it is "tenant" exactly when the name has no letter or digit |
| TenantController.SlugBaseIdempotent | server/controllers/tenantController.js:7 | cleaning a cleaned base changes nothing |
| TenantController.CleanBaseIsFixed | server/controllers/tenantController.js:7 | cleaning leaves an already clean base unchanged |
| TenantController.ClientUrlBase | server/controllers/tenantController.js:24 | `CLIENT_URL_BASE`, else `CLIENT_URL`, else the local default; never empty |
| TenantController.BuildClientUrl | server/controllers/tenantController.js:12-15 | the base with at most one trailing '/' removed, then '/' and the slug |
| TenantController.TrailingSlashIgnored | server/controllers/tenantController.js:13 | a base with or without one trailing '/' gives the same URL |
| TenantController.Preview | server/controllers/tenantController.js:18-28 | 400 "companyName is required" exactly when the name is absent or blank; otherwise the slug of the trimmed name and its client URL |
| TenantController.ConfirmSlug | server/controllers/tenantController.js:51 | the given tenant slug if non-empty, else the slug of the name |
| TenantController.PreviewMatchesConfirm | server/controllers/tenantController.js:51-53 | with the same suffix and no slug given, `confirm` derives the slug and URL the preview showed |
| TenantController.Confirm | server/controllers/tenantController.js:31-107 | 400 before any write when a required field is missing; 400 "Tenant slug already exists" when the slug is taken; success adds exactly one tenant, holding every submitted column, and one admin with the lower-cased e-mail and the new tenant's id; any failure leaves both tables as they were |
| TenantController.ForwardSlashes | server/controllers/tenantController.js:156 | every backslash of the upload path becomes '/', no backslash remains, and every other character is kept in place |
| TenantController.LogoUrlIgnoresSlashStyle | server/controllers/tenantController.js:156-157 | a path with backslashes and its forward-slash form give the same logo URL |
| TenantController.LogoUrl | server/controllers/tenantController.js:156-157 | the logo URL is the prefix protocol + "://" + host + "/" followed by the path with forward slashes |
| TenantController.ApplySettings | server/controllers/tenantController.js:146-159 | a non-empty name is stored trimmed (and is then non-empty); an absent or empty name keeps the old one; an upload sets the logo URL; no other column changes |
| TenantController.ApplySettingsStable | server/controllers/tenantController.js:151-153 | resubmitting the stored name changes nothing |
| TenantController.TrimTwice | server/controllers/tenantController.js:152 | trimming is idempotent |
| TenantController.UpdateSettings | server/controllers/tenantController.js:141-173 | 404 for an unknown tenant; 400 "Name cannot be empty" for a whitespace-only name, changing nothing; otherwise exactly that row becomes the applied settings, which are returned |
| TenantController.CheckField | server/controllers/tenantController.js:197-204 | reading a null or undefined field throws; a field is accepted exactly when it is an object with truthy id, label and type and, as a select field, a non-empty options array; it is refused for its keys exactly when one of the three is not truthy |
| TenantController.CheckFields | server/controllers/tenantController.js:197-204 | the loop accepts exactly when every field is accepted; otherwise it reports the first field's refusal |
| TenantController.UpdateFieldConfig | server/controllers/tenantController.js:190-217 | 400 for a non-array; the first bad field refuses the whole list, with "Each field requires id, label, and type" or "Select fields require non-empty options", and a null field sends no reply; an accepted list is stored verbatim on the caller's tenant and returned as `{ fields }`; a refusal changes nothing (this is the handler with `estimateFieldConfig` declared; see Findings) |
| TenantController.UpdateFieldConfigAsWritten | server/controllers/tenantController.js:190-217 | the same refusals and the same `{ fields }` reply, with the store left unchanged, because `Tenant.js` does not declare the column |
| ReferralController.Hex | server/controllers/referralController.js:24 | `toString('hex')`: two lower-case hex digits per byte |
| ReferralController.ParseHex | server/controllers/referralController.js:24 | reading hex text back gives half as many bytes |
| ReferralController.HexRoundTrip | server/controllers/referralController.js:24 | hex encoding loses nothing: parsing the code gives back the random bytes |
| ReferralController.ReferralCodeShape | server/controllers/referralController.js:24 | four random bytes give exactly eight lower-case hex characters |
| ReferralController.NormalizedEmail | server/controllers/referralController.js:12 | the looked-up e-mail is lower case ("" when none is given) |
| ReferralController.FindClient | server/controllers/referralController.js:14-19 | the first user whose e-mail equals the normalised one, or none exactly when there is no such user |
| ReferralController.ReferralData | server/controllers/referralController.js:26-34 | status Open, the found user's id, the code and the reward; the prospect name only if non-empty; the prospect e-mail only if not blank, stored untrimmed |
| ReferralController.DraftWithoutTenantRejected | server/controllers/referralController.js:26-36 | the row the handler builds has no tenantId, so the NOT NULL rule refuses it |
| ReferralController.CreateReferralAsWritten | server/controllers/referralController.js:4-45 | as written: 404 for an unknown client, otherwise always 500 |
| ReferralController.CreateReferral | server/controllers/referralController.js:4-45 | 404 and no write for an unknown client; success appends one Open referral of that client's tenant, with the hex code, the given reward and the prospect's non-blank e-mail |
| ReferralController.ViewOf | server/controllers/referralController.js:49-54 | a referral with its client's name and e-mail (present exactly when the user exists) and exactly its estimates, each once in key order when the estimate table's keys ascend |
| ReferralController.GetReferrals | server/controllers/referralController.js:47-59 | one view per referral, in table order, with no tenant filter |
| ReferralController.GetReferralsListsAll | server/controllers/referralController.js:49-55 | every referral is listed and nothing else is |
| ReferralController.GetReferralByCode | server/controllers/referralController.js:77-87 | 404 "Invalid referral code" exactly when no referral has the code; otherwise a referral with that code |
| ReferralController.CodeNamesOneReferralPerTenant | server/controllers/referralController.js:80-83 | within one tenant a code finds exactly its own referral |
| ReferralController.UpdateReferralStatus | server/controllers/referralController.js:61-75 | 404 for an unknown id; any ENUM status is set with no transition check and nothing else changes; a non-ENUM status is refused by the column (500) and changes nothing |
| EstimateController.EstimateData | server/controllers/estimateController.js:14-23 | the estimate gets the referral's id, status "Pending" and the submitted contact fields |
| EstimateController.CreateEstimate | server/controllers/estimateController.js:3-35 | 404 for an unknown code and 400 "Referral is no longer active" for a non-Open referral, with no write; success appends one estimate; the referral table never changes |
| EstimateController.SubmitTwice | server/controllers/estimateController.js:7-23 | two submissions against an Open referral both succeed, giving two estimates of that referral |
| UserController.ViewOf | server/controllers/userController.js:12 | the returned user carries id, e-mail and role, and no password hash |
| UserController.Views | server/controllers/userController.js:10-13 | one view per user, in order |
| UserController.GetUsers | server/controllers/userController.js:5-18 | without a role, every user; with a role, exactly the users of that role, each once in key order when the user table's keys ascend; a role outside the ENUM is a query error (500) |
| UserController.PasswordHash | server/controllers/userController.js:30-40 | an admin's password is hashed; a non-admin gets a hash exactly when the password is not blank |
| UserController.UserData | server/controllers/userController.js:42-48 | the created row's fields; the role defaults to "client" |
| UserController.CreateUserGuard | server/controllers/userController.js:25-33 | 400 "User with this email already exists" for a taken e-mail in any tenant; 400 "Password is required for Admin users" for an admin without a password |
| UserController.UserWithoutTenantRejected | server/controllers/userController.js:42-48 | the row the handler builds has no tenantId, so the NOT NULL rule refuses it |
| UserController.CreateUserAsWritten | server/controllers/userController.js:20-59 | as written: the guards' refusals, otherwise always 500 |
| UserController.CreateUser | server/controllers/userController.js:20-59 | after the guards, exactly one user is appended, with the given name, e-mail and phone and the chosen hash and role, and returned without its hash; a refusal changes nothing |
| UserController.ParseRoleName | server/models/User.js:38-41 | every role name parses back to its role |
| UserController.DeleteUser | server/controllers/userController.js:61-77 | 404 for an unknown id; 400 "Cannot delete yourself" for the caller's own id; otherwise exactly that user is removed |
| RewardController.GetActiveRewards | server/controllers/rewardController.js:12-19 | exactly the rewards whose `active` is true, each once in key order when the reward table's keys ascend |
| RewardController.CreateReward | server/controllers/rewardController.js:21-31 | 400 "Reward name is required" for a missing or empty name; a taken name is refused by the unique column (500); success appends an active reward; a refusal changes nothing |
| RewardController.DeleteReward | server/controllers/rewardController.js:33-41 | reports success whether or not the id existed; removes exactly that row |
| RewardController.Toggled | server/controllers/rewardController.js:49 | the name is kept and `active` is negated |
| RewardController.ToggleReward | server/controllers/rewardController.js:43-55 | 404 for an unknown id; otherwise exactly that row has `active` negated |
| RewardController.ToggleTwice | server/controllers/rewardController.js:43-55 | toggling twice restores the table |
| AuthController.FindByEmail | server/controllers/authController.js:10 | the first user in key order with the e-mail (no earlier row has it), or none exactly when there is none |
| AuthController.Login | server/controllers/authController.js:6-30 | 401 "Invalid credentials" for an unknown e-mail; 403 "Access denied. Admins only." for a non-admin; success exactly when the e-mail names an admin whose password matches, with a token of {id, role} and the user without hash; 500 for an admin when the password or the stored hash is missing, 401 for a wrong password |
| AuthController.WrongPasswordLooksLikeUnknownEmail | server/controllers/authController.js:10-22 | a wrong admin password gives the same answer as an unknown e-mail |
| AuthController.NonAdminRefusedBeforePasswordCheck | server/controllers/authController.js:15-17 | a non-admin's answer does not depend on the password or the comparison |
| AuthMiddleware.BearerToken | server/middleware/authMiddleware.js:5-8 | the token is the non-empty second space-separated piece of the header, and none exactly when there is no such piece |
| AuthMiddleware.BearerRoundTrip | server/middleware/authMiddleware.js:6 | "Bearer " followed by a token without spaces gives back that token |
| AuthMiddleware.AnySchemeWord | server/middleware/authMiddleware.js:6 | the scheme word is not checked: any single word before the token works |
| AuthMiddleware.AuthenticateToken | server/middleware/authMiddleware.js:4-15 | 401 without a token; 403 when verification fails; otherwise it continues with the decoded payload |
| AuthMiddleware.RequireAdmin | server/middleware/authMiddleware.js:17-23 | it continues exactly when there is a user whose role is "admin", otherwise 403 |
| Metrics.TenantIdOf | server/controllers/metricsController.js:7-8 | the user's tenant id if truthy, else the request tenant's; none exactly when neither is truthy |
| Metrics.ConversionRate | server/controllers/metricsController.js:26 | 0 without referrals; otherwise the percentage rounded half up |
| Metrics.ConversionRateAtMost100 | server/controllers/metricsController.js:26 | the rate is at most 100 when used referrals do not exceed the total |
| Metrics.ConversionRateMonotone | server/controllers/metricsController.js:26 | more used referrals never lower the rate |
| Metrics.WeekDay | server/controllers/metricsController.js:40 | `getUTCDay` of a day number, between 0 (Sunday) and 6 |
| Metrics.WeekStart | server/controllers/metricsController.js:37-43 | the Monday on or before the day; a Sunday maps back six days |
| Metrics.SameWeekSameKey | server/controllers/metricsController.js:39-43 | every day of a week has that week's key |
| Metrics.BucketsPartitionWeek | server/controllers/metricsController.js:44-47 | each referral of a week is counted in exactly one bucket: closed, else used, else open |
| Metrics.TallyTrends | server/controllers/metricsController.js:35-48 | the map has a key exactly for each week with a referral, whose counts are that week's bucket counts |
| Metrics.NoWeekNoCounts | server/controllers/metricsController.js:36-48 | a week without referrals has all counts zero |
| Metrics.Entries | server/controllers/metricsController.js:49-51 | `Object.entries`: one trend per listed week, with its counts |
| Metrics.InsertTrend | server/controllers/metricsController.js:49-50 | insertion keeps the trends strictly ascending and adds exactly the new one |
| Metrics.SortTrends | server/controllers/metricsController.js:49-51 | the trends sorted strictly ascending by week, with the same elements |
| Metrics.GetDashboardMetrics | server/controllers/metricsController.js:5-100 | 400 "Tenant context is required" without a tenant; otherwise the summary with its conversion rate, and exactly the weeks with referrals in ascending order with their counts |
| Metrics.Recommend | server/controllers/metricsController.js:123-183 | each recommendation appears exactly under its condition, in the fixed order; customize-settings is always last; add-clients and send-invitations never both appear; one to five entries |
| Metrics.GetRecommendations | server/controllers/metricsController.js:102-190 | 400 "Tenant context is required" without a tenant; otherwise the pushed cards (id, title, description, action label and link), one per recommendation that the rules above pick, in push order, with the settings card last |
| Metrics.CardIdsDistinct | server/controllers/metricsController.js:125-183 | the six pushed cards carry six different `id`s |
| Metrics.PushOrderDetermined | server/controllers/metricsController.js:125-183 | two lists in push order with the same recommendations are the same list |
| Metrics.RecommendedUnique | server/controllers/metricsController.js:125-183 | for any counts exactly one list meets the recommendation rules, so the reply is fixed by the counts |
| TenantFields.GetFieldsForTenant | server/config/tenantFields.js:33-36 | the default list for a missing or empty slug; the slug's own list when configured; the default list otherwise |
| TenantFields.FieldListsWellFormed | server/config/tenantFields.js:14-29 | every list has distinct field ids; every select field has a non-empty options list and no other field has options |
| TenantFields.OnlyServiceTypeRequired | server/config/tenantFields.js:14-20 | serviceType is the only required field, and only the default list has it |
| TenantFields.AsValue | server/config/tenantFields.js:14-20 | a field definition as a JSON object keeps its id, label, type and options |
| TenantFields.BuiltInListsPassFieldChecks | server/config/tenantFields.js:14-29 | every built-in field passes the field-configuration check of the settings handler |
| Meta.ListCountries | server/controllers/metaController.js:3-5 | the country list, or [] when it is absent |
| Meta.ListStates | server/controllers/metaController.js:7-12 | 400 "countryCode is required" exactly when the code is missing or empty; otherwise the states under the upper-cased code, or [] |
| Meta.StatesIgnoreCase | server/controllers/metaController.js:10 | a code's letter case does not matter |
| JsValues.Get | next-app/lib/api-client.ts:79 | reading a property of null or undefined throws; an object yields the property or undefined |
| JsStrings.Trim | server/controllers/tenantController.js:20 | `trim` removes exactly the white space at both ends |
| JsStrings.BlankIffTrimEmpty | server/controllers/tenantController.js:147 | a string trims to "" exactly when it is all white space |
| JsStrings.Lower | server/middleware/tenantHostResolver.js:10 | `toLowerCase` maps each ASCII capital and keeps the length |
| JsStrings.Upper | server/controllers/metaController.js:10 | `toUpperCase` maps each ASCII small letter and keeps the length |
| JsStrings.LowerIsLowerCase | server/middleware/tenantHostResolver.js:10 | lower-casing leaves no capital and is idempotent |
| JsStrings.UpperOfLower | server/controllers/metaController.js:10 | upper-casing forgets the original case |
| JsStrings.LowerOfUpper | client/src/pages/SendInvitations.jsx:51 | lower-casing forgets the original case |
| JsStrings.Split | server/middleware/authMiddleware.js:6 | `split` gives at least one piece and no piece holds the separator |
| JsStrings.JoinSplit | server/middleware/tenantHostResolver.js:10 | joining the pieces again gives back the string |
| JsStrings.FirstPieceIsPrefix | server/middleware/tenantHostResolver.js:10 | the first piece is the text before the first separator, or the whole string |
| JsStrings.SplitAtFirst | server/middleware/authMiddleware.js:6 | splitting at the first separator gives the text before it, then the pieces of the rest |
| JsStrings.SplitWithout | server/middleware/authMiddleware.js:6 | a string without the separator is one piece |
| ApiClient.MakeUrl | next-app/lib/api-client.ts:30-34 | a path starting with "http" is kept; otherwise a leading '/' is ensured and the API base is prefixed |
| ApiClient.LeadingSlashOptional | next-app/lib/api-client.ts:32-33 | "x" and "/x" give the same URL |
| ApiClient.BuildHeaders | next-app/lib/api-client.ts:17-28 | a JSON Content-Type by default; caller headers override it; `Authorization: Bearer <token>` exactly when a token is stored |
| ApiClient.NormalizeBody | next-app/lib/api-client.ts:37-47 | no body for null or undefined; strings and built-in body types pass through; other objects are JSON |
| ApiClient.NormalizeBodyInjective | next-app/lib/api-client.ts:38-47 | distinct bodies stay distinct on the wire |
| ApiClient.PrepareRequest | next-app/lib/api-client.ts:36-67 | the request's URL, method (GET by default), body and headers; for form-like bodies a truthy Content-Type is removed, all other headers are as built |
| ApiClient.Receive | next-app/lib/api-client.ts:69-83 | 401 and 403 sign the user out and fail as "Unauthorized" whatever the body; empty text reads as null; another failing status fails with the body's truthy `message` when the body is an object that has one, and with "Request failed" otherwise; a failing status never settles as data |
| ApiClient.ServerMessageSurfaces | next-app/lib/api-client.ts:75-80 | a failing response is an error, never data; it carries a message other than "Request failed" only when that is the body object's `message`, and a body that is not an object (`null`, a number, a string, an array) always gives "Request failed" |
| OnboardingPage.SampleEmailValid | next-app/app/tenant/onboarding/page.tsx:69 | an ordinary address matches the e-mail pattern |
| OnboardingPage.NoAtNoEmail | next-app/app/tenant/onboarding/page.tsx:69 | a string without '@' never matches |
| OnboardingPage.BlankIsNotEmail | next-app/app/tenant/onboarding/page.tsx:69 | a blank string never matches |
| OnboardingPage.BlankFields | next-app/app/tenant/onboarding/page.tsx:59-67 | exactly the fields that are blank after trimming |
| OnboardingPage.Among | next-app/app/tenant/onboarding/page.tsx:59-67 | exactly the listed fields that are blank |
| OnboardingPage.AmongInOrder | next-app/app/tenant/onboarding/page.tsx:59-67 | picking out the blank fields keeps the order of the checked list |
| OnboardingPage.EveryFieldChecked | next-app/app/tenant/onboarding/page.tsx:61-65 | all five required fields are checked |
| OnboardingPage.MissingRequired | next-app/app/tenant/onboarding/page.tsx:59-67 | exactly the blank fields, in the fixed order companyName, companyEmail, adminEmail, adminPassword, adminPasswordConfirm |
| OnboardingPage.JoinWith | next-app/app/tenant/onboarding/page.tsx:120 | the joined text starts with the first part and contains every part |
| OnboardingPage.JoinWithShort | next-app/app/tenant/onboarding/page.tsx:120 | joining no parts gives the empty text and joining one part gives that part |
| OnboardingPage.JoinWithSnoc | next-app/app/tenant/onboarding/page.tsx:120 | appending a part appends the separator and that part, so the separator stands exactly between neighbouring parts |
| OnboardingPage.MissingMessage | next-app/app/tenant/onboarding/page.tsx:118-124 | the message names every missing field; a single field reads "<name> is required" |
| OnboardingPage.Step1Error | next-app/app/tenant/onboarding/page.tsx:74-88 | name presence, then e-mail presence, then e-mail shape; the first failure is reported; none exactly when the name is present and the e-mail valid |
| OnboardingPage.Step2Error | next-app/app/tenant/onboarding/page.tsx:90-116 | the six checks in order, first failure reported; none exactly when the e-mail is valid, the password is present with at least six characters, and it equals the confirmation |
| OnboardingPage.ValidatedFormsComplete | next-app/app/tenant/onboarding/page.tsx:74-116 | forms that pass both step checks have no missing field |
| OnboardingPage.Wizard.constructor | next-app/app/tenant/onboarding/page.tsx:34-38 | the wizard starts at step 1 with no error and no preview |
| OnboardingPage.Wizard.NextStep | next-app/app/tenant/onboarding/page.tsx:71 | one step on, never past 4 |
| OnboardingPage.Wizard.PrevStep | next-app/app/tenant/onboarding/page.tsx:72 | one step back, never before 1 |
| OnboardingPage.Wizard.ValidateStep1 | next-app/app/tenant/onboarding/page.tsx:74-88 | passes exactly when step 1 has no error; otherwise shows the first error |
| OnboardingPage.Wizard.ValidateStep2 | next-app/app/tenant/onboarding/page.tsx:90-116 | passes exactly when step 2 has no error; otherwise shows the first error |
| OnboardingPage.Wizard.EnsureReadyForConfirm | next-app/app/tenant/onboarding/page.tsx:118-124 | passes exactly when nothing is missing; otherwise shows the missing-field message |
| OnboardingPage.Wizard.HandlePreview | next-app/app/tenant/onboarding/page.tsx:142-152 | the preview is requested, with the trimmed name, exactly when step 1 validates |
| OnboardingPage.Wizard.PreviewReceived | next-app/app/tenant/onboarding/page.tsx:151-152 | the preview is kept and the wizard moves one step on |
| OnboardingPage.Wizard.Step2Next | next-app/app/tenant/onboarding/page.tsx:442-446 | to step 3 exactly when step 2 validates; otherwise the step stays and the error shows |
| OnboardingPage.Wizard.Step3Next | next-app/app/tenant/onboarding/page.tsx:489-493 | to step 4 exactly when nothing is missing; otherwise the message shows |
| OnboardingPage.Wizard.HandleConfirm | next-app/app/tenant/onboarding/page.tsx:161-187 | missing fields, then a missing preview, stop with an error before any request; otherwise the body carries the trimmed name, the preview's slug and the admin credentials |
| ClientOnboarding.ClientMissingRequired | client/src/pages/TenantOnboarding.jsx:39-46 | exactly the four checked fields that are blank, in the fixed order |
| ClientOnboarding.ClientMissingDropsConfirmation | client/src/pages/TenantOnboarding.jsx:39-46 | the client's list is the Next.js list without the confirmation field |
| ClientOnboarding.ClientStep2Error | client/src/pages/TenantOnboarding.jsx:69-87 | four checks in order, first failure reported; none exactly when the e-mail is valid and the password is present with at least six characters |
| ClientOnboarding.ClientStep2Laxer | client/src/pages/TenantOnboarding.jsx:69-87 | what the Next.js step 2 accepts the client accepts; where the client refuses, both give the same message |
| ClientOnboarding.ClientWizard.constructor | client/src/pages/TenantOnboarding.jsx:13-16 | the wizard starts at step 1 with no error and no preview |
| ClientOnboarding.ClientWizard.NextStep | client/src/pages/TenantOnboarding.jsx:50 | one step on, never past 4 |
| ClientOnboarding.ClientWizard.PrevStep | client/src/pages/TenantOnboarding.jsx:51 | one step back, never before 1 |
| ClientOnboarding.ClientWizard.HandleStep1Next | client/src/pages/TenantOnboarding.jsx:98-101 | the preview is requested, with the untrimmed name, exactly when step 1 validates |
| ClientOnboarding.ClientWizard.PreviewReceived | client/src/pages/TenantOnboarding.jsx:116-117 | the preview is kept and the wizard moves one step on |
| ClientOnboarding.ClientWizard.HandleStep2Next | client/src/pages/TenantOnboarding.jsx:103-107 | to step 3 exactly when step 2 validates |
| ClientOnboarding.ClientWizard.Step3Next | client/src/pages/TenantOnboarding.jsx:410-414 | to step 4 exactly when nothing is missing |
| ClientOnboarding.ClientWizard.HandleConfirm | client/src/pages/TenantOnboarding.jsx:163-191 | missing fields (is/are message), then a missing preview ("Please complete preview first."), stop before any request; otherwise the body also carries the sender address |
| ClientSelection.Ids | client/src/pages/SendInvitations.jsx:35 | the ids of the clients, in order |
| ClientSelection.Without | client/src/pages/SendInvitations.jsx:43 | every other id, keeping the order and any freedom from duplicates |
| ClientSelection.WithoutSingleton | client/src/pages/SendInvitations.jsx:43 | a one-id list is kept exactly when its id is not the removed one |
| ClientSelection.WithoutAppend | client/src/pages/SendInvitations.jsx:43 | removing an id from a concatenation removes it from each half, so order and repetitions are kept |
| ClientSelection.Toggled | client/src/pages/SendInvitations.jsx:41-47 | a selected id is removed and nothing else; an unselected id is appended |
| ClientSelection.ToggleTwiceSameSelection | client/src/pages/SendInvitations.jsx:41-47 | selecting the same row twice gives back the same set of selected ids |
| ClientSelection.ToggleTwiceUnselected | client/src/pages/SendInvitations.jsx:41-47 | ticking and unticking an unselected row gives back the very same list |
| ClientSelection.FullLengthIffAllSelected | client/src/pages/BulkEmail.jsx:122 | on a selection without duplicates drawn from the list, equal length means every client is selected, and conversely |
| SendInvitations.FilterBy | client/src/pages/SendInvitations.jsx:52-56 | exactly the matching clients (lower-cased name or e-mail contains the term, or the phone does) |
| SendInvitations.FilterBySingleton | client/src/pages/SendInvitations.jsx:52-56 | a one-client list is kept exactly when the client matches |
| SendInvitations.FilterByAppend | client/src/pages/SendInvitations.jsx:52-56 | filtering a concatenation filters each half, so order and repetitions are kept |
| SendInvitations.FilterByKeepsDistinct | client/src/pages/SendInvitations.jsx:52-56 | filtering a list with distinct ids gives a list with distinct ids, so selecting all rows on show selects each id once |
| SendInvitations.Filtered | client/src/pages/SendInvitations.jsx:49-57 | every client for an empty term, otherwise the clients matching the lower-cased term |
| SendInvitations.SearchIgnoresCase | client/src/pages/SendInvitations.jsx:51-54 | an upper- or lower-cased term shows the same rows |
| SendInvitations.InvitationsPage.constructor | client/src/pages/SendInvitations.jsx:19-30 | the loaded list, with nothing selected, no search and no message |
| SendInvitations.InvitationsPage.SelectOne | client/src/pages/SendInvitations.jsx:41-47 | the selection becomes the toggled one; the id is selected exactly when it was not |
| SendInvitations.InvitationsPage.SelectAll | client/src/pages/SendInvitations.jsx:32-39 | ticking selects exactly the ids on show, so the header box is ticked when rows are shown; unticking empties the selection |
| SendInvitations.InvitationsPage.Search | client/src/pages/SendInvitations.jsx:12 | a new search term; the selection is kept |
| SendInvitations.InvitationsPage.HandleSend | client/src/pages/SendInvitations.jsx:59-72 | an empty selection gives the warning and no request; a declined confirmation changes nothing; otherwise the selected ids are posted |
| SendInvitations.InvitationsPage.SendSucceeded | client/src/pages/SendInvitations.jsx:81-83 | success shows the counts and clears the selection |
| SendInvitations.InvitationsPage.SendFailed | client/src/pages/SendInvitations.jsx:84-86 | failure shows the server's message, else "Failed to send invitations" |
| BulkEmail.BulkEmailPage.constructor | client/src/pages/BulkEmail.jsx:18-29 | the loaded list, with nothing selected and no message |
| BulkEmail.BulkEmailPage.HeaderCheckedIffAllSelected | client/src/pages/BulkEmail.jsx:122 | the header box, which compares lengths, is ticked exactly when the list is non-empty and every client is selected |
| BulkEmail.BulkEmailPage.SelectOne | client/src/pages/BulkEmail.jsx:39-45 | the selection becomes the toggled one |
| BulkEmail.BulkEmailPage.SelectAll | client/src/pages/BulkEmail.jsx:31-37 | ticking selects every client id, so the header box is ticked; unticking empties the selection |
| BulkEmail.BulkEmailPage.HandleSend | client/src/pages/BulkEmail.jsx:47-56 | an empty selection gives the warning and no request; otherwise the selected ids are posted |
| BulkEmail.BulkEmailPage.SendSucceeded | client/src/pages/BulkEmail.jsx:65-67 | success shows the counts and clears the selection |
| BulkEmail.BulkEmailPage.SendFailed | client/src/pages/BulkEmail.jsx:68-70 | failure shows the server's message, else "Failed to send emails" |
| EstimateDetail.CellFor | client/src/pages/EstimateDetail.jsx:41-49 | a checkbox shows "Yes" when the answer is truthy, else "No"; any other field shows "-" exactly when the answer is undefined, null or "" |
| EstimateDetail.RenderCustomFields | client/src/pages/EstimateDetail.jsx:32-52 | without a configuration, "No custom fields" exactly when there are no answers, else the JSON dump; with one, one row per field in order, under the field's label |
| EstimateDetail.CheckboxNeverDash | client/src/pages/EstimateDetail.jsx:43-45 | a checkbox row always shows "Yes" or "No" |
| EstimateDetail.UnconfiguredAnswersHidden | client/src/pages/EstimateDetail.jsx:40-51 | answers to fields that are not configured never change the rows |
| EstimateDetail.UnansweredBuiltInFieldDashed | client/src/pages/EstimateDetail.jsx:49 | no built-in field is a checkbox, so an unanswered one shows "-" |
| ProtectedRoute.Guard | client/src/components/ProtectedRoute.jsx:5-24 | loading shows the loading view; no user redirects to "/admin/login"; a required role the user lacks redirects to "/"; the children show exactly otherwise |
| ProtectedRoute.NoRoleIsLaxer | client/src/components/ProtectedRoute.jsx:19-23 | a route without a role admits everyone a role-restricted route admits |
| ProtectedRoute.HomeOnlyForSignedIn | client/src/components/ProtectedRoute.jsx:14-21 | only a signed-in user is sent home; the login redirect happens exactly when nobody is signed in and loading is over |

## Left out

- TenantHostResolver.LookupHost: states the lookup the middleware intends. As written, the `TenantHost` it reads is undefined and every lookup throws; `HandleStepAsWritten` models that (see Findings).
- TenantHostResolver.Resolver.Handle: models the intended middleware. As written, every request whose host misses the (never-filled) cache is answered 500 (see Findings).
- ReferralController.UpdateReferralStatus: the model has no request without a `status`. The source assigns `undefined`, and the nullable ENUM column (server/models/Referral.js:46-49) stores NULL with a 200 reply. The model's `Referral.status` is always a member of the enumeration.
- AuthController.Login: a JSON `null` e-mail is not a distinct input. An absent e-mail (`None`) makes the query throw (500), but `null` queries `email IS NULL`, finds no user, and gets 401 "Invalid credentials".
- UserController.CreateUserGuard: a JSON `null` e-mail is not a distinct input. `null` finds no user, so an admin without a password gets 400 "Password is required for Admin users" and anyone else fails the NOT NULL column (500), while the model answers 500 for an absent e-mail at once.
- EstimateController.CreateEstimate: a JSON `null` referral code is not a distinct input. An absent code (`None`) makes the query throw (500), but `null` queries `code IS NULL`, finds no referral, and gets 404 "Invalid referral code".
- The `tenantId` column that `Estimate.belongsTo(Tenant)` and `RewardSetting.belongsTo(Tenant)` add (server/models/index.js:15-19) is not modelled. It is nullable, and `createEstimate` and `createReward` never set it, so it is always NULL.
- Transport and wiring are not modelled: Express routing, CORS, multer uploads, axios, `fetch`, `localStorage`, React rendering, effects and navigation. Handlers return a `Response` value; uploads arrive as a path.
- Sequelize's transaction, `count`, aggregate and GROUP BY queries are not modelled. The dashboard and recommendation counts are inputs; so are the 84-day window and the referrals inside it.
- The dashboard's `topReferrers` and `topRewards` lists (GROUP BY queries) are left out.
- Foreign libraries are parameters: bcrypt, jsonwebtoken, `JSON.parse`, `isEmail`, `crypto.randomBytes`, and `Math.random` (the slug suffix).
- Concurrency is not modelled. The check-then-insert races in `createUser`, in the slug check of `confirm` and in the host cache are out of scope.
- `findOne` without an ORDER BY is modelled as the first row in id order.
- Ids are unbounded integers, and the id sequence advances only on a successful insert.
- Foreign-key cascades are not modelled. Deleting a user does not touch their referrals.
- Text conversion is not modelled: the text of `JSON.stringify` and of `${value}` for non-string values. Both appear as constructors over the value (`JsonOf`, `JsonDump`, `Stringified`).
- Letter case is ASCII only, and `trim` uses the ECMAScript white-space set. There is no Unicode case mapping.
- Password length counts characters, not UTF-16 code units.
- The confirm request's `email` column is not modelled: `Tenant.js` does not declare it, so Sequelize drops it.
- `estimateFieldConfig` is an optional tenant column in the model, as the field-configuration handlers intend. `Tenant.js` does not declare it, so as written nothing is ever stored there (see Findings).
- The login token carries only `{id, role}`. `req.user.tenantId` is therefore absent, and the settings handlers receive it as an `Option`.
- Message texts that carry emoji, and the pages' loading flags, are left out. A notice is a datatype whose payload is the counts or the message text.
- The auth-store side effects of `apiFetch` (`clearAuth`, `onUnauthorized`) are reduced to the `signedOut` flag.
- The contents of `geo.json` are a parameter. Keys inherited from `Object.prototype` are not modelled, for the field configuration or the geography lookups.
- The calendar is a day number since 1970-01-01, a Thursday. The ISO week-key string is that Monday's day number.
- Metrics.ConversionRate: `Math.round` of a float is modelled as integer half-up rounding, which gives the same result on these inputs apart from floating-point error.
- OnboardingPage.MissingMessage: the contract gives the exact text for one name. For several names it states that every name appears, not the full joined text.
- EstimateDetail.CellFor: for non-string answers the contract gives only the dash rule, since `${value}` is not modelled.
- ClientSelection.ToggleTwiceSameSelection: the contract is about the set of selected ids. Order is restored only for an id that was not selected, as ToggleTwiceUnselected states.
- SendInvitations.InvitationsPage.HandleSend: the request and its outcome are separate calls (`SendSucceeded`, `SendFailed`). The confirmation dialog is the `confirmed` argument.

## Findings

| source | as written | input that shows it | evidently intended | confidence | as-written member | corrected member |
|---|---|---|---|---|---|---|
| server/middleware/tenantHostResolver.js:1 | `TenantHost` is taken from `../models`, but server/models/index.js (lines 28-37) does not export it. So `TenantHost.findOne` at line 24 throws on every cache miss, the catch at lines 68-71 answers 500, and the cache is never filled | any request with a non-empty Host header, even one whose host row points at an existing tenant | a known host resolves to its tenant, and an unknown one falls back to the default tenant | not executed; every request with a host is refused | TenantHostResolver.HandleStepAsWritten (with TenantHostResolver.AsWrittenRefusesKnownHost) | TenantHostResolver.Resolver.Handle |
| server/controllers/tenantController.js:210-213 | `estimateFieldConfig` is not an attribute of server/models/Tenant.js, so the assignment sets a plain property that `tenant.save()` does not write; the handler answers 200 with the list, which is lost | any well-formed field list for an existing tenant | the list is stored on the tenant | not executed; the reply echoes the list but nothing is stored | TenantController.UpdateFieldConfigAsWritten | TenantController.UpdateFieldConfig |
| server/controllers/referralController.js:26-36 | the new referral's data has no `tenantId`, which `Referral.js` declares NOT NULL, so `Referral.create` always fails and the handler answers 500 | any request whose e-mail belongs to a client | the referral belongs to the client's tenant | not executed; the handler refuses every known client | ReferralController.CreateReferralAsWritten (with ReferralController.DraftWithoutTenantRejected) | ReferralController.CreateReferral |
| server/controllers/userController.js:42-48 | the new user's data has no `tenantId`, which `User.js` declares NOT NULL, so `User.create` always fails and the handler answers 500 | any request that passes the e-mail and password guards | the user belongs to the caller's tenant | not executed; every create that passes the guards fails | UserController.CreateUserAsWritten (with UserController.UserWithoutTenantRejected) | UserController.CreateUser |
