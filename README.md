# Blessings Store client — a Dafny model

This project models the client-side rules of the Blessings Store inventory
and admin web application:

- **The inventory pages.** This covers the sale dialog (bucket-isolated stock check, price and total, the Confirm guard, the sale request) and the restock dialog (zero counts and empty prices omitted from the request). It also covers the inventory table (stock badge, profit margin, Sell / Restock actions), the dashboard cards (folds over the item list), and the open/close state of both dialogs. The older single-file inventory page is modelled too; it sends zero restock counts as 0 and has no stock guard.
- **The shared query cache.** Each successful mutation marks cache entries stale: a sale marks inventory, todayProfit and productProfits; a restock marks inventory; an invite generate or revoke marks everything under the invites prefix. A logout clears the whole cache. A login or registration writes the session entry directly. The session and invite-list queries run only while a token is stored, and each has its own freshness window; the inventory queries always run, two of them on a refresh interval.
- **The session.** The model covers the stored `adminToken`, the request interceptor that adds `Authorization: Bearer <token>` (section 2.1 of RFC 6750) when a token is stored, and the response interceptor. On a 401 (section 15.5.2 of RFC 9110) the response interceptor removes the token and the default header. It re-raises every failure with a single message chosen by a fallback chain. The auth context derives its value from the `me` answer.
- **Validation and classification.** This covers the login and sign-up schemas, the login form's validate-then-send flow, invite-code status and row actions, the invite dashboard, and the DD/MM/YYYY and "Today / Yesterday / n days ago" date labels.

Each source file is one module. Pure code is written as functions with lemmas. Component state and the singletons (storage, HTTP client, query cache) are classes whose methods state their whole new state. The methods are tied to the functions that specify them.

Modelling conventions:

- Money and quantities are unbounded integers. `parseInt` results arrive as `Option<int>`, with `None` standing for NaN. `parseFloat` of a price field is a parameter `string -> int`.
- Timestamps are integer milliseconds. The local time zone is a fixed offset.
- A remote call's result is an input to the model: an answer, or a failure with a status, body fields and a transport message.
- `InventoryTypes.ServerConsistent` states the relations the server keeps between the stored and the derived stock fields. It is only ever a hypothesis of a lemma, never something the client establishes.

## Model

| member | source | states |
|---|---|---|
| InventoryTypes.EmptyTotalMeansEmptyBuckets | src/types/inventory.types.ts:5-11 | for a server-consistent item, zero total pieces iff both the pack and the piece bucket are empty |
| SaleModal.AvailableQuantity | src/components/saleModal.tsx:53 | present iff an item is selected; the pack bucket for a pack sale, the piece bucket for a piece sale |
| SaleModal.UnitPrice | src/components/saleModal.tsx:54 | the pack or the piece selling price, chosen by the same sale type |
| SaleModal.TotalPrice | src/components/saleModal.tsx:55 | chosen unit price times quantity; 0 with no item |
| SaleModal.FooterGuards | src/components/saleModal.tsx:120-125 | while pending both buttons are disabled; otherwise Cancel is enabled and Confirm is disabled iff the quantity exceeds the chosen bucket, a missing bucket counting as 0 |
| SaleModal.OtherBucketIgnored | src/components/saleModal.tsx:53-55 | availability, total and guard do not depend on the other unit's bucket or price |
| SaleModal.NoPackBreaking | src/components/saleModal.tsx:125 | with no loose pieces, no positive piece sale can be confirmed, however many packs are stocked |
| SaleModal.QuantityFromEntry | src/components/saleModal.tsx:96 | an unparsable entry or 0 becomes 1; any other integer, negatives included, is kept; never 0 |
| SaleModal.SubmitPayload | src/components/saleModal.tsx:44-50 | nothing without an item, otherwise exactly the item's id, the sale type and the unclamped quantity |
| SaleModal.EnabledConfirmFitsBucket | src/components/saleModal.tsx:125 | a sale that passes an enabled Confirm never asks for more than the chosen bucket |
| SaleModal.NegativeQuantityReachesPayload | src/components/saleModal.tsx:96 | a typed −3 is kept by the field, passes the guard and is submitted unchanged |
| SaleModal.SaleForm.constructor | src/components/saleModal.tsx:41-42 | the form starts as a one-piece sale |
| SaleModal.SaleForm.SelectSaleType | src/components/saleModal.tsx:77 | the type changes and the quantity is kept |
| SaleModal.SaleForm.EnterQuantity | src/components/saleModal.tsx:96 | the quantity becomes the entry's fallback value; the type is kept; the quantity stays non-zero |
| SaleModal.SaleForm.Submit | src/components/saleModal.tsx:44-50 | the request carries the selected item's id with the form's current type and quantity |
| RestockModal.CountFromEntry | src/components/restockModal.tsx:77 | an unparsable count becomes 0; a parsed one is kept |
| RestockModal.OmitZero | src/components/restockModal.tsx:44-45 | a zero count is omitted; any other is sent unchanged |
| RestockModal.PriceOverride | src/components/restockModal.tsx:46-47 | an empty price field is omitted; a non-empty one is sent as parsed |
| RestockModal.RestockPayload | src/components/restockModal.tsx:40-48 | nothing without an item; otherwise the item's id, each count present iff non-zero and then equal to the form's, each price present iff its field is non-empty |
| RestockModal.AllZeroFormSendsOnlyId | src/components/restockModal.tsx:42-48 | an all-zero, price-less form still sends a request carrying only the id |
| RestockModal.RestockForm.constructor | src/components/restockModal.tsx:35-38 | 0 packs, 0 pieces, empty price fields |
| RestockModal.RestockForm.EnterPacks | src/components/restockModal.tsx:77 | packs set from the entry, other fields kept |
| RestockModal.RestockForm.EnterPieces | src/components/restockModal.tsx:87 | pieces set from the entry, other fields kept |
| RestockModal.RestockForm.EnterPurchasePrice | src/components/restockModal.tsx:100 | the purchase-price text is stored as typed, other fields kept |
| RestockModal.RestockForm.EnterSellingPrice | src/components/restockModal.tsx:112 | the selling-price text is stored as typed, other fields kept |
| RestockModal.RestockForm.Submit | src/components/restockModal.tsx:40-48 | the request built from the current form obeys the omission rules above |
| QueryClient.ErrorLine | src/components/saleModal.tsx:67-72 | a dialog shows an error line iff its mutation failed, with the dialog's fallback text for an empty message |
| InventoryTable.StockBadgeFor | src/components/inventoryTable.tsx:35-40 | Out of Stock iff 0 pieces, Low Stock iff non-zero and below 50, In Stock iff 50 or more; exactly one applies |
| InventoryTable.ProfitMargin | src/components/inventoryTable.tsx:42-45 | 0 when stock cost is 0, otherwise margin × cost = 100 × potential profit |
| InventoryTable.MarginSign | src/components/inventoryTable.tsx:42-44 | for a consistent item with cost, the margin is positive iff the piece selling price exceeds the piece purchase price |
| InventoryTable.RowFor | src/components/inventoryTable.tsx:70-157 | the row shows its own item, its badge and margin; Sell disabled iff total pieces is 0; Restock never disabled |
| InventoryTable.Rows | src/components/inventoryTable.tsx:63-70 | an empty list gives the single "No inventory items found" row; otherwise one row per item, in order |
| InventoryTable.ClickSell | src/components/inventoryTable.tsx:144-145 | an enabled Sell opens the sale dialog with the row's item; otherwise nothing |
| InventoryTable.ClickRestock | src/components/inventoryTable.tsx:154 | Restock opens the restock dialog with the row's item |
| InventoryTable.RowActionsCarryOwnItem | src/components/inventoryTable.tsx:144-154 | row i's Restock always carries item i; its Sell carries item i iff that item has stock |
| InventoryTable.SellEnabledIffAnyBucket | src/components/inventoryTable.tsx:145 | for a consistent item, Sell is enabled iff either bucket holds stock |
| InventoryManagement.TotalAppend | src/components/pages/inventoryManagement.tsx:37-39 | the card fold distributes over concatenation of item lists |
| InventoryManagement.TotalFromFront | src/components/pages/inventoryManagement.tsx:37-39 | the fold is the first item's figure plus the fold of the rest, i.e. every item contributes once |
| InventoryManagement.ProfitCardIsValueMinusCost | src/components/pages/inventoryManagement.tsx:37-39 | for server-consistent items the potential-profit card equals stock value minus stock cost |
| InventoryManagement.DashboardCards | src/components/pages/inventoryManagement.tsx:30-39 | each stock card is its figure's sum over the items; before loading the list is empty (all 0) and today's profit is 0 |
| InventoryManagement.FooterUnlockedOnceSettled | src/components/restockModal.tsx:132-135 | while a request is pending Cancel, Confirm and both restock buttons are disabled; once it settles, whatever the outcome, Cancel and the restock buttons are enabled and Confirm is disabled iff the quantity exceeds the chosen bucket |
| InventoryManagement.SettledErrorLine | src/components/restockModal.tsx:64 | a settled request shows an error line iff it failed; an empty message shows "Failed to process sale" / "Failed to restock" |
| InventoryManagement.InventoryPage.constructor | src/components/pages/inventoryManagement.tsx:20-27 | both dialogs start closed with no item; nothing sent |
| InventoryManagement.InventoryPage.OpenSale | src/components/pages/inventoryManagement.tsx:127 | the sale dialog opens with the row's item; nothing else changes |
| InventoryManagement.InventoryPage.OpenRestock | src/components/pages/inventoryManagement.tsx:128 | the restock dialog opens with the row's item; nothing else changes |
| InventoryManagement.InventoryPage.SubmitSale | src/components/pages/inventoryManagement.tsx:41-47 | the request is appended and the sale mutation is pending |
| InventoryManagement.InventoryPage.SubmitRestock | src/components/pages/inventoryManagement.tsx:49-55 | the request is appended and the restock mutation is pending |
| InventoryManagement.InventoryPage.SaleSettled | src/components/pages/inventoryManagement.tsx:41-47 | on success the three inventory entries are invalidated and only the sale dialog closes; on failure the dialog stays open with the error |
| InventoryManagement.InventoryPage.RestockSettled | src/components/pages/inventoryManagement.tsx:49-55 | on success the inventory entry is invalidated and only the restock dialog closes; on failure it stays open |
| InventoryManagement.InventoryPage.CloseSale | src/components/pages/inventoryManagement.tsx:144-147 | the sale dialog closes, its item is cleared and its mutation reset |
| InventoryManagement.InventoryPage.CloseRestock | src/components/pages/inventoryManagement.tsx:156-159 | the restock dialog closes, its item is cleared and its mutation reset |
| LegacyInventory.LegacyRestockPayload | src/inventory.tsx:174-182 | counts are always sent, 0 included; empty price fields are omitted |
| LegacyInventory.RestockVariantsAgree | src/inventory.tsx:178-181 | the newer dialog's request equals the older page's with its zero counts dropped |
| LegacyInventory.AvailableHint | src/inventory.tsx:398-400 | the hint shows the chosen unit's bucket (the dialog's availability) with that unit's name |
| LegacyInventory.TotalStockValue | src/inventory.tsx:185 | equals the dashboard's stock-value fold |
| LegacyInventory.LegacyInventoryPage.constructor | src/inventory.tsx:116-124 | dialogs closed, sale form piece/1, restock form 0/0/''/'' |
| LegacyInventory.LegacyInventoryPage.OpenSale | src/inventory.tsx:307 | the sale dialog opens with the row's item (never disabled here) |
| LegacyInventory.LegacyInventoryPage.OpenRestock | src/inventory.tsx:313 | the restock dialog opens with the row's item |
| LegacyInventory.LegacyInventoryPage.EditSaleType | src/inventory.tsx:376 | only the sale type changes |
| LegacyInventory.LegacyInventoryPage.EditQuantity | src/inventory.tsx:390 | only the quantity changes, with the `|| 1` fallback |
| LegacyInventory.LegacyInventoryPage.EditPacks | src/inventory.tsx:450 | only the pack count changes, with the `|| 0` fallback |
| LegacyInventory.LegacyInventoryPage.EditPieces | src/inventory.tsx:461 | only the piece count changes, with the `|| 0` fallback |
| LegacyInventory.LegacyInventoryPage.EditPurchasePrice | src/inventory.tsx:472 | only the purchase-price text changes |
| LegacyInventory.LegacyInventoryPage.EditSellingPrice | src/inventory.tsx:484 | only the selling-price text changes |
| LegacyInventory.LegacyInventoryPage.HandleSale | src/inventory.tsx:165-172 | nothing without a selected item; otherwise the form goes out unchecked and the mutation is pending |
| LegacyInventory.LegacyInventoryPage.HandleRestock | src/inventory.tsx:174-183 | nothing without a selected item; otherwise the legacy payload goes out |
| LegacyInventory.LegacyInventoryPage.SaleSettled | src/inventory.tsx:147-152 | on success: inventory, todayProfit and productProfits invalidated, dialog closed, form reset to piece/1; on failure only the error recorded |
| LegacyInventory.LegacyInventoryPage.RestockSettled | src/inventory.tsx:158-161 | on success: only inventory invalidated, dialog closed, form reset to 0/0/''/'' |
| LegacyInventory.LegacyInventoryPage.CancelSale | src/inventory.tsx:413-417 | dialog closed, form reset to piece/1, mutation reset; restock side untouched |
| LegacyInventory.LegacyInventoryPage.CancelRestock | src/inventory.tsx:499-503 | dialog closed, form emptied, mutation reset; sale side untouched |
| LegacyInventory.OverStockSaleIsSent | src/inventory.tsx:405-408 | for every item, unit and non-zero quantity beyond that unit's bucket, this page sends exactly that sale although the newer dialog's guard disables Confirm for the same figures |
| QueryClient.Invalidate | src/hooks/useInventory.ts:33 | no entry added or dropped, data unchanged; an entry is stale afterwards iff it was stale or the filter is a prefix of its key |
| QueryClient.InvalidateAll | src/hooks/useInventory.ts:33-35 | a run of invalidations keeps the set of keys |
| QueryClient.InvalidateAllEffect | src/hooks/useInventory.ts:33-35 | after a run of invalidations an entry is stale iff it was stale or some filter matches it; data unchanged |
| QueryClient.UnmatchedUntouched | src/hooks/useInventory.ts:45-46 | an entry no filter matches is left exactly as it was |
| QueryClient.QueryCache.constructor | src/App.tsx:5-12 | the cache starts empty |
| QueryClient.QueryCache.InvalidateQueries | src/hooks/useAuth.ts:109 | the entries become `Invalidate` of the old ones |
| QueryClient.QueryCache.SetQueryData | src/hooks/useAuth.ts:40 | the key now holds the given data, fresh; other keys unchanged |
| QueryClient.QueryCache.Clear | src/hooks/useAuth.ts:82 | every entry is dropped |
| QueryClient.Settle | src/components/auth/login.tsx:11 | a settled mutation is never pending; succeeded iff the request succeeded, otherwise errored with its message |
| InventoryHooks.InventoryOptions | src/hooks/useInventory.ts:4-10 | key ['inventory'], always enabled, refreshed every 30000 ms |
| InventoryHooks.TodayProfitOptions | src/hooks/useInventory.ts:12-18 | key ['todayProfit'], always enabled, refreshed every 10000 ms |
| InventoryHooks.ProductProfitsOptions | src/hooks/useInventory.ts:20-25 | key ['productProfits'], always enabled, no timer |
| InventoryHooks.InventoryKeysIndependent | src/hooks/useInventory.ts:6-22 | none of the three keys is a prefix of another |
| InventoryHooks.SaleInvalidationExact | src/hooks/useInventory.ts:31-36 | after a sale an entry is stale iff it was or its key starts with inventory, todayProfit or productProfits; every other entry is unchanged |
| InventoryHooks.RestockInvalidationExact | src/hooks/useInventory.ts:45-47 | after a restock only inventory entries become stale; todayProfit and productProfits are unchanged |
| InventoryHooks.SaleSettled | src/hooks/useInventory.ts:30-37 | success applies the three invalidations in order; failure changes no entry |
| InventoryHooks.RestockSettled | src/hooks/useInventory.ts:43-48 | success invalidates inventory; failure changes no entry |
| TokenStorage.Storage.constructor | src/config/axios.config.ts:16 | storage holds the given token slot |
| TokenStorage.Storage.SetToken | src/services/auth.service.ts:23 | the slot holds the token |
| TokenStorage.Storage.RemoveToken | src/services/auth.service.ts:50 | the slot is empty |
| HttpClient.NewRequest | src/config/axios.config.ts:6-12 | a request carries the JSON content type and the 10000 ms timeout |
| HttpClient.WithBearer | src/config/axios.config.ts:14-23 | with a non-empty token the Authorization header is "Bearer " + token; otherwise the request is unchanged |
| HttpClient.BearerExactlyWhenToken | src/config/axios.config.ts:16-20 | a request has an Authorization header iff a non-empty token is stored, the header is the Bearer scheme followed by that token, and the timeout is always set |
| HttpClient.ErrorMessage | src/config/axios.config.ts:46-50 | never empty; the first non-empty of body error, body message, transport message, else "An unexpected error occurred" |
| HttpClient.ApiClient.constructor | src/config/axios.config.ts:6-12 | the client reads the given storage and has no default headers |
| HttpClient.ApiClient.Prepare | src/config/axios.config.ts:14-23 | the request interceptor: the request is `WithBearer` of the stored token, so every other header is kept and the Bearer header is added iff a token is stored; verb, path, params and timeout unchanged |
| HttpClient.ApiClient.Receive | src/config/axios.config.ts:31-53 | success passes through; every failure is rejected with its message; a 401 removes the token and the default Authorization header, any other outcome leaves both |
| AuthService.ReceiveSession | src/services/auth.service.ts:16-27 | a successful answer's token is stored iff non-empty, otherwise storage is unchanged; a 401 leaves no token and drops the default Authorization header; any other failure keeps both |
| AuthService.Login | src/services/auth.service.ts:16-27 | POST /login; the token is stored iff the answer carries a non-empty one, else kept; a 401 leaves no token and drops the default header; other failures keep both |
| AuthService.Register | src/services/auth.service.ts:29-40 | POST /register; the same storage and default-header outcome on every path as a login |
| AuthService.MeRequest | src/services/auth.service.ts:43-46 | GET /me |
| AuthService.Logout | src/services/auth.service.ts:49-51 | the token is gone whatever was stored, so a second logout changes nothing |
| AuthService.IsAuthenticated | src/services/auth.service.ts:53-55 | true iff a non-empty token is stored |
| AuthService.GetToken | src/services/auth.service.ts:58-60 | the stored token, or none |
| AuthService.BoolString | src/services/auth.service.ts:82 | "true" iff the flag is set, "false" iff not |
| AuthService.GetAllRequest | src/services/auth.service.ts:77-86 | GET /invites with showUsed sent as "true" or "false", false by default |
| AuthService.GenerateBody | src/services/auth.service.ts:66-74 | the given body, or an empty one by default |
| AuthService.RevokeRequest | src/services/auth.service.ts:89-94 | DELETE on a path starting with /invites/ |
| AuthService.RevokePathNamesId | src/services/auth.service.ts:91 | the id parses back from the revoke path, so distinct ids never share a path |
| AuthHooks.InvitesKey | src/hooks/useAuth.ts:14 | a two-part key under the invites prefix carrying the showUsed flag |
| AuthHooks.MeOptions | src/hooks/useAuth.ts:18-29 | key ['auth','me'], enabled iff a non-empty token exists, no retry, fresh for 300000 ms |
| AuthHooks.InviteCodesOptions | src/hooks/useAuth.ts:91-99 | key by showUsed (false by default), enabled iff a non-empty token exists, the default retry, fresh for 60000 ms |
| AuthHooks.SessionQueriesNeedToken | src/hooks/useAuth.ts:25 | both session queries run iff a non-empty token is stored, while the inventory query always runs |
| AuthHooks.InvitesKeysLayout | src/hooks/useAuth.ts:12-15 | the two invite lists are cached apart, both under the invites prefix; the session and inventory keys are not |
| AuthHooks.InviteInvalidationExact | src/hooks/useAuth.ts:109 | invalidating the prefix makes both invite lists stale and leaves the session, inventory, todayProfit and productProfits entries unchanged |
| AuthHooks.SessionState | src/hooks/useAuth.ts:37-48 | the login or registration mutation succeeds iff the request did, otherwise it carries the error message |
| AuthHooks.UseLogin | src/hooks/useAuth.ts:32-49 | on success the session entry holds the returned admin and the page goes to /inventory; on failure the cache is unchanged and the error is recorded; the stored token and default header follow the login's outcome on every path |
| AuthHooks.UseRegister | src/hooks/useAuth.ts:52-66 | the same cache, token and default-header outcome as a login, going to /dashboard |
| AuthHooks.UseLogout | src/hooks/useAuth.ts:71-88 | the token is removed, the cache is emptied, and the page goes to /login |
| AuthHooks.InvitesChanged | src/hooks/useAuth.ts:102-124 | a successful generate or revoke invalidates the invites prefix; a failure changes nothing |
| AuthContext.ContextValue | src/context/authContext.tsx:19-27 | admin is the `me` answer's admin or none; authenticated iff an admin is present; loading and error passed through |
| AuthContext.UseAuthContext | src/context/authContext.tsx:33-41 | fails with "useAuthContext must be used within AuthProvider" iff there is no provider; otherwise the provided value |
| AuthContext.MeFromCache | src/context/authContext.tsx:20 | the `me` data is present iff the session entry holds an admin |
| AuthContext.LoginAuthenticatesContext | src/context/authContext.tsx:23-25 | after a login writes the session entry the context is authenticated with that admin |
| AuthContext.LogoutDeauthenticatesContext | src/context/authContext.tsx:23-25 | after the cache is cleared the context has no admin and is not authenticated |
| AuthSchema.Rule | src/validation/auth.schema.ts:7-8 | a rule gives no issue iff it holds, otherwise exactly its own issue with its field's message |
| AuthSchema.Utf16Length | src/validation/auth.schema.ts:7-8 | the length the rules compare is in UTF-16 code units: between the character count and twice it |
| AuthSchema.Utf16LengthAppend | src/validation/auth.schema.ts:22 | the code-unit length of a concatenation is the sum of the lengths |
| AuthSchema.BmpLength | src/validation/auth.schema.ts:7-8 | for text without characters beyond the Basic Multilingual Plane the code-unit length is the character count |
| AuthSchema.SignupIssues | src/validation/auth.schema.ts:16-27 | the issues come in rule order, each with its own rule's message, no field twice |
| AuthSchema.SignupIssuesReport | src/validation/auth.schema.ts:18-27 | each rule's issue is present iff that rule fails; the username's comes first, the mismatch last |
| AuthSchema.ValidateLogin | src/validation/auth.schema.ts:6-9 | succeeds iff username ≥ 3 and password ≥ 8 UTF-16 code units, returning the data; otherwise the username issue comes first, and there are two issues iff both rules fail |
| AuthSchema.AstralPasswordAccepted | src/validation/auth.schema.ts:8 | a password of four emoji (four characters, eight code units) passes the length rule |
| AuthSchema.ValidateSignup | src/validation/auth.schema.ts:16-27 | succeeds iff every field rule (lengths in UTF-16 code units) and the password match hold, returning the data; otherwise each rule's issue is present iff that rule fails, in rule order with its own message, the username's first and the mismatch on confirmPassword last |
| AuthSchema.InviteCodeBoundary | src/validation/auth.schema.ts:22 | for a 32-code-unit code, dropping its last character or adding one both fail with the invite-code issue; the code itself passes when the rest does |
| AuthSchema.MismatchReportedWithShortPassword | src/validation/auth.schema.ts:20-27 | a short and mismatched password reports both issues, the mismatch last |
| AuthSchema.SignupImpliesLogin | src/validation/auth.schema.ts:18-20 | a valid sign-up's username and password pass the login schema |
| LoginPage.ShownError | src/components/auth/login.tsx:46-52 | shown iff there is a form error or a failed login; the form error wins |
| LoginPage.SubmitLabel | src/components/auth/login.tsx:79 | "Logging in..." iff the request is pending (and the inputs disabled) |
| LoginPage.LoginForm.constructor | src/components/auth/login.tsx:7-9 | empty fields, no error, nothing sent |
| LoginPage.LoginForm.EnterUsername | src/components/auth/login.tsx:59 | the username changes |
| LoginPage.LoginForm.EnterPassword | src/components/auth/login.tsx:68 | the password changes |
| LoginPage.LoginForm.HandleSubmit | src/components/auth/login.tsx:13-25 | an invalid form sets the first issue's message and sends nothing; a valid one clears the error and sends the parsed data once |
| LoginPage.LoginForm.LoginSettled | src/hooks/useAuth.ts:39-47 | the login's outcome is recorded; success writes the session entry and lands on /inventory; the stored token and default header follow the login's outcome on every path |
| LoginPage.ShortUsernameShownFirst | src/components/auth/login.tsx:17-22 | a short username's message is shown even over an earlier login error |
| LoginPage.ValidSubmitShowsServerError | src/components/auth/login.tsx:49 | without a form error the failed login's message is shown, and nothing while pending |
| InviteTable.StatusOf | src/components/adminDash/inviteTable.tsx:39-58 | Used iff used; Expired iff unused and expired strictly before now; Available otherwise |
| InviteTable.OrLabel | src/components/adminDash/inviteTable.tsx:66-70 | the value when non-empty, the fallback ("System" / "-") otherwise |
| InviteTable.RowFor | src/components/adminDash/inviteTable.tsx:38-96 | status, labels, and Copy / Revoke iff unused: Copy with the code, Revoke with the id, disabled while revoking |
| InviteTable.Rows | src/components/adminDash/inviteTable.tsx:38 | one row per code in order, row i being `RowFor` of code i (status, labels, actions iff not Used, Revoke with that code's id and disabled while revoking) |
| InviteTable.StatusMonotoneInTime | src/components/adminDash/inviteTable.tsx:39 | as time passes Available can turn Expired but never back; Used is time-independent |
| InviteTable.ExpiredCodesKeepActions | src/components/adminDash/inviteTable.tsx:74 | an expired code still offers Copy and Revoke |
| InviteDashboard.ListViewOf | src/components/pages/inviteDashboard.tsx:66-72 | spinner iff loading; "No invite codes found." iff loaded with an empty list; otherwise the table rows |
| InviteDashboard.Dashboard.constructor | src/components/pages/inviteDashboard.tsx:12-13 | used codes hidden, expiry 7 days, nothing sent |
| InviteDashboard.Dashboard.ListOptions | src/components/pages/inviteDashboard.tsx:15 | the list query follows the current showUsed flag |
| InviteDashboard.Dashboard.ToggleShowUsed | src/components/pages/inviteDashboard.tsx:59 | showUsed becomes the checkbox value |
| InviteDashboard.Dashboard.SetExpiresInDays | src/components/pages/inviteDashboard.tsx:46 | the expiry becomes the entered value |
| InviteDashboard.Dashboard.HandleGenerate | src/components/pages/inviteDashboard.tsx:19-21 | sends {expiresInDays} with the current value |
| InviteDashboard.Dashboard.HandleRevoke | src/components/pages/inviteDashboard.tsx:23-27 | the revoke is sent iff the user confirms |
| InviteDashboard.Dashboard.GenerateSettled | src/components/pages/inviteDashboard.tsx:16 | the mutation settles and a success invalidates the invites prefix |
| InviteDashboard.Dashboard.RevokeSettled | src/components/pages/inviteDashboard.tsx:17 | the mutation settles and a success invalidates the invites prefix |
| InviteDashboard.ShownListRefreshed | src/components/pages/inviteDashboard.tsx:15 | whichever list is shown becomes stale after a generate or revoke |
| InviteDashboard.RevokeLockedWhilePending | src/components/pages/inviteDashboard.tsx:143 | while a revoke is pending every offered Revoke is disabled |
| DateFormatter.FormatDateSlash | src/utils/dateFormatter.ts:72-80 | DD/MM/YYYY: two digits that parse back to the day, two that parse back to month index + 1, then the year unpadded |
| DateFormatter.TwoDigitDayUnpadded | src/utils/dateFormatter.ts:75-76 | a two-digit day is not padded |
| DateFormatter.StartOfDay | src/utils/dateFormatter.ts:53-57 | the last local midnight at or before the instant |
| DateFormatter.DayDifferenceCountsDays | src/utils/dateFormatter.ts:59-60 | the midnight difference in days equals the difference of the local day numbers |
| DateFormatter.FormatDateRelative | src/utils/dateFormatter.ts:48-67 | day difference 0 → "Today", 1 → "Yesterday", other below 7 → "n days ago", 7 or more → the date-only text |
| DateFormatter.SameLocalDayIsToday | src/utils/dateFormatter.ts:62 | two instants in the same local day give "Today" |
| DateFormatter.RecentDaysAgo | src/utils/dateFormatter.ts:64 | a date 2 to 6 whole days back reads as that one-digit count of days ago |
| DateFormatter.FutureDateReadsNegative | src/utils/dateFormatter.ts:64 | a date on the next local day reads "-1 days ago" |
| Decimal.NatToString | src/utils/dateFormatter.ts:75-76 | a non-empty string of decimal digits |
| Decimal.IntToString | src/services/auth.service.ts:91 | non-empty; digits, with a leading minus for negatives |
| Decimal.PadStart | src/utils/dateFormatter.ts:75 | the string when already long enough, otherwise padded on the left to the width with the pad character |
| Decimal.ParseNatToString | src/utils/dateFormatter.ts:75 | rendering a natural number and parsing it back gives the number |
| Decimal.IntToStringRoundTrip | src/services/auth.service.ts:91 | rendering an integer and parsing it back gives the integer |
| Decimal.NatToStringLength | src/utils/dateFormatter.ts:75-76 | one digit below 10, two from 10 to 99, more from 100 |
| Decimal.ParseNatLeadingZero | src/utils/dateFormatter.ts:75 | a leading '0' does not change the value |
| Decimal.PadTwoKeepsValue | src/utils/dateFormatter.ts:75-76 | padding a number below 100 to two digits keeps its value |

## Left out

- HTTP transport: requests are never sent. A call's answer or failure is an input, and `Prepare` and the request functions only shape the request. Request bodies other than the invite body are not modelled. The inventory endpoint wrappers are not part of this model.
- Library internals of the query cache are left out. This covers timers, background refetch, retry scheduling, request deduplication and out-of-order answers; they are concurrency. Only the transitions the code asks for are modelled: invalidate, clear, write, and the `enabled`, retry, staleTime and refetchInterval options.
- Server-side arithmetic: the derived stock fields and the profit figures are computed by the server. Their relation is the assumed predicate `ServerConsistent`, and stock is never decremented or incremented on the client.
- Floating point: `parseFloat` of price fields is a parameter, money is integral, and the margin is an exact real before `toFixed(1)`. Currency formatting with `Intl.NumberFormat` is not modelled.
- `Intl.DateTimeFormat` is left out: `formatDate`, `formatDateOnly` (it enters `FormatDateRelative` as a string), `formatDateLong`, `formatTimeOnly`, and `toLocaleDateString` of invite expiry. Date parsing, invalid dates and daylight-saving changes are also left out; the local zone is a fixed offset.
- E-mail format check: zod's regex is a boolean input of `ValidateSignup`.
- Presentation components are not modelled: the stats cards, profit table, toggle, headers, info card and the generate-invite form's layout. Toasts, navigation side effects (only the target path is returned), the clipboard, `alert` and `window.confirm` (a boolean input) are left out too.
- The stock fields are declared as required numbers, so each is a required integer. The `?.toString() || '0'` fallback for a missing field is therefore not modelled.
- The dashboard page repeats the invite table's markup inline instead of using the component. Both apply the same rules, so both are modelled by `InviteTable.Rows`.
- A 401 answer removes the stored token and the default Authorization header only. It does not clear the query cache, because the interceptor never touches it.
- No client-side sale validator exists beyond the disabled Confirm button, and responses carry no sequence numbers. Neither is modelled.
- Zod issue order: issues are listed in field order, with the password-match refinement last and evaluated even when a field rule failed. Zod treats these length failures as non-fatal. Only the first issue is ever shown.
- `InviteDashboard.Dashboard.SetExpiresInDays`: a cleared number field is NaN, and `None` stands for it. The HTTP body then carries null; JSON serialisation is not modelled.
