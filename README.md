# TeeBC storefront: a verified model of its record keeping

TeeBC is a small browser storefront for themed T-shirts, posters and bags.
All of its state lives in the browser's local storage:

- the order ledger (`orders`);
- the user accounts (`users`), the signed-in user (`currentUser`, `isLoggedIn`);
- the cart (`cart`);
- a simulated per-user inbox (`userEmails`).

This project models the code that reads and writes those tables:

- the order ledger;
- the account manager;
- the profile page's data logic;
- the shop script's cart, catalog filters and detail page;
- the checkout pipeline.

It also proves what each operation promises.

Modules follow the program's files:

| module | file | contents |
|---|---|---|
| `Wrappers` | — | `Option` and `Result` |
| `Seqs` | — | `Filter`, `FindIndex` and `Take` (the `filter`, `findIndex` and `slice` of JavaScript arrays) |
| `Text` | — | `trim`, `toLowerCase` on ASCII, the e-mail pattern, the zip pattern, `includes` and decimal digits |
| `Money` | — | integer cents, half-away-from-zero rounding and `toFixed(2)` |
| `Storage` | — | the records and the class `LocalStore`, which has one field per local-storage key |
| `Orders` | `js/order-manager.js` | the order ledger |
| `Auth` | `js/auth-manager.js` | the account manager |
| `Profile` | `js/profile-manager.js` | the profile page |
| `Shop` | `script.js` | the shop script |
| `Checkout` | `js/checkout.js` | the checkout page |

Modelling choices:

- **Money.** Amounts are integer cents. `toFixed(2)` on a whole number of cents is `FormatCents`. The 10% tax is rounded half away from zero to the cent.
- **Clock and randomness.** They are parameters: a `Clock` with the epoch milliseconds and the local calendar fields, and a `random` number.
- **Managers.** Each manager class holds one shared `LocalStore`. Its methods name the fields they write in `modifies` clauses.
- **Pure parts.** Queries and validators are functions. The method that performs an operation is proved against them.
- **Form inputs.** A missing page element is `None`. A value the script would read from an absent element, which throws, becomes the error path the script's `catch` takes.

## Model

| member | source | states |
|---|---|---|
| `Seqs.Filter` | js/order-manager.js:288-291 | the kept elements are exactly the elements of the input that pass the test |
| `Seqs.FilterAppend` | js/order-manager.js:142-153 | filtering a concatenation is concatenating the filtered parts, so appending to the ledger appends to every query's result |
| `Seqs.FilterKeepsAll` | js/order-manager.js:454-464 | the filter keeps the length exactly when every element passes, and then returns the input |
| `Seqs.FilterDropsAll` | js/order-manager.js:454-464 | the filter is empty exactly when no element passes |
| `Seqs.FindIndex` | js/order-manager.js:173-179 | the index is the first element that passes, or the length when none does |
| `Seqs.Take` | script.js:720-722 | `slice(0, n)` is the prefix of length min(n, length) |
| `Text.Trim` | js/auth-manager.js:37 | `String.prototype.trim`; `TrimSlice`, `TrimEmptyIff`, `TrimIdempotent` and `TrimIgnoresPadding` state its properties |
| `Text.TrimStart` | js/auth-manager.js:37 | drops exactly the leading whitespace, and what is left does not start with whitespace |
| `Text.TrimEnd` | js/auth-manager.js:37 | drops exactly the trailing whitespace, and what is left does not end with whitespace |
| `Text.TrimSlice` | js/auth-manager.js:37 | `trim` gives a slice of the input with only whitespace around it, and no whitespace at either end of the slice |
| `Text.TrimEmptyIff` | js/checkout.js:236 | a string trims to empty exactly when it is whitespace only |
| `Text.TrimIdempotent` | js/checkout.js:365-367 | trimming twice is trimming once |
| `Text.TrimIgnoresPadding` | js/auth-manager.js:37 | padding a trimmed string with whitespace and trimming again gives it back |
| `Text.ToLower` | js/auth-manager.js:51 | `toLowerCase` on ASCII letters; the result has the input's length, and `ToLowerIdempotent` states that it is idempotent |
| `Text.ToLowerIdempotent` | js/auth-manager.js:51 | lowercasing twice is lowercasing once |
| `Text.NormalizeIdempotent` | js/order-manager.js:58 | the stored `toLowerCase().trim()` form of an address is its own normal form |
| `Text.NormalizeIgnoresCaseAndPadding` | js/order-manager.js:142-153 | case and surrounding whitespace do not change an address's normal form |
| `Text.IsValidEmail` | js/auth-manager.js:298-301 | `validateEmail`, stated by the position of the `@`; `EmailRegexEquivalent` states its agreement with the pattern |
| `Text.EmailRegexEquivalent` | js/auth-manager.js:298-301 | the e-mail test holds exactly when the input matches `^[^\s@]+@[^\s@]+\.[^\s@]+$`, stated as "some @ splits it into a local part and a domain that has a dot with text on both sides" |
| `Text.ValidEmailIsTrimmed` | js/auth-manager.js:298-301 | an address that passes the pattern holds no whitespace, so `trim` leaves it alone |
| `Text.ValidEmailNormalizes` | js/auth-manager.js:62 | lowercasing keeps an address valid, and its normal form is its lowercase form |
| `Text.IsValidZip` | js/profile-manager.js:831-835 | `validateZipCode`: three to ten letters, digits, spaces or dashes; `ZipIgnoresCase` states that case does not matter |
| `Text.ZipIgnoresCase` | js/profile-manager.js:831-835 | the zip pattern ignores case and admits 3 to 10 characters only |
| `Text.Includes` | script.js:456 | `includes` holds exactly when the needle occurs at some position of the haystack |
| `Text.Digits` | js/order-manager.js:257-268 | the decimal digits of a number read back as that number; one digit exactly below 10 |
| `Text.DigitsWidth` | js/order-manager.js:257-268 | a number below 10^w has at most w digits, one at least 10^(w-1) has at least w |
| `Text.PadStart` | js/order-manager.js:260-265 | `padStart(w, '0')` gives max(w, length) characters ending in the input |
| `Text.LeadingZerosValue` | js/order-manager.js:260-265 | leading zeros do not change a decimal value |
| `Text.PaddedRoundTrip` | js/order-manager.js:260-265 | a number padded to w digits (when it has at most w) is w digits that read back as the number |
| `Money.RoundDiv` | js/order-manager.js:218-220 | rounding n/d to the nearest whole number, halves away from zero, is within half of n/d |
| `Money.RoundDivUnique` | js/order-manager.js:218-220 | the rounded quotient is the only number within that half-unit window |
| `Money.FormatCents` | script.js:263 | `toFixed(2)` on cents; `FormatCentsReadsBack` and `FormatCentsParses` state that it reads back |
| `Money.FormatCentsReadsBack` | script.js:263 | `toFixed(2)` of a non-negative amount is its whole units, a dot and two digits, and those read back as the amount |
| `Money.FormatCentsParses` | script.js:263 | a non-negative amount renders as digits, a dot and two decimals that read back to the amount in cents |
| `Storage.LocalStore.constructor` | js/order-manager.js:14-19 | an empty local storage, with no user, no cart, no orders and no inbox |
| `Orders.OrNull` | js/checkout.js:377 | `x \|\| null`: a non-empty string is kept, and a missing or empty one gives `null`, so the result is never empty |
| `Orders.Subtotal` | js/order-manager.js:202-212 | `calculateSubtotal`: price (or zero) times quantity (or one), added left to right; `SubtotalAppend`, `SubtotalNonnegative`, `OrderTotals` and `LinesKeepSubtotal` state its properties |
| `Orders.SubtotalAppend` | js/order-manager.js:202-211 | the `reduce` over price × quantity is additive over concatenation |
| `Orders.SubtotalNonnegative` | js/order-manager.js:202-211 | non-negative prices and quantities give a non-negative subtotal |
| `Orders.Tax` | js/order-manager.js:218-220 | the tax is the nearest cent to 10% of the subtotal |
| `Orders.Total` | js/order-manager.js:229-232 | `calculateTotal`: on whole cents, `toFixed(2)` leaves the sum unchanged; `OrderTotals` and `TotalRoundsOnce` state the total it gives |
| `Orders.OrderTotals` | js/order-manager.js:239-251 | the totals hold the subtotal, the 5.00 fee, the rounded tax, and their sum as total |
| `Orders.TotalRoundsOnce` | js/order-manager.js:218-232 | rounding the tax before adding it gives the total as the nearest cent to 110% of the subtotal, plus the fee |
| `Orders.TaxedRoundsOnce` | js/order-manager.js:218-232 | a subtotal plus its tax rounded to the cent equals 110% of the subtotal rounded to the cent once |
| `Orders.TwoShirtsScenario` | js/order-manager.js:6-7 | one line of 29.99 × 2 gives subtotal 59.98, tax 6.00 and total 70.98 |
| `Orders.GenerateOrderId` | js/order-manager.js:257-269 | `generateOrderId`: `ORD-`, the date, the time and four padded digits; `OrderIdRoundTrip`, `IdShape` and `OrderIdCollision` state what the id encodes |
| `Orders.OrderIdRoundTrip` | js/order-manager.js:257-268 | for a four-digit year and a random number below 10000, the id is 24 characters shaped `ORD-` + 8 digits + `-` + 6 digits + `-` + 4 digits, and every clock field and the random number read back out of it |
| `Orders.IdShape` | js/order-manager.js:266 | the id layout is fixed by the field widths, whatever the digits are |
| `Orders.OrderIdCollision` | js/order-manager.js:257-268 | two ids are equal only when the clock agrees to the second and the random numbers are equal |
| `Orders.ParseStatus` | js/order-manager.js:173-176 | a name is accepted only as the name of a state |
| `Orders.StatusName` | js/order-manager.js:173 | the five status names; `StatusNameRoundTrip` and `ParseStatus` state that they parse back |
| `Orders.StatusNameRoundTrip` | js/order-manager.js:173-176 | all five state names are accepted, each denoting its own state |
| `Orders.LinesOf` | js/order-manager.js:73-82 | the `items.map` of `createOrder`; `LinesKeepSubtotal` states that recomputing the subtotal over the stored lines gives the subtotal of the input items |
| `Orders.LinesKeepSubtotal` | js/order-manager.js:73-82 | each stored line keeps the price and the counted quantity, so adding up the stored lines gives the same subtotal as `calculateSubtotal` over the input items |
| `Orders.NewOrder` | js/order-manager.js:57-91 | the record `createOrder` builds; `NewOrderWellFormed` and `CreatedOrderFound` state its properties |
| `Orders.NewOrderWellFormed` | js/order-manager.js:48-92 | the new order is pending, owned by the normalized address, its totals add up, it has one line per item, and its stored lines add up to its subtotal |
| `Orders.UserOrders` | js/order-manager.js:131-154 | an empty lookup address gives no orders; otherwise exactly the orders whose normalized owner equals the normalized lookup address, in ledger order |
| `Orders.UserOrdersAppend` | js/order-manager.js:131-154 | appending an order appends it to its owner's list and to no other list |
| `Orders.CreatedOrderFound` | js/order-manager.js:142-153 | a new order is found under any spelling of its address that differs only in case and padding |
| `Orders.OrderById` | js/order-manager.js:161-164 | the first order with the id, and `null` exactly when there is none |
| `Orders.OrdersByStatus` | js/order-manager.js:288-291 | exactly the orders in that state, and none for a name that is not a state |
| `Orders.OrdersByDateRange` | js/order-manager.js:300-306 | exactly the orders created in the closed interval, and none when the interval is empty |
| `Orders.SetStatus` | js/order-manager.js:185-187 | the update keeps the ledger's length |
| `Orders.SetStatusChangesFirstMatch` | js/order-manager.js:173-195 | only the first order with the id changes, taking the new state and update time; every other order is unchanged |
| `Orders.SetStatusTwice` | js/order-manager.js:173-195 | a second update to the same state only moves the update time |
| `Orders.WithoutOrder` | js/order-manager.js:454-464 | exactly the orders with another id, and the length is kept exactly when none had the id |
| `Orders.CountsSnoc` | js/order-manager.js:317-333 | counting one more order increments exactly the counter of its state and adds its total to the amount spent |
| `Orders.StatusCountsAddUp` | js/order-manager.js:313-341 | the five state counts add up to the number of orders |
| `Orders.Tally` | js/order-manager.js:317-333 | the loop's amount and counters are the amount spent and the state counts of the list |
| `Orders.UserOrderStatistics` | js/order-manager.js:313-341 | the statistics of a user's orders: their number, amount spent and state counts |
| `Orders.OrderManager.SaveOrder` | js/order-manager.js:104-111 | the ledger gains the order at its end |
| `Orders.OrderManager.CreateOrder` | js/order-manager.js:36-98 | a missing or empty item list, then a missing shipping address or e-mail, is refused with the ledger unchanged; otherwise exactly one pending, well-formed order computed from the input is appended |
| `Orders.OrderManager.UpdateOrderStatus` | js/order-manager.js:172-195 | an unknown state name throws, an unknown id gives `false`, and both leave the ledger unchanged; otherwise only the first match changes and the answer is `true`; well-formedness is kept |
| `Orders.OrderManager.DeleteOrder` | js/order-manager.js:454-464 | the ledger becomes the orders with another id; the answer is `false` exactly when nothing was removed |
| `Orders.OrderManager.ClearAllOrders` | js/order-manager.js:445-447 | the ledger becomes empty |
| `Auth.GetSafeUser` | js/auth-manager.js:287-291 | `null` maps to `null` and a user maps to a user |
| `Auth.Safe` | js/auth-manager.js:287-291 | the account without its password; `GetSafeUser`, `SafeRoundTrip` and `SafeIgnoresPassword` state its properties |
| `Auth.SafeRoundTrip` | js/auth-manager.js:287-291 | the safe view drops only the password: putting the password back gives the user |
| `Auth.SafeIgnoresPassword` | js/auth-manager.js:287-291 | the safe view does not depend on the password |
| `Auth.EmailExists` | js/auth-manager.js:308-311 | `emailExists`: some account has the address, ignoring case; `EmailExistsAppend`, `EmailExistsIgnoresCase` and `UserByEmail` (found exactly when it exists) state what it means |
| `Auth.EmailExistsAppend` | js/auth-manager.js:308-311 | after an account is appended, an address is taken exactly when an earlier account or the new one has it, ignoring case |
| `Auth.EmailExistsIgnoresCase` | js/auth-manager.js:308-311 | asking with the lowercased address gives the same answer as asking with the address as typed |
| `Auth.UserByEmail` | js/auth-manager.js:277-280 | the first user equal to the address ignoring case, present exactly when one exists |
| `Auth.Authenticate` | js/auth-manager.js:93-110 | `login`'s `find` succeeds exactly when some user matches the address ignoring case and the password exactly |
| `Auth.AuthenticateIsLookupThenCompare` | js/auth-manager.js:93-110 | with distinct addresses, that is the same as a lookup by address followed by a comparison of passwords |
| `Auth.RegistrationError` | js/auth-manager.js:37-55 | registration is accepted exactly when the trimmed name has at least 2 characters, the address is valid, the password has at least 6 characters and no account has that address ignoring case; the first failing check names the error |
| `Auth.NewUser` | js/auth-manager.js:57-69 | the account `register` builds; `NewUserEmail`, `RegisterKeepsEmailsDistinct` and `RegisteredUserCanSignIn` state its properties |
| `Auth.NewUserEmail` | js/auth-manager.js:58-70 | a new account stores the address lowercased and trimmed, the trimmed name, no addresses and no default |
| `Auth.RegisterKeepsEmailsDistinct` | js/auth-manager.js:50-72 | accepted registrations keep addresses distinct ignoring case |
| `Auth.RegisteredUserCanSignIn` | js/auth-manager.js:58-110 | after registering, signing in with the same address and password finds the new account |
| `Auth.Merge` | js/auth-manager.js:205-212 | `{ ...user, ...safeUpdates }` and then the password only when one is given; `MergeIdempotent`, `MergeKeepsPasswordApart`, `MergeFull` and `PasswordOnlyChangesPassword` state its properties |
| `Auth.MergeIdempotent` | js/auth-manager.js:198-211 | merging the same update twice is merging it once |
| `Auth.MergeKeepsPasswordApart` | js/auth-manager.js:202-211 | the password never enters the field merge; an empty password leaves the stored one |
| `Auth.MergeFull` | js/auth-manager.js:198-211 | merging a whole user record sets every field, and sets the password only when it is not empty |
| `Auth.PasswordOnlyChangesPassword` | js/auth-manager.js:206-211 | an update carrying only a non-empty password changes only the password |
| `Auth.IndexOfEmail` | js/auth-manager.js:198 | the first user with exactly that address, or the length |
| `Auth.IndexOfEmailAfterWrite` | js/auth-manager.js:198-215 | writing a user with the same address back leaves the user at the same index |
| `Auth.IndexOfEmailAfterRename` | js/auth-manager.js:198-215 | with distinct addresses, renaming the user makes the old address unknown |
| `Auth.AuthManager.constructor` | js/auth-manager.js:5-23 | the manager starts from the stored signed-in user |
| `Auth.AuthManager.Init` | js/auth-manager.js:13-23 | a stored signed-in user replaces the one in memory |
| `Auth.AuthManager.IsLoggedIn` | js/auth-manager.js:169-171 | someone is in memory and the stored flag is `true`; `SetCurrentUser`, `Logout` and `UpdateUser` state how it changes or how it is used |
| `Auth.AuthManager.SetCurrentUser` | js/auth-manager.js:177-186 | the user in memory and in storage is the given one, and the flag is `"true"` exactly when there is a user |
| `Auth.AuthManager.Logout` | js/auth-manager.js:120-130 | no user in memory or in storage, and the flag `"false"`: no longer signed in |
| `Auth.AuthManager.Register` | js/auth-manager.js:33-84 | a rejection leaves the accounts and the session unchanged; an acceptance appends exactly the new account and signs it in; distinct addresses are kept |
| `Auth.AuthManager.Login` | js/auth-manager.js:92-115 | an empty address or password is refused; otherwise success exactly when `Authenticate` finds the account, which then becomes the signed-in user; a failure changes nothing |
| `Auth.AuthManager.GetCurrentUser` | js/auth-manager.js:136-141 | the user in memory is reloaded from storage when missing, and the password is stripped from the answer |
| `Auth.AuthManager.GetCurrentUserFull` | js/auth-manager.js:148-163 | the stored account with the signed-in address ignoring case, else the user in memory, else `null` |
| `Auth.AuthManager.UpdateUser` | js/auth-manager.js:193-222 | when signed out, or when the address is not in the accounts, the update fails with nothing changed; otherwise only the user at that index is merged and becomes the signed-in user |
| `Auth.AuthManager.PasswordChangeError` | js/auth-manager.js:230-249 | the password change is accepted exactly when signed in, the current password is non-empty and equals the stored one, and the new password has at least 6 characters and differs from the current one |
| `Auth.AuthManager.ChangePassword` | js/auth-manager.js:230-257 | the first failing check is the answer and changes nothing; once every check passes and the signed-in account exists, the change succeeds; a success replaces only that account's password |
| `Auth.AuthManager.GetUserOrders` | js/auth-manager.js:317-323 | no orders when signed out; otherwise the signed-in user's orders from the ledger |
| `Auth.AuthManager.GetUserEmails` | js/auth-manager.js:329-335 | the signed-in user's inbox, and an empty one when signed out or when no inbox exists yet |
| `Auth.AuthManager.AddUserEmail` | js/auth-manager.js:341-355 | when signed in, the stamped message goes first in the user's inbox, which is created if missing; when signed out nothing changes; every other inbox is unchanged |
| `Auth.Stamped` | js/auth-manager.js:349-353 | a message gains an id and a date when it has none, and keeps everything else |
| `Auth.ExactLookupMatchesLedger` | js/auth-manager.js:317-323 | on a ledger of normalized owners and a normalized address, the exact-address filter equals the normalized lookup of `getUserOrders` |
| `Profile.ValidateName` | js/profile-manager.js:818-820 | `validateName`: at least two characters once trimmed; `ValidateNameIgnoresPadding` and `RegisteredNameValidates` state its properties |
| `Profile.ValidatePassword` | js/profile-manager.js:827-829 | `validatePassword`: at least six characters; `PasswordFormValid` and `HandlePasswordSubmit` use it |
| `Profile.ValidateNameIgnoresPadding` | js/profile-manager.js:818-820 | the name test ignores surrounding whitespace |
| `Profile.RegisteredNameValidates` | js/profile-manager.js:818-820 | the name of an account registration accepted also passes the profile's name test |
| `Profile.AcceptableIffNoFailure` | js/profile-manager.js:400-432 | an address is acceptable exactly when none of its six field checks fails |
| `Profile.ReplaceAddress` | js/profile-manager.js:454-458 | editing replaces the first address with that id and keeps the length; an unknown id changes nothing |
| `Profile.SaveAddress` | js/profile-manager.js:436-468 | the user after an address submit; `SaveAddressShape` and `SaveAddressKeepsDefaultValid` state its properties |
| `Profile.SaveAddressShape` | js/profile-manager.js:454-468 | adding appends one address; editing a known id replaces it in place; a checked default points at the saved address |
| `Profile.SaveAddressKeepsDefaultValid` | js/profile-manager.js:454-468 | saving an address keeps the default pointing at an existing address |
| `Profile.RemoveAddress` | js/profile-manager.js:495-500 | every address with the id is removed and the rest are kept in order; the default is cleared only when it was that id; nothing else changes |
| `Profile.RemoveAddressKeepsDefaultValid` | js/profile-manager.js:495-500 | deleting an address keeps the default pointing at an existing address |
| `Profile.MakeDefault` | js/profile-manager.js:523-529 | the default becomes a known id, and nothing else changes |
| `Profile.RetagOrders` | js/profile-manager.js:930-938 | exactly the orders with the old address get the new one; nothing else changes |
| `Profile.RetagMovesOrders` | js/profile-manager.js:930-938 | no order keeps the old address, and the new address gains all of them |
| `Profile.MoveInbox` | js/profile-manager.js:943-952 | the old address's inbox moves to the new key and the old key is deleted; without an old key the map is unchanged; other keys are unchanged |
| `Profile.CascadeTarget` | js/profile-manager.js:262-269 | the cascade is aimed at the stored (lowercased and trimmed) address, and runs only when that differs from the old address |
| `Profile.CascadeKeepsDataReachable` | js/profile-manager.js:262-269 | after the corrected cascade, the inbox and the orders are found under the account's new address |
| `Profile.CascadeAsWrittenLosesInbox` | js/profile-manager.js:262-269 | as written, retyping `a@b.co` as `A@b.co` moves the inbox and the orders to `A@b.co` while the account keeps `a@b.co`, so neither is found under the account's address |
| `Profile.EmailTakenByOther` | js/profile-manager.js:244-246 | the taken-address check: another account, not the one with exactly the old address, has the typed address ignoring case; `RenameKeepsEmailsDistinct` states what it guards |
| `Profile.RenamedUser` | js/profile-manager.js:258-264 | the user after the personal-info form; `RenameKeepsEmailsDistinct` and `ApplyInfo` state its properties |
| `Profile.RenameKeepsEmailsDistinct` | js/profile-manager.js:243-263 | an address change that passed the taken-by-another check keeps addresses distinct ignoring case |
| `Profile.PasswordFormValid` | js/profile-manager.js:620-652 | the password form's checks all pass; `HandlePasswordSubmit` states that a change is attempted only then |
| `Profile.ProfileManager.CloseAddressModal` | js/profile-manager.js:346-350 | no address is being edited |
| `Profile.ProfileManager.EditAddress` | js/profile-manager.js:355-377 | the address being edited becomes the id when the signed-in user has that address, and is otherwise unchanged |
| `Profile.ProfileManager.UpdateCurrentUser` | js/profile-manager.js:181-189 | a success merges the whole record into the signed-in account's entry and signs it in; a failure changes nothing |
| `Profile.ProfileManager.WriteUser` | js/profile-manager.js:253-279 | writes the account at the index; for the signed-in account, found by its address, the stored list has just that entry replaced; a user in memory stays in memory, under the same address when the account keeps it |
| `Profile.ProfileManager.CheckAddress` | js/profile-manager.js:400-432 | every check runs: each field's error is shown exactly when its check fails, and the answer is that the address is acceptable |
| `Profile.ProfileManager.HandleAddressSubmit` | js/profile-manager.js:382-479 | an unacceptable address shows exactly its failing fields and saves nothing; an acceptable one is added or edited in place, with the default updated as checked |
| `Profile.ProfileManager.StoreAddress` | js/profile-manager.js:436-475 | when signed out or without an account nothing changes; otherwise the user's addresses become `SaveAddress`'s result |
| `Profile.ProfileManager.DeleteAddress` | js/profile-manager.js:484-508 | when written, the signed-in account's entry becomes `RemoveAddress`'s result; otherwise the accounts are unchanged |
| `Profile.ProfileManager.SetDefaultAddress` | js/profile-manager.js:513-536 | the default changes only when the user has the address; otherwise the accounts are unchanged |
| `Profile.ProfileManager.UpdateOrdersEmail` | js/profile-manager.js:930-938 | the loop retags exactly the orders with the old address |
| `Profile.ProfileManager.UpdateEmailsEmail` | js/profile-manager.js:943-952 | the inbox map after the move is `MoveInbox`'s result |
| `Profile.ProfileManager.HandleInfoSubmit` | js/profile-manager.js:208-288 | an invalid name is reported first, then an invalid e-mail, then an address taken by another user; none of these changes anything; a save renames the user, aims the cascade at the stored address, and keeps addresses distinct |
| `Profile.ProfileManager.ApplyInfo` | js/profile-manager.js:253-280 | the user at the old address's index takes the trimmed name and the stored address; orders and inbox follow; addresses stay distinct |
| `Profile.ProfileManager.Cascade` | js/profile-manager.js:262-269 | orders and inbox move to the target, when there is one |
| `Profile.ProfileManager.FullUser` | js/profile-manager.js:145-176 | no account for an empty address; for a non-empty one, an account is found exactly when some stored account has the address ignoring case, and it is the first such account |
| `Profile.ProfileManager.CurrentUserFull` | js/profile-manager.js:145-176 | the full record of the reloaded signed-in user |
| `Profile.ProfileManager.HandlePasswordSubmit` | js/profile-manager.js:603-689 | signed out is reported when there is no user; otherwise every check runs and the password changes only when all pass; a rejection leaves the accounts unchanged |
| `Shop.CatalogValid` | script.js:2-16 | the catalog is non-empty and its ids are distinct |
| `Shop.FindProduct` | script.js:184 | `find` by id gives a catalog product with that id, and nothing exactly when no product has it |
| `Shop.FindProductFindsEach` | script.js:184 | with distinct ids, each product is found by its own id |
| `Shop.CartCount` | script.js:216-217 | `updateCartCount`: the pieces in the cart, added up; `AddedLineCounts` states how adding a line changes it |
| `Shop.CartValue` | script.js:244-248 | the total `renderCart` adds up; `RenderCartTotal` and `SubtotalIsCartValue` state what it is |
| `Shop.CartAppend` | script.js:216-217 | the cart count and the cart value add up over concatenation |
| `Shop.AddedLineCounts` | script.js:187-198 | an added line raises the count by its quantity and the value by price × quantity |
| `Shop.RemovalSplitsCart` | script.js:205-206 | the kept and removed lines split the count and the value |
| `Shop.RemoveAbsentOrTwice` | script.js:205-206 | removing an absent id changes nothing, and removing twice is removing once |
| `Shop.Increment` | script.js:685-695 | the plus button adds one only below 10 |
| `Shop.Decrement` | script.js:666-676 | the minus button subtracts one only above 1 |
| `Shop.StepsStayAccepted` | script.js:666-695 | from a quantity in 1..10 either button stays in 1..10 |
| `Shop.PressesStayAccepted` | script.js:666-695 | any sequence of presses stays in 1..10 |
| `Shop.Matches` | script.js:455-460 | the three conditions of `applyFilters`; `VisibleExactly` states that a product is shown exactly when it meets them |
| `Shop.Visible` | script.js:455-461 | the filtered catalog; `VisibleExactly`, `EmptySearchKeepsAffordable` and `ClearedFiltersListAll` state its properties |
| `Shop.VisibleExactly` | script.js:455-460 | a product is listed exactly when its lowercased name contains the lowercased search, the category set is empty or holds its category, and its price is at most the maximum |
| `Shop.EmptySearchKeepsAffordable` | script.js:455-460 | with no search and no categories, a catalog within the price limit is listed whole, in order |
| `Shop.ClearedFiltersListAll` | script.js:432-442 | the reset filters (empty search, no category, 200) list the whole catalog |
| `Shop.SortByPrice` | script.js:464-470 | the in-place sort leaves the array sorted by price in the chosen direction and a permutation of its input |
| `Shop.ApplyFilters` | script.js:446-480 | the grid shows a permutation of the matching products; sorted ascending for `price-low`, descending for `price-high`, otherwise in catalog order |
| `Shop.CurrentProduct` | script.js:483-486 | the product with the requested id, else the first product |
| `Shop.Related` | script.js:715-722 | the corrected related strip; `RelatedProperties` states its properties |
| `Shop.RelatedProperties` | script.js:715-729 | at most four related products, a prefix of the same-category products in catalog order, never the product shown |
| `Shop.RelatedAsWritten` | script.js:717-722 | the related strip as written; `RelatedAsWrittenAgreesOnKnownIds`, `RelatedAsWrittenListsFallback` and `RelatedAsWrittenListsShownProduct` state how it differs |
| `Shop.RelatedAsWrittenAgreesOnKnownIds` | script.js:717-722 | for a known id the filter as written and the corrected one agree |
| `Shop.RelatedAsWrittenListsFallback` | script.js:717-722 | for an unknown id, the fallback product is shown and, as written, is also its own first related product |
| `Shop.RelatedAsWrittenListsShownProduct` | script.js:717-722 | on the shipped catalog, id 99 shows the first product and lists it as related |
| `Shop.ChosenSize` | script.js:614-615 | the active size button's size when one is active; otherwise the product's first size; otherwise `M` |
| `Shop.ChosenColor` | script.js:625-626 | the active color button's color when one is active; otherwise the product's first color, and none exactly when the product has no colors |
| `Shop.Storefront.constructor` | script.js:2-18 | the storefront starts on the shipped catalog, which is valid |
| `Shop.Storefront.IsLoggedIn` | script.js:44-46 | the stored flag is `true` and a current user is stored; `SetCurrentUser` states how it changes |
| `Shop.Storefront.UserEmails` | script.js:98-103 | the stored user's inbox, or none; `AddUserEmail` states how it grows |
| `Shop.Storefront.SetCurrentUser` | script.js:25-42 | the stored user is the given one, and the flag says whether there is one |
| `Shop.Storefront.AddUserEmail` | script.js:105-114 | with a signed-in user the raw message goes first in that user's inbox; otherwise nothing changes; other inboxes are unchanged |
| `Shop.Storefront.AddToCart` | script.js:183-203 | an unknown product leaves the cart unchanged; a known one appends exactly its snapshot with the given size, quantity and color, and the count rises by the quantity |
| `Shop.Storefront.RemoveFromCart` | script.js:205-210 | the cart keeps exactly the other lines, in order; the count falls by the removed quantity |
| `Shop.Storefront.RenderCartTotal` | script.js:244-263 | the loop's total is the cart's value, shown with two decimals |
| `Shop.Storefront.AddFromDetailPage` | script.js:609-632 | a quantity outside 1..10 is refused with the cart unchanged; otherwise the shown product is added with the chosen size and color |
| `Shop.EmptyCartShowsZero` | script.js:244-263 | an empty cart shows `0.00` |
| `Checkout.Trimmed` | js/checkout.js:312-318 | a present field reads as a string with no surrounding whitespace, empty exactly when the field is blank; a missing element stays missing |
| `Checkout.ValidateField` | js/checkout.js:230-243 | passes when the element is absent, else when the value is not blank; `ValidatorsFailOnBlank` states that a blank value fails |
| `Checkout.ValidateEmailField` | js/checkout.js:248-257 | a present value matching the e-mail pattern; `ValidateEmailFieldIsPattern` and `AutoFilledEmailValidates` state its properties |
| `Checkout.ValidateZipField` | js/checkout.js:262-270 | a present, non-blank value, so a missing element fails; `ValidatorsFailOnBlank` and `ClearedFormNeverValidates` state its properties |
| `Checkout.ValidatorsFailOnBlank` | js/checkout.js:230-270 | a present value fails exactly when it is whitespace only; a missing element passes the field check and fails the zip check |
| `Checkout.ValidateEmailFieldIsPattern` | js/checkout.js:248-257 | the e-mail check holds exactly when the value matches the e-mail pattern |
| `Checkout.FormValid` | js/checkout.js:311-331 | all seven checks pass; `FormValidIffAllPass` and `ValidateForm` state its meaning |
| `Checkout.FormValidIffAllPass` | js/checkout.js:311-331 | the form is valid exactly when all seven checks pass |
| `Checkout.ValidateForm` | js/checkout.js:311-331 | every check runs: each field is flagged exactly when its check fails, and the answer is that the form is valid |
| `Checkout.OrderEmail` | js/checkout.js:355-367 | the signed-in user's address, lowercased and trimmed, when that is not empty; otherwise the form's address, lowercased and trimmed |
| `Checkout.OrderEmailNormalized` | js/checkout.js:355-367 | the order address is in normal form |
| `Checkout.ValidFormHasOrderEmail` | js/checkout.js:355-367 | after validation the order address is never empty |
| `Checkout.ShippingOf` | js/checkout.js:369-378 | the shipping record exists exactly when every element read with `.value` exists; it carries the order address, and an empty phone becomes `null` |
| `Checkout.ItemsOf` | js/checkout.js:385-388 | the order receives the cart's lines one by one |
| `Checkout.SubtotalIsCartValue` | js/checkout.js:385-388 | when no line has a zero quantity, the order's subtotal is the cart value the sidebar showed |
| `Checkout.Placed` | js/checkout.js:336-405 | an order is placed exactly when the form is valid, the cart is not empty and every element read with `.value` exists |
| `Checkout.PlacedOrder` | js/checkout.js:369-392 | a placed order is pending, owned by the order address, well-formed, has one line per cart line, and its subtotal is the cart value |
| `Checkout.Confirmation` | js/checkout.js:443-464 | the message carries no id or date of its own, so `addUserEmail` stamps it; `ConfirmationReadsBack` states what its subject and preview say |
| `Checkout.ConfirmationReadsBack` | js/checkout.js:451-454 | the subject is the fixed prefix followed by exactly the order id, and the preview is the fixed prefix followed by an amount that reads back to the order total in cents |
| `Auth.Inboxed` | js/auth-manager.js:341-355 | the message goes first in the recipient's inbox, ahead of what was there; every other inbox is unchanged |
| `Auth.InboxedKeys` | js/auth-manager.js:341-355 | the set of inboxes gains at most the recipient's key, and a recipient with no inbox gets one holding just the message |
| `Auth.AuthManager.Recipient` | js/auth-manager.js:342-347 | the signed-in user's address, or none; `RecipientIsReadInbox` and `AddUserEmail` state what it means |
| `Auth.AuthManager.RecipientIsReadInbox` | js/auth-manager.js:329-347 | there is a recipient exactly when signed in, and its inbox is the one `getUserEmails` returns, empty when it has none |
| `Checkout.CheckoutManager.ClearCart` | js/checkout.js:422-425 | the cart becomes empty |
| `Checkout.CheckoutManager.Complete` | js/checkout.js:385-399 | a refused order changes nothing; otherwise the order is appended, then the cart is cleared, then the confirmation is delivered |
| `Checkout.CheckoutManager.Finish` | js/checkout.js:393-397 | the cart is cleared and the confirmation goes to the signed-in user's inbox |
| `Checkout.CheckoutManager.ProcessOrder` | js/checkout.js:336-405 | the answer is `Placed`; nothing is written unless an order was placed, and then it is appended, the cart emptied and the confirmation delivered; the user is reloaded only after the form and the cart passed |
| `Checkout.DefaultAddress` | js/checkout.js:77-83 | autofill uses a default only when its id is set and found among the user's addresses |
| `Checkout.SavedAddress` | js/checkout.js:79 | the `find` by id, present exactly when the user has that id |
| `Checkout.ValidDefaultIsFilled` | js/checkout.js:77-83 | a default that points at a saved address is filled in |
| `Checkout.Fill` | js/checkout.js:99-104 | a present element takes a non-empty value; an empty value leaves it |
| `Checkout.FillAddress` | js/checkout.js:89-105 | the address fields take the saved address's values; `FillAddressIdempotent` and `SelectAddress` state its properties |
| `Checkout.FillAddressIdempotent` | js/checkout.js:89-105 | filling the same address twice is filling it once |
| `Checkout.AutoFill` | js/checkout.js:61-84 | `autoFillShippingInfo`; `AutoFilledEmailValidates`, `AutoFillWithoutDefault` and `SetupIsAutoFill` state its properties |
| `Checkout.AutoFilledEmailValidates` | js/checkout.js:70-74 | a valid account address filled in passes the e-mail check |
| `Checkout.AutoFillWithoutDefault` | js/checkout.js:77-83 | without a usable default the address fields are left alone |
| `Checkout.ClearAddress` | js/checkout.js:170-184 | `clearAddressForm`; `ClearedFormNeverValidates` states that a cleared form never validates |
| `Checkout.ClearedFormNeverValidates` | js/checkout.js:170-184 | after "Enter new address" clears the fields the form cannot validate, since the zip check fails an empty or missing zip |
| `Checkout.SelectAddress` | js/checkout.js:143-156 | "new" clears the address fields; a known id fills its address; anything else leaves the form |
| `Checkout.SetupCheckout` | js/checkout.js:25-41 | the form after `setupCheckout`; `SetupIsAutoFill` states that it is the autofill |
| `Checkout.SetupIsAutoFill` | js/checkout.js:25-41 | the selector's initial fill repeats autofill, so the page shows autofill's result |

## Left out

- The DOM is not modelled. This covers error markers (`showError`/`clearError`), the HTML templates, `escapeHtml`, `alert`/`confirm`, event listeners, the navigation bar, the product gallery and the bee slider. A `confirm` in `deleteAddress` is taken as accepted.
- JSON serialization of local storage is not modelled. Each key is a typed field; a parse failure would give the empty collection.
- The shop script's in-memory `cart` variable is not modelled apart from local storage. The model keeps one cart; the script re-reads local storage only at load.
- Floating point is not modelled. Amounts are integer cents, and the binary-float quirks of `toFixed` are not modelled.
- `Text.ToLower`: maps ASCII letters only. Case mapping beyond ASCII is not modelled.
- String lengths are counted in characters, not in UTF-16 code units as JavaScript's `.length` counts them. This affects the minimum lengths in `Auth.RegistrationError` (name and password), `Auth.AuthManager.PasswordChangeError`, `Profile.ValidateName`, `Profile.ValidatePassword`, the address minimums in `Profile.Fails`, and `Text.IsValidZip`. A character outside the Basic Multilingual Plane counts once in the model and twice in JavaScript.
- Dates are not modelled: `toISOString`, `formatOrderDate`, `formatCurrency` and the date sorts (`getOrdersSortedByDate`, the profile's order list). Times are integer milliseconds, passed in.
- `createMockOrders` and `linkOrderToUser` are not modelled. The first is random test data; the second has no effect on the state.
- The HTML of the confirmation e-mail (`generateOrderConfirmationEmail`) is not modelled. The message's body is empty in the model.
- `Shop.ApplyFilters`: the name sorts (`localeCompare`) are not modelled, so for `name-asc` and `name-desc` the model keeps catalog order. The sort's stability is not stated either.
- `Shop.SortByPrice`: the order among products of equal price is not stated. `Array.prototype.sort` leaves it to the engine.
- The profile page's fallbacks are not modelled. These are the fallbacks for when no `authManager` object exists, and the local-storage paths used only in that case. The model always goes through `Auth.AuthManager`.
- `requireAuth`, the redirects and `handleInitialTab` are not modelled. They drive navigation only.
- After an e-mail change, `Auth.AuthManager`'s in-memory user is not refreshed: the profile writes the stored user directly, as the source does.

## Findings

| source | as written | input that shows it | evidently intended | confidence | as-written member | corrected member |
|---|---|---|---|---|---|---|
| js/profile-manager.js:262-269 | The account stores the new address lowercased and trimmed. `updateOrdersEmail` and `updateEmailsEmail` are instead given the address as typed. | The user `a@b.co` retypes it as `A@b.co`. The account keeps `a@b.co`, but the inbox and the orders move to `A@b.co`. | Move the orders and the inbox to the stored address. | not executed | `Profile.CascadeAsWrittenLosesInbox` | `Profile.CascadeKeepsDataReachable` |
| script.js:717-722 | The related-products filter excludes the requested id, not the id of the product shown. | `?id=99` shows the first product as a fallback, and that product is also listed among its own related products. | Exclude the shown product. | not executed | `Shop.RelatedAsWrittenListsShownProduct` | `Shop.RelatedProperties` |
