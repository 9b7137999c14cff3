# Bloomy storefront: accounts, sessions, orders and cart in Dafny

This project models the client-side core of the Bloomy e-commerce site:

- `BloomyAuth` (`js/auth.js`), which keeps a user directory, the login
  session, password-reset tokens, saved addresses and the order ledger in
  browser storage; and
- the shopping cart of the product page (`js/main.js`): adding an item of a
  colour, removing one, the item count shown on the badge, and the price fix
  applied to stored carts at start-up.

Layout:

| file | module | contents |
|---|---|---|
| `option.dfy` | `Optional` | `Option` |
| `text.dfy` | `Text` | strings as sequences of Unicode characters, with their UTF-16 encoding as JavaScript sees it; ASCII case mapping; JavaScript whitespace; decimal and hex rendering with a decimal parser |
| `search.dfy` | `Search` | `findIndex`, `find` and `filter` on sequences, with their contracts |
| `password.dfy` | `Password` | the 32-bit rolling checksum, the stored credential `Hash`, the loop `HashPassword` proved against it, and `VerifyPassword` |
| `validation.dfy` | `Validation` | the e-mail pattern and the ordered rule chain of `register`, with the French messages |
| `records.dfy` | `Records` | users, addresses, sessions and orders as datatypes; directory look-ups; the address-list and order-history functions and their lemmas |
| `auth.dfy` | `Auth` | class `BloomyAuth` with one field per storage slot (`users`, `orders`, the tab-scoped and the durable session) and one method per public operation |
| `cart.dfy` | `Storefront` | the cart as specification functions on `seq<CartLine>` and a class `Cart` whose methods are proved against them |

Conventions:

- The clock is a parameter `now` (milliseconds since the epoch); timestamps
  are integers rather than ISO strings, and an expiry is compared with `now`
  exactly as the source compares two `Date`s.
- The random parts of generated ids (`Math.random().toString(36)...`) and
  the order year are parameters; the ids are built from them the way the
  source builds them (`"user_" + now + "_" + random`, `"reset_" + ...`,
  `"addr_" + now`, `"BLM-" + year + "-" + SUFFIX`).
- Every reply is `Success(message, payload)`, `Failure(error)` or
  `Thrown`. `Thrown` stands for the TypeError the source raises when a live
  session names a user who is no longer in the directory and the code reads
  a field of `users[-1]` (`changePassword`, `changeEmail`, the address
  operations, `deleteAccount`); nothing is written in that case.
- Prices and totals are integer euro cents (`16.99` is `1699`).
- A Dafny `char` is a Unicode character, while JavaScript's `length` and
  `charCodeAt` see UTF-16 code units. `Text.Utf16` gives that encoding, and
  the password rules and the hash use it: `JsLength` counts a character
  outside the Basic Multilingual Plane twice, and the checksum folds both
  of its surrogates.
- `BloomyAuth.Valid()` is the directory invariant: stored e-mails are lower
  case and pairwise distinct. Every method that writes `users` keeps it.
  `Cart.Valid()` is the cart invariant: one line per colour and every
  quantity at least one; adding and removing keep it.

## Model

| member | source | states |
|---|---|---|
| Records.FindUserByEmail | js/auth.js:48-51 | the user found has an e-mail equal to the argument ignoring case; None exactly when no stored user's e-mail matches |
| Records.FindUserById | js/auth.js:56-59 | the user found has that id; None exactly when no user has it |
| Records.IndexOfUser | js/auth.js:339 | the first index whose user has the id; -1 exactly when none has |
| Text.CodeUnits | js/auth.js:76 | a character inside the Basic Multilingual Plane is one code unit equal to it; any other is a high and a low surrogate that decode back to it |
| Text.JsLengthCountsCharacters | js/auth.js:109 | `length` is at least the number of characters, and equals it exactly when no character lies outside the Basic Multilingual Plane |
| Password.ShiftThenTruncate | js/auth.js:77-78 | `(h << 5) - h + c` followed by `h & h` equals `31 * h + c` reduced to a signed 32-bit integer |
| Password.Checksum | js/auth.js:74-79 | the checksum folded over the UTF-16 code units stays in the signed 32-bit range |
| Password.HashPassword | js/auth.js:71-81 | the loop over `charCodeAt(i)` for i below `length` returns exactly `Hash(password)`: the checksum of the UTF-16 code units and the code-unit length |
| Password.HashDeterminesLength | js/auth.js:80 | two passwords with the same stored hash have the same `length` in code units |
| Password.HashRoundTrip | js/auth.js:86-88 | a password verifies against its own hash, and no password of a different `length` verifies against it |
| Validation.IsValidEmailMatchesPattern | js/auth.js:599-602 | the decision procedure accepts exactly the strings of the form atom `@` atom `.` atom, atoms being non-empty runs without `@` or whitespace |
| Validation.RegistrationFailure | js/auth.js:100-124 | None iff all fields are present, the e-mail is valid, the password is strong and the e-mail is free; otherwise the message of the first rule that fails, each message exactly when the earlier rules pass and its own fails |
| Records.UnknownEmailIsFresh | js/auth.js:121-129 | an e-mail the case-insensitive look-up does not find differs, once lower-cased, from every stored e-mail |
| Records.AppendKeepsDirectoryValid | js/auth.js:121-148 | appending a user with a lower-cased unknown e-mail keeps e-mails lower case and distinct |
| Records.ReplaceKeepsDirectoryValid | js/auth.js:408-422 | replacing a user by one whose e-mail is unchanged, or lower-cased and unknown, keeps the directory invariant |
| Records.FilterKeepsDirectoryValid | js/auth.js:629-630 | removing users keeps the directory invariant |
| Records.SanitizeHidesSecrets | js/auth.js:607-610 | the sanitised record does not depend on the password, the reset token or its expiry, and keeps id, e-mail and addresses |
| Records.SessionFor | js/auth.js:203-210 | a new session expires exactly seven days after it was created |
| Auth.BloomyAuth.constructor | js/auth.js:18-25 | a first visit starts with no users, no orders and no session |
| Auth.BloomyAuth.Reopen | js/auth.js:34-36 | a later visit sees the collections and sessions already stored |
| Auth.BloomyAuth.Register | js/auth.js:97-156 | a refused registration returns the rule chain's message and changes nothing; an accepted one appends exactly one user with a lower-cased e-mail, the hashed password, no addresses, cards or token, the default preferences, opens a tab-scoped session for it, returns it sanitised, and keeps the directory invariant |
| Auth.BloomyAuth.Login | js/auth.js:165-188 | missing fields, an unknown e-mail and a wrong password are refused (the last two with the same message) without touching the sessions; a success opens a seven-day session in the durable scope iff "remember me" and leaves the other scope alone |
| Auth.BloomyAuth.Logout | js/auth.js:193-197 | both session scopes are empty afterwards |
| Auth.BloomyAuth.CreateSession | js/auth.js:202-214 | the new session for the user goes to the durable scope iff persistent; the other scope is untouched |
| Auth.StoredSession | js/auth.js:220-225 | the tab-scoped session wins over the durable one; there is one iff either scope holds one |
| Auth.LiveSession | js/auth.js:219-236 | a returned session is the stored one and has not expired; None means nothing is stored or the stored one expired |
| Auth.ScopesAfterRead | js/auth.js:229-233 | reading a live session changes nothing; reading an expired one clears both scopes |
| Auth.NewSessionLivesSevenDays | js/auth.js:209 | a freshly created session, in either scope, is live at a later time iff that time is at most seven days on |
| Auth.BloomyAuth.GetSession | js/auth.js:219-236 | returns the live session and leaves the scopes as ScopesAfterRead says |
| Auth.BloomyAuth.IsLoggedIn | js/auth.js:241-243 | true iff a live session exists |
| Auth.BloomyAuth.GetCurrentUser | js/auth.js:248-254 | the sanitised user named by the live session, or None when signed out or when that user is gone |
| Records.FindUserByResetToken | js/auth.js:300 | the user found holds that token; None exactly when nobody does |
| Auth.BloomyAuth.RequestPasswordReset | js/auth.js:263-293 | always succeeds with the same message; for an unknown e-mail nothing changes, for a known one only that user's token and one-hour expiry are written and the token is returned |
| Auth.BloomyAuth.ResetPassword | js/auth.js:298-323 | an unknown token, then an expired one, then a password under eight UTF-16 code units are refused without change; otherwise only the holder's password, token, expiry and update time change |
| Auth.BloomyAuth.UpdateProfile | js/auth.js:332-365 | signed out or unknown user is refused; otherwise only first name, last name, phone and preferences are taken from the patch, the update time is set, and the session is rewritten in the durable scope iff it held one |
| Auth.BloomyAuth.ChangePassword | js/auth.js:370-393 | a wrong current password, then a new one under eight UTF-16 code units, is refused without change; otherwise only that user's credential and update time change |
| Auth.BloomyAuth.ChangeEmail | js/auth.js:398-428 | an invalid or already used address, then a wrong password, are refused without change; otherwise the lower-cased address is stored, the session rewritten, and the directory invariant kept |
| Records.NewAddress | js/auth.js:446-451 | a new address is the default iff the list was empty, and carries the new id and creation time |
| Records.AddAddressDefaults | js/auth.js:446-453 | adding to an empty list leaves exactly one default; adding to a non-empty list leaves the number of defaults unchanged |
| Auth.BloomyAuth.AddAddress | js/auth.js:437-458 | the user's list grows by exactly the new address at the end, the user's update time is set, and the address is returned |
| Records.IndexOfAddress | js/auth.js:471 | the first index whose address has the id; -1 exactly when none has |
| Auth.BloomyAuth.UpdateAddress | js/auth.js:463-486 | an unknown address id is refused; otherwise only that address is merged with the patch and stamped |
| Records.WithoutAddress | js/auth.js:500 | an address survives iff it was there and its id differs |
| Records.WithoutAddressKeepsOrder | js/auth.js:500 | deleting distributes over concatenation, so survivors keep their order |
| Records.DeleteDefaultLeavesNone | js/auth.js:500 | deleting the default address of a list with at most one default leaves no default |
| Auth.BloomyAuth.DeleteAddress | js/auth.js:491-505 | the user's list becomes WithoutAddress of it and nothing else of the user but the update time changes |
| Records.WithDefault | js/auth.js:519-522 | same length, every address is the default iff it has the id, and nothing else of it changes |
| Records.AtMostOneDefault | js/auth.js:519-522 | the count of defaults is at most one iff no two addresses are both default |
| Records.NoDefaults | js/auth.js:519-522 | the count of defaults is zero iff no address is default |
| Records.SetDefaultLeavesOne | js/auth.js:519-522 | with distinct ids, afterwards exactly one address is default if the id is present and none otherwise |
| Auth.BloomyAuth.SetDefaultAddress | js/auth.js:510-527 | the user's list becomes WithDefault of it and only the update time changes besides |
| Records.OrdersOf | js/auth.js:541 | an order is kept iff it belongs to the user |
| Records.SortNewestFirst | js/auth.js:541-543 | the sort is a permutation of its input |
| Records.SortIsNewestFirst | js/auth.js:541-543 | the sorted orders have non-increasing creation times |
| Records.SortIsStable | js/auth.js:541-543 | orders created at the same time keep their relative input order, as the stable `Array.prototype.sort` keeps them |
| Records.OrderHistory | js/auth.js:536-544 | newest first, a permutation of the user's orders, containing exactly the orders whose user id matches |
| Auth.BloomyAuth.GetOrders | js/auth.js:536-544 | empty when signed out, else the signed-in user's order history |
| Auth.BloomyAuth.CreateOrder | js/auth.js:549-574 | appends exactly one order: id "BLM-" year "-" upper-cased suffix, the request's contents, the live session's user id or none for a guest, pending with one "received" history entry, no tracking number |
| Records.OrderById | js/auth.js:579-582 | the order found has that id; None exactly when none has |
| Records.OrderByIdAndEmail | js/auth.js:587-590 | the order found has that id and an e-mail equal ignoring case; None exactly when none matches both |
| Records.WithoutUser | js/auth.js:629 | a user survives iff it was there and its id differs |
| Auth.BloomyAuth.DeleteAccount | js/auth.js:615-636 | a wrong password is refused without change; otherwise every user with the session's id is removed, both session scopes are cleared, and the orders are untouched |
| Text.LowerCaseIsFixed | js/auth.js:129 | lower-casing yields a lower-case string, and a string is lower case iff lower-casing leaves it unchanged |
| Text.DecimalRoundTrip | js/auth.js:80 | parsing the decimal rendering of a number gives the number back |
| Storefront.IndexOfColor | js/main.js:151 | the first line of that colour; -1 exactly when no line has it |
| Storefront.WithItemAdded | js/main.js:149-163 | the line of that colour gains one item and every other line is unchanged, or a product line with quantity one is appended |
| Storefront.AddCountsOne | js/main.js:149-163 | adding raises the item count by exactly one |
| Storefront.AddKeepsInvariants | js/main.js:151-163 | adding keeps one line per colour and every quantity positive, and a line of that colour exists afterwards |
| Storefront.WithItemRemoved | js/main.js:170-178 | a line with more than one item loses one and nothing else changes; otherwise the line is cut out and the others keep their order |
| Storefront.RemoveCountsOne | js/main.js:170-178 | with positive quantities, removing lowers the item count by exactly one |
| Storefront.RemoveKeepsInvariants | js/main.js:170-178 | removing keeps one line per colour and every quantity positive |
| Storefront.TotalItemsAtLeastLines | js/main.js:107 | with positive quantities the badge count is at least the number of lines |
| Storefront.Repriced | js/main.js:272-277 | same length and order; the product's lines take the current price, other lines are unchanged |
| Storefront.RepriceKeepsItems | js/main.js:272-277 | the price fix keeps the item count and both cart invariants and is idempotent |
| Storefront.Cart.constructor | js/main.js:26 | the cart starts as the stored lines |
| Storefront.Cart.AddToCart | js/main.js:149-168 | the new cart is WithItemAdded of the old, with one more item, and the cart invariant is kept |
| Storefront.Cart.RemoveFromCart | js/main.js:170-178 | the new cart is WithItemRemoved of the old; under the invariant it has one item fewer and keeps the invariant |
| Storefront.Cart.ItemCount | js/main.js:107 | the running sum over the lines equals the item count |
| Storefront.Cart.FixPrices | js/main.js:270-278 | the line-by-line fix yields Repriced of the old cart and keeps the invariant |

## Left out

- Browser storage, JSON encoding, the DOM, the toast, `console.log` of the reset token, and `dashboard.js` and `stripe.js`: the model keeps the stored values as fields and leaves rendering and payment out.
- The clock and `Math.random` are parameters; the base-36 rendering of the random part is not modelled, its characters are taken as given.
- ISO date strings are integers in milliseconds; `new Date(null)` reads as the epoch (`Auth.ResetExpiry`).
- Floating-point prices and the cart total `price * quantity` are not modelled; prices are integer cents.
- `toLowerCase` and `toUpperCase` are modelled on ASCII letters only.
- Auth.BloomyAuth.ResetPassword: the token is a string; a call with an `undefined` token, which in the source matches users who never asked for a reset, is not modelled, and `undefined` and `null` tokens are both `None`.
- Auth.BloomyAuth.UpdateProfile: a patch key set to `null` is not modelled; a present key is `Some`.
- Auth.BloomyAuth.AddAddress: the address form has the modelled keys only, so an extra `id` key in the form cannot override the generated id.
- Records.PatchAddress: the patch spread covers the modelled address keys, not arbitrary extra keys.
- Auth.BloomyAuth.CreateOrder: returns the order itself rather than the `{success, order}` wrapper, which is always a success.
- Storefront.Cart.RemoveFromCart: requires a valid index, as the page only offers indices of displayed lines; an out-of-range index, a TypeError in the source, is not modelled.
- The item count, the directory invariant and the cart invariant are not assumed of data read back from storage: methods promise to keep them (`old(Valid()) ==> Valid()`), not to establish them.
