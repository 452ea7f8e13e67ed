# B2B storefront: a verified model of the screens' logic

This project models the client-side logic of a mobile B2B wholesale
storefront, written as React components. It covers:

- The login flow: a phone step and an OTP step, with digits-only inputs and
  a session remembered in the device store for 24 hours.
- The onboarding gate: login, then address setup, then the main app.
- The main shell: cart operations, navigation and the cart badge.
- The cart screen's bill: subtotal, shipping (free strictly above 5000),
  GST at 18% rounded to the nearest rupee, and the order summary handed on
  when an order is placed.
- The product page's quantity picker, which never goes below the minimum
  order quantity (moq).
- The home screen's search (case-insensitive substring match on the name,
  plus a category chip).
- The category screen's stable sorts.
- The orders screen's active/completed split.
- The address book, which keeps exactly one default address and mirrors it
  into the legacy single-address slot of the store.

Components whose state changes step by step are modelled as classes:
`Shell`, `QuantityPicker`, `LoginForm`, `SetupForm`, `Session`,
`Onboarding` and `AddressBook`. Their methods are specified against pure
functions of the old state (`CartWithAdded`, `WithDeleted`, `SavedStore`,
`Checked`, …), and the lemmas prove what the screens promise about those
functions. The derived values are pure functions: the bill, filters,
sorts and badges.

The device store (`localStorage`) is a value of type `Types.Store`. The
plain-text keys are a `map<string, string>`. The two JSON-valued keys are
kept decoded. The clock (`Date.now()`) and the random delivery date are
parameters.

Where the code and its design notes disagree, the model follows the code:

- The design notes say that decrementing a cart line below its moq removes
  the line. In the code, the minus button is disabled at or below the moq
  (`CartScreen.DecrementRequest`), so a decrement never goes below it.
  `updateCartQuantity` removes a line only at a quantity of zero or less.
  The invariant the notes state (every line at or above its moq) still
  holds, and is proved as `MainApp.AddKeepsAboveMoq` and
  `MainApp.ButtonsKeepAboveMoq`.
- The 24-hour check compares `(now - t) / 3600000 < 24` on floats. This is
  written as `now - t < 86400000` on integer milliseconds, which is the same
  test. An unparseable time is NaN, the test fails, and the keys are wiped.

## Model

| member | source | states |
|---|---|---|
| CartScreen.SubtotalEmpty | src/components/CartScreen.tsx:25 | The reduce starts from 0, so an empty cart has subtotal 0 |
| CartScreen.SubtotalAppend | src/components/CartScreen.tsx:25 | The subtotal of a cart split in two parts is the sum of the parts' subtotals |
| CartScreen.Shipping | src/components/CartScreen.tsx:26 | Shipping is free exactly when the subtotal is strictly above 5000; otherwise it is 99 |
| CartScreen.Tax | src/components/CartScreen.tsx:27 | The tax is within half a rupee of 18% of the subtotal (halves rounded up), as Math.round does |
| CartScreen.TaxIsNearest | src/components/CartScreen.tsx:27 | Only one integer meets that rounding bound, so the tax is determined by the subtotal |
| CartScreen.BillFor | src/components/CartScreen.tsx:25-28 | The bill is consistent: the subtotal is the fold, shipping and tax come from it, and the total is their sum |
| CartScreen.FreeShippingHint | src/components/CartScreen.tsx:214-216 | The hint shows exactly while shipping is charged; the amount is non-negative and brings the subtotal to exactly 5000 |
| CartScreen.TwoShirtsExample | src/components/CartScreen.tsx:25-28 | Two shirts at 299 bill as 598 + 99 + 108 = 805 |
| CartScreen.SixThousandExample | src/components/CartScreen.tsx:25-28 | A 6000 subtotal ships free and bills 7080 |
| CartScreen.FiveThousandPaysShipping | src/components/CartScreen.tsx:26 | At exactly 5000 shipping is still charged, and the hint asks for 0 more |
| CartScreen.OrderId | src/components/CartScreen.tsx:34 | The order id is "ORD" followed by the last (at most eight) digits of the clock's decimal numeral |
| CartScreen.OrderIdLength | src/components/CartScreen.tsx:34 | With a clock of at least 10^7 ms the id is always 11 characters |
| CartScreen.NumeralLength | src/components/CartScreen.tsx:34 | A number of at least 10^k has at least k + 1 digits |
| CartScreen.PlaceOrder | src/components/CartScreen.tsx:30-69 | The summary snapshots the cart with a consistent bill, pays cash on delivery, and ships to the user's address or to the fixed fallback record |
| CartScreen.DecrementRequest | src/components/CartScreen.tsx:146-147 | The minus button requests quantity - 1 only above the line's moq, so the request never goes below the moq |
| CartScreen.IncrementRequest | src/components/CartScreen.tsx:156 | The plus button always requests a larger quantity |
| MainApp.NewLine | src/components/MainApp.tsx:63-71 | A new cart line copies the product's id, name, price, moq, image and category, with the requested quantity |
| MainApp.CartWithAdded | src/components/MainApp.tsx:50-79 | A product already in the cart has only its line's quantity raised; a new product is appended; the id is then present and ids stay unique |
| MainApp.CartWithout | src/components/MainApp.tsx:81-83 | After removal no line has the id, every other line is kept, nothing new appears, and an absent id changes nothing |
| MainApp.CartWithoutKeepsOrder | src/components/MainApp.tsx:82 | The remaining lines are an order-preserving subsequence of the cart |
| MainApp.CartWithoutOne | src/components/MainApp.tsx:82 | With unique ids, removing a present id deletes exactly that one line |
| MainApp.CartWithQuantity | src/components/MainApp.tsx:85-96 | A quantity of zero or less removes the line; otherwise exactly the matching line gets that quantity and the others are untouched |
| MainApp.OnlyLineWithId | src/components/MainApp.tsx:91-95 | With unique ids, updating every line with a given id updates a single index |
| MainApp.AddToCartTotals | src/components/MainApp.tsx:50-79 | Adding q pieces raises the piece count by q and the subtotal by q times the line's price, for a new or an existing line |
| MainApp.AddToExistingLine | src/components/MainApp.tsx:50-62 | Adding q pieces to a line already in the cart raises the piece count by q and the subtotal by q times that line's price |
| MainApp.AddNewLine | src/components/MainApp.tsx:63-77 | Adding q pieces of a product not in the cart raises the piece count by q and the subtotal by q times its price |
| MainApp.PositiveTotal | src/components/MainApp.tsx:135 | A non-empty cart whose lines each hold at least one piece has a positive piece count |
| MainApp.SetQuantityTotals | src/components/MainApp.tsx:85-96 | Setting a positive quantity changes the piece count by the difference |
| MainApp.AddKeepsAboveMoq | src/components/MainApp.tsx:50-79 | Adding a product at or above its moq keeps every cart line at or above its moq |
| MainApp.ButtonsKeepAboveMoq | src/components/CartScreen.tsx:144-158 | The cart's minus and plus buttons, through updateCartQuantity, keep every line at or above its moq |
| MainApp.ButtonKeepsAboveMoq | src/components/MainApp.tsx:85-96 | A quantity update to at least the line's moq keeps every line at or above its moq, whether it updates or removes the line |
| MainApp.CartBadge | src/components/MainApp.tsx:248-250 | The badge is hidden at zero or fewer pieces, reads "9+" above nine, and otherwise shows the count from 1 to 9 |
| MainApp.BackTarget | src/components/MainApp.tsx:151-197 | Cart, product and category go back to home; address management and help go back to profile; the other screens have no back arrow |
| MainApp.TabScreen | src/components/MainApp.tsx:215-256 | Each bottom-bar tab opens its own screen: home, orders, cart or profile, one to one |
| MainApp.SubsequenceKeepsUnique | src/components/MainApp.tsx:82 | Filtering a cart with unique ids keeps ids unique |
| MainApp.SubsequenceMembers | src/components/MainApp.tsx:82 | Every element of an order-preserving subsequence comes from the original |
| MainApp.Shell.constructor | src/components/MainApp.tsx:43-47 | The shell starts on home with an empty cart, no product, no category and no order |
| MainApp.Shell.AddToCart | src/components/MainApp.tsx:50-79 | The cart becomes CartWithAdded of the old cart; ids stay unique and the screen is unchanged |
| MainApp.Shell.RemoveFromCart | src/components/MainApp.tsx:81-83 | The cart becomes CartWithout of the old cart, and ids stay unique |
| MainApp.Shell.UpdateCartQuantity | src/components/MainApp.tsx:85-96 | The cart becomes CartWithQuantity of the old cart, and ids stay unique |
| MainApp.Shell.NavigateToProduct | src/components/MainApp.tsx:98-101 | The product page opens with that product selected; the cart is untouched |
| MainApp.Shell.NavigateToCategory | src/components/MainApp.tsx:103-106 | The category page opens with that category selected; the cart is untouched |
| MainApp.Shell.NavigateToAddressManagement | src/components/MainApp.tsx:108-110 | The address book opens |
| MainApp.Shell.NavigateToHelpSupport | src/components/MainApp.tsx:112-114 | The help screen opens |
| MainApp.Shell.HandleOrderPlaced | src/components/MainApp.tsx:116-120 | The order is kept, the cart is emptied, and the confirmation screen opens |
| MainApp.Shell.PlaceOrder | src/components/CartScreen.tsx:30-69 | An order is placed exactly when the cart is non-empty; it carries every cart line, and then the cart is empty and the confirmation shows |
| MainApp.Shell.ContinueShopping | src/components/MainApp.tsx:122-124 | Continue shopping returns to home |
| MainApp.Shell.TrackOrder | src/components/MainApp.tsx:126-128 | Track order opens the orders screen |
| MainApp.Shell.SelectTab | src/components/MainApp.tsx:215-256 | A tab press shows that tab's screen |
| MainApp.Shell.Back | src/components/MainApp.tsx:151-197 | The back arrow goes to the screen's back target, if it has one |
| MainApp.Shell.Badge | src/components/MainApp.tsx:248-250 | The badge is hidden for an empty cart and, when every line holds a piece, only then; it reads "9+" exactly above nine pieces and otherwise shows the piece count |
| ProductScreen.InitialQuantity | src/components/ProductScreen.tsx:12 | The picker starts at the moq (1 when the moq is 0), never below the moq |
| ProductScreen.GuardKeepsMinimum | src/components/ProductScreen.tsx:22-26 | A request is taken exactly when it reaches the moq, so a quantity at or above the moq stays there |
| ProductScreen.PriceLines | src/components/ProductScreen.tsx:19-20 | Total plus savings is the original price of the quantity; savings have the sign of originalPrice - price |
| ProductScreen.AfterDecrement | src/components/ProductScreen.tsx:118-119 | Minus lowers the quantity by one only above the moq and never goes below it |
| ProductScreen.AfterIncrement | src/components/ProductScreen.tsx:128 | From the moq or above, plus always adds one |
| ProductScreen.QuantityPicker.constructor | src/components/ProductScreen.tsx:12 | The picker starts at InitialQuantity and respects the moq |
| ProductScreen.QuantityPicker.ChangeQuantity | src/components/ProductScreen.tsx:22-26 | The quantity follows the guard and stays at or above the moq |
| ProductScreen.QuantityPicker.Decrement | src/components/ProductScreen.tsx:118-119 | The quantity follows AfterDecrement and stays at or above the moq |
| ProductScreen.QuantityPicker.Increment | src/components/ProductScreen.tsx:128 | The quantity grows by exactly one |
| ProductScreen.QuantityPicker.Total | src/components/ProductScreen.tsx:19 | The total is the unit price times the chosen quantity; with a non-negative price it is at least the price of the moq |
| ProductScreen.QuantityPicker.AddToCart | src/components/ProductScreen.tsx:28-32 | The cart receives the product and the current quantity, which is never below the moq |
| HomeScreen.LowerChar | src/components/HomeScreen.tsx:102 | Upper-case ASCII letters map to lower case; every other character is kept |
| HomeScreen.ToLower | src/components/HomeScreen.tsx:102 | Lower-casing keeps the length and maps each character by LowerChar |
| HomeScreen.Includes | src/components/HomeScreen.tsx:102 | includes is true exactly when the needle occurs at some position of the haystack |
| HomeScreen.Search | src/components/HomeScreen.tsx:101-105 | Exactly the products matching the query and the chip are kept, in catalogue order |
| HomeScreen.EmptyQueryListsAll | src/components/HomeScreen.tsx:101-105 | An empty query with 'All' lists the whole catalogue |
| HomeScreen.AllCategoryIsSearchOnly | src/components/HomeScreen.tsx:103 | With 'All' selected only the name match decides |
| HomeScreen.CottonExample | src/components/HomeScreen.tsx:26-105 | Searching "cotton" lists only the cotton T-shirts |
| HomeScreen.CottonInFirst | src/components/HomeScreen.tsx:26-40 | The first catalogue name contains "cotton" once lower-cased |
| HomeScreen.NoCottonIn | src/components/HomeScreen.tsx:41-99 | No other catalogue name contains "cotton" in any letter case |
| HomeScreen.NoCotton | src/components/HomeScreen.tsx:102 | A name with no "cot" in any letter case does not match "cotton" |
| CategoryScreen.CategoryProducts | src/components/CategoryScreen.tsx:16-69 | The screen lists only products of the category, in catalogue order |
| CategoryScreen.CategoryProductsCases | src/components/CategoryScreen.tsx:16-69 | 'Fashion' lists all four mock products; any other category lists none |
| CategoryScreen.ParseSort | src/components/CategoryScreen.tsx:71-84 | The four select values each choose their own order; anything else chooses none |
| CategoryScreen.Insert | src/components/CategoryScreen.tsx:74 | Insertion adds one element |
| CategoryScreen.InsertAddsOne | src/components/CategoryScreen.tsx:74 | Insertion adds exactly that element, as a multiset |
| CategoryScreen.StableSort | src/components/CategoryScreen.tsx:74 | The sort keeps the length |
| CategoryScreen.StableSortPermutes | src/components/CategoryScreen.tsx:74 | The sort is a permutation of its input |
| CategoryScreen.InsertBounded | src/components/CategoryScreen.tsx:74 | A lower bound on the ranks of the inputs bounds the result |
| CategoryScreen.InsertSorted | src/components/CategoryScreen.tsx:74 | Insertion into a sorted list gives a sorted list |
| CategoryScreen.StableSortSorted | src/components/CategoryScreen.tsx:74 | The sort's result is ordered by rank |
| CategoryScreen.InsertKeepsTies | src/components/CategoryScreen.tsx:74 | An inserted element goes in front of its equals and the others keep their order |
| CategoryScreen.StableSortKeepsTies | src/components/CategoryScreen.tsx:74 | Elements of equal rank keep their input order (Array.prototype.sort is stable) |
| CategoryScreen.SortProducts | src/components/CategoryScreen.tsx:71-84 | The result is a permutation; a known sort orders by its comparator; anything else returns the list as is |
| CategoryScreen.SortDirections | src/components/CategoryScreen.tsx:72-80 | Price low-to-high ascends, price high-to-low descends, and rating and discount descend |
| CategoryScreen.SortIsStable | src/components/CategoryScreen.tsx:71-84 | Every sort keeps ties in their input order |
| CategoryScreen.FashionByPriceExample | src/components/CategoryScreen.tsx:16-86 | The Fashion list by price low-to-high is ids 1, 8, 7, 9 |
| CategoryScreen.PriceLowOrder | src/components/CategoryScreen.tsx:74 | Four products with prices ordered 0 < 2 < 1 < 3 sort as 0, 2, 1, 3 |
| CategoryScreen.StableSortCons | src/components/CategoryScreen.tsx:74 | Sorting x followed by s inserts x into the sorted s |
| CategoryScreen.PriceLowTail | src/components/CategoryScreen.tsx:74 | Three products with prices ordered 1 < 0 < 2 sort as 1, 0, 2 |
| OrdersScreen.ActiveOrders | src/components/OrdersScreen.tsx:68 | The active tab holds exactly the orders not delivered |
| OrdersScreen.CompletedOrders | src/components/OrdersScreen.tsx:69 | The completed tab holds exactly the delivered orders |
| OrdersScreen.TabsPartition | src/components/OrdersScreen.tsx:68-69 | The two tabs split the history: the counts add up, every order is in one tab, and both keep the history's order |
| OrdersScreen.OrdersToShow | src/components/OrdersScreen.tsx:71 | The list shown holds exactly the orders whose delivered status matches the selected tab, in history order |
| OrdersScreen.MockTabs | src/components/OrdersScreen.tsx:8-69 | The mock history has the shipped and processing orders active and the delivered one completed |
| OrdersScreen.OneDeliveredInMiddle | src/components/OrdersScreen.tsx:68-69 | Three orders with only the middle one delivered split as [first, third] and [middle] |
| OrdersScreen.StatusColor | src/components/OrdersScreen.tsx:42-53 | Processing, shipped and delivered each get their own style; every other status gets the gray one |
| LoginScreen.EnabledAfterTyping | src/components/LoginScreen.tsx:73-83 | After typing, a submit button is enabled exactly when the typed text held enough digits and nothing is loading |
| LoginScreen.LoginForm.constructor | src/components/LoginScreen.tsx:10-12 | The form starts at the phone step with both fields empty |
| LoginScreen.LoginForm.PhoneInput | src/components/LoginScreen.tsx:73 | The phone field keeps at most ten digits of what was typed |
| LoginScreen.LoginForm.OtpInput | src/components/LoginScreen.tsx:110 | The OTP field keeps at most six digits of what was typed |
| LoginScreen.LoginForm.SubmitPhone | src/components/LoginScreen.tsx:15-25 | The OTP step follows exactly when the phone number has ten digits, which is when the Send OTP button is enabled |
| LoginScreen.LoginForm.SubmitOtp | src/components/LoginScreen.tsx:27-37 | A login happens exactly with a six-digit code, which is when the Verify button is enabled, and it carries the ten-digit phone number |
| LoginScreen.LoginForm.ChangeNumber | src/components/LoginScreen.tsx:134 | Change Number returns to the phone step and keeps the form's invariant |
| Decimal.NatToString | src/pages/Index.tsx:35 | A timestamp's numeral is non-empty, all digits, and has no leading zero |
| Decimal.LeadingDigits | src/pages/Index.tsx:18 | parseInt reads the longest run of digits at the start |
| Decimal.ParseInt | src/pages/Index.tsx:18 | parseInt gives NaN exactly when no digit follows the white space and an optional sign; otherwise the signed value of the leading digits |
| Decimal.ParseIntSkipsSpace | src/pages/Index.tsx:18 | Leading white space does not change what parseInt reads |
| Decimal.ParseIntOfNegative | src/pages/Index.tsx:18 | A minus sign before a numeral gives its negation |
| Decimal.TrimStart | src/pages/Index.tsx:18 | parseInt first drops the leading white space: everything dropped is white space, and what remains is a suffix that does not start with it |
| Decimal.ParseIntOfNatToString | src/pages/Index.tsx:18 | parseInt reads back the login time exactly as toString wrote it |
| Decimal.LastChars | src/components/CartScreen.tsx:34 | slice(-k) keeps the last k characters, or all of the string when it is shorter or k is 0 |
| Decimal.DigitsOnly | src/components/LoginScreen.tsx:73 | Removing non-digits leaves only digits, in their original order, and keeps every occurrence of every digit |
| Decimal.Sanitize | src/components/LoginScreen.tsx:73 | The field keeps the first max digits typed: only digits, at most max of them |
| Decimal.SanitizeKeepsDigits | src/components/LoginScreen.tsx:73 | Text that already is at most max digits passes unchanged |
| Decimal.SanitizeIdempotent | src/components/LoginScreen.tsx:110 | Sanitising twice is sanitising once |
| AddressSetupScreen.OptionalFields | src/components/AddressSetupScreen.tsx:58-59 | Validity is the six required fields being non-empty; the landmark and the address type do not affect it |
| AddressSetupScreen.WithField | src/components/AddressSetupScreen.tsx:49-51 | An input change sets that field only |
| AddressSetupScreen.Detected | src/components/AddressSetupScreen.tsx:38-43 | Detection fills pincode 110001, New Delhi and Delhi, and keeps the rest |
| AddressSetupScreen.DetectionNeedsDetails | src/components/AddressSetupScreen.tsx:34-59 | Detection alone never makes a blank form submittable |
| AddressSetupScreen.SetupForm.constructor | src/components/AddressSetupScreen.tsx:21-32 | The screen starts at the location step with a blank 'home' form |
| AddressSetupScreen.SetupForm.TextInput | src/components/AddressSetupScreen.tsx:49-51 | Typing changes only that field |
| AddressSetupScreen.SetupForm.PhoneInput | src/components/AddressSetupScreen.tsx:166 | The phone keeps at most ten digits |
| AddressSetupScreen.SetupForm.PincodeInput | src/components/AddressSetupScreen.tsx:183 | The pincode keeps at most six digits |
| AddressSetupScreen.SetupForm.ChooseType | src/components/AddressSetupScreen.tsx:261 | Choosing a type changes only the address type |
| AddressSetupScreen.SetupForm.DetectLocation | src/components/AddressSetupScreen.tsx:34-47 | Detection fills the detected fields and moves to the details step |
| AddressSetupScreen.SetupForm.EnterManually | src/components/AddressSetupScreen.tsx:105 | Enter manually moves to the details step |
| AddressSetupScreen.SetupForm.BackToLocation | src/components/AddressSetupScreen.tsx:131 | Back returns to the location step |
| AddressSetupScreen.SetupForm.Submit | src/components/AddressSetupScreen.tsx:53-56 | Submitting hands on the form exactly when the required fields are filled, since the button is otherwise disabled |
| IndexPage.Checked | src/pages/Index.tsx:10-31 | A remembered session that is stale or unreadable is wiped; otherwise the store is unchanged |
| IndexPage.LoggedIn | src/pages/Index.tsx:33-38 | A login writes the flag, the time and the phone, and touches no other key |
| IndexPage.LoginIsRemembered | src/pages/Index.tsx:10-38 | After a login the session is remembered, and it is restored exactly within 24 hours |
| IndexPage.LogoutForgets | src/pages/Index.tsx:40-45 | After a logout nothing is remembered |
| IndexPage.Session.constructor | src/pages/Index.tsx:7-8 | The page starts logged out and loading |
| IndexPage.Session.Restore | src/pages/Index.tsx:10-31 | Mounting logs in from a fresh session, wipes a stale one, and always stops loading |
| IndexPage.Session.HandleLogin | src/pages/Index.tsx:33-38 | A login stores the session and logs in |
| IndexPage.Session.HandleLogout | src/pages/Index.tsx:40-45 | A logout removes the three session keys and logs out |
| App.GateFor | src/App.tsx:55-66 | Logged out shows login, logged in without an address shows setup, and otherwise the main app |
| App.Onboarding.constructor | src/App.tsx:21-23 | The app starts at the login screen |
| App.Onboarding.HandleLogin | src/App.tsx:25-35 | A login stores the phone; a stored address is loaded and skips the setup |
| App.Onboarding.HandleAddressSubmit | src/App.tsx:37-41 | A submitted address is stored and becomes the user's address |
| App.Onboarding.HandleSkipAddress | src/App.tsx:43-45 | Skipping still passes the setup |
| App.Onboarding.HandleLogout | src/App.tsx:47-53 | A logout clears the state and the phone and address keys, and returns to login |
| App.Onboard | src/App.tsx:25-66 | Login, then submit or skip, reaches the main app; a logout then returns to login |
| AddressManagementScreen.DefaultCountAppend | src/components/AddressManagementScreen.tsx:55 | The default count of a concatenation is the sum of the counts |
| AddressManagementScreen.TheDefault | src/components/AddressManagementScreen.tsx:55 | In a book with one default, no other entry is flagged |
| AddressManagementScreen.NoDefaults | src/components/AddressManagementScreen.tsx:55 | With no flag set there are no defaults |
| AddressManagementScreen.WithAdded | src/components/AddressManagementScreen.tsx:63-70 | An added address is appended with its form and id, and is the default exactly when the book was empty |
| AddressManagementScreen.Merged | src/components/AddressManagementScreen.tsx:268-275 | Editing spreads the form over the entry, so its id and default flag survive |
| AddressManagementScreen.InitialForm | src/components/AddressManagementScreen.tsx:257-266 | The form opens with the edited entry's fields, or blank with the 'home' type |
| AddressManagementScreen.WithEdited | src/components/AddressManagementScreen.tsx:80-84 | Every entry with the edited id is replaced; the others are kept |
| AddressManagementScreen.WithoutId | src/components/AddressManagementScreen.tsx:104 | The filtered book has no entry with the id, keeps every other entry, and adds nothing |
| AddressManagementScreen.FindById | src/components/AddressManagementScreen.tsx:103 | find returns an entry with the id exactly when one exists, and it is the first such entry |
| AddressManagementScreen.WithDeleted | src/components/AddressManagementScreen.tsx:93-117 | Deleting is refused exactly for a book of one entry; otherwise the id is gone |
| AddressManagementScreen.WithDefault | src/components/AddressManagementScreen.tsx:119-130 | Set-default flags exactly the entries with the id and changes nothing else |
| AddressManagementScreen.AddKeepsOneDefault | src/components/AddressManagementScreen.tsx:63-78 | Adding keeps exactly one default |
| AddressManagementScreen.AddKeepsUniqueIds | src/components/AddressManagementScreen.tsx:63-78 | Adding under a fresh id keeps ids unique |
| AddressManagementScreen.EditKeepsOneDefault | src/components/AddressManagementScreen.tsx:80-91 | Editing through the form replaces just that entry and keeps one default and unique ids |
| AddressManagementScreen.DeleteLastRefused | src/components/AddressManagementScreen.tsx:94-101 | The only entry cannot be deleted |
| AddressManagementScreen.DeleteRemovesOne | src/components/AddressManagementScreen.tsx:103-108 | Deleting the entry at k removes just it; a deleted default passes the flag to the first remaining entry |
| AddressManagementScreen.DeleteKeepsOneDefault | src/components/AddressManagementScreen.tsx:103-110 | Deleting keeps exactly one default |
| AddressManagementScreen.RemoveKeepsUniqueIds | src/components/AddressManagementScreen.tsx:104 | Removing one entry keeps the remaining ids unique |
| AddressManagementScreen.DeleteKeepsUniqueIds | src/components/AddressManagementScreen.tsx:103-110 | Deleting, including the flag passed to the first remaining entry, keeps ids unique |
| AddressManagementScreen.SetDefaultKeepsOneDefault | src/components/AddressManagementScreen.tsx:119-130 | Setting a present entry as default leaves exactly one default |
| AddressManagementScreen.SetDefaultKeepsValid | src/components/AddressManagementScreen.tsx:119-130 | Setting an id present in the book as default keeps unique ids and exactly one default |
| AddressManagementScreen.FirstDefault | src/components/AddressManagementScreen.tsx:55 | find(isDefault) returns a default entry exactly when one exists, and it is the first default |
| AddressManagementScreen.MirrorOf | src/components/AddressManagementScreen.tsx:55-58 | The mirrored address is the first default entry, or the first entry when none is flagged, and nothing for an empty book |
| AddressManagementScreen.MirrorIsTheDefault | src/components/AddressManagementScreen.tsx:55 | In a book with one default, the mirror is that default |
| AddressManagementScreen.SavedStore | src/components/AddressManagementScreen.tsx:50-61 | Saving writes the list key and mirrors the default into the single-address key, and leaves the text keys alone |
| AddressManagementScreen.Load | src/components/AddressManagementScreen.tsx:29-48 | A saved list is loaded as is; otherwise a single legacy address migrates to a one-entry default book, which is written back |
| AddressManagementScreen.MigrationHasOneDefault | src/components/AddressManagementScreen.tsx:39-45 | A migrated book has one default and unique ids |
| AddressManagementScreen.AddressBook.constructor | src/components/AddressManagementScreen.tsx:24-26 | The screen starts with an empty list and no form open, which satisfies the book's invariant (unique ids, one default when non-empty) |
| AddressManagementScreen.AddressBook.LoadAddresses | src/components/AddressManagementScreen.tsx:29-48 | The book and the store become those of Load; the invariant holds afterwards when a saved list satisfies it or a migration ran |
| AddressManagementScreen.AddressBook.SaveAddresses | src/components/AddressManagementScreen.tsx:50-61 | The book is replaced and the store becomes SavedStore |
| AddressManagementScreen.AddressBook.HandleAddAddress | src/components/AddressManagementScreen.tsx:63-78 | The book becomes WithAdded under the clock's id, is saved, and the form closes; the invariant is kept when the clock's id is fresh |
| AddressManagementScreen.AddressBook.HandleEditAddress | src/components/AddressManagementScreen.tsx:80-91 | The book becomes WithEdited, is saved, and editing ends; the invariant is kept when the update is new fields over an entry of the book |
| AddressManagementScreen.AddressBook.HandleDeleteAddress | src/components/AddressManagementScreen.tsx:93-117 | Refused with nothing changed for a one-entry book; otherwise the book becomes WithDeleted and is saved; the invariant is kept either way |
| AddressManagementScreen.AddressBook.HandleSetDefault | src/components/AddressManagementScreen.tsx:119-130 | The book becomes WithDefault and is saved; the invariant is kept when the id is in the book |
| AddressManagementScreen.AddressBook.OpenAddForm | src/components/AddressManagementScreen.tsx:171 | The add form opens |
| AddressManagementScreen.AddressBook.OpenEditForm | src/components/AddressManagementScreen.tsx:209 | The edit form opens on that entry |
| AddressManagementScreen.AddressBook.CancelForm | src/components/AddressManagementScreen.tsx:145-148 | Cancel closes both forms |
| AddressManagementScreen.AddressBook.SubmitForm | src/components/AddressManagementScreen.tsx:268-275 | A submit goes through exactly when the required fields are filled; it then edits the entry being edited (leaving the add-form flag) or adds a new one (with no entry being edited afterwards), and saves; the invariant is kept when the edited entry is in the book or the new id is fresh |

## Left out

- Rendering, styling, icons, toasts and console logging are not modelled. The `onAddressUpdate` callback only logs in the shell, so it is not modelled either.
- Timers are modelled as immediate transitions: the 1.5 s and 1 s login delays, the 2 s detection, and the 2 s order placement. Because of this, the spinner flags `isLoading` (login), `isDetecting` and `showOrderSummary` are not state. `SubmitEnabled` keeps `isLoading` as an input. `Session` keeps the page's own loading flag.
- The clock and the random 3 to 5 day delivery date are parameters (`nowMillis`, `estimatedDelivery`). Date arithmetic and the locale date format are not modelled.
- JSON.stringify and JSON.parse on the store are taken as lossless, so the JSON-valued keys are kept decoded. Malformed JSON in the store, which would throw, is not modelled.
- Floating point is not modelled. Prices and quantities are integers; ratings are integer tenths. Math.round is exact for the integer amounts; its ties on non-integer subtotals are left out.
- Decimal.ParseInt: parseInt's radix prefixes, Unicode white space and non-ASCII digits are left out. Only space, tab, CR and LF are skipped, and only base-10 digits are read.
- HomeScreen.ToLower: lower-cases ASCII letters only; Unicode case mapping is left out.
- The grid/list view toggle, the product image picker, the description toggle, and the OTP "resend" button (which only logs) are not modelled.
- The location-permission, help-and-support, ad-banner, order-confirmation and profile screens are not part of this model. They only render, or call back into the shell.
- MainApp.Shell.NavigateToProduct: the product page's null-product guard is left out, since the shell always selects a product before opening the page.
- App.Onboarding.HandleLogin: a stored address-book entry is kept as its form fields only; its id and default flag, which the app never reads, are dropped.
- AddressManagementScreen.WithDeleted: the code sets `isDefault` on the first remaining element in place, after filtering. Because the filter copies references, the entry object is shared with the old list. The model is on values, so that aliasing is not captured.
- AddressManagementScreen.AddressBook.HandleAddAddress: the invariant is promised only when the clock's id is not already in the book. The code does not check this, so two additions within one millisecond would share an id.
- AddressManagementScreen.AddressBook.HandleSetDefault: the invariant is promised only for an id that is in the book. With any other id the code clears every flag; the screen passes only ids of listed entries.
- AddressManagementScreen.AddressBook.LoadAddresses: a saved list is taken as it is stored. The invariant is promised only when that list already satisfies it; the code does not check it.
- The screens' data arrays are never mutated (sorts work on a copy). In a value model this holds trivially, so it is not stated.
- MainApp.Shell.UpdateCartQuantity: any positive quantity is accepted, even one below the line's moq, as in the code. The moq is kept only by the disabled minus button (`CartScreen.DecrementRequest`).
