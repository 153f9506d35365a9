# Dairy route flow: the client-side state rules

This project is a Dafny model of the state logic in the dairy distribution front end.
That front end is a React application. Admin, sales and delivery staff use it to manage
routes, sellers, products, price plans and orders against a REST backend. The model
covers the parts that decide something on the client:

- the session and role checks, the route guard and the role-dependent menu;
- the in-memory price-plan table with its uniqueness and price rules;
- the line-item editing of sales orders and purchase orders;
- the list updates that the master-data pages apply after the server answers;
- the search filters, the grouping of products by category and the period columns of
  the dashboard tables;
- the query strings that the report and order-list pages build.

Each page that keeps `useState` values becomes a Dafny `class` whose fields are those
values. Its handlers become methods that modify exactly the fields they set. Every
server reply is a method parameter. `None` stands for a request that failed. The access
token is a parameter too. Pure derivations (filters, payloads, grouping, URL pieces)
are functions, and the lemmas beside them prove the properties the pages rely on.

Quantities and prices are decimal strings that the pages read with `parseFloat` and
write with `toFixed(3)` or `toString()`. Module `Quantity` models them exactly as integer
thousandths, and the text either writer produces reads back as the same number.

Module layout: `Wrappers`, `Seqs`, `Text`, `Json`, `Quantity`, `ListUpdates` and
`FormErrors` are shared. There is one module per page or component: `AuthContext`,
`MainLayout`, `Sidebar`, `PricePlans`, `SalesDashboard`, `PurchaseOrderItems`,
`CreatePurchaseOrder`, `CreatePurchaseOrderModal`, `Products`, `Users`, `Sellers`,
`RoutesManagement`, `Categories`, `Distributors`, `DeliveryTeams`, `SalesReport`,
`OrderSearch`, `DeliveryOrders`, `LoadingOrders`, `SalesOrders`, `PeriodColumns`,
`RoutePerformance`, `ProductMovementChart`, `TopSellers` and `BalanceAgingReport`.

## Model

| member | source | states |
|---|---|---|
| AuthContext.HasRole | src/contexts/AuthContext.tsx:82-90 | false when nobody is signed in; true iff the user's role is the role asked for, or is an element of the array asked for |
| AuthContext.OneRoleIsSingletonArray | src/contexts/AuthContext.tsx:85-89 | asking for one role gives the same answer as asking for the one-element array of it |
| AuthContext.LoginStorage | src/contexts/AuthContext.tsx:56-57 | after a login, storage holds the encoded user under `user` and the token under `token`, and every other entry is unchanged |
| AuthContext.LoginThenRestore | src/contexts/AuthContext.tsx:26-65 | a reload after a login restores exactly the signed-in user, carrying the login's token |
| AuthContext.EmptyTokenIsNotRestored | src/contexts/AuthContext.tsx:29 | an empty token is stored but falsy, so a reload restores no session |
| AuthContext.LogoutThenRestore | src/contexts/AuthContext.tsx:29-77 | once both entries are removed, a reload restores no session |
| AuthContext.Session.constructor | src/contexts/AuthContext.tsx:21-22 | the provider starts with nobody signed in and loading set |
| AuthContext.Session.RestoreSession | src/contexts/AuthContext.tsx:24-41 | the user is set, with the stored token, only when both entries are present; loading ends either way; an unreadable stored user throws before loading ends |
| AuthContext.Session.Login | src/contexts/AuthContext.tsx:43-72 | on success, storage and the user are set from the reply and the user carries the token; on failure neither changes; loading ends either way |
| AuthContext.Session.Logout | src/contexts/AuthContext.tsx:74-97 | both storage entries are removed and the user cleared; afterwards nobody is authenticated and every `hasRole` is false |
| MainLayout.GateShowsContentIff | src/components/layout/MainLayout.tsx:18-48 | the page content shows iff loading is over, someone is signed in, and no roles are required or the user holds one of them |
| MainLayout.EmptyRequiredRolesDenies | src/components/layout/MainLayout.tsx:34 | an empty `requiredRoles` array sends every signed-in user to the unauthorized page |
| MainLayout.SignedOutGoesToLogin | src/components/layout/MainLayout.tsx:29-31 | a signed-out visitor is sent to login whatever the page requires |
| Sidebar.GetNavItems | src/components/layout/Sidebar.tsx:50-87 | the pushes of the menu builder produce exactly the role-dependent menu |
| Sidebar.MenuAllVisible | src/components/layout/Sidebar.tsx:86 | every menu entry is visible, so the final `visible` filter keeps the menu whole |
| Sidebar.MenuShape | src/components/layout/Sidebar.tsx:51-86 | Dashboard comes first and Settings last, with the five admin links after Dashboard; the count is 7, plus 1 for the sales role, plus 6 for the delivery role |
| Sidebar.SalesLinkIffSalesRole | src/components/layout/Sidebar.tsx:65-69 | the Sales Orders link is present iff the user has the sales role |
| Sidebar.DeliveryLinksIffDeliveryRole | src/components/layout/Sidebar.tsx:72-81 | each of the six delivery links is present iff the user has the delivery role |
| Sidebar.MenuPathsDistinct | src/components/layout/Sidebar.tsx:51-86 | whatever the roles, no two menu entries share a path |
| Sidebar.AtMostOneActive | src/components/layout/Sidebar.tsx:47 | the active test compares the path with the current location, and with distinct paths at most one menu entry is highlighted at any location |
| Quantity.Add | src/pages/CreatePurchaseOrder.tsx:123 | the sum is a number iff both operands are, and is then their exact sum |
| Quantity.ParseFormat | src/pages/CreatePurchaseOrder.tsx:123 | the text `toFixed(3)` writes reads back with `parseFloat` as the same number of thousandths |
| Quantity.FractionDigitsValue | src/pages/PricePlans.tsx:91 | the fraction `toString()` writes has one to three digits, is worth the value's thousandths and does not end in zero |
| Quantity.ParseToString | src/pages/PricePlans.tsx:91 | the text `toString()` writes reads back with `parseFloat` as the same number of thousandths |
| Quantity.ParseFormatOrNaN | src/pages/CreatePurchaseOrder.tsx:123 | a written value or NaN reads back as itself, and the text `NaN` is written for NaN only |
| Quantity.SumTextMeansSum | src/pages/CreatePurchaseOrder.tsx:123 | the written total of two quantities reads back as their exact sum (NaN when either is not a number), and is the text `NaN` exactly when either is not a number |
| PricePlans.SubmitChecksPriceFirst | src/pages/PricePlans.tsx:99-109 | a submission is refused for its price iff the price does not parse to a number greater than zero |
| PricePlans.CreateAddsOnePlanUnlessItClashes | src/pages/PricePlans.tsx:134-164 | a creation with a valid price is accepted iff its list has no plan with the same product (general) or seller and product (seller plan); it then appends exactly one plan to that list and leaves the other list alone |
| PricePlans.CreateKeepsPlansUnique | src/pages/PricePlans.tsx:136-163 | an accepted creation keeps general products distinct and seller/product pairs distinct |
| PricePlans.UpdateReplacesById | src/pages/PricePlans.tsx:111-128 | an edit keeps the plan's id and replaces exactly the entries with that id, in the list the original plan's seller chooses; length and the other list are unchanged; nothing checks for duplicates |
| PricePlans.UpdateKeepingKeyKeepsPlansUnique | src/pages/PricePlans.tsx:111-128 | an edit that keeps a listed plan's seller and product keeps both lists unique |
| PricePlans.UpdateCanDuplicateAProduct | src/pages/PricePlans.tsx:111-128 | an edit that changes the product can give two general plans the same product |
| PricePlans.UnchangedEditIsNoOp | src/pages/PricePlans.tsx:87-128 | saving the edit form as it was filled in leaves both lists unchanged |
| PricePlans.RemoveByIdKeepsOthers | src/pages/PricePlans.tsx:179-181 | removing by id leaves nothing with that id, keeps every other plan in order, and keeps the list unique |
| PricePlans.DeleteRemovesPlan | src/pages/PricePlans.tsx:177-182 | a delete touches only the list the plan's seller chooses and keeps the lists unique |
| PricePlans.ProductNameFound | src/pages/PricePlans.tsx:192-195 | the name of a product with that id, or `Unknown Product` when there is none |
| PricePlans.SellerNameFound | src/pages/PricePlans.tsx:197-201 | `General Price Plan` for `null`, the name of a seller with that id, or `Unknown Seller` |
| PricePlans.FilteredSellerPlans | src/pages/PricePlans.tsx:208-211 | the seller plans whose product name, or whose seller's name when the seller id is truthy, contains the term |
| PricePlans.EmptySearchShowsAll | src/pages/PricePlans.tsx:204-211 | an empty search shows every plan of both lists |
| PricePlans.SellerPlanFoundBySellerName | src/pages/PricePlans.tsx:208-211 | a seller plan with a non-empty seller id is found by its seller's name |
| PricePlans.PricePlansPage.constructor | src/pages/PricePlans.tsx:62-85 | the page once its data has arrived: dialog closed, nothing edited, the general tab, an empty search and the blank form |
| PricePlans.PricePlansPage.StartEdit | src/pages/PricePlans.tsx:408-411 | the edit button records the plan and its tab and opens the dialog (the same handler sits on the other tab's button at lines 493-496) |
| PricePlans.PricePlansPage.Cancel | src/pages/PricePlans.tsx:325-328 | cancel closes the dialog, clears the edited plan and resets the form to its defaults (seller `null`, empty product and price) |
| PricePlans.PricePlansPage.SyncForm | src/pages/PricePlans.tsx:87-97 | the form shows the edited plan with its price written by `toString()`, or the blank form with seller `null` on the general tab and `''` on the seller tab |
| PricePlans.PricePlansPage.OnSubmit | src/pages/PricePlans.tsx:99-175 | a refusal changes nothing; an accepted submission sets both lists to what `Submit` computes, closes the dialog, clears the edited plan and resets the form |
| PricePlans.PricePlansPage.HandleDelete | src/pages/PricePlans.tsx:177-182 | the lists become what `Delete` computes |
| SalesDashboard.SellerOrderIsFirst | src/pages/SalesDashboard.tsx:128-129 | `getSellerOrder` finds nothing iff the seller has no order, and otherwise the first order whose seller is that id |
| SalesDashboard.FilteredSellersAreMatches | src/pages/SalesDashboard.tsx:132-134 | the search keeps, in order, exactly the sellers whose store name contains the term ignoring case; an empty search keeps all |
| SalesDashboard.ItemsFromPrices | src/pages/SalesDashboard.tsx:177 | one line per price-plan entry, with its product, an empty quantity and the plan's price |
| SalesDashboard.SetQuantityChangesOneLine | src/pages/SalesDashboard.tsx:186-188 | a quantity edit changes only that line's quantity; the length and every other line are unchanged (the edit dialog's handler at lines 234-236 is the same update) |
| SalesDashboard.SubmittedAreThePositiveLines | src/pages/SalesDashboard.tsx:193 | the submitted lines are exactly, in order and with their multiplicities, the lines whose quantity is non-empty and parses above zero (the edit save at line 241 filters the same way) |
| SalesDashboard.FreshFormSubmitsNothing | src/pages/SalesDashboard.tsx:177-197 | a create form just filled from the price plan submits no line, so it is refused |
| SalesDashboard.AddableProductsExact | src/pages/SalesDashboard.tsx:503-504 | the dropdown offers a product iff no edited line has its id |
| SalesDashboard.AddedProductLeavesDropdown | src/pages/SalesDashboard.tsx:333-341 | a product added to the order is no longer offered by the dropdown's filter at lines 503-504 |
| SalesDashboard.UnreadableQuantityIsNotSaved | src/pages/SalesDashboard.tsx:303 | for any non-zero product id, the add guard lets a non-empty quantity that is not a number through, but that line is dropped when the edit is saved by the filter at line 241 |
| SalesDashboard.MergeIntoOnlyMatching | src/pages/SalesDashboard.tsx:274 | a save merges the reply into the orders with its id only: there the id, number, seller, seller name and date are the reply's, and the total, status and items are the reply's when it has them and the order's own otherwise |
| SalesDashboard.SalesDashboardPage.constructor | src/pages/SalesDashboard.tsx:56-75 | the initial state: no sellers or orders, today selected, nothing open, status `draft` |
| SalesDashboard.SalesDashboardPage.HandleSellerClick | src/pages/SalesDashboard.tsx:137-142 | the seller's order is opened when there is one; otherwise nothing changes |
| SalesDashboard.SalesDashboardPage.SellerRowClick | src/pages/SalesDashboard.tsx:409 | a seller with an order opens that order; a seller without one opens the create dialog for that seller |
| SalesDashboard.SalesDashboardPage.OrderDialogOpenChange | src/pages/SalesDashboard.tsx:427 | edit mode always ends; closing the order dialog forgets the order |
| SalesDashboard.SalesDashboardPage.SetEditMode | src/pages/SalesDashboard.tsx:464 | the Edit button turns edit mode on, and Cancel (line 525) turns it off |
| SalesDashboard.SalesDashboardPage.CreateDialogOpenChange | src/pages/SalesDashboard.tsx:540 | closing the create dialog, or its Cancel button at line 577, forgets the seller; opening changes nothing |
| SalesDashboard.SalesDashboardPage.LoadGeneralPrices | src/pages/SalesDashboard.tsx:164-183 | nothing happens until a seller is chosen for a new order; then a loaded plan sets the prices and one empty line per price; a failed load changes neither |
| SalesDashboard.SalesDashboardPage.HandleItemQtyChange | src/pages/SalesDashboard.tsx:186-188 | the create lines become the quantity edit of the old lines |
| SalesDashboard.SalesDashboardPage.HandleCreateOrder | src/pages/SalesDashboard.tsx:191-223 | nothing is sent without a seller, a date or a positive line; otherwise the request carries the seller, the date, `draft` and the positive lines, and a reply is opened and appended to the orders |
| SalesDashboard.SalesDashboardPage.SyncEditForm | src/pages/SalesDashboard.tsx:226-231 | in edit mode the form copies the order's lines (none when absent) and its status, or `draft` |
| SalesDashboard.SalesDashboardPage.HandleEditItemQtyChange | src/pages/SalesDashboard.tsx:234-236 | the edit lines become the quantity edit of the old lines |
| SalesDashboard.SalesDashboardPage.HandleSaveEdit | src/pages/SalesDashboard.tsx:239-281 | nothing is sent without an order or a positive line; otherwise the request keeps the order's own fields with the edited status and the positive lines, and a reply closes edit mode and is merged into the orders |
| SalesDashboard.SalesDashboardPage.HandleAddProductToOrder | src/pages/SalesDashboard.tsx:302-347 | the lines are unchanged unless a product is chosen, the quantity passes the guard and a price is found; then exactly one line is appended and the add fields are reset |
| SalesDashboard.AddGuardCases | src/pages/SalesDashboard.tsx:303 | passing implies a non-zero product id and a non-empty quantity; with those, the add goes ahead iff the quantity reads as NaN or as a number above zero |
| SalesDashboard.LookupPriceCases | src/pages/SalesDashboard.tsx:307-327 | the lookup fails iff the cached plan has no entry for the product and the refetch failed; otherwise the first cached entry's price and name win, then the refetched plan's first entry, and a refetched plan without the product gives an empty price and name |
| PurchaseOrderItems.ExtraQuantityChangesOneLine | src/pages/CreatePurchaseOrder.tsx:117-127 | typing an extra quantity changes only that line: the length and the other lines stay, its extra quantity becomes the typed text and its total reads back as sales plus extra (an empty extra counting as zero) |
| PurchaseOrderItems.AddProductCases | src/pages/CreatePurchaseOrder.tsx:130-150 | an id not in the catalogue adds nothing; a known one appends exactly one line for that product, blank quantities written `0.000` and the total reading back as sales plus extra |
| PurchaseOrderItems.RemainingNotInTotal | src/pages/CreatePurchaseOrder.tsx:140-145 | the remaining quantity does not enter a new line's total |
| PurchaseOrderItems.AvailableProductsExact | src/pages/CreatePurchaseOrder.tsx:152-154 | a product is offered iff it is in the catalogue and no line has its id |
| PurchaseOrderItems.AddedProductIsNotOffered | src/pages/CreatePurchaseOrder.tsx:130-154 | a catalogue product just added is no longer offered |
| PurchaseOrderItems.CanSubmitMeansFilled | src/pages/CreatePurchaseOrder.tsx:158 | submission needs a route, a team, a date, notes that are not only whitespace and at least one line |
| PurchaseOrderItems.CreateLinesCopyItems | src/pages/CreatePurchaseOrder.tsx:170-177 | the request lists the lines in order with their six fields unchanged |
| PurchaseOrderItems.TeamsForRoute | src/pages/CreatePurchaseOrder.tsx:239 | with no route chosen every team is offered, otherwise exactly the teams of that route |
| CreatePurchaseOrder.CreatePurchaseOrderPage.constructor | src/pages/CreatePurchaseOrder.tsx:54-65 | the initial state: nothing chosen, no lines, no existing order, the add dialog closed and its form blank |
| CreatePurchaseOrder.CreatePurchaseOrderPage.SelectionChanged | src/pages/CreatePurchaseOrder.tsx:87-114 | without route, team and date the lines and the existing order are cleared; with them, an existing order's lines are loaded, otherwise the route's sales summary, and a failed check changes nothing |
| CreatePurchaseOrder.CreatePurchaseOrderPage.HandleExtraQtyChange | src/pages/CreatePurchaseOrder.tsx:117-127 | the lines become the extra-quantity edit of the old lines |
| CreatePurchaseOrder.CreatePurchaseOrderPage.HandleAddProduct | src/pages/CreatePurchaseOrder.tsx:130-150 | the lines become the add of the form's product; the dialog closes and its form is cleared only when a line was added |
| CreatePurchaseOrder.CreatePurchaseOrderPage.HandleSubmit | src/pages/CreatePurchaseOrder.tsx:157-207 | nothing is sent unless the guard passes and a token is present; the request carries the form and its lines; a success clears the form and a failure changes nothing |
| CreatePurchaseOrderModal.FromEditItems | src/pages/CreatePurchaseOrderModal.tsx:152-162 | one form line per server line, in order |
| CreatePurchaseOrderModal.EditLineRoundTrip | src/pages/CreatePurchaseOrderModal.tsx:152-240 | an unedited line goes back to the server field for field as it came |
| CreatePurchaseOrderModal.UnchangedEditResubmitsOrder | src/pages/CreatePurchaseOrderModal.tsx:146-241 | submitting the edit form as initialised sends the order back unchanged |
| CreatePurchaseOrderModal.EditRequestKeepsOrderFields | src/pages/CreatePurchaseOrderModal.tsx:222-241 | an update always keeps the order's id, number, route, date and status, whatever the form holds; only team, notes and lines come from the form |
| CreatePurchaseOrderModal.PurchaseOrderDialog.constructor | src/pages/CreatePurchaseOrderModal.tsx:79-92 | the props are kept and the form starts empty |
| CreatePurchaseOrderModal.PurchaseOrderDialog.SelectionChanged | src/pages/CreatePurchaseOrderModal.tsx:115-143 | the existing-order effect runs only while creating in an open dialog, with the same outcomes as on the page |
| CreatePurchaseOrderModal.PurchaseOrderDialog.InitForEdit | src/pages/CreatePurchaseOrderModal.tsx:146-164 | an open dialog with an order takes its route, team, date, notes and lines; otherwise nothing changes |
| CreatePurchaseOrderModal.PurchaseOrderDialog.HandleExtraQtyChange | src/pages/CreatePurchaseOrderModal.tsx:167-177 | the lines become the extra-quantity edit of the old lines |
| CreatePurchaseOrderModal.PurchaseOrderDialog.HandleAddProduct | src/pages/CreatePurchaseOrderModal.tsx:180-200 | the lines become the add of the form's product; the dialog closes and its form is cleared only when a line was added |
| CreatePurchaseOrderModal.PurchaseOrderDialog.HandleSubmit | src/pages/CreatePurchaseOrderModal.tsx:207-289 | nothing is sent unless the guard passes and a token is present; an edit sends the update of the order, otherwise the create request; a success clears the form and a failure changes nothing |
| CreatePurchaseOrderModal.PurchaseOrderDialog.ResetOnClose | src/pages/CreatePurchaseOrderModal.tsx:292-301 | a closed dialog clears the form; an open one changes nothing |
| Products.CategoryKeys | src/pages/Products.tsx:204-208 | the grouped record's keys are distinct and are exactly the category names of the products |
| Products.GroupingSnocJoins | src/pages/Products.tsx:205-206 | a product whose category already has a group is pushed onto that group and changes nothing else |
| Products.GroupingSnocOpens | src/pages/Products.tsx:205-206 | a product whose category has no group opens a new group at the end holding just that product |
| Products.GroupProducts | src/pages/Products.tsx:204-208 | the reduce over the products builds exactly the grouping |
| Products.GroupsAreCategories | src/pages/Products.tsx:204-208 | groups have distinct categories, are never empty, and hold, in list order, only products of their category |
| Products.ProductInItsGroup | src/pages/Products.tsx:204-208 | every product sits in the group of its own category |
| Products.CountInGroups | src/pages/Products.tsx:204-208 | over groups that each hold their category's products, a product occurs as often as in the list when its category has a group, and not at all otherwise |
| Products.GroupingIsPermutation | src/pages/Products.tsx:204-208 | together the groups hold exactly the product list: nothing lost, nothing doubled |
| Products.FilteredGroups | src/pages/Products.tsx:211-222 | the filter shows no more groups than there are, and no empty group |
| Products.FilterGroups | src/pages/Products.tsx:211-222 | the reduce over the record's entries computes the filtered groups |
| Products.FilteredGroupsMembership | src/pages/Products.tsx:211-222 | a product is shown under a category iff it matches the search in name, code or unit size ignoring case and was in that category's group |
| Products.ShownIffMatches | src/pages/Products.tsx:204-222 | a product of the list is shown, under its own category, iff it matches the search |
| Products.EmptySearchKeepsGroups | src/pages/Products.tsx:211-222 | an empty search keeps every non-empty group unchanged |
| Products.EmptySearchShowsGrouping | src/pages/Products.tsx:204-222 | an empty search shows the whole grouping |
| Products.WithoutProduct | src/pages/Products.tsx:193-194 | a product remains after a delete iff it was there and has another id |
| Products.DeleteRemovesExactly | src/pages/Products.tsx:193-194 | the delete keeps the other products in order and as often as they occurred, and removes every product with that id |
| Products.PayloadOf | src/pages/Products.tsx:130-139 | the payload copies the form; a non-empty category name is that of a category with the sent id, and an unknown id sends an empty name |
| Products.PayloadNamesChosenCategory | src/pages/Products.tsx:131-135 | with distinct category ids the payload carries the chosen category's id and name |
| Products.UnchosenCategoryIsZero | src/pages/Products.tsx:134 | no category chosen sends category 0 |
| Products.FormFor | src/pages/Products.tsx:50-128 | without a product being edited the form holds the defaults (empty code, name and unit, no category, not liquid, active); with one it holds that product's fields |
| Products.UnchangedEditResubmitsProduct | src/pages/Products.tsx:117-139 | saving an edited product without touching the form sends its own values back |
| Products.ProductsPage.constructor | src/pages/Products.tsx:42-59 | the initial state: no products or categories, the dialog closed, nothing edited, empty search, default form |
| Products.ProductsPage.StartEdit | src/pages/Products.tsx:423-424 | the edit button selects the product and opens the dialog |
| Products.ProductsPage.SyncForm | src/pages/Products.tsx:117-128 | the form becomes that of the edited product, or the defaults |
| Products.ProductsPage.HandleDelete | src/pages/Products.tsx:193-194 | the products become the list without that id |
| Products.ProductsPage.OnSubmit | src/pages/Products.tsx:130-191 | a payload is sent iff a token is present; a success closes the dialog, clears the edit and the form and takes the refreshed list when there is one; otherwise nothing changes |
| ListUpdates.ReplaceById | src/pages/RoutesManagement.tsx:110-114 | the list keeps its length; entries with the id become the new record and every other entry is unchanged |
| ListUpdates.RemoveById | src/pages/RoutesManagement.tsx:171 | the result holds only entries of the list with another id, and all of them |
| ListUpdates.ReplaceByIdIsUpdateAt | src/pages/RoutesManagement.tsx:110-114 | in a list with distinct ids, replacing by an entry's id writes at its position only, and keeps the ids distinct when the key is kept |
| ListUpdates.ReplaceMissingIdIsNoOp | src/pages/RoutesManagement.tsx:110-114 | replacing an id no entry has changes nothing |
| ListUpdates.RemoveByIdIsRemoveAt | src/pages/RoutesManagement.tsx:171 | in a list with distinct ids, removing an entry's id removes exactly that position and keeps the ids distinct |
| ListUpdates.RemoveByIdKeepsOthers | src/pages/RoutesManagement.tsx:171 | removing keeps the other entries in order and as often as they occurred, and none with that id |
| Users.FilteredUsers | src/pages/Users.tsx:261-271 | the result holds only users of the list that match the search, and every one that does |
| Users.FilteredUsersKeepOrder | src/pages/Users.tsx:261-271 | the search keeps the users' order |
| Users.EmptySearchShowsAllUsers | src/pages/Users.tsx:261-271 | an empty search shows every user |
| Users.UserFoundByUsername | src/pages/Users.tsx:262-264 | a user is found by its own user name |
| Users.Prefill | src/pages/Users.tsx:172-179 | the edit dialog opens with an empty password |
| Users.EditPayloadOf | src/pages/Users.tsx:232-237 | the payload carries names and role, and the password iff one was typed |
| Users.UnchangedEditKeepsPassword | src/pages/Users.tsx:172-237 | saving the prefilled dialog unchanged resends the user's names and role and no password |
| Users.UsersPage.constructor | src/pages/Users.tsx:47-58 | the initial state: no users or roles, empty search, edit dialog closed with a blank form |
| Users.UsersPage.HandleEditDialogOpen | src/pages/Users.tsx:153-187 | the dialog's open state follows the request; roles are loaded once when missing; with a user the form is prefilled, unless a missing token returned early; closing clears the user and the form |
| Users.UsersPage.HandleEditFormSubmit | src/pages/Users.tsx:221-258 | a request is sent iff a user is being edited and a token is present, with that user's id and the payload; a success closes the dialog and takes the refreshed list; otherwise nothing changes |
| Sellers.FilteredSellers | src/pages/Sellers.tsx:122-132 | the result holds only sellers of the list that match, in five text fields ignoring case or in the id's digits, and every one that does |
| Sellers.SellerFoundById | src/pages/Sellers.tsx:130 | searching for a seller's id in decimal finds that seller |
| Sellers.EmptySearchShowsAllSellers | src/pages/Sellers.tsx:122-132 | an empty search shows every seller |
| Sellers.PayloadOf | src/pages/Sellers.tsx:148-155 | the payload sends the chosen route id (an unchosen route as 0), a non-empty route name only of a route with that id and an empty name for an unknown id, and the form's other fields unchanged |
| Sellers.FormFor | src/pages/Sellers.tsx:46-204 | without a seller being edited the form holds the defaults (no route, every text field empty); with one it holds that seller's route and fields |
| Sellers.UnchangedEditResubmitsSeller | src/pages/Sellers.tsx:148-204 | saving an edited seller unchanged resends its own route and fields |
| Sellers.SellersPage.constructor | src/pages/Sellers.tsx:34-55 | the initial state: no sellers or routes, the dialog closed, page 1, no neighbour pages |
| Sellers.SellersPage.StartEdit | src/pages/Sellers.tsx:273-275 | the edit button selects the seller and opens the dialog |
| Sellers.SellersPage.SyncForm | src/pages/Sellers.tsx:193-204 | the form becomes that of the edited seller, or the defaults |
| Sellers.SellersPage.LoadPage | src/pages/Sellers.tsx:59-79 | with a token and a reply, the list, count and neighbour links become the page's; otherwise nothing changes |
| Sellers.SellersPage.PreviousPage | src/pages/Sellers.tsx:296-303 | the page goes back one only when the server reported a previous page |
| Sellers.SellersPage.NextPage | src/pages/Sellers.tsx:305-312 | the page goes forward one only when the server reported a next page |
| Sellers.SellersPage.HandleDelete | src/pages/Sellers.tsx:111-113 | the sellers become the list without that id |
| Sellers.SellersPage.OnSubmit | src/pages/Sellers.tsx:135-190 | a payload is sent iff a token is present; a reply replaces the edited seller by id or is appended, and closes and clears the dialog; otherwise nothing changes |
| RoutesManagement.FilteredRoutes | src/pages/RoutesManagement.tsx:188-191 | the result holds only routes whose name or code contains the term ignoring case, and every one that does |
| RoutesManagement.EmptySearchShowsAllRoutes | src/pages/RoutesManagement.tsx:188-191 | an empty search shows every route in order |
| RoutesManagement.RouteFoundByCode | src/pages/RoutesManagement.tsx:190 | a route is found by its own code |
| RoutesManagement.FormFor | src/pages/RoutesManagement.tsx:32-85 | the form holds the edited route's name and code, or is blank |
| RoutesManagement.RoutesPage.constructor | src/pages/RoutesManagement.tsx:24-36 | the initial state: no routes, the dialog closed, nothing edited, empty search, blank form |
| RoutesManagement.RoutesPage.StartEdit | src/pages/RoutesManagement.tsx:323-325 | the edit button selects the route and opens the dialog |
| RoutesManagement.RoutesPage.SyncForm | src/pages/RoutesManagement.tsx:78-85 | the form becomes that of the edited route, or blank |
| RoutesManagement.RoutesPage.OnSubmit | src/pages/RoutesManagement.tsx:87-150 | a request is sent iff a token is present; a reply replaces the edited route by id or is appended, and closes and clears the dialog; otherwise nothing changes |
| RoutesManagement.RoutesPage.HandleDelete | src/pages/RoutesManagement.tsx:152-186 | a request is sent iff a token is present, and the route leaves the list only when the server confirms |
| Categories.FormFor | src/pages/Categories.tsx:29-72 | the form holds the edited category's name and code, or is blank |
| Categories.CategoriesPage.constructor | src/pages/Categories.tsx:22-31 | the initial state: no categories, the dialog closed, nothing edited, blank form |
| Categories.CategoriesPage.StartEdit | src/pages/Categories.tsx:173-176 | the edit button selects the category and opens the dialog |
| Categories.CategoriesPage.SyncForm | src/pages/Categories.tsx:65-72 | the form becomes that of the edited category, or blank |
| Categories.CategoriesPage.OnSubmit | src/pages/Categories.tsx:74-120 | a request is sent iff a token is present; a reply replaces the edited category by id or is appended, and closes and clears the dialog; otherwise nothing changes |
| FormErrors.SaveError | src/pages/Distributors.tsx:123-135 | no error iff the save succeeded; a refusal shows the server's non-empty `detail`, else the fixed message; an unreachable server shows the error's own message |
| FormErrors.DeleteError | src/pages/Distributors.tsx:157-164 | no error iff the delete succeeded; a refusal always shows the fixed message; an unreachable server shows the error's own message |
| FormErrors.EmptyDetailIsNoDetail | src/pages/Distributors.tsx:125-126 | an empty `detail` and a missing one show the same fallback |
| Distributors.FieldsOf | src/pages/Distributors.tsx:77-78 | the edit form holds every member of the initial form plus the id |
| Distributors.Changed | src/pages/Distributors.tsx:84-94 | the named member becomes the checkbox's state or the input's text, and every other member keeps its value |
| Distributors.ChangesToDifferentFieldsCommute | src/pages/Distributors.tsx:84-94 | changes to two different members can be made in either order |
| Distributors.RetypingIsNoOp | src/pages/Distributors.tsx:84-94 | typing the text a member already holds leaves the form as it was |
| Distributors.DistributorsPage.constructor | src/pages/Distributors.tsx:31-46 | the initial state: no distributors, both dialogs closed, the initial form, no errors |
| Distributors.DistributorsPage.HandleDialogOpen | src/pages/Distributors.tsx:70-75 | a fresh create dialog on the initial form |
| Distributors.DistributorsPage.HandleEdit | src/pages/Distributors.tsx:77-82 | the dialog opens on a copy of the distributor's members |
| Distributors.DistributorsPage.HandleFormChange | src/pages/Distributors.tsx:84-94 | the form becomes the change of the old form |
| Distributors.DistributorsPage.HandleFormSubmit | src/pages/Distributors.tsx:96-139 | an update of the edited distributor or a create is sent with the form; the error is the save error of the outcome; a success closes and clears the dialog and takes the refreshed list, a failure keeps the rest |
| Distributors.DistributorsPage.HandleDelete | src/pages/Distributors.tsx:141-145 | the confirmation opens for that distributor with no error |
| Distributors.DistributorsPage.ConfirmDelete | src/pages/Distributors.tsx:147-168 | nothing happens unless a distributor is pending; then its id is sent, the error is the delete error of the outcome, and a success closes the confirmation and takes the refreshed list |
| DeliveryTeams.EditForm | src/pages/DeliveryTeams.tsx:108-113 | the edit form writes both ids as non-empty digit strings |
| DeliveryTeams.Changed | src/pages/DeliveryTeams.tsx:120-123 | only the named field takes the new value |
| DeliveryTeams.PayloadOf | src/pages/DeliveryTeams.tsx:131-135 | the payload carries the name, and each id is a number iff its text is all digits |
| DeliveryTeams.UnchangedEditResubmitsIds | src/pages/DeliveryTeams.tsx:108-135 | saving an edited team unchanged sends its own name and ids back |
| DeliveryTeams.ChosenIdIsSent | src/pages/DeliveryTeams.tsx:120-135 | choosing a distributor or route by its id string sends that id |
| DeliveryTeams.BlankFormSendsZeroIds | src/pages/DeliveryTeams.tsx:28-135 | a create with nothing chosen sends id 0 for both |
| DeliveryTeams.DeliveryTeamsPage.constructor | src/pages/DeliveryTeams.tsx:35-53 | the initial state: no teams, both dialogs closed, the initial form, no errors |
| DeliveryTeams.DeliveryTeamsPage.HandleDialogOpen | src/pages/DeliveryTeams.tsx:100-106 | a fresh create dialog on the initial form |
| DeliveryTeams.DeliveryTeamsPage.HandleEdit | src/pages/DeliveryTeams.tsx:108-118 | the dialog opens on the team's edit form |
| DeliveryTeams.DeliveryTeamsPage.HandleFormChange | src/pages/DeliveryTeams.tsx:120-123 | the form becomes the change of the old form |
| DeliveryTeams.DeliveryTeamsPage.HandleFormSubmit | src/pages/DeliveryTeams.tsx:125-173 | an update of the edited team or a create is sent with the payload of the form; the error is the save error of the outcome; a success closes and clears the dialog and takes the refreshed list, a failure keeps the rest |
| DeliveryTeams.DeliveryTeamsPage.HandleDelete | src/pages/DeliveryTeams.tsx:175-179 | the confirmation opens for that team with no error |
| DeliveryTeams.DeliveryTeamsPage.ConfirmDelete | src/pages/DeliveryTeams.tsx:181-202 | nothing happens unless a team is pending; then its id is sent, the error is the delete error of the outcome, and a success closes the confirmation and takes the refreshed list |
| Json.ResultsOrEmpty | src/pages/LoadingOrders.tsx:59 | the list is the object's `results` when it has them and empty otherwise, a bare array included |
| Json.ResultsOrBody | src/pages/SalesReport.tsx:71 | the reading fails iff the body is an object without `results` |
| Json.BodyOrResults | src/pages/DeliveryOrders.tsx:69 | a bare array or an object's `results` is taken as the list, and anything else reads as empty |
| Json.BareArrayReadings | src/pages/DeliveryOrders.tsx:69 | a bare array is kept whole by the delivery-orders reading and read as empty, or as no list, by the `results` readings |
| Json.PaginatedReadingsAgree | src/pages/DeliveryOrders.tsx:69 | on a paginated object with `results`, all four readings give that list |
| Json.Keys | src/components/dashboards/RoutePerformance.tsx:51 | one key per member, in member order |
| Json.Get | src/components/dashboards/RoutePerformance.tsx:106 | a member's value is missing iff the key is not among the object's keys |
| OrderSearch.FetchUrlSplitsAtQuestionMark | src/pages/DeliveryOrders.tsx:62-63 | the URL is the endpoint alone for an empty query, and otherwise splits at `?` into the endpoint and the query |
| OrderSearch.SearchQueryIsOneParameter | src/pages/DeliveryOrders.tsx:82-91 | the query is empty iff the term is; otherwise it is one `&`-free parameter that splits at `=` into the field's name and the encoded term |
| OrderSearch.ToggleExpand | src/pages/DeliveryOrders.tsx:94-96 | the order is expanded afterwards iff it was not before, and otherwise none is |
| OrderSearch.ToggleTwice | src/pages/DeliveryOrders.tsx:94-96 | toggling the same order twice leaves it expanded iff it was, and collapses any other |
| DeliveryOrders.ParamName | src/pages/DeliveryOrders.tsx:88-90 | each search field's parameter name is non-empty and free of `&` and `=` |
| DeliveryOrders.DeliveryOrdersPage.constructor | src/pages/DeliveryOrders.tsx:46-50 | the initial state: no orders, empty search by route name, nothing expanded |
| DeliveryOrders.DeliveryOrdersPage.HandleSearch | src/pages/DeliveryOrders.tsx:53-92 | a request is made iff a token is present, at the endpoint with the search's query; a reply replaces the orders by its bare array or `results`, and otherwise the orders stay |
| DeliveryOrders.DeliveryOrdersPage.ToggleExpand | src/pages/DeliveryOrders.tsx:94-96 | the expanded order becomes the toggle of the old one |
| LoadingOrders.ParamName | src/pages/LoadingOrders.tsx:78-79 | each search field's parameter name is non-empty and free of `&` and `=` |
| LoadingOrders.LoadingOrdersPage.constructor | src/pages/LoadingOrders.tsx:36-40 | the initial state: no orders, empty search by route name, nothing expanded |
| LoadingOrders.LoadingOrdersPage.HandleSearch | src/pages/LoadingOrders.tsx:43-81 | a request is made iff a token is present, at the endpoint with the search's query; a reply replaces the orders by its `results` or an empty list, and otherwise the orders stay |
| LoadingOrders.LoadingOrdersPage.ToggleExpand | src/pages/LoadingOrders.tsx:83-85 | the expanded order becomes the toggle of the old one |
| SalesOrders.ParamName | src/pages/SalesOrders.tsx:71-74 | each search field's parameter name is non-empty and free of `&` and `=` |
| SalesOrders.ParamNamesDistinct | src/pages/SalesOrders.tsx:71-74 | different search fields send different parameter names |
| SalesOrders.SalesOrdersPage.constructor | src/pages/SalesOrders.tsx:30-33 | the initial state: an empty order list, empty search by route name |
| SalesOrders.SalesOrdersPage.HandleSearch | src/pages/SalesOrders.tsx:36-76 | a request is made iff a token is present, at the endpoint with the search's query; a reply sets the orders to its `results`, which may be missing, and otherwise the orders stay |
| SalesReport.Param | src/pages/SalesReport.tsx:89-93 | a filter adds a parameter iff it is filled |
| SalesReport.Params | src/pages/SalesReport.tsx:88-93 | every parameter pushed is non-empty |
| SalesReport.ParamCount | src/pages/SalesReport.tsx:88-93 | there is one parameter per filled filter |
| SalesReport.NoFiltersFetchAll | src/pages/SalesReport.tsx:87-94 | with no filter the request goes to the bare list URL |
| SalesReport.QuerySplitsIntoParams | src/pages/SalesReport.tsx:88-94 | when no value holds `&`, splitting the query at `&` gives back the parameters |
| SalesReport.EncoderOnlyTouchesSeller | src/pages/SalesReport.tsx:88-93 | only the seller filter goes through the URL encoder |
| SalesReport.SellerOrdersUrlCarriesId | src/pages/SalesReport.tsx:122 | the seller's orders URL is the list URL with `seller_id=` and the id in decimal, which reads back as the id |
| SalesReport.SalesReportPage.constructor | src/pages/SalesReport.tsx:33-57 | the initial state: no modal, no filters, empty lists, no errors |
| SalesReport.SalesReportPage.FetchRoutes | src/pages/SalesReport.tsx:60-79 | a reply sets the routes to its `results` or bare array and clears the error; a failure keeps the routes and sets the routes error |
| SalesReport.SalesReportPage.FetchOrders | src/pages/SalesReport.tsx:82-106 | the URL is the base followed by the filled filters' parameters joined by `&`; a reply sets the orders to its `results` or empty, and a failure keeps them and sets the orders error |
| SalesReport.SalesReportPage.QueryParams | src/pages/SalesReport.tsx:88-93 | one parameter per filled filter, in the order from-date, to-date, route, seller, status, with only the seller's name encoded |
| SalesReport.SalesReportPage.OpenSellerModal | src/pages/SalesReport.tsx:115-133 | the modal opens for the seller and fetches its orders; a failure leaves the list empty with the error set |
| SalesReport.SalesReportPage.ViewOrder | src/pages/SalesReport.tsx:136-153 | the order's URL carries its id; the selected order is the reply, and the error is set iff there is none |
| PeriodColumns.LessIrreflexive | src/components/dashboards/RoutePerformance.tsx:53 | no key sorts before itself |
| PeriodColumns.LessAsymmetric | src/components/dashboards/RoutePerformance.tsx:53 | two keys never sort before each other |
| PeriodColumns.LessTransitive | src/components/dashboards/RoutePerformance.tsx:53 | the sort order is transitive |
| PeriodColumns.LessTotal | src/components/dashboards/RoutePerformance.tsx:53 | any two different keys are ordered one way or the other |
| PeriodColumns.Insert | src/components/dashboards/RoutePerformance.tsx:49-53 | inserting a key adds it and nothing else |
| PeriodColumns.InsertSorted | src/components/dashboards/RoutePerformance.tsx:49-53 | inserting into a strictly sorted list keeps it strictly sorted |
| PeriodColumns.InsertLength | src/components/dashboards/RoutePerformance.tsx:49-53 | an insert grows the list by at most one |
| PeriodColumns.SortedUnique | src/components/dashboards/RoutePerformance.tsx:49-53 | `Array.from(new Set(keys)).sort()` is strictly sorted, holds exactly the keys, and is no longer than them |
| PeriodColumns.StrictlySortedUnique | src/components/dashboards/RoutePerformance.tsx:49-53 | two strictly sorted lists with the same members are equal |
| PeriodColumns.SameKeysSameColumns | src/components/dashboards/RoutePerformance.tsx:49-53 | the columns depend only on which keys occur, not on their order or repetition |
| PeriodColumns.CellOf | src/components/dashboards/ProductMovementChart.tsx:99 | a cell is a dash iff the key is missing, and otherwise shows the stored value |
| PeriodColumns.FieldCell | src/components/dashboards/RoutePerformance.tsx:106 | a cell is a dash iff the key is missing, and otherwise shows the field of the stored record |
| RoutePerformance.BreakdownKeys | src/components/dashboards/RoutePerformance.tsx:51 | one key list per route, its breakdown's keys |
| RoutePerformance.AllPeriods | src/components/dashboards/RoutePerformance.tsx:49-53 | the period columns are strictly sorted |
| RoutePerformance.PeriodIffSomeRouteHasIt | src/components/dashboards/RoutePerformance.tsx:49-53 | a period is a column iff some route's breakdown has it |
| RoutePerformance.NoDataNoPeriods | src/components/dashboards/RoutePerformance.tsx:51 | no data, or no routes, gives no period column |
| RoutePerformance.PeriodCells | src/components/dashboards/RoutePerformance.tsx:104-118 | each of a route's three cells for a period is a dash iff its breakdown lacks the period, and otherwise shows that field |
| ProductMovementChart.ProductKeys | src/components/dashboards/ProductMovementChart.tsx:50-53 | per product, its quantity keys followed by its value keys |
| ProductMovementChart.AllPeriods | src/components/dashboards/ProductMovementChart.tsx:47-54 | the period columns are strictly sorted |
| ProductMovementChart.PeriodIffSomeProductHasIt | src/components/dashboards/ProductMovementChart.tsx:47-54 | a period is a column iff some product's quantity or value breakdown has it |
| ProductMovementChart.NoDataNoPeriods | src/components/dashboards/ProductMovementChart.tsx:50-53 | no data, or no products, gives no period column |
| ProductMovementChart.PeriodCells | src/components/dashboards/ProductMovementChart.tsx:97-106 | each cell is a dash iff its breakdown lacks the period; a stored zero is shown |
| TopSellers.SellerKeys | src/components/dashboards/TopSellers.tsx:50-53 | per seller, its quantity keys followed by its value keys |
| TopSellers.AllPeriods | src/components/dashboards/TopSellers.tsx:47-54 | the period columns are strictly sorted |
| TopSellers.PeriodIffSomeSellerHasIt | src/components/dashboards/TopSellers.tsx:47-54 | a period is a column iff some seller's quantity or value breakdown has it |
| TopSellers.NoDataNoPeriods | src/components/dashboards/TopSellers.tsx:50-53 | no data, or no sellers, gives no period column |
| TopSellers.PeriodCells | src/components/dashboards/TopSellers.tsx:97-106 | each cell is a dash iff its breakdown lacks the period; a stored zero is shown |
| BalanceAgingReport.OverdueKeys | src/components/dashboards/BalanceAgingReport.tsx:71 | one key list per seller, its overdue breakdown's keys |
| BalanceAgingReport.Columns | src/components/dashboards/BalanceAgingReport.tsx:69-73 | the overdue columns are strictly sorted |
| BalanceAgingReport.ColumnIffSomeSellerHasIt | src/components/dashboards/BalanceAgingReport.tsx:69-73 | a period is a column iff some seller's overdue breakdown has it |
| BalanceAgingReport.ColumnsIgnoreSellerOrder | src/components/dashboards/BalanceAgingReport.tsx:69-73 | reordering the sellers does not change the columns |
| BalanceAgingReport.AgingCell | src/components/dashboards/BalanceAgingReport.tsx:89 | a cell is a dash iff the period is missing or its balance is zero, and otherwise shows the balance |
| BalanceAgingReport.Row | src/components/dashboards/BalanceAgingReport.tsx:69-91 | every row has one cell per header column, and the cell at each position is the seller's cell for the header's period at that position |
| BalanceAgingReport.ZeroIsHiddenHereButShownElsewhere | src/components/dashboards/BalanceAgingReport.tsx:89 | a stored zero balance shows as a dash here, where the `!== undefined` test of the other reports would show it |
| SalesReport.SalesReportPage.SellerModalOpenChange | src/pages/SalesReport.tsx:324 | closing the seller dialog forgets the seller; opening changes nothing |
| SalesReport.SalesReportPage.OrderDetailsOpenChange | src/pages/SalesReport.tsx:373 | closing the order dialog forgets the order; opening changes nothing |

## Left out

- Network and storage: every `fetch`/`axios` call, the endpoints' answers, the `Authorization` headers and the `access_token` read are outside the model. A reply is a method parameter (`None` for a failed request or a non-2xx status) and the token is an `Option<string>` parameter. Only `AuthContext` models browser storage, as a `map<string, string>`.
- Form inputs bound straight to state (`setNotes`, `setSelectedRoute`, `setSearchTerm`, the filter inputs of the sales report and so on) are plain assignments to the page's public fields; they get no method of their own.
- JSON: `JSON.stringify`/`JSON.parse` of the stored user are encoder and decoder parameters of `AuthContext`. A JSON object is a list of key/value entries without repeated keys. `Object.keys` keeps member order, so the rule that moves integer-like keys first is not modelled; it cannot change the period columns, which are sorted anyway.
- Floating point: quantities and prices are decimals with at most three fraction digits, held as integer thousandths. `Quantity.Parse` reads only a whole text of the form `[-]digits[.digits]`, and any other text reads as `NaN`. JavaScript's `parseFloat` is more lenient: it skips leading whitespace, accepts a leading `+`, reads a prefix and ignores trailing junk. So `" 5"`, `"+5"`, `"5."`, `".5"`, `"12abc"` and `"1e3"` read as 5, 5, 5, 0.5, 12 and 1000 there, and a fourth fraction digit is read rather than refused. The model reads all of these as `NaN`. This changes the outcome at three places. The submit filters at src/pages/SalesDashboard.tsx:193 and :241 keep such a line in the original and drop it in the model (`SalesDashboard.Submitted`). The add guard at src/pages/SalesDashboard.tsx:303 stops `"-5x"` or `"0."` in the original but lets them through in the model (`SalesDashboard.AddGuardPasses`). The price check at src/pages/PricePlans.tsx:100 accepts `"2.5€"` in the original and refuses it in the model (`PricePlans.ValidPrice`). `toFixed(3)` and `toString()` are exact here and their rounding is not modelled. Neither is the exponent notation `toString()` uses for values of 1e21 and above. The price-plan discount percentage (src/pages/PricePlans.tsx:466-471) and the on-time percentage `toFixed(2)` (src/components/dashboards/RoutePerformance.tsx:102) are display-only and left out.
- Text: `toLowerCase` is ASCII lowercasing; full Unicode case mapping is not modelled. `Array.prototype.sort` compares UTF-16 code units, and the model compares `char`s, which agree for the ASCII period keys the dashboards receive.
- `encodeURIComponent` is an abstract `string -> string` parameter. The properties that need to split a query back into parameters assume the encoded text holds no `&` or `=`, which is what the real encoder guarantees.
- Dates are opaque strings: `toISOString().split('T')[0]`, `new Date(...)` and `date-fns` formatting depend on the time zone and are not modelled.
- react-hook-form: `reset()` and `setValue` are modelled as writing the whole form record (`FormFor`) at once, not field by field.
- Concurrency: effects are methods called in some order; out-of-order completion of requests is not modelled, nor is the effect that merges a late order-detail reply into `selectedOrder` (src/pages/SalesDashboard.tsx:145-161).
- Loading, submitting and toast state, dialogs' rendering, styling, PDF export and the static dashboards (AdminDashboard, the dashboard SalesDashboard and DeliveryDashboard components, OrderStatusHeatmap, DeliverySummaryReport, PurchaseOrders, Navbar, Unauthorized, Dashboard and the routing table) are not part of this model: they only display data.
- Users: the create-user dialog (`handleDialogOpen`, `handleFormSubmit`) and the list fetch are not part of this model; the refreshed list after an edit is a parameter.
- The lists the pages fetch for their dropdowns (categories, routes, teams, products, distributors) are fields set from outside; their fetch effects are not modelled, except the routes of the sales report.
- AuthContext.Session.Login: the email and password are sent to the server only, so the model takes the server's answer and does not carry them.
- Distributors.DistributorsPage.HandleFormSubmit: the catch-all message 'Could not save distributor.' is never shown, because every error the handler can catch is an `Error`; the model has no outcome for it. The same holds for DeliveryTeams.DeliveryTeamsPage.HandleFormSubmit and both `confirmDelete` handlers.
- SalesReport.SalesReportPage.FetchRoutes: when the routes reply is an object without `results`, the page stores that object as its route list; the model reads this as no list (`None`).
- CreatePurchaseOrder.CreatePurchaseOrderPage.SelectionChanged: an existing-order reply without `items`, and a sales summary without `items`, are read as an empty line list. The purchase-order dialog's version does the same.
- The sales report fetches routes and orders without checking for a token; the model likewise takes no token there.
- Products.GroupProducts: the page groups into a plain object, so a category named like an inherited member (`constructor`, `toString`, `__proto__`) finds that member at src/pages/Products.tsx:205, and the `push` at line 206 throws and breaks the page. The model opens an ordinary group for such a name.
- Products.FilterGroups: `Object.entries` lists integer-like keys (`"12"`) first in ascending numeric order, then the other keys in insertion order. So a category whose name is a canonical integer is shown before the others, while the model keeps first-appearance order for every name.
