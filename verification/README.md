# Zomato support assistant: phone normaliser, support store and tools

This project models the sequential core of a voice assistant for food-delivery
customer support. The model has three parts.

- **The phone-number normaliser.** It turns whatever a caller says into
  `+91-` followed by ten digits, or into `""` when the input is not a valid
  Indian mobile number.
- **The support store.** It holds five tables: customers, orders, support
  agents, tickets and ticket comments. Each table is a sequence of rows in
  primary-key order. Every table except agents has an AUTO_INCREMENT counter.
  The record classes of the data layer are modelled over this store.
- **The assistant's tools.** They look up callers by phone or email, open
  tickets, assign the first available agent, add comments, and report ticket
  status, order status and recent orders.

Modules:

- `Seqs` (`seqs.dfy`) gives the meaning of each SQL shape the store uses:
  - `WHERE` is `Filter`.
  - The first matching row is `First`.
  - `ORDER BY … DESC LIMIT 1` is `Top`.
  - `ORDER BY` is `SortBy`.
  - `LIMIT` is `Limit`.
  - `UPDATE … WHERE` is `UpdateWhere`.
- `Phone` (`phone.dfy`) is the normaliser.
- `Store` (`store.dfy`) holds:
  - the row types;
  - the `Database` class, whose tables and counters are fields;
  - its INSERT and UPDATE methods;
  - the selections that several callers share;
  - the referential-integrity invariant `Database.Linked`.
- `Models` (`models.dfy`) holds the record classes.
  - `Ticket` and `Order` are Dafny classes, because their methods overwrite
    their own fields as well as the stored row.
  - Customers, agents and comments are only read back, so they stay row values.
- `Tools` (`tools.dfy`) holds the tools.
  - A tool answers with a tagged `Reply`, not a formatted sentence. The reply
    carries the values the sentence is built from. For orders, it carries only
    the columns the store models.
  - Read-only tools are functions of the tables.
  - Tools that write are methods of `UnifiedFunctions`. Each is proved against
    those functions and against the rows it appends.

The clock behind `CURRENT_TIMESTAMP` and `NOW()` is the `now` argument of each
operation that stores a row.

## Model

| member | source | states |
|---|---|---|
| Phone.Digits | src/utils/phone_utils.py:17 | every character of the result is a digit, and each digit occurs exactly as often as in the input; non-digits are dropped |
| Phone.DigitsAppend | src/utils/phone_utils.py:17 | the digits of a concatenation are the digits of each part, in order |
| Phone.DigitsOfDigitString | src/utils/phone_utils.py:17 | a string made only of digits is its own digit string |
| Phone.Normalize | src/utils/phone_utils.py:6-26 | result is `""` or `+91-` plus ten digits; non-empty exactly when the digits number 10, or 12 starting with `91`; the ten digits after the prefix are the last ten digits of the input |
| Phone.NormalizeIgnoresSeparators | src/utils/phone_utils.py:17 | normalising the input equals normalising its digits alone |
| Phone.NormalizeIgnoresInsertedSeparator | src/utils/phone_utils.py:17 | inserting any non-digit anywhere leaves the result unchanged |
| Phone.DigitsOfPrefix | src/utils/phone_utils.py:21 | the digits of `+91-` are `91` |
| Phone.DigitsOfCanonical | src/utils/phone_utils.py:17-23 | the digits of a canonical number are `91` followed by its ten subscriber digits |
| Phone.NormalizeFixesCanonical | src/utils/phone_utils.py:22-23 | a canonical number normalises to itself (the 12-digit `91…` branch) |
| Phone.NormalizeIdempotent | src/utils/phone_utils.py:6-26 | normalising twice equals normalising once |
| Phone.NormalizeIgnoresCountryCode | src/utils/phone_utils.py:20-23 | any prefix whose digits are `91` in front of a ten-digit number gives the same canonical form as the bare number |
| Store.LatestTicketOf | src/database/models.py:67-68 | none exactly when the customer has no ticket; otherwise one of their stored tickets with the highest id |
| Store.LatestOrderOf | src/database/models.py:106-107 | none exactly when the customer has no order; otherwise one of their stored orders with the highest id |
| Store.LatestCommentOn | src/database/models.py:127-128 | none exactly when the ticket has no comment; otherwise one of its stored comments with the highest id |
| Store.WithTicketAgent | src/database/models.py:83-84 | same length; the rows with that id get the agent, and every other row is unchanged |
| Store.WithTicketStatus | src/database/models.py:89-90 | same length; the rows with that id get the status, and every other row is unchanged |
| Store.WithOrderStatus | src/database/models.py:111-112 | same length; the rows with that id get the order status, and every other row is unchanged |
| Store.LatestTicketAfterInsert | src/database/models.py:65-68 | re-reading the customer's highest-id ticket right after an insert finds the inserted row |
| Store.LatestOrderAfterInsert | src/database/models.py:105-107 | the same for the order just inserted |
| Store.LatestCommentAfterInsert | src/database/models.py:126-128 | the same for the comment just inserted |
| Store.AgentOnInsertedTicket | src/functions/tools.py:120 | the agent update on the ticket just inserted rewrites that row alone |
| Store.LinksAfterCustomerInsert | src/functions/tools.py:103-105 | a new customer breaks no reference from tickets or comments |
| Store.LinksAfterTicketInsert | src/functions/tools.py:109-111 | a new ticket keeps references intact when its customer and agent exist |
| Store.LinksAfterCommentInsert | src/functions/tools.py:171-175 | a new comment keeps references intact when its ticket exists |
| Store.Database.constructor | src/database/schema.py:14-65 | a store opened on tables whose AUTO_INCREMENT keys are positive, increasing and below their counters satisfies `Valid`, holding exactly those tables |
| Store.Database.InsertCustomer | src/functions/tools.py:103-105 | appends exactly one customer row under the next id; other tables untouched; keys stay valid |
| Store.Database.InsertOrder | src/database/models.py:104-105 | appends exactly one order row stamped `now` under the next id |
| Store.Database.InsertTicket | src/database/models.py:61-65 | appends exactly one ticket with the column defaults (priority `medium`, category `other`), no order id and no agent |
| Store.Database.InsertComment | src/database/models.py:73-74 | appends exactly one comment under the next id, whether or not its ticket exists |
| Store.Database.SetTicketAgent | src/database/models.py:83-84 | the ticket table becomes `WithTicketAgent` of the old one; keys stay valid |
| Store.Database.SetTicketStatus | src/database/models.py:89-90 | the ticket table becomes `WithTicketStatus` of the old one |
| Store.Database.SetOrderStatus | src/database/models.py:111-112 | the order table becomes `WithOrderStatus` of the old one |
| Models.GetByEmail | src/database/models.py:25-30 | none exactly when no customer has the email; otherwise the first row with it |
| Models.GetByEmailAfterInsert | src/database/models.py:19-23 | after one more row, the lookup still finds the earlier customer if there was one, and the new row otherwise |
| Models.CreateCustomer | src/database/models.py:19-23 | appends one row without an address; returns the first row with the email, which is the new row exactly when the email was absent before |
| Models.GetAvailableAgents | src/database/models.py:40-45 | every agent row in storage order; the `available` flag is not consulted |
| Models.CreateComment | src/database/models.py:123-129 | appends one comment without checking the ticket; returns it, and it is the ticket's highest-id comment |
| Models.Ticket.FromRow | src/database/models.py:69 | the object holds the row's values (`closed_date` mirrors `resolved_date`) |
| Models.Ticket.CreateTicket | src/database/models.py:58-69 | appends one ticket with status `open`; the customer's highest-id ticket is that row, and the returned object mirrors it |
| Models.Ticket.AddComment | src/database/models.py:71-74 | appends one comment for this ticket's id, without checking that the ticket is stored |
| Models.Ticket.GetComments | src/database/models.py:76-79 | exactly the comments on this ticket, each as often as stored, in non-decreasing `created_at` |
| Models.Ticket.AssignAgent | src/database/models.py:81-85 | the stored rows with this id get the agent, no other row changes, and the object's field is set |
| Models.Ticket.UpdateStatus | src/database/models.py:87-91 | the stored rows with this id get the status (any string, in any order), and so does the object |
| Models.Order.FromRow | src/database/models.py:108 | the object holds the row's values |
| Models.Order.CreateOrder | src/database/models.py:102-108 | appends one order stamped `now`; the customer's highest-id order is that row, and the returned object mirrors it |
| Models.Order.UpdateStatus | src/database/models.py:110-113 | the stored rows with this id get the order status, and so does the object |
| Tools.EmailName | src/functions/tools.py:104 | the longest prefix of the email without `@`: it is followed by `@` or ends the email |
| Tools.FindCustomerByPhone | src/functions/tools.py:17-33 | none exactly when no stored phone equals the key; otherwise the first row whose phone does |
| Tools.FirstAvailableAgent | src/functions/tools.py:115-119 | none exactly when no agent is available; otherwise the first available agent |
| Tools.OpenedTicket | src/functions/tools.py:109-120 | the stored ticket holds the given customer, subject, description and creation time; it has status `Open`, the default priority and category, and no order id or resolved date; its agent is the first available one, present exactly when some agent is available, and that agent exists |
| Tools.LinksAfterOpenedTicket | src/functions/tools.py:109-120 | opening a ticket for an existing customer keeps every reference intact |
| Tools.OrderStatusReply | src/functions/tools.py:178-191 | "no order" exactly when no row has the id; otherwise the restaurant and status of a row with that id |
| Tools.TicketStatusReply | src/functions/tools.py:124-158 | "no ticket" exactly when no ticket with the id has a stored customer, so the inner join is empty; otherwise the values come from such a ticket and its customer; the agent name follows the left join; the latest comment is absent exactly when the ticket has none, and otherwise has the greatest `created_at` |
| Tools.TicketStatusWhenLinked | src/functions/tools.py:132-141 | when every ticket's customer exists, the reply is "no ticket" exactly when no ticket has the id |
| Tools.VerifyReply | src/functions/tools.py:193-219 | invalid exactly when normalisation gives `""` (no lookup is made); "no customer" exactly when no stored phone equals the canonical number; otherwise greets a customer with that phone |
| Tools.OrdersOf | src/functions/tools.py:285 | exactly the customer's orders, each as often as stored |
| Tools.RecentOrdersOf | src/functions/tools.py:280-289 | holds `min(limit, number of the customer's orders)` rows, or none when the limit is not positive |
| Tools.RecentOrdersAreTheirs | src/functions/tools.py:280-289 | every listed order is the customer's and is stored, and none is listed more often than stored |
| Tools.RecentOrdersAreNewest | src/functions/tools.py:286-287 | the list is in non-increasing `order_timestamp`, and no order of the customer that is left out is newer than one listed |
| Tools.RecentOrdersReply | src/functions/tools.py:256-292 | invalid exactly when normalisation gives `""`; "no customer" exactly when the phone matches nobody; otherwise names the customer, and says "no recent orders" exactly when the listing is empty |
| Tools.UnifiedFunctions.constructor | src/functions/tools.py:12-14 | the tools start with the server not yet running |
| Tools.UnifiedFunctions.StartMcpServer | src/functions/tools.py:58-81 | afterwards the server is running; only that flag changes |
| Tools.UnifiedFunctions.InsertToolTicket | src/functions/tools.py:109-112 | appends one ticket with status `Open`; the re-read finds that ticket as the customer's highest-id one |
| Tools.UnifiedFunctions.AssignFirstAvailableAgent | src/functions/tools.py:115-120 | returns the first available agent; if there is one, only the new ticket gets its id; otherwise the tickets are unchanged |
| Tools.UnifiedFunctions.OpenTicket | src/functions/tools.py:109-120 | the tickets gain exactly `OpenedTicket`; it returns the new id and the agent's name, or nothing for "pending assignment" |
| Tools.UnifiedFunctions.FindOrRegisterCustomer | src/functions/tools.py:96-106 | registers a customer only when no customer has the email, named after the email's local part, with the raw phone and address; then returns the first customer with the email |
| Tools.UnifiedFunctions.CreateZomatoTicket | src/functions/tools.py:83-122 | the customer table grows only for an unknown email; the tickets gain exactly one `Open` ticket for the resolved customer; the order id is never stored; the reply carries the new id, the email and the agent's name; references stay intact |
| Tools.UnifiedFunctions.OpenTicketForEmail | src/functions/tools.py:96-122 | the same effect on the store, without the server flag |
| Tools.UnifiedFunctions.GetZomatoTicketStatus | src/functions/tools.py:124-158 | the reply is `TicketStatusReply` of the tables; only the server flag may change |
| Tools.UnifiedFunctions.AddZomatoTicketComment | src/functions/tools.py:160-176 | for an unknown ticket, "no ticket" and no comment is stored; otherwise exactly one comment for it is appended; references stay intact |
| Tools.UnifiedFunctions.GetOrderStatus | src/functions/tools.py:178-191 | the reply is `OrderStatusReply` of the orders; only the server flag may change |
| Tools.UnifiedFunctions.VerifyMobileNumber | src/functions/tools.py:193-219 | the reply is `VerifyReply` of the customers; only the server flag may change |
| Tools.UnifiedFunctions.CreateCustomerSupportTicket | src/functions/tools.py:221-254 | never touches customers; an invalid or unknown phone leaves the tickets unchanged; otherwise it appends one `Open` ticket whose subject is the issue and whose description is empty, and the reply carries the new id, the issue and the agent's name; references stay intact |
| Tools.UnifiedFunctions.OpenTicketForCaller | src/functions/tools.py:230-254 | the same effect on the store, without the server flag |
| Tools.UnifiedFunctions.GetCustomerRecentOrders | src/functions/tools.py:256-305 | the reply is `RecentOrdersReply` of the tables; only the server flag may change |

## Left out

- `get_weather` and `get_current_datetime` (src/functions/tools.py:36-55) are network and clock I/O.
- The MySQL connection layer (src/database/connection.py) is not modelled.
  - Queries and updates always succeed. A failing query, which reads as no rows, and a failing update, which is rolled back, are not modelled.
- Several statements name columns that the table definitions in src/database/schema.py lack. The model assumes every insert stores its row. The failures below are not modelled:
  - `create_zomato_ticket` inserts a new customer's `address`, but Customers has no such column. The insert is rolled back, so the re-read at src/functions/tools.py:106 finds no row and raises IndexError. The tool therefore raises for every unknown email. The model registers the customer instead.
  - `Order.create_order` and `TicketComment.create_comment` insert into `restaurant` and `author`. The tables have `restaurant_name`, and `author_type` with `author_id`.
  - `Ticket.add_comment` and `add_zomato_ticket_comment` (src/functions/tools.py:174) insert into `author` in the same way. The insert is rolled back, so `add_zomato_ticket_comment` stores no comment yet still answers "Comment added". The model stores the comment.
- The model keeps a single restaurant field, `OrderRow.restaurantName`. `Order.create_order` writes it and `Order.restaurant` reads it. `get_order_status` and `get_customer_recent_orders` read it under the name `restaurant_name`. The source's split between the two column names is not modelled.
- The comment author is one field, `CommentRow.author`, as models.py and tools.py use it.
- Every `WHERE` comparison on a string column is modelled as exact, case-sensitive equality. This covers `email` at src/database/models.py:28 and src/functions/tools.py:97,106, and `phone` at src/functions/tools.py:27. MySQL's default collation ignores case and accents. For example, with `bob@x.com` stored, `create_zomato_ticket` finds that customer for `Bob@X.com`, whereas the model registers a second customer.
- Schema constraints are not modelled. These include phone `NOT NULL UNIQUE`, foreign keys, ENUM membership and ENUM case folding. The model stores the status literal `Open` exactly as the tool writes it.
- Building a record object from a row is modelled as reading the fields its class declares. Each of these calls raises TypeError when a row's columns differ from the declared fields; those failures are not modelled:
  - `Customer(**row)` (src/database/models.py:30) receives `city`, which the class does not declare.
  - `SupportAgent(**result)` (src/database/models.py:45) lacks the required `email` and `phone`.
  - `Ticket(**row)` (src/database/models.py:69) receives `order_id`, `priority`, `category` and `resolved_date`, and lacks `closed_date`. The model mirrors `closed_date` from `resolved_date`.
  - `Order(**row)` (src/database/models.py:108) lacks `restaurant` and receives columns the class does not declare.
  - `TicketComment(**row)` (src/database/models.py:129) lacks `author`.
- The agents table has no insert operation in the core, so it has no counter.
- `start_mcp_server` only sets the running flag. The subprocess, the two-second sleep and the schema creation are not modelled.
- Asynchronous execution is not modelled. Every operation runs alone, so "insert, then re-read the highest id" always finds the inserted row.
- Reply texts, date formatting and currency formatting are not modelled. Replies are tagged values. `get_customer_recent_orders` lists whole order rows, so `order_total` and the payment columns are not modelled.
- `Phone.IsDigit` accepts only ASCII `0`-`9`. Python's `str.isdigit` also accepts other Unicode digits.
- A negative `LIMIT` is a MySQL syntax error, which reads as no rows. `Seqs.Limit` gives the empty list for every limit that is not positive.
- Models.Ticket.GetComments: the order of comments with equal `created_at` is not stated, because MySQL leaves it unspecified. The model keeps storage order.
- Tools.RecentOrdersOf: the order of orders with equal `order_timestamp` is not stated, and neither is which of them survive the cut. MySQL leaves both unspecified.
- Tools.TicketStatusReply: among comments with equal greatest `created_at`, which one is reported is not stated. The model picks the earliest stored.
