/** The voice assistant's support tools (src/functions/tools.py). Each tool
    answers with a tagged reply instead of a formatted sentence; the reply
    holds the values the sentence is built from (of an order, those columns
    the store models). Read-only tools are pure
    functions of the tables; the tools that write are methods of the
    `UnifiedFunctions` class, proved against those functions. */
module Tools {
  import opened Seqs
  import opened Store
  import Phone
  import Models

  /** What a tool says back to the caller. */
  datatype Reply =
    | InvalidPhone(mobile: string)
    | NoCustomer(mobile: string)
    | Greeting(customerName: string)
    | TicketCreated(ticketId: int, customerEmail: string, assignedTo: Option<string>)
    | IssueTicketCreated(ticketId: int, issueDescription: string, assignedTo: Option<string>)
    | NoTicket(ticketId: int)
    | CommentAdded(ticketId: int)
    | TicketStatus(
        ticketId: int, status: string, customerName: string, customerEmail: string,
        subject: string, priority: string, category: string, createdDate: int,
        agentName: Option<string>, latestComment: Option<string>)
    | NoOrder(orderId: int)
    | OrderStatus(orderId: int, restaurantName: string, orderStatus: string)
    | NoRecentOrders(customerName: string)
    | RecentOrders(customerName: string, orders: seq<OrderRow>)

  /** The status the tools write into new tickets, capitalised unlike the column default. */
  const TOOL_TICKET_STATUS: string := "Open"

  /** The part of an email address before its first '@' (all of it when there is none). */
  function EmailName(email: string): (r: string)
    ensures |r| <= |email| && r == email[..|r|]
    ensures '@' !in r
    ensures |r| < |email| ==> email[|r|] == '@'
  {
    if email == [] || email[0] == '@' then []
    else
      var rest := EmailName(email[1..]);
      assert email[..|rest| + 1] == [email[0]] + email[1..][..|rest|];
      [email[0]] + rest
  }

  /** `find_customer_by_phone`: the first customer whose stored phone equals `phone` exactly. */
  function FindCustomerByPhone(customers: seq<CustomerRow>, phone: string): (r: Option<CustomerRow>)
    ensures r.None? <==> forall i :: 0 <= i < |customers| ==> customers[i].phone != Some(phone)
    ensures r.Some? ==>
      exists k :: 0 <= k < |customers| && customers[k] == r.value && r.value.phone == Some(phone) &&
        forall j :: 0 <= j < k ==> customers[j].phone != Some(phone)
  {
    First(customers, (c: CustomerRow) => c.phone == Some(phone))
  }

  /** The first agent, in storage order, marked available. */
  function FirstAvailableAgent(agents: seq<AgentRow>): (r: Option<AgentRow>)
    ensures r.None? <==> forall i :: 0 <= i < |agents| ==> !agents[i].available
    ensures r.Some? ==>
      exists k :: 0 <= k < |agents| && agents[k] == r.value && r.value.available &&
        forall j :: 0 <= j < k ==> !agents[j].available
  {
    First(agents, (a: AgentRow) => a.available)
  }

  function AgentIdOf(agent: Option<AgentRow>): Option<int>
  {
    if agent.Some? then Some(agent.value.id) else None
  }

  function AgentNameOf(agent: Option<AgentRow>): Option<string>
  {
    if agent.Some? then Some(agent.value.name) else None
  }

  /** The ticket row a ticket-creating tool stores, once the first available agent is assigned. */
  function OpenedTicket(
    id: int, customerId: int, subject: string, description: string, now: int, agents: seq<AgentRow>)
    : (t: TicketRow)
    ensures t.id == id && t.customerId == customerId && t.orderId.None?
    ensures t.subject == subject && t.description == description && t.createdDate == now
    ensures t.status == TOOL_TICKET_STATUS && t.priority == DEFAULT_PRIORITY && t.category == DEFAULT_CATEGORY
    ensures t.resolvedDate.None?
    ensures t.assignedAgentId == AgentIdOf(FirstAvailableAgent(agents))
    ensures t.assignedAgentId.Some? <==> exists i :: 0 <= i < |agents| && agents[i].available
    ensures t.assignedAgentId.Some? ==> HasAgent(agents, t.assignedAgentId.value)
  {
    var agent := FirstAvailableAgent(agents);
    TicketRow(id, customerId, None, subject, description, DEFAULT_PRIORITY, TOOL_TICKET_STATUS,
              DEFAULT_CATEGORY, now, None, AgentIdOf(agent))
  }

  /** Opening a ticket for an existing customer breaks no reference. */
  lemma LinksAfterOpenedTicket(
    customers: seq<CustomerRow>, agents: seq<AgentRow>, tickets: seq<TicketRow>, comments: seq<CommentRow>,
    id: int, customerId: int, subject: string, description: string, now: int)
    requires LinksIntact(customers, agents, tickets, comments)
    requires HasCustomer(customers, customerId)
    ensures LinksIntact(customers, agents,
      tickets + [OpenedTicket(id, customerId, subject, description, now, agents)], comments)
  {
    LinksAfterTicketInsert(customers, agents, tickets, comments,
      OpenedTicket(id, customerId, subject, description, now, agents));
  }

  /** `get_order_status`: the order with that id, or "no order". */
  function OrderStatusReply(orders: seq<OrderRow>, orderId: int): (r: Reply)
    ensures r.NoOrder? || r.OrderStatus?
    ensures r.NoOrder? <==> forall i :: 0 <= i < |orders| ==> orders[i].id != orderId
    ensures r.NoOrder? ==> r.orderId == orderId
    ensures r.OrderStatus? ==>
      r.orderId == orderId &&
      exists i :: 0 <= i < |orders| && orders[i].id == orderId &&
        r.restaurantName == orders[i].restaurantName && r.orderStatus == orders[i].orderStatus
  {
    match First(orders, (o: OrderRow) => o.id == orderId)
    case None => NoOrder(orderId)
    case Some(o) => OrderStatus(orderId, o.restaurantName, o.orderStatus)
  }

  /** The LEFT JOIN on the agent: the name of an agent whose id the ticket
      holds, or nothing when the ticket holds none or no agent has that id. */
  predicate AgentNameJoins(agents: seq<AgentRow>, t: TicketRow, name: Option<string>)
  {
    if t.assignedAgentId.Some? && HasAgent(agents, t.assignedAgentId.value) then
      name.Some? &&
      exists a :: 0 <= a < |agents| && agents[a].id == t.assignedAgentId.value && agents[a].name == name.value
    else name.None?
  }

  /** `get_zomato_ticket_status`: a ticket with that id joined with its
      customer (an inner join: a ticket without a stored customer yields no
      row), the name of its agent if that agent exists, and the text of its
      comment with the latest created_at. */
  function TicketStatusReply(
    tickets: seq<TicketRow>, customers: seq<CustomerRow>, agents: seq<AgentRow>,
    comments: seq<CommentRow>, ticketId: int): (r: Reply)
    ensures r.NoTicket? || r.TicketStatus?
    ensures r.ticketId == ticketId
    ensures r.NoTicket? <==>
      !exists i, j :: 0 <= i < |tickets| && 0 <= j < |customers| &&
        tickets[i].id == ticketId && customers[j].id == tickets[i].customerId
    ensures r.TicketStatus? ==>
      exists i, j :: 0 <= i < |tickets| && 0 <= j < |customers| &&
        tickets[i].id == ticketId && customers[j].id == tickets[i].customerId &&
        r.status == tickets[i].status && r.subject == tickets[i].subject &&
        r.priority == tickets[i].priority && r.category == tickets[i].category &&
        r.createdDate == tickets[i].createdDate &&
        r.customerName == customers[j].name && r.customerEmail == customers[j].email &&
        AgentNameJoins(agents, tickets[i], r.agentName)
    ensures r.TicketStatus? ==>
      (r.latestComment.None? <==> forall k :: 0 <= k < |comments| ==> comments[k].ticketId != ticketId)
    ensures r.TicketStatus? && r.latestComment.Some? ==>
      exists k :: 0 <= k < |comments| && comments[k].ticketId == ticketId &&
        r.latestComment.value == comments[k].comment &&
        forall m :: 0 <= m < |comments| && comments[m].ticketId == ticketId ==>
          comments[m].createdAt <= comments[k].createdAt
  {
    match First(tickets, (t: TicketRow) => t.id == ticketId && HasCustomer(customers, t.customerId))
    case None => NoTicket(ticketId)
    case Some(t) =>
      var c := First(customers, (c: CustomerRow) => c.id == t.customerId).value;
      var agent :=
        if t.assignedAgentId.Some? then First(agents, (a: AgentRow) => a.id == t.assignedAgentId.value)
        else None;
      var latest := Top(comments, (m: CommentRow) => m.ticketId == ticketId, CommentTime);
      assert latest.Some? ==> exists k :: 0 <= k < |comments| && comments[k] == latest.value;
      TicketStatus(ticketId, t.status, c.name, c.email, t.subject, t.priority, t.category,
                   t.createdDate, AgentNameOf(agent),
                   if latest.Some? then Some(latest.value.comment) else None)
  }

  /** When every ticket's customer exists, the status tool answers for exactly the stored tickets. */
  lemma TicketStatusWhenLinked(
    tickets: seq<TicketRow>, customers: seq<CustomerRow>, agents: seq<AgentRow>,
    comments: seq<CommentRow>, ticketId: int)
    requires LinksIntact(customers, agents, tickets, comments)
    ensures TicketStatusReply(tickets, customers, agents, comments, ticketId).NoTicket? <==>
      !HasTicket(tickets, ticketId)
  {
  }

  /** `verify_mobile_number`: reject what does not normalise, otherwise greet
      the first customer stored with the canonical number. */
  function VerifyReply(customers: seq<CustomerRow>, mobile: string): (r: Reply)
    ensures r.InvalidPhone? || r.NoCustomer? || r.Greeting?
    ensures r.InvalidPhone? <==> Phone.Normalize(mobile) == ""
    ensures r.InvalidPhone? || r.NoCustomer? ==> r.mobile == mobile
    ensures r.NoCustomer? <==>
      Phone.Normalize(mobile) != "" &&
      forall i :: 0 <= i < |customers| ==> customers[i].phone != Some(Phone.Normalize(mobile))
    ensures r.Greeting? ==>
      exists i :: 0 <= i < |customers| && customers[i].phone == Some(Phone.Normalize(mobile)) &&
        customers[i].name == r.customerName
  {
    var phone := Phone.Normalize(mobile);
    if phone == "" then InvalidPhone(mobile)
    else
      match FindCustomerByPhone(customers, phone)
      case None => NoCustomer(mobile)
      case Some(c) => Greeting(c.name)
  }

  /** The customer's orders, each as often as stored. */
  function OrdersOf(orders: seq<OrderRow>, customerId: int): (r: seq<OrderRow>)
    ensures forall i :: 0 <= i < |r| ==> r[i].customerId == customerId
    ensures forall o :: multiset(r)[o] == if o.customerId == customerId then multiset(orders)[o] else 0
  {
    FilterCounts(orders, (o: OrderRow) => o.customerId == customerId);
    Filter(orders, (o: OrderRow) => o.customerId == customerId)
  }

  /** Sorting key for `ORDER BY o.order_timestamp DESC`. */
  function Recency(o: OrderRow): int { -o.orderTimestamp }

  /** The query behind `get_customer_recent_orders`: the customer's orders,
      newest first, cut to `limit` rows. */
  function RecentOrdersOf(orders: seq<OrderRow>, customerId: int, limit: int): (r: seq<OrderRow>)
    ensures |r| == if limit <= 0 then 0
                   else if limit < |OrdersOf(orders, customerId)| then limit
                   else |OrdersOf(orders, customerId)|
  {
    Limit(SortBy(OrdersOf(orders, customerId), Recency), limit)
  }

  /** Every order listed belongs to the customer and is stored, and none is listed
      more often than it is stored. */
  lemma RecentOrdersAreTheirs(orders: seq<OrderRow>, customerId: int, limit: int)
    ensures multiset(RecentOrdersOf(orders, customerId, limit)) <= multiset(OrdersOf(orders, customerId))
    ensures forall o :: o in RecentOrdersOf(orders, customerId, limit) ==> o.customerId == customerId && o in orders
  {
    var owned := OrdersOf(orders, customerId);
    var sorted := SortBy(owned, Recency);
    LimitOfSorted(sorted, limit, Recency);
    var r := RecentOrdersOf(orders, customerId, limit);
    forall o | o in r ensures o.customerId == customerId && o in orders {
      assert multiset(owned)[o] > 0;
    }
  }

  /** The list runs from the newest order to the oldest, and no order of the
      customer that it leaves out is newer than one it lists. */
  lemma RecentOrdersAreNewest(orders: seq<OrderRow>, customerId: int, limit: int)
    ensures var r := RecentOrdersOf(orders, customerId, limit);
      forall i, j :: 0 <= i < j < |r| ==> r[i].orderTimestamp >= r[j].orderTimestamp
    ensures var r := RecentOrdersOf(orders, customerId, limit);
      forall o :: o in OrdersOf(orders, customerId) && o !in r ==>
        forall i :: 0 <= i < |r| ==> o.orderTimestamp <= r[i].orderTimestamp
  {
    var owned := OrdersOf(orders, customerId);
    var sorted := SortBy(owned, Recency);
    LimitOfSorted(sorted, limit, Recency);
    var r := RecentOrdersOf(orders, customerId, limit);
    forall i, j | 0 <= i < j < |r| ensures r[i].orderTimestamp >= r[j].orderTimestamp {
      assert Recency(r[i]) <= Recency(r[j]);
    }
    forall o, i | o in owned && o !in r && 0 <= i < |r| ensures o.orderTimestamp <= r[i].orderTimestamp {
      assert o in multiset(sorted);
      assert Recency(r[i]) <= Recency(o);
    }
  }

  /** `get_customer_recent_orders`: identify the caller by phone, then list
      their most recent orders, or say that there are none. */
  function RecentOrdersReply(customers: seq<CustomerRow>, orders: seq<OrderRow>, mobile: string, limit: int)
    : (r: Reply)
    ensures r.InvalidPhone? || r.NoCustomer? || r.NoRecentOrders? || r.RecentOrders?
    ensures r.InvalidPhone? <==> Phone.Normalize(mobile) == ""
    ensures r.InvalidPhone? || r.NoCustomer? ==> r.mobile == mobile
    ensures r.NoCustomer? <==>
      Phone.Normalize(mobile) != "" && FindCustomerByPhone(customers, Phone.Normalize(mobile)).None?
    ensures r.NoRecentOrders? || r.RecentOrders? ==>
      var owner := FindCustomerByPhone(customers, Phone.Normalize(mobile));
      owner.Some? && r.customerName == owner.value.name &&
      (r.NoRecentOrders? <==> RecentOrdersOf(orders, owner.value.id, limit) == []) &&
      (r.RecentOrders? ==> r.orders == RecentOrdersOf(orders, owner.value.id, limit))
  {
    var phone := Phone.Normalize(mobile);
    if phone == "" then InvalidPhone(mobile)
    else
      match FindCustomerByPhone(customers, phone)
      case None => NoCustomer(mobile)
      case Some(c) =>
        var recent := RecentOrdersOf(orders, c.id, limit);
        if recent == [] then NoRecentOrders(c.name) else RecentOrders(c.name, recent)
  }

  /** The tool set, bound to one store. */
  class UnifiedFunctions {
    const db: Database
    /** Whether the MySQL server process has been started. */
    var mcpStarted: bool

    constructor (db: Database)
      ensures this.db == db && !mcpStarted
    {
      this.db := db;
      mcpStarted := false;
    }

    /** `start_mcp_server`: launches the server once; later calls do nothing. */
    method StartMcpServer()
      modifies this`mcpStarted
      ensures mcpStarted
    {
      if !mcpStarted {
        mcpStarted := true;
      }
    }

    /** The insert and re-read shared by both ticket tools: store a ticket
        with status "Open" and read back the customer's highest-id ticket. */
    method InsertToolTicket(customerId: int, subject: string, description: string, now: int)
      returns (ticket: TicketRow)
      requires db.Valid()
      modifies db`tickets, db`nextTicketId
      ensures db.Valid()
      ensures ticket == TicketRow(old(db.nextTicketId), customerId, None, subject, description,
                                  DEFAULT_PRIORITY, TOOL_TICKET_STATUS, DEFAULT_CATEGORY, now, None, None)
      ensures db.tickets == old(db.tickets) + [ticket]
      ensures forall i :: 0 <= i < |old(db.tickets)| ==> old(db.tickets)[i].id < ticket.id
      ensures LatestTicketOf(db.tickets, customerId) == Some(ticket)
    {
      var newId := db.InsertTicket(customerId, subject, description, TOOL_TICKET_STATUS, now);
      LatestTicketAfterInsert(old(db.tickets), db.tickets[|db.tickets| - 1]);
      ticket := LatestTicketOf(db.tickets, customerId).value;
    }

    /** The agent assignment shared by both ticket tools: the first available
        agent, if any, is written into the ticket just stored. */
    method AssignFirstAvailableAgent(ticket: TicketRow) returns (agent: Option<AgentRow>)
      requires db.Valid()
      requires db.tickets != [] && db.tickets[|db.tickets| - 1] == ticket
      requires forall i :: 0 <= i < |db.tickets| - 1 ==> db.tickets[i].id < ticket.id
      modifies db`tickets
      ensures db.Valid()
      ensures agent == FirstAvailableAgent(db.agents)
      ensures agent.None? ==> db.tickets == old(db.tickets)
      ensures agent.Some? ==>
        db.tickets == old(db.tickets)[..|old(db.tickets)| - 1] + [ticket.(assignedAgentId := Some(agent.value.id))]
    {
      agent := FirstAvailableAgent(db.agents);
      if agent.Some? {
        ghost var before := db.tickets[..|db.tickets| - 1];
        assert db.tickets == before + [ticket];
        AgentOnInsertedTicket(before, ticket, agent.value.id);
        db.SetTicketAgent(ticket.id, agent.value.id);
      }
    }

    /** Both steps together: the stored row is `OpenedTicket`; the answer is
        the ticket's id and the name of its agent, if any. */
    method OpenTicket(customerId: int, subject: string, description: string, now: int)
      returns (ticketId: int, assignedTo: Option<string>)
      requires db.Valid()
      modifies db`tickets, db`nextTicketId
      ensures db.Valid()
      ensures db.tickets == old(db.tickets) +
        [OpenedTicket(old(db.nextTicketId), customerId, subject, description, now, db.agents)]
      ensures ticketId == old(db.nextTicketId)
      ensures assignedTo == AgentNameOf(FirstAvailableAgent(db.agents))
    {
      var ticket := InsertToolTicket(customerId, subject, description, now);
      var agent := AssignFirstAvailableAgent(ticket);
      assert old(db.tickets) == (old(db.tickets) + [ticket])[..|old(db.tickets)|];
      ticketId, assignedTo := ticket.id, AgentNameOf(agent);
    }

    /** The customer lookup of `create_zomato_ticket`: the first customer with
        the email, after registering one when there is none. */
    method FindOrRegisterCustomer(email: string, phone: string, address: string, now: int)
      returns (c: CustomerRow)
      requires db.Valid()
      modifies db`customers, db`nextCustomerId
      ensures db.Valid()
      ensures Models.GetByEmail(old(db.customers), email).Some? ==> db.customers == old(db.customers)
      ensures Models.GetByEmail(old(db.customers), email).None? ==>
        db.customers == old(db.customers) +
          [CustomerRow(old(db.nextCustomerId), EmailName(email), email, Some(phone), Some(address), now)]
      ensures Models.GetByEmail(db.customers, email) == Some(c)
      ensures HasCustomer(db.customers, c.id)
      ensures old(db.Linked()) ==> db.Linked()
    {
      var found := Models.GetByEmail(db.customers, email);
      if found.Some? {
        c := found.value;
      } else {
        var newId := db.InsertCustomer(EmailName(email), email, Some(phone), Some(address), now);
        c := CustomerRow(newId, EmailName(email), email, Some(phone), Some(address), now);
        Models.GetByEmailAfterInsert(old(db.customers), c);
        if old(db.Linked()) {
          LinksAfterCustomerInsert(old(db.customers), db.agents, db.tickets, db.comments, c);
        }
      }
      assert c in db.customers;
    }

    /** `create_zomato_ticket`: find the customer by email, registering one
        (named after the email's local part, with the phone and address as
        given) when none exists, then open a ticket for them. The order id is
        accepted and never stored. */
    method CreateZomatoTicket(
      customerEmail: string, subject: string, description: string,
      phone: string, address: string, orderId: Option<int>, now: int)
      returns (r: Reply)
      requires db.Valid()
      modifies this`mcpStarted, db`customers, db`nextCustomerId, db`tickets, db`nextTicketId
      ensures mcpStarted && db.Valid()
      ensures Models.GetByEmail(old(db.customers), customerEmail).Some? ==> db.customers == old(db.customers)
      ensures Models.GetByEmail(old(db.customers), customerEmail).None? ==>
        db.customers == old(db.customers) +
          [CustomerRow(old(db.nextCustomerId), EmailName(customerEmail), customerEmail,
                       Some(phone), Some(address), now)]
      ensures Models.GetByEmail(db.customers, customerEmail).Some?
      ensures db.tickets == old(db.tickets) +
        [OpenedTicket(old(db.nextTicketId), Models.GetByEmail(db.customers, customerEmail).value.id,
                      subject, description, now, db.agents)]
      ensures r == TicketCreated(old(db.nextTicketId), customerEmail, AgentNameOf(FirstAvailableAgent(db.agents)))
      ensures old(db.Linked()) ==> db.Linked()
    {
      StartMcpServer();
      r := OpenTicketForEmail(customerEmail, subject, description, phone, address, now);
    }

    /** The body of `create_zomato_ticket` after the server is up. */
    method OpenTicketForEmail(
      customerEmail: string, subject: string, description: string, phone: string, address: string, now: int)
      returns (r: Reply)
      requires db.Valid()
      modifies db`customers, db`nextCustomerId, db`tickets, db`nextTicketId
      ensures db.Valid()
      ensures Models.GetByEmail(old(db.customers), customerEmail).Some? ==> db.customers == old(db.customers)
      ensures Models.GetByEmail(old(db.customers), customerEmail).None? ==>
        db.customers == old(db.customers) +
          [CustomerRow(old(db.nextCustomerId), EmailName(customerEmail), customerEmail,
                       Some(phone), Some(address), now)]
      ensures Models.GetByEmail(db.customers, customerEmail).Some?
      ensures db.tickets == old(db.tickets) +
        [OpenedTicket(old(db.nextTicketId), Models.GetByEmail(db.customers, customerEmail).value.id,
                      subject, description, now, db.agents)]
      ensures r == TicketCreated(old(db.nextTicketId), customerEmail, AgentNameOf(FirstAvailableAgent(db.agents)))
      ensures old(db.Linked()) ==> db.Linked()
    {
      var customer := FindOrRegisterCustomer(customerEmail, phone, address, now);
      ghost var links := db.Linked();
      var ticketId, assignedTo := OpenTicket(customer.id, subject, description, now);
      r := TicketCreated(ticketId, customerEmail, assignedTo);
      if links {
        LinksAfterOpenedTicket(db.customers, db.agents, old(db.tickets), db.comments,
          old(db.nextTicketId), customer.id, subject, description, now);
      }
    }

    /** `get_zomato_ticket_status`; reads the store and changes nothing in it. */
    method GetZomatoTicketStatus(ticketId: int) returns (r: Reply)
      modifies this`mcpStarted
      ensures mcpStarted
      ensures r == TicketStatusReply(db.tickets, db.customers, db.agents, db.comments, ticketId)
    {
      StartMcpServer();
      r := TicketStatusReply(db.tickets, db.customers, db.agents, db.comments, ticketId);
    }

    /** `add_zomato_ticket_comment`: stores the comment only when the ticket exists. */
    method AddZomatoTicketComment(ticketId: int, comment: string, author: string, now: int)
      returns (r: Reply)
      requires db.Valid()
      modifies this`mcpStarted, db`comments, db`nextCommentId
      ensures mcpStarted && db.Valid()
      ensures !HasTicket(db.tickets, ticketId) ==> r == NoTicket(ticketId) && db.comments == old(db.comments)
      ensures HasTicket(db.tickets, ticketId) ==>
        r == CommentAdded(ticketId) &&
        db.comments == old(db.comments) + [CommentRow(old(db.nextCommentId), ticketId, comment, author, now)]
      ensures old(db.Linked()) ==> db.Linked()
    {
      StartMcpServer();
      if !HasTicket(db.tickets, ticketId) {
        return NoTicket(ticketId);
      }
      var newId := db.InsertComment(ticketId, comment, author, now);
      if old(db.Linked()) {
        LinksAfterCommentInsert(db.customers, db.agents, db.tickets, old(db.comments),
          CommentRow(newId, ticketId, comment, author, now));
      }
      r := CommentAdded(ticketId);
    }

    /** `get_order_status`; reads the store and changes nothing in it. */
    method GetOrderStatus(orderId: int) returns (r: Reply)
      modifies this`mcpStarted
      ensures mcpStarted
      ensures r == OrderStatusReply(db.orders, orderId)
    {
      StartMcpServer();
      r := OrderStatusReply(db.orders, orderId);
    }

    /** `verify_mobile_number`; reads the store and changes nothing in it. */
    method VerifyMobileNumber(mobile: string) returns (r: Reply)
      modifies this`mcpStarted
      ensures mcpStarted
      ensures r == VerifyReply(db.customers, mobile)
    {
      StartMcpServer();
      r := VerifyReply(db.customers, mobile);
    }

    /** `create_customer_support_ticket`: identify the caller by phone and open
        a ticket whose subject is the issue and whose description is empty.
        Unlike the email tool it never registers a customer. */
    method CreateCustomerSupportTicket(mobile: string, issueDescription: string, now: int)
      returns (r: Reply)
      requires db.Valid()
      modifies this`mcpStarted, db`tickets, db`nextTicketId
      ensures mcpStarted && db.Valid()
      ensures
        var phone := Phone.Normalize(mobile);
        var owner := FindCustomerByPhone(db.customers, phone);
        if phone == "" then r == InvalidPhone(mobile) && db.tickets == old(db.tickets)
        else if owner.None? then r == NoCustomer(mobile) && db.tickets == old(db.tickets)
        else
          && db.tickets == old(db.tickets) +
               [OpenedTicket(old(db.nextTicketId), owner.value.id, issueDescription, "", now, db.agents)]
          && r == IssueTicketCreated(old(db.nextTicketId), issueDescription,
                                     AgentNameOf(FirstAvailableAgent(db.agents)))
      ensures old(db.Linked()) ==> db.Linked()
    {
      StartMcpServer();
      r := OpenTicketForCaller(mobile, issueDescription, now);
    }

    /** The body of `create_customer_support_ticket` after the server is up. */
    method OpenTicketForCaller(mobile: string, issueDescription: string, now: int)
      returns (r: Reply)
      requires db.Valid()
      modifies db`tickets, db`nextTicketId
      ensures db.Valid()
      ensures
        var phone := Phone.Normalize(mobile);
        var owner := FindCustomerByPhone(db.customers, phone);
        if phone == "" then r == InvalidPhone(mobile) && db.tickets == old(db.tickets)
        else if owner.None? then r == NoCustomer(mobile) && db.tickets == old(db.tickets)
        else
          && db.tickets == old(db.tickets) +
               [OpenedTicket(old(db.nextTicketId), owner.value.id, issueDescription, "", now, db.agents)]
          && r == IssueTicketCreated(old(db.nextTicketId), issueDescription,
                                     AgentNameOf(FirstAvailableAgent(db.agents)))
      ensures old(db.Linked()) ==> db.Linked()
    {
      var phone := Phone.Normalize(mobile);
      if phone == "" {
        return InvalidPhone(mobile);
      }
      var customer := FindCustomerByPhone(db.customers, phone);
      if customer.None? {
        return NoCustomer(mobile);
      }
      assert customer.value in db.customers;
      var ticketId, assignedTo := OpenTicket(customer.value.id, issueDescription, "", now);
      r := IssueTicketCreated(ticketId, issueDescription, assignedTo);
      if old(db.Linked()) {
        LinksAfterOpenedTicket(db.customers, db.agents, old(db.tickets), db.comments,
          old(db.nextTicketId), customer.value.id, issueDescription, "", now);
      }
    }

    /** `get_customer_recent_orders`; reads the store and changes nothing in it. */
    method GetCustomerRecentOrders(mobile: string, limit: int) returns (r: Reply)
      modifies this`mcpStarted
      ensures mcpStarted
      ensures r == RecentOrdersReply(db.customers, db.orders, mobile, limit)
    {
      StartMcpServer();
      r := RecentOrdersReply(db.customers, db.orders, mobile, limit);
    }
  }
}
