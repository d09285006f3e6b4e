/** The relational store, held in memory: one sequence of rows per table in
    storage (primary-key) order, and one AUTO_INCREMENT counter per table that
    rows are inserted into. Row fields follow the table columns; the clock
    behind CURRENT_TIMESTAMP and NOW() is the `now` argument of each insert. */
module Store {
  import opened Seqs

  datatype CustomerRow = CustomerRow(
    id: int, name: string, email: string, phone: Option<string>,
    address: Option<string>, registrationDate: int)

  datatype OrderRow = OrderRow(
    id: int, customerId: int, restaurantName: string, orderStatus: string,
    orderTimestamp: int, orderDetails: string)

  datatype AgentRow = AgentRow(id: int, name: string, available: bool)

  datatype TicketRow = TicketRow(
    id: int, customerId: int, orderId: Option<int>, subject: string,
    description: string, priority: string, status: string, category: string,
    createdDate: int, resolvedDate: Option<int>, assignedAgentId: Option<int>)

  datatype CommentRow = CommentRow(
    id: int, ticketId: int, comment: string, author: string, createdAt: int)

  /** Column defaults of the Tickets table. */
  const DEFAULT_TICKET_STATUS: string := "open"
  const DEFAULT_PRIORITY: string := "medium"
  const DEFAULT_CATEGORY: string := "other"

  function IdOfCustomer(c: CustomerRow): int { c.id }
  function IdOfOrder(o: OrderRow): int { o.id }
  function IdOfTicket(t: TicketRow): int { t.id }
  function IdOfComment(c: CommentRow): int { c.id }

  /** The created_at column, the key comments are ordered by. */
  function CommentTime(c: CommentRow): int { c.createdAt }

  /** Primary keys are positive and grow along storage order, so no two rows share one. */
  ghost predicate IdsIncreasing<T>(rows: seq<T>, id: T -> int)
  {
    && (forall i :: 0 <= i < |rows| ==> 1 <= id(rows[i]))
    && (forall i, j :: 0 <= i < j < |rows| ==> id(rows[i]) < id(rows[j]))
  }

  /** ... and the table's AUTO_INCREMENT counter is above every key in use. */
  ghost predicate AutoIncremented<T>(rows: seq<T>, id: T -> int, next: int)
  {
    IdsIncreasing(rows, id) && 1 <= next && forall i :: 0 <= i < |rows| ==> id(rows[i]) < next
  }

  predicate HasCustomer(customers: seq<CustomerRow>, id: int)
  {
    exists i :: 0 <= i < |customers| && customers[i].id == id
  }

  predicate HasAgent(agents: seq<AgentRow>, id: int)
  {
    exists i :: 0 <= i < |agents| && agents[i].id == id
  }

  /** Some stored ticket has this id: the existence check before a comment is added. */
  predicate HasTicket(tickets: seq<TicketRow>, id: int)
  {
    exists i :: 0 <= i < |tickets| && tickets[i].id == id
  }

  /** Every reference held by a ticket or a comment names an existing row. */
  ghost predicate LinksIntact(
    customers: seq<CustomerRow>, agents: seq<AgentRow>,
    tickets: seq<TicketRow>, comments: seq<CommentRow>)
  {
    && (forall i :: 0 <= i < |tickets| ==> HasCustomer(customers, tickets[i].customerId))
    && (forall i :: 0 <= i < |tickets| && tickets[i].assignedAgentId.Some? ==>
          HasAgent(agents, tickets[i].assignedAgentId.value))
    && (forall i :: 0 <= i < |comments| ==> HasTicket(tickets, comments[i].ticketId))
  }

  /** A new customer row breaks no reference. */
  lemma LinksAfterCustomerInsert(
    customers: seq<CustomerRow>, agents: seq<AgentRow>, tickets: seq<TicketRow>,
    comments: seq<CommentRow>, c: CustomerRow)
    requires LinksIntact(customers, agents, tickets, comments)
    ensures LinksIntact(customers + [c], agents, tickets, comments)
  {
    forall i | 0 <= i < |tickets| ensures HasCustomer(customers + [c], tickets[i].customerId) {
      assert HasCustomer(customers, tickets[i].customerId);
      var k :| 0 <= k < |customers| && customers[k].id == tickets[i].customerId;
      assert (customers + [c])[k] == customers[k];
    }
  }

  /** A new ticket keeps references intact when its customer and its agent exist. */
  lemma LinksAfterTicketInsert(
    customers: seq<CustomerRow>, agents: seq<AgentRow>, tickets: seq<TicketRow>,
    comments: seq<CommentRow>, t: TicketRow)
    requires LinksIntact(customers, agents, tickets, comments)
    requires HasCustomer(customers, t.customerId)
    requires t.assignedAgentId.Some? ==> HasAgent(agents, t.assignedAgentId.value)
    ensures LinksIntact(customers, agents, tickets + [t], comments)
  {
    var all := tickets + [t];
    assert forall i :: 0 <= i < |tickets| ==> all[i] == tickets[i];
    assert all[|tickets|] == t;
    forall i | 0 <= i < |comments| ensures HasTicket(all, comments[i].ticketId) {
      var k :| 0 <= k < |tickets| && tickets[k].id == comments[i].ticketId;
      assert all[k] == tickets[k];
    }
  }

  /** A new comment keeps references intact when its ticket exists. */
  lemma LinksAfterCommentInsert(
    customers: seq<CustomerRow>, agents: seq<AgentRow>, tickets: seq<TicketRow>,
    comments: seq<CommentRow>, c: CommentRow)
    requires LinksIntact(customers, agents, tickets, comments)
    requires HasTicket(tickets, c.ticketId)
    ensures LinksIntact(customers, agents, tickets, comments + [c])
  {
  }

  /** The customer's ticket with the greatest id, if they have one. */
  function LatestTicketOf(tickets: seq<TicketRow>, customerId: int): (r: Option<TicketRow>)
    ensures r.None? <==> forall i :: 0 <= i < |tickets| ==> tickets[i].customerId != customerId
    ensures r.Some? ==> r.value in tickets && r.value.customerId == customerId
    ensures r.Some? ==>
      forall i :: 0 <= i < |tickets| && tickets[i].customerId == customerId ==> tickets[i].id <= r.value.id
  {
    Top(tickets, (t: TicketRow) => t.customerId == customerId, IdOfTicket)
  }

  /** The customer's order with the greatest id, if they have one. */
  function LatestOrderOf(orders: seq<OrderRow>, customerId: int): (r: Option<OrderRow>)
    ensures r.None? <==> forall i :: 0 <= i < |orders| ==> orders[i].customerId != customerId
    ensures r.Some? ==> r.value in orders && r.value.customerId == customerId
    ensures r.Some? ==>
      forall i :: 0 <= i < |orders| && orders[i].customerId == customerId ==> orders[i].id <= r.value.id
  {
    Top(orders, (o: OrderRow) => o.customerId == customerId, IdOfOrder)
  }

  /** The ticket's comment with the greatest id, if it has one. */
  function LatestCommentOn(comments: seq<CommentRow>, ticketId: int): (r: Option<CommentRow>)
    ensures r.None? <==> forall i :: 0 <= i < |comments| ==> comments[i].ticketId != ticketId
    ensures r.Some? ==> r.value in comments && r.value.ticketId == ticketId
    ensures r.Some? ==>
      forall i :: 0 <= i < |comments| && comments[i].ticketId == ticketId ==> comments[i].id <= r.value.id
  {
    Top(comments, (c: CommentRow) => c.ticketId == ticketId, IdOfComment)
  }

  /** Every ticket with this id gets the agent; the other tickets are kept. */
  function WithTicketAgent(tickets: seq<TicketRow>, ticketId: int, agentId: int): (r: seq<TicketRow>)
    ensures |r| == |tickets|
    ensures forall i :: 0 <= i < |tickets| && tickets[i].id == ticketId ==>
      r[i] == tickets[i].(assignedAgentId := Some(agentId))
    ensures forall i :: 0 <= i < |tickets| && tickets[i].id != ticketId ==> r[i] == tickets[i]
  {
    UpdateWhere(tickets, (t: TicketRow) => t.id == ticketId,
      (t: TicketRow) => t.(assignedAgentId := Some(agentId)))
  }

  /** Every ticket with this id gets the status; the other tickets are kept. */
  function WithTicketStatus(tickets: seq<TicketRow>, ticketId: int, status: string): (r: seq<TicketRow>)
    ensures |r| == |tickets|
    ensures forall i :: 0 <= i < |tickets| && tickets[i].id == ticketId ==>
      r[i] == tickets[i].(status := status)
    ensures forall i :: 0 <= i < |tickets| && tickets[i].id != ticketId ==> r[i] == tickets[i]
  {
    UpdateWhere(tickets, (t: TicketRow) => t.id == ticketId, (t: TicketRow) => t.(status := status))
  }

  /** Every order with this id gets the order status; the other orders are kept. */
  function WithOrderStatus(orders: seq<OrderRow>, orderId: int, status: string): (r: seq<OrderRow>)
    ensures |r| == |orders|
    ensures forall i :: 0 <= i < |orders| && orders[i].id == orderId ==>
      r[i] == orders[i].(orderStatus := status)
    ensures forall i :: 0 <= i < |orders| && orders[i].id != orderId ==> r[i] == orders[i]
  {
    UpdateWhere(orders, (o: OrderRow) => o.id == orderId, (o: OrderRow) => o.(orderStatus := status))
  }

  /** Re-reading a customer's highest-id ticket right after inserting one for
      them finds the inserted row. */
  lemma LatestTicketAfterInsert(tickets: seq<TicketRow>, t: TicketRow)
    requires forall i :: 0 <= i < |tickets| ==> tickets[i].id < t.id
    ensures LatestTicketOf(tickets + [t], t.customerId) == Some(t)
  {
    var all := tickets + [t];
    assert all[|tickets|] == t;
  }

  /** The same for orders. */
  lemma LatestOrderAfterInsert(orders: seq<OrderRow>, o: OrderRow)
    requires forall i :: 0 <= i < |orders| ==> orders[i].id < o.id
    ensures LatestOrderOf(orders + [o], o.customerId) == Some(o)
  {
    var all := orders + [o];
    assert all[|orders|] == o;
  }

  /** The same for comments on a ticket. */
  lemma LatestCommentAfterInsert(comments: seq<CommentRow>, c: CommentRow)
    requires forall i :: 0 <= i < |comments| ==> comments[i].id < c.id
    ensures LatestCommentOn(comments + [c], c.ticketId) == Some(c)
  {
    var all := comments + [c];
    assert all[|comments|] == c;
  }

  /** Assigning an agent to the ticket just inserted touches that row alone. */
  lemma AgentOnInsertedTicket(tickets: seq<TicketRow>, t: TicketRow, agentId: int)
    requires forall i :: 0 <= i < |tickets| ==> tickets[i].id < t.id
    ensures WithTicketAgent(tickets + [t], t.id, agentId) == tickets + [t.(assignedAgentId := Some(agentId))]
  {
  }

  class Database {
    var customers: seq<CustomerRow>
    var orders: seq<OrderRow>
    var agents: seq<AgentRow>
    var tickets: seq<TicketRow>
    var comments: seq<CommentRow>
    var nextCustomerId: int
    var nextOrderId: int
    var nextTicketId: int
    var nextCommentId: int

    /** Primary keys are unique and below their table's AUTO_INCREMENT counter. */
    ghost predicate Valid()
      reads this
    {
      && AutoIncremented(customers, IdOfCustomer, nextCustomerId)
      && AutoIncremented(orders, IdOfOrder, nextOrderId)
      && AutoIncremented(tickets, IdOfTicket, nextTicketId)
      && AutoIncremented(comments, IdOfComment, nextCommentId)
    }

    /** Every ticket's customer and agent, and every comment's ticket, exists. */
    ghost predicate Linked()
      reads this
    {
      LinksIntact(customers, agents, tickets, comments)
    }

    /** A store opened on existing tables, each with its AUTO_INCREMENT counter
        (which may exceed the largest key in use, as after deletions). */
    constructor (
      customers: seq<CustomerRow>, orders: seq<OrderRow>, agents: seq<AgentRow>,
      tickets: seq<TicketRow>, comments: seq<CommentRow>,
      nextCustomerId: int, nextOrderId: int, nextTicketId: int, nextCommentId: int)
      requires AutoIncremented(customers, IdOfCustomer, nextCustomerId)
      requires AutoIncremented(orders, IdOfOrder, nextOrderId)
      requires AutoIncremented(tickets, IdOfTicket, nextTicketId)
      requires AutoIncremented(comments, IdOfComment, nextCommentId)
      ensures Valid()
      ensures this.customers == customers && this.orders == orders && this.agents == agents
      ensures this.tickets == tickets && this.comments == comments
      ensures this.nextCustomerId == nextCustomerId && this.nextOrderId == nextOrderId
      ensures this.nextTicketId == nextTicketId && this.nextCommentId == nextCommentId
    {
      this.customers, this.orders, this.agents := customers, orders, agents;
      this.tickets, this.comments := tickets, comments;
      this.nextCustomerId, this.nextOrderId := nextCustomerId, nextOrderId;
      this.nextTicketId, this.nextCommentId := nextTicketId, nextCommentId;
    }

    /** Stores a customer with a name, email, phone and address under the next key. */
    method InsertCustomer(name: string, email: string, phone: Option<string>, address: Option<string>, now: int)
      returns (id: int)
      requires Valid()
      modifies this`customers, this`nextCustomerId
      ensures Valid()
      ensures id == old(nextCustomerId)
      ensures customers == old(customers) + [CustomerRow(id, name, email, phone, address, now)]
    {
      id := nextCustomerId;
      customers := customers + [CustomerRow(id, name, email, phone, address, now)];
      nextCustomerId := nextCustomerId + 1;
    }

    /** Stores an order stamped with the current time under the next key. */
    method InsertOrder(customerId: int, restaurantName: string, orderStatus: string, orderDetails: string, now: int)
      returns (id: int)
      requires Valid()
      modifies this`orders, this`nextOrderId
      ensures Valid()
      ensures id == old(nextOrderId)
      ensures orders == old(orders) + [OrderRow(id, customerId, restaurantName, orderStatus, now, orderDetails)]
    {
      id := nextOrderId;
      orders := orders + [OrderRow(id, customerId, restaurantName, orderStatus, now, orderDetails)];
      nextOrderId := nextOrderId + 1;
    }

    /** Stores a ticket with a customer, subject, description and status under
        the next key; the other columns take their defaults and order_id stays NULL. */
    method InsertTicket(customerId: int, subject: string, description: string, status: string, now: int)
      returns (id: int)
      requires Valid()
      modifies this`tickets, this`nextTicketId
      ensures Valid()
      ensures id == old(nextTicketId)
      ensures tickets == old(tickets) + [TicketRow(id, customerId, None, subject, description,
                                                   DEFAULT_PRIORITY, status, DEFAULT_CATEGORY, now, None, None)]
    {
      id := nextTicketId;
      tickets := tickets + [TicketRow(id, customerId, None, subject, description,
                                      DEFAULT_PRIORITY, status, DEFAULT_CATEGORY, now, None, None)];
      nextTicketId := nextTicketId + 1;
    }

    /** Stores a comment under the next key; no check that the ticket exists. */
    method InsertComment(ticketId: int, comment: string, author: string, now: int)
      returns (id: int)
      requires Valid()
      modifies this`comments, this`nextCommentId
      ensures Valid()
      ensures id == old(nextCommentId)
      ensures comments == old(comments) + [CommentRow(id, ticketId, comment, author, now)]
    {
      id := nextCommentId;
      comments := comments + [CommentRow(id, ticketId, comment, author, now)];
      nextCommentId := nextCommentId + 1;
    }

    method SetTicketAgent(ticketId: int, agentId: int)
      requires Valid()
      modifies this`tickets
      ensures Valid()
      ensures tickets == WithTicketAgent(old(tickets), ticketId, agentId)
    {
      tickets := WithTicketAgent(tickets, ticketId, agentId);
    }

    method SetTicketStatus(ticketId: int, status: string)
      requires Valid()
      modifies this`tickets
      ensures Valid()
      ensures tickets == WithTicketStatus(old(tickets), ticketId, status)
    {
      tickets := WithTicketStatus(tickets, ticketId, status);
    }

    method SetOrderStatus(orderId: int, status: string)
      requires Valid()
      modifies this`orders
      ensures Valid()
      ensures orders == WithOrderStatus(old(orders), orderId, status)
    {
      orders := WithOrderStatus(orders, orderId, status);
    }
  }
}
