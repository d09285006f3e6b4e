/** The record classes of the data layer (src/database/models.py). Customer,
    SupportAgent and TicketComment are only ever read back, so they are the
    store's row values; Ticket and Order objects have fields their methods
    overwrite, so they are classes. Every method writes through to the store. */
module Models {
  import opened Seqs
  import opened Store

  /** `Customer.get_by_email`: the first customer row with that email, if any. */
  function GetByEmail(customers: seq<CustomerRow>, email: string): (r: Option<CustomerRow>)
    ensures r.None? <==> forall i :: 0 <= i < |customers| ==> customers[i].email != email
    ensures r.Some? ==>
      exists k :: 0 <= k < |customers| && customers[k] == r.value && r.value.email == email &&
        forall j :: 0 <= j < k ==> customers[j].email != email
  {
    First(customers, (c: CustomerRow) => c.email == email)
  }

  /** After one more customer row is stored, the email lookup still finds the
      earlier customer if there was one, and the new row otherwise. */
  lemma GetByEmailAfterInsert(customers: seq<CustomerRow>, c: CustomerRow)
    ensures GetByEmail(customers + [c], c.email) ==
      if GetByEmail(customers, c.email).Some? then GetByEmail(customers, c.email) else Some(c)
  {
    var all := customers + [c];
    assert all[|customers|] == c;
    var before := GetByEmail(customers, c.email);
    var after := GetByEmail(all, c.email);
    var k1 :| 0 <= k1 < |all| && all[k1] == after.value && after.value.email == c.email &&
      forall j :: 0 <= j < k1 ==> all[j].email != c.email;
    if before.Some? {
      var k0 :| 0 <= k0 < |customers| && customers[k0] == before.value && before.value.email == c.email &&
        forall j :: 0 <= j < k0 ==> customers[j].email != c.email;
      assert all[k0] == customers[k0];
      assert k0 == k1;
    }
  }

  /** `Customer.create`: inserts one row (no address), then answers with the
      first row holding that email, which is the new row exactly when no
      customer had the email before. */
  method CreateCustomer(db: Database, name: string, email: string, phone: Option<string>, now: int)
    returns (c: CustomerRow)
    requires db.Valid()
    modifies db`customers, db`nextCustomerId
    ensures db.Valid()
    ensures db.customers == old(db.customers) + [CustomerRow(old(db.nextCustomerId), name, email, phone, None, now)]
    ensures GetByEmail(db.customers, email) == Some(c)
    ensures c.id == old(db.nextCustomerId) <==> GetByEmail(old(db.customers), email).None?
  {
    var id := db.InsertCustomer(name, email, phone, None, now);
    GetByEmailAfterInsert(old(db.customers), CustomerRow(id, name, email, phone, None, now));
    c := GetByEmail(db.customers, email).value;
    if GetByEmail(old(db.customers), email).Some? {
      assert c in old(db.customers);
    }
  }

  /** `SupportAgent.get_available_agents`: every agent row in storage order;
      the `available` flag is not consulted. */
  function GetAvailableAgents(agents: seq<AgentRow>): (r: seq<AgentRow>)
    ensures |r| == |agents|
    ensures forall i :: 0 <= i < |agents| ==> r[i] == agents[i]
  {
    agents
  }

  /** `TicketComment.create_comment`: appends one comment, without checking the
      ticket, and reads back that ticket's highest-id comment, the new one. */
  method CreateComment(db: Database, ticketId: int, comment: string, author: string, now: int)
    returns (c: CommentRow)
    requires db.Valid()
    modifies db`comments, db`nextCommentId
    ensures db.Valid()
    ensures c == CommentRow(old(db.nextCommentId), ticketId, comment, author, now)
    ensures db.comments == old(db.comments) + [c]
    ensures LatestCommentOn(db.comments, ticketId) == Some(c)
  {
    var id := db.InsertComment(ticketId, comment, author, now);
    LatestCommentAfterInsert(old(db.comments), CommentRow(id, ticketId, comment, author, now));
    c := LatestCommentOn(db.comments, ticketId).value;
  }

  class Ticket {
    const id: int
    const customerId: int
    const subject: string
    const description: string
    var status: string
    const createdDate: int
    const closedDate: Option<int>
    var assignedAgentId: Option<int>

    /** The object holds the stored row's values. */
    ghost predicate Mirrors(row: TicketRow)
      reads this
    {
      && id == row.id && customerId == row.customerId && subject == row.subject
      && description == row.description && status == row.status && createdDate == row.createdDate
      && closedDate == row.resolvedDate && assignedAgentId == row.assignedAgentId
    }

    constructor FromRow(row: TicketRow)
      ensures Mirrors(row)
    {
      id, customerId, subject, description := row.id, row.customerId, row.subject, row.description;
      status, createdDate, closedDate := row.status, row.createdDate, row.resolvedDate;
      assignedAgentId := row.assignedAgentId;
    }

    /** `Ticket.create_ticket`: appends one ticket with the column defaults
        (status "open") and answers with the customer's highest-id ticket,
        which is the one just stored. */
    static method CreateTicket(db: Database, customerId: int, subject: string, description: string, now: int)
      returns (t: Ticket)
      requires db.Valid()
      modifies db`tickets, db`nextTicketId
      ensures db.Valid()
      ensures db.tickets == old(db.tickets) + [TicketRow(old(db.nextTicketId), customerId, None, subject,
        description, DEFAULT_PRIORITY, DEFAULT_TICKET_STATUS, DEFAULT_CATEGORY, now, None, None)]
      ensures LatestTicketOf(db.tickets, customerId) == Some(db.tickets[|db.tickets| - 1])
      ensures fresh(t) && t.Mirrors(db.tickets[|db.tickets| - 1])
    {
      var newId := db.InsertTicket(customerId, subject, description, DEFAULT_TICKET_STATUS, now);
      LatestTicketAfterInsert(old(db.tickets), db.tickets[|db.tickets| - 1]);
      var row := LatestTicketOf(db.tickets, customerId).value;
      t := new Ticket.FromRow(row);
    }

    /** `Ticket.add_comment`: appends one comment for this ticket; no check
        that the ticket is stored. */
    method AddComment(db: Database, comment: string, author: string, now: int)
      requires db.Valid()
      modifies db`comments, db`nextCommentId
      ensures db.Valid()
      ensures db.comments == old(db.comments) + [CommentRow(old(db.nextCommentId), id, comment, author, now)]
    {
      var _ := db.InsertComment(id, comment, author, now);
    }

    /** `Ticket.get_comments`: exactly this ticket's comments, oldest first by created_at. */
    function GetComments(db: Database): (r: seq<CommentRow>)
      reads db
      ensures forall c :: multiset(r)[c] == if c.ticketId == id then multiset(db.comments)[c] else 0
      ensures SortedBy(r, CommentTime)
    {
      FilterCounts(db.comments, (c: CommentRow) => c.ticketId == id);
      SortBy(Filter(db.comments, (c: CommentRow) => c.ticketId == id), CommentTime)
    }

    /** `Ticket.assign_agent`: overwrites assigned_agent_id on the stored row
        with this id and on the object; nothing else changes. */
    method AssignAgent(db: Database, agentId: int)
      requires db.Valid()
      modifies this`assignedAgentId, db`tickets
      ensures db.Valid()
      ensures db.tickets == WithTicketAgent(old(db.tickets), id, agentId)
      ensures assignedAgentId == Some(agentId)
    {
      db.SetTicketAgent(id, agentId);
      assignedAgentId := Some(agentId);
    }

    /** `Ticket.update_status`: overwrites the status on the stored row and on
        the object; any string is accepted, in any order. */
    method UpdateStatus(db: Database, status: string)
      requires db.Valid()
      modifies this`status, db`tickets
      ensures db.Valid()
      ensures db.tickets == WithTicketStatus(old(db.tickets), id, status)
      ensures this.status == status
    {
      db.SetTicketStatus(id, status);
      this.status := status;
    }
  }

  class Order {
    const id: int
    const customerId: int
    const restaurant: string
    var orderStatus: string
    const orderTimestamp: int
    const orderDetails: string

    ghost predicate Mirrors(row: OrderRow)
      reads this
    {
      && id == row.id && customerId == row.customerId && restaurant == row.restaurantName
      && orderStatus == row.orderStatus && orderTimestamp == row.orderTimestamp
      && orderDetails == row.orderDetails
    }

    constructor FromRow(row: OrderRow)
      ensures Mirrors(row)
    {
      id, customerId, restaurant := row.id, row.customerId, row.restaurantName;
      orderStatus, orderTimestamp, orderDetails := row.orderStatus, row.orderTimestamp, row.orderDetails;
    }

    /** `Order.create_order`: appends one order stamped with the current time
        and answers with the customer's highest-id order, the one just stored. */
    static method CreateOrder(db: Database, customerId: int, restaurant: string, orderStatus: string,
                              orderDetails: string, now: int)
      returns (o: Order)
      requires db.Valid()
      modifies db`orders, db`nextOrderId
      ensures db.Valid()
      ensures db.orders == old(db.orders) + [OrderRow(old(db.nextOrderId), customerId, restaurant,
        orderStatus, now, orderDetails)]
      ensures LatestOrderOf(db.orders, customerId) == Some(db.orders[|db.orders| - 1])
      ensures fresh(o) && o.Mirrors(db.orders[|db.orders| - 1])
    {
      var newId := db.InsertOrder(customerId, restaurant, orderStatus, orderDetails, now);
      LatestOrderAfterInsert(old(db.orders), db.orders[|db.orders| - 1]);
      var row := LatestOrderOf(db.orders, customerId).value;
      o := new Order.FromRow(row);
    }

    /** `Order.update_status`: overwrites order_status on the stored row and on
        the object; no ordering of statuses is enforced. */
    method UpdateStatus(db: Database, newStatus: string)
      requires db.Valid()
      modifies this`orderStatus, db`orders
      ensures db.Valid()
      ensures db.orders == WithOrderStatus(old(db.orders), id, newStatus)
      ensures orderStatus == newStatus
    {
      db.SetOrderStatus(id, newStatus);
      orderStatus := newStatus;
    }
  }
}
