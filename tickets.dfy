/**
 * The ranked ticket listing of backend/routes/tickets.js: a module-level
 * priority queue seeded with three sample tickets, and a GET handler that
 * drains the queue into a list and a second queue, then drains the second
 * queue back.  Scores such as 8.5 are held in tenths (85).
 */
module Tickets {
  import opened Wrappers
  import opened PriorityQueues

  datatype Ticket = Ticket(
    id: string,
    ticketId: string,
    customerId: string,
    issueDescription: string,
    domain: string,
    priorityScore: int,            // tenths of a point
    status: string,
    attachedFileId: Option<string>,
    assignedEmployees: seq<string>,
    createdAt: string,
    updatedAt: string,
    closedAt: Option<string>,
    customerFeedback: Option<string>,
    summaryOfWork: Option<string>,
    customerRating: Option<int>)

  /** The JSON body of the GET response. */
  datatype Response =
    | NoTickets(message: string)
    | Listing(topTickets: seq<Ticket>)

  const NoTicketsMessage: string := "No tickets available"

  // ---------------------------------------------------------------------------
  // The comparator
  // ---------------------------------------------------------------------------

  /** The key for which `key(a) - key(b)` is the comparator as written. */
  function SourceKey(t: Ticket): int {
    -t.priorityScore
  }

  /** The key for which `key(a) - key(b)` is the intended comparator. */
  function Key(t: Ticket): int {
    t.priorityScore
  }

  /**
   * The comparator as written, `(a, b) => b.priorityScore - a.priorityScore`.
   * It ranks `a` above `b` exactly when `a` has the LOWER score.
   */
  function SourceComparator(a: Ticket, b: Ticket): (c: int)
    ensures c > 0 <==> a.priorityScore < b.priorityScore
    ensures c == 0 <==> a.priorityScore == b.priorityScore
    ensures c == SourceKey(a) - SourceKey(b)
  {
    b.priorityScore - a.priorityScore
  }

  /**
   * The comparator the comment "higher score = higher priority" calls for,
   * `(a, b) => a.priorityScore - b.priorityScore`: it ranks the higher score above.
   */
  function Comparator(a: Ticket, b: Ticket): (c: int)
    ensures c > 0 <==> a.priorityScore > b.priorityScore
    ensures c == 0 <==> a.priorityScore == b.priorityScore
    ensures c == Key(a) - Key(b)
  {
    a.priorityScore - b.priorityScore
  }

  /** No ticket comes before one of larger key. */
  ghost predicate NonIncreasing(s: seq<Ticket>, key: Ticket -> int) {
    forall i, j :: 0 <= i < j < |s| ==> key(s[i]) >= key(s[j])
  }

  /** No ticket still in `rest` has a larger key than the last ticket listed in `out`. */
  ghost predicate ListedFirst(out: seq<Ticket>, rest: multiset<Ticket>, key: Ticket -> int) {
    out != [] ==> forall x :: x in rest ==> key(x) <= key(out[|out| - 1])
  }

  /** Listing a ticket of largest key among the rest keeps the listing ranked. */
  lemma ListHighest(out: seq<Ticket>, rest: multiset<Ticket>, t: Ticket, key: Ticket -> int)
    requires NonIncreasing(out, key) && ListedFirst(out, rest, key)
    requires t in rest && forall x :: x in rest ==> key(x) <= key(t)
    ensures NonIncreasing(out + [t], key)
    ensures ListedFirst(out + [t], rest - multiset{t}, key)
    ensures multiset(out + [t]) == multiset(out) + multiset{t}
  {
  }

  /** Moving one element from `b` to `a` keeps the total and shrinks `b`. */
  lemma MoveOne<T>(a: multiset<T>, b: multiset<T>, t: T)
    requires t in b
    ensures (a + multiset{t}) + (b - multiset{t}) == a + b
    ensures |b - multiset{t}| < |b|
  {
  }

  // ---------------------------------------------------------------------------
  // Seeding
  // ---------------------------------------------------------------------------

  /** The three tickets that seed the queue, in the order they are enqueued. */
  const RefundTicket: Ticket :=
    Ticket("67d71c33cc985bdc889b327f", "TICKET-1742150707311", "67d700f7d861829c1b34d9af",
           "You can cut, you can't do it, you can't do it, you can't do it.",
           "Retail Banking & Customer Support", 85, "Completed",
           Some("2025-03-16T18-45-01-793Z_71d95b0e.wav"), ["John Doe"],
           "2025-03-16T18:45:07.322+00:00", "2025-03-17T07:20:35.107+00:00",
           Some("2025-03-17T07:20:23.048+00:00"),
           Some("Great service, resolved my issue quickly!"),
           Some("Refunded the missing amount after verifying transaction logs."), Some(4))

  const PaymentTicket: Ticket :=
    Ticket("67d71c33cc985bdc889b3280", "TICKET-1742150807312", "67d700f7d861829c1b34d9b0",
           "Payment failed but amount deducted.",
           "Payments & Transactions", 92, "In Progress",
           Some("2025-03-16T19-00-01-793Z_91d95b1e.mp3"), ["Jane Smith"],
           "2025-03-16T19:00:07.322+00:00", "2025-03-17T08:00:35.107+00:00",
           None, None, None, None)

  const LoanTicket: Ticket :=
    Ticket("67d71c33cc985bdc889b3281", "TICKET-1742150907313", "67d700f7d861829c1b34d9b1",
           "Loan application stuck at verification stage.",
           "Loan & Credit", 78, "Open",
           None, ["Alice Johnson"],
           "2025-03-16T19:15:07.322+00:00", "2025-03-17T08:30:35.107+00:00",
           None, None, None, None)

  function SampleTickets(): (s: seq<Ticket>)
    ensures |s| == 3
    ensures [s[0].priorityScore, s[1].priorityScore, s[2].priorityScore] == [85, 92, 78]
    ensures [s[0].status, s[1].status, s[2].status] == ["Completed", "In Progress", "Open"]
    ensures s[0].ticketId != s[1].ticketId && s[1].ticketId != s[2].ticketId && s[0].ticketId != s[2].ticketId
  {
    [RefundTicket, PaymentTicket, LoanTicket]
  }

  /** A fresh queue with comparator `key`, into which every sample ticket is enqueued. */
  method SeedTicketQueue(key: Ticket -> int) returns (ticketQueue: PriorityQueue<Ticket>)
    ensures fresh(ticketQueue) && ticketQueue.Valid()
    ensures ticketQueue.key == key
    ensures ticketQueue.Contents == multiset(SampleTickets())
  {
    ticketQueue := new PriorityQueue(key);
    var samples := SampleTickets();
    for i := 0 to |samples|
      invariant ticketQueue.Valid() && ticketQueue.key == key
      invariant ticketQueue.Contents == multiset(samples[..i])
    {
      assert samples[..i + 1] == samples[..i] + [samples[i]];
      var _ := ticketQueue.Enq(samples[i]);
    }
    assert samples[..|samples|] == samples;
  }

  // ---------------------------------------------------------------------------
  // GET /
  // ---------------------------------------------------------------------------

  /**
   * The handler: an empty queue gets the "No tickets available" message;
   * otherwise every ticket is dequeued into `topTickets` and into a second
   * queue built with the same comparator, and then moved back.
   */
  method GetTickets(ticketQueue: PriorityQueue<Ticket>) returns (response: Response)
    requires ticketQueue.Valid()
    modifies ticketQueue
    ensures ticketQueue.Valid()
    ensures ticketQueue.Contents == old(ticketQueue.Contents)
    ensures old(ticketQueue.Contents) == multiset{} ==> response == NoTickets(NoTicketsMessage)
    ensures old(ticketQueue.Contents) != multiset{} ==>
              response.Listing?
              && NonIncreasing(response.topTickets, ticketQueue.key)
              && multiset(response.topTickets) == old(ticketQueue.Contents)
              && |response.topTickets| == |old(ticketQueue.Contents)|
  {
    var empty := ticketQueue.IsEmpty();
    if empty {
      return NoTickets(NoTicketsMessage);
    }

    var topTickets: seq<Ticket> := [];
    var tempQueue := new PriorityQueue(ticketQueue.key);
    ghost var key := ticketQueue.key;
    ghost var initial := ticketQueue.Contents;

    while !empty
      invariant tempQueue != ticketQueue && ticketQueue.Valid() && tempQueue.Valid()
      invariant ticketQueue.key == key && tempQueue.key == key
      invariant empty <==> ticketQueue.Contents == multiset{}
      invariant ticketQueue.Contents + multiset(topTickets) == initial
      invariant tempQueue.Contents == multiset(topTickets)
      invariant NonIncreasing(topTickets, key)
      invariant ListedFirst(topTickets, ticketQueue.Contents, key)
      decreases |ticketQueue.Contents|
    {
      ghost var before := ticketQueue.Contents;
      var ticket := ticketQueue.Deq();
      var t := ticket.value;
      ListHighest(topTickets, before, t, key);
      MoveOne(multiset(topTickets), before, t);
      topTickets := topTickets + [t];
      var _ := tempQueue.Enq(t);
      empty := ticketQueue.IsEmpty();
    }

    empty := tempQueue.IsEmpty();
    while !empty
      invariant tempQueue != ticketQueue && ticketQueue.Valid() && tempQueue.Valid()
      invariant empty <==> tempQueue.Contents == multiset{}
      invariant ticketQueue.Contents + tempQueue.Contents == old(ticketQueue.Contents)
      decreases |tempQueue.Contents|
    {
      ghost var inTicketQueue, inTempQueue := ticketQueue.Contents, tempQueue.Contents;
      var ticket := tempQueue.Deq();
      MoveOne(inTicketQueue, inTempQueue, ticket.value);
      var _ := ticketQueue.Enq(ticket.value);
      empty := tempQueue.IsEmpty();
    }
    assert tempQueue.Contents == multiset{};

    response := Listing(topTickets);
  }

  // ---------------------------------------------------------------------------
  // The seeded listing
  // ---------------------------------------------------------------------------

  /** Three tickets of distinct keys have exactly one ranked order. */
  lemma RankedOrderOfThree(out: seq<Ticket>, a: Ticket, b: Ticket, c: Ticket, key: Ticket -> int)
    requires key(a) > key(b) > key(c)
    requires multiset(out) == multiset{a, b, c}
    requires NonIncreasing(out, key)
    ensures out == [a, b, c]
  {
  }

  /**
   * With the intended comparator the seeded listing is 9.2, 8.5, 7.8, and
   * it includes the "Completed" ticket: the handler filters on nothing.
   */
  method ListSampleTickets() returns (response: Response)
    ensures response == Listing([PaymentTicket, RefundTicket, LoanTicket])
    ensures [response.topTickets[0].priorityScore, response.topTickets[1].priorityScore,
             response.topTickets[2].priorityScore] == [92, 85, 78]
    ensures response.topTickets[1].status == "Completed"
  {
    var ticketQueue := SeedTicketQueue(Key);
    response := GetTickets(ticketQueue);
    assert multiset(SampleTickets()) == multiset{PaymentTicket, RefundTicket, LoanTicket};
    RankedOrderOfThree(response.topTickets, PaymentTicket, RefundTicket, LoanTicket, Key);
  }

  /** With the comparator as written the seeded listing comes out lowest first: 7.8, 8.5, 9.2. */
  method ListSampleTicketsAsWritten() returns (response: Response)
    ensures response == Listing([LoanTicket, RefundTicket, PaymentTicket])
    ensures [response.topTickets[0].priorityScore, response.topTickets[1].priorityScore,
             response.topTickets[2].priorityScore] == [78, 85, 92]
  {
    var ticketQueue := SeedTicketQueue(SourceKey);
    response := GetTickets(ticketQueue);
    assert multiset(SampleTickets()) == multiset{LoanTicket, RefundTicket, PaymentTicket};
    RankedOrderOfThree(response.topTickets, LoanTicket, RefundTicket, PaymentTicket, SourceKey);
  }
}
