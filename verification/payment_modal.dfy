/**
 * The ticket purchase wizard: ticket options built from an event's price
 * list, a per-ticket-type quantity table, totals, and the four-step flow
 * tickets -> details -> payment -> success.
 *
 * Prices are integers (centavos). The simulated payment delay is collapsed:
 * the payment step moves straight to success.
 */
module PaymentModal {
  import opened Wrappers
  import opened EventTypes

  datatype Step = Tickets | Details | Payment | Success

  datatype TicketOption = TicketOption(id: string, name: string, price: int, description: string, quantity: int)

  datatype CustomerData = CustomerData(name: string, email: string, phone: string, cpf: string)

  datatype PaymentData = PaymentData(cardNumber: string, cardName: string, expiryDate: string, cvv: string)

  const NoCustomer := CustomerData("", "", "", "")
  const NoPayment := PaymentData("", "", "", "")

  // ---------------------------------------------------------------------------
  // Ticket options

  /** The display name of a ticket type; every unknown type reads as "Infantil". */
  function TicketName(kind: string): (r: string)
    ensures kind == "single" ==> r == "Ingresso"
    ensures kind == "inteira" ==> r == "Ingresso Inteira"
    ensures kind == "meia" ==> r == "Meia Entrada"
    ensures kind !in {"single", "inteira", "meia"} ==> r == "Infantil"
  {
    if kind == "single" then "Ingresso"
    else if kind == "inteira" then "Ingresso Inteira"
    else if kind == "meia" then "Meia Entrada"
    else "Infantil"
  }

  /** A missing or empty description reads as "Acesso ao evento". */
  function TicketDescription(d: Option<string>): string {
    if d.Some? && d.value != "" then d.value else "Acesso ao evento"
  }

  function ToOption(t: TicketPrice): TicketOption {
    TicketOption(t.kind, TicketName(t.kind), t.price, TicketDescription(t.description), 0)
  }

  /** One option per price entry, in order, when the event sells online; none otherwise. */
  function TicketOptions(e: Event): (r: seq<TicketOption>)
    ensures e.hasOnlineTickets == Some(true) && e.ticketPrices.Some? ==>
      |r| == |e.ticketPrices.value|
      && forall i :: 0 <= i < |r| ==>
           && r[i].id == e.ticketPrices.value[i].kind
           && r[i].price == e.ticketPrices.value[i].price
           && r[i].name == TicketName(e.ticketPrices.value[i].kind)
           && r[i].description == TicketDescription(e.ticketPrices.value[i].description)
           && r[i].quantity == 0
    ensures !(e.hasOnlineTickets == Some(true) && e.ticketPrices.Some?) ==> r == []
  {
    if e.hasOnlineTickets == Some(true) && e.ticketPrices.Some? then
      seq(|e.ticketPrices.value|, i requires 0 <= i < |e.ticketPrices.value| => ToOption(e.ticketPrices.value[i]))
    else []
  }

  /** The modal renders only for an event that sells online and lists at least one price. */
  predicate Renders(e: Event) {
    e.hasOnlineTickets == Some(true) && e.ticketPrices.Some? && |e.ticketPrices.value| > 0
  }

  /** The modal renders exactly when there is at least one ticket option to show. */
  lemma RendersIffOptions(e: Event)
    ensures Renders(e) <==> |TicketOptions(e)| > 0
  {
  }

  // ---------------------------------------------------------------------------
  // The quantity table

  /** One entry of `selectedTickets`; entries are kept in insertion order, as object keys are. */
  datatype Entry = Entry(id: string, quantity: int)

  predicate DistinctIds(q: seq<Entry>) {
    forall i, j :: 0 <= i < j < |q| ==> q[i].id != q[j].id
  }

  predicate NonNegative(q: seq<Entry>) {
    forall i :: 0 <= i < |q| ==> q[i].quantity >= 0
  }

  /** `selectedTickets[id] || 0` */
  function Quantity(q: seq<Entry>, id: string): int {
    if q == [] then 0
    else if q[0].id == id then q[0].quantity
    else Quantity(q[1..], id)
  }

  /** `{ ...q, [id]: n }`: replaces the entry in place, or appends a new one. */
  function SetQuantity(q: seq<Entry>, id: string, n: int): (r: seq<Entry>)
    requires DistinctIds(q)
    ensures DistinctIds(r)
    ensures NonNegative(q) && n >= 0 ==> NonNegative(r)
    ensures forall k :: Quantity(r, k) == if k == id then n else Quantity(q, k)
    ensures forall i :: 0 <= i < |r| ==> r[i].id == id || exists j :: 0 <= j < |q| && q[j].id == r[i].id
  {
    if q == [] then [Entry(id, n)]
    else if q[0].id == id then
      assert forall k :: k != id ==> Quantity(q, k) == Quantity(q[1..], k);
      [Entry(id, n)] + q[1..]
    else
      var rest := SetQuantity(q[1..], id, n);
      assert forall i :: 0 <= i < |rest| ==> rest[i].id != q[0].id;
      [q[0]] + rest
  }

  /** `Object.values(selectedTickets).reduce((sum, qty) => sum + qty, 0)` */
  function Sum(q: seq<Entry>): int {
    if q == [] then 0 else q[0].quantity + Sum(q[1..])
  }

  /** With distinct ids, the sum changes by exactly the change of the one quantity that was set. */
  lemma {:induction false} SumAfterSet(q: seq<Entry>, id: string, n: int)
    requires DistinctIds(q)
    ensures Sum(SetQuantity(q, id, n)) == Sum(q) - Quantity(q, id) + n
  {
    if q != [] && q[0].id != id {
      SumAfterSet(q[1..], id, n);
    } else if q != [] {
      AbsentIdHasZero(q[1..], id);
    }
  }

  /** An id with no entry reads as zero. */
  lemma {:induction false} AbsentIdHasZero(q: seq<Entry>, id: string)
    requires forall i :: 0 <= i < |q| ==> q[i].id != id
    ensures Quantity(q, id) == 0
  {
    if q != [] {
      AbsentIdHasZero(q[1..], id);
    }
  }

  /** With no negative quantity the total is not negative, and it is zero only when every quantity is. */
  lemma {:induction false} SumOfNonNegative(q: seq<Entry>)
    requires NonNegative(q)
    ensures Sum(q) >= 0
    ensures Sum(q) == 0 <==> forall i :: 0 <= i < |q| ==> q[i].quantity == 0
  {
    if q != [] {
      SumOfNonNegative(q[1..]);
      assert forall i :: 1 <= i < |q| ==> q[1..][i - 1] == q[i];
    }
  }

  /** When every stored quantity is zero, every lookup is zero. */
  lemma {:induction false} AllZeroLookups(q: seq<Entry>, id: string)
    requires forall i :: 0 <= i < |q| ==> q[i].quantity == 0
    ensures Quantity(q, id) == 0
  {
    if q != [] {
      AllZeroLookups(q[1..], id);
    }
  }

  /** `ticketOptions.reduce((total, t) => total + t.price * (selectedTickets[t.id] || 0), 0)` */
  function TotalPrice(options: seq<TicketOption>, q: seq<Entry>): int {
    if options == [] then 0
    else options[0].price * Quantity(q, options[0].id) + TotalPrice(options[1..], q)
  }

  /** Nothing selected, nothing to pay. */
  lemma {:induction false} NoTicketsNoPrice(options: seq<TicketOption>, q: seq<Entry>)
    requires NonNegative(q) && Sum(q) == 0
    ensures TotalPrice(options, q) == 0
  {
    SumOfNonNegative(q);
    if options != [] {
      AllZeroLookups(q, options[0].id);
      NoTicketsNoPrice(options[1..], q);
    }
  }

  /** Non-negative prices and quantities give a non-negative total. */
  lemma {:induction false} TotalPriceNonNegative(options: seq<TicketOption>, q: seq<Entry>)
    requires forall i :: 0 <= i < |options| ==> options[i].price >= 0
    requires forall k :: Quantity(q, k) >= 0
    ensures TotalPrice(options, q) >= 0
  {
    if options != [] {
      TotalPriceNonNegative(options[1..], q);
      assert options[0].price * Quantity(q, options[0].id) >= 0;
    }
  }

  /** Every lookup in a table without negative entries is non-negative. */
  lemma {:induction false} LookupNonNegative(q: seq<Entry>, id: string)
    requires NonNegative(q)
    ensures Quantity(q, id) >= 0
  {
    if q != [] {
      LookupNonNegative(q[1..], id);
    }
  }

  /** `Math.max(0, quantity)` */
  function ClampQuantity(n: int): (r: int)
    ensures r >= 0 && r >= n
    ensures n >= 0 ==> r == n
    ensures n < 0 ==> r == 0
  {
    if n < 0 then 0 else n
  }

  // ---------------------------------------------------------------------------
  // The step machine

  predicate CustomerComplete(c: CustomerData) { c.name != "" && c.email != "" && c.phone != "" }

  predicate CardComplete(p: PaymentData) {
    p.cardNumber != "" && p.cardName != "" && p.expiryDate != "" && p.cvv != ""
  }

  /** The step after `s`; `Success` is last. */
  function Successor(s: Step): Step {
    match s
    case Tickets => Details
    case Details => Payment
    case Payment => Success
    case Success => Success
  }

  /** `handleNextStep` followed, on the payment step, by the completed `processPayment`. */
  function NextStep(s: Step, totalTickets: int, c: CustomerData, p: PaymentData): (r: Step)
    ensures r == s || r == Successor(s)
    ensures s == Tickets ==> (r == Details <==> totalTickets != 0)
    ensures s == Details ==> (r == Payment <==> CustomerComplete(c))
    ensures s == Payment ==> (r == Success <==> CardComplete(p))
    ensures s == Success ==> r == Success
  {
    match s
    case Tickets => if totalTickets == 0 then Tickets else Details
    case Details => if CustomerComplete(c) then Payment else Details
    case Payment => if CardComplete(p) then Success else Payment
    case Success => Success
  }

  /** The back button: offered on details and payment only, and it goes one step back. */
  function BackStep(s: Step): (r: Option<Step>)
    ensures r.Some? <==> s == Details || s == Payment
    ensures r.Some? ==> Successor(r.value) == s
  {
    match s
    case Details => Some(Tickets)
    case Payment => Some(Details)
    case _ => None
  }

  /** Success is reached only from the payment step with complete card data. */
  lemma SuccessNeedsCard(s: Step, n: int, c: CustomerData, p: PaymentData)
    requires s != Success && NextStep(s, n, c, p) == Success
    ensures s == Payment && CardComplete(p)
  {
  }

  /** With no negative quantity the ticket step moves on exactly when at least one ticket is chosen. */
  lemma {:induction false} TicketsStepNeedsATicket(q: seq<Entry>, c: CustomerData, p: PaymentData)
    requires NonNegative(q)
    ensures NextStep(Tickets, Sum(q), c, p) == Details <==> Sum(q) > 0
  {
    SumOfNonNegative(q);
  }

  // ---------------------------------------------------------------------------
  // The wizard's state

  class PurchaseWizard {
    const options: seq<TicketOption>
    var step: Step
    var selected: seq<Entry>
    var customer: CustomerData
    var payment: PaymentData

    /** Ids are unique and no quantity is negative. */
    ghost predicate Valid()
      reads this
    {
      DistinctIds(selected) && NonNegative(selected)
    }

    /** The modal opened on `e`: first step, nothing chosen, nothing typed. */
    constructor (e: Event)
      ensures Valid()
      ensures options == TicketOptions(e)
      ensures step == Tickets && selected == [] && customer == NoCustomer && payment == NoPayment
    {
      options := TicketOptions(e);
      step := Tickets;
      selected := [];
      customer := NoCustomer;
      payment := NoPayment;
    }

    function TotalTickets(): int
      reads this
    {
      Sum(selected)
    }

    function TotalPriceOfSelection(): int
      reads this
    {
      TotalPrice(options, selected)
    }

    /** `updateTicketQuantity`: store `max(0, n)` for `id`, leave every other entry as it was. */
    method UpdateTicketQuantity(id: string, n: int)
      requires Valid()
      modifies this
      ensures Valid()
      ensures selected == SetQuantity(old(selected), id, ClampQuantity(n))
      ensures Quantity(selected, id) == ClampQuantity(n)
      ensures forall k :: k != id ==> Quantity(selected, k) == Quantity(old(selected), k)
      ensures TotalTickets() == old(TotalTickets()) - Quantity(old(selected), id) + ClampQuantity(n)
      ensures step == old(step) && customer == old(customer) && payment == old(payment)
    {
      SumAfterSet(selected, id, ClampQuantity(n));
      selected := SetQuantity(selected, id, ClampQuantity(n));
    }

    /** The "+" button of a ticket type. */
    method AddOne(id: string)
      requires Valid()
      modifies this
      ensures Valid()
      ensures Quantity(selected, id) == Quantity(old(selected), id) + 1
      ensures forall k :: k != id ==> Quantity(selected, k) == Quantity(old(selected), k)
      ensures TotalTickets() == old(TotalTickets()) + 1
      ensures step == old(step) && customer == old(customer) && payment == old(payment)
    {
      LookupNonNegative(selected, id);
      UpdateTicketQuantity(id, Quantity(selected, id) + 1);
    }

    /** The "-" button of a ticket type: never below zero. */
    method RemoveOne(id: string)
      requires Valid()
      modifies this
      ensures Valid()
      ensures Quantity(selected, id) == ClampQuantity(Quantity(old(selected), id) - 1)
      ensures forall k :: k != id ==> Quantity(selected, k) == Quantity(old(selected), k)
      ensures Quantity(old(selected), id) > 0 ==> TotalTickets() == old(TotalTickets()) - 1
      ensures Quantity(old(selected), id) == 0 ==> TotalTickets() == old(TotalTickets())
      ensures step == old(step) && customer == old(customer) && payment == old(payment)
    {
      LookupNonNegative(selected, id);
      UpdateTicketQuantity(id, Quantity(selected, id) - 1);
    }

    method SetCustomerData(c: CustomerData)
      modifies this
      ensures customer == c
      ensures step == old(step) && selected == old(selected) && payment == old(payment)
    {
      customer := c;
    }

    method SetPaymentData(p: PaymentData)
      modifies this
      ensures payment == p
      ensures step == old(step) && selected == old(selected) && customer == old(customer)
    {
      payment := p;
    }

    /**
     * `processPayment` with its delay collapsed: the purchase completes. It is
     * reached only from `handleNextStep` on the payment step with the card filled in.
     */
    method ProcessPayment()
      requires step == Payment && CardComplete(payment)
      modifies this
      ensures step == Success
      ensures selected == old(selected) && customer == old(customer) && payment == old(payment)
    {
      step := Success;
    }

    /** `handleNextStep`: each step moves on only when its own fields are filled in. */
    method HandleNextStep()
      modifies this
      ensures step == NextStep(old(step), old(TotalTickets()), customer, payment)
      ensures selected == old(selected) && customer == old(customer) && payment == old(payment)
    {
      if step == Tickets {
        if TotalTickets() == 0 {
          return;
        }
        step := Details;
      } else if step == Details {
        if !CustomerComplete(customer) {
          return;
        }
        step := Payment;
      } else if step == Payment {
        if !CardComplete(payment) {
          return;
        }
        ProcessPayment();
      }
    }

    /** The back button, where it is offered. */
    method Back()
      modifies this
      ensures step == BackStep(old(step)).GetOr(old(step))
      ensures selected == old(selected) && customer == old(customer) && payment == old(payment)
    {
      if step == Details || step == Payment {
        step := if step == Details then Tickets else Details;
      }
    }

    /** `handleClose`: back to the first step with everything cleared. */
    method HandleClose()
      modifies this
      ensures Valid()
      ensures step == Tickets && selected == [] && customer == NoCustomer && payment == NoPayment
      ensures TotalTickets() == 0
    {
      step := Tickets;
      selected := [];
      customer := NoCustomer;
      payment := NoPayment;
    }
  }
}
