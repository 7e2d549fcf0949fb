/**
 The pizza shop's order record and the decision logic that makes one pizza.

 `makePizza` draws two random numbers: a delay (which only decides how long
 the cook sleeps) and an outcome code `rnd` in 1..12. Here the outcome code
 is a parameter, and the two package-level counters `pizzaMade` and
 `pizzaFailed` are threaded through as a `Tally` value.
 */
module Pizza {

  /** Number of pizzas the shop makes in a day; later orders are sentinels. */
  const NoOfPizzas: int := 10

  /** The range `rand.Intn(12) + 1` draws the outcome code from. */
  predicate ValidRoll(rnd: int) {
    1 <= rnd <= 12
  }

  /** What the shop says about an order. The source builds these as strings
      that embed the pizza number; the sentinel order carries none. */
  datatype Message =
    | NoMessage
    | OutOfIngredients(pizza: int)
    | CookDied(pizza: int)
    | Ready(pizza: int)

  datatype PizzaOrder = PizzaOrder(pizzaNumber: int, message: Message, success: bool)

  /** The package-level counters of pizzas made and pizzas failed. */
  datatype Tally = Tally(made: nat, failed: nat)

  /** The order handed back by one call, and the counters after it. */
  datatype Step = Step(order: PizzaOrder, tally: Tally)

  /** Outcome categories of the decision table. */
  datatype Kind = Fine | NoIngredients | FatalCook

  /** The outcome policy as a table indexed by `rnd - 1`: codes 3, 9 and 12
      run out of ingredients, code 6 kills the cook, the rest succeed. */
  const RollTable: seq<Kind> :=
    [Fine, Fine, NoIngredients, Fine, Fine, FatalCook,
     Fine, Fine, NoIngredients, Fine, Fine, NoIngredients]

  /** The message that announces an outcome of kind `k` for pizza `n`. */
  function Announce(k: Kind, n: int): (m: Message) {
    match k
    case Fine => Ready(n)
    case NoIngredients => OutOfIngredients(n)
    case FatalCook => CookDied(n)
  }

  /** True of an order past the quota: the consumer's signal to stop. */
  predicate IsSentinel(o: PizzaOrder) {
    o.pizzaNumber > NoOfPizzas
  }

  /**
   One call of `makePizza(pizzaNumber)` with outcome code `rnd`.

   The counter that is bumped is chosen by `rnd % 3 == 0`, while the message
   and the success flag are chosen by comparing `rnd` with 3, 9, 12 and 6;
   for codes in 1..12 the two conditions agree. (Go's `%` truncates toward
   zero where Dafny's is Euclidean, but both give remainder zero for the
   same integers, so the test is the same.)
   */
  function MakePizza(pizzaNumber: int, rnd: int, tally: Tally): (r: Step)
    // the number is always advanced, on both paths
    ensures r.order.pizzaNumber == pizzaNumber + 1
    // past the quota: a bare sentinel, counters untouched
    ensures IsSentinel(r.order) ==>
              !r.order.success && r.order.message == NoMessage && r.tally == tally
    // inside the quota: exactly one counter goes up by one
    ensures !IsSentinel(r.order) ==>
              r.tally.made + r.tally.failed == tally.made + tally.failed + 1
    ensures tally.made <= r.tally.made && tally.failed <= r.tally.failed
    // the failure counter is the one bumped exactly for multiples of three
    ensures !IsSentinel(r.order) ==>
              (r.tally.failed == tally.failed + 1 <==> rnd % 3 == 0)
    // the success flag agrees with the message
    ensures r.order.success <==> r.order.message.Ready?
    ensures !IsSentinel(r.order) ==>
              r.order.message != NoMessage && r.order.message.pizza == r.order.pizzaNumber
    // for a real outcome code, the message is the one the table gives
    ensures !IsSentinel(r.order) && ValidRoll(rnd) ==>
              r.order.message == Announce(RollTable[rnd - 1], r.order.pizzaNumber)
    // ... and the failure counter goes up exactly when the order failed
    ensures !IsSentinel(r.order) && ValidRoll(rnd) ==>
              (r.tally.failed == tally.failed + 1 <==> !r.order.success)
  {
    var n := pizzaNumber + 1;
    if n <= NoOfPizzas then
      var tally' :=
        if rnd % 3 == 0 then tally.(failed := tally.failed + 1)
        else tally.(made := tally.made + 1);
      var order :=
        if rnd == 3 || rnd == 9 || rnd == 12 then PizzaOrder(n, OutOfIngredients(n), false)
        else if rnd == 6 then PizzaOrder(n, CookDied(n), false)
        else PizzaOrder(n, Ready(n), true);
      Step(order, tally')
    else
      Step(PizzaOrder(n, NoMessage, false), tally)
  }

  /** The two failure kinds are told apart by the outcome code alone: code 6
      and nothing else kills the cook; 3, 9 and 12 and nothing else run out
      of ingredients. */
  lemma FailureKinds(pizzaNumber: int, rnd: int, tally: Tally)
    requires pizzaNumber + 1 <= NoOfPizzas
    ensures MakePizza(pizzaNumber, rnd, tally).order.message.CookDied? <==> rnd == 6
    ensures MakePizza(pizzaNumber, rnd, tally).order.message.OutOfIngredients? <==>
              rnd == 3 || rnd == 9 || rnd == 12
    ensures ValidRoll(rnd) ==>
              (MakePizza(pizzaNumber, rnd, tally).order.success <==> rnd % 3 != 0)
  {
  }
}
