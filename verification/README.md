# Pizza producer/consumer and weekly balance, in Dafny

This project models the sequential core of two Go programs from a repository
of concurrency examples.

**The pizza shop** (`ProducerConsumer/main.go`). `makePizza` takes the
previous order number and returns the next order. Orders up to the quota
`NoOfPizzas` = 10 are real orders. Each one draws an outcome code `rnd` in
1..12:

- codes 3, 9 and 12 mean the shop ran out of ingredients;
- code 6 means the cook died;
- every other code means the pizza is ready.

Each real order also bumps one of two package-level counters, `pizzaMade` or
`pizzaFailed`, chosen by the separate test `rnd % 3 == 0`. An order past the
quota is a bare sentinel. The producer loop `pizzafun` starts from 0 and feeds
each returned number back in. The consumer loop in `main` reports every real
order in green or red. On the first sentinel it calls `Close`, and the range
over the data channel then ends.

The pizza shop is modelled in two modules:

- module `Pizza` (pizza.dfy): the order record and `MakePizza`, with the outcome code as a parameter and the counters passed as a `Tally` value;
- module `ProducerConsumer` (producer_consumer.dfy): the producer loop as a fold over a sequence of outcome codes (`Produce`), the consumer loop as a function of the orders it receives (`Consume`), and a whole day (`RunDay`).

`Consume` stops at the first sentinel for this reason. While the consumer
waits inside `Close`, nothing receives on the data channel. So the producer's
`select` can only take the quit branch, and it closes the data channel before
it sends anything else.

**The weekly balance** (`Mutex/Money.go`). Each income runs in its own
goroutine. That goroutine adds its amount to `bankBalance` once a week for
weeks 1 through 52, and it holds the mutex for the whole year. Module `Money`
(money.dfy) models one goroutine's locked block as the method `RunIncome`. It
models the program as `RunYear`, which runs the blocks one after another in a
`schedule`. The schedule is any rearrangement of the declared incomes, which
stands for whatever order the scheduler picks.

Two details of the code are worth noting:

- The sentinel order carries the number `n + 1`, one past the number it was asked about (ProducerConsumer/main.go:33 and 71-73).
- For outcome codes 4, 7, 3, 6, 9, 1, 2, 5, 12, 8 the code makes 6 pizzas and fails 4, because all four of the codes 3, 6, 9 and 12 fail. The failed pizzas are numbers 3, 4, 5 and 9 (`ScenarioDay`, `ScenarioFailures`).

## Model

| member | source | states |
|---|---|---|
| Pizza.MakePizza | ProducerConsumer/main.go:32-74 | The returned number is always the input plus one. Past the quota, the order has no message, is not a success, and leaves both counters unchanged. Inside the quota, exactly one counter goes up by one, and it is the failure counter exactly when `rnd % 3 == 0`. The success flag is true exactly when the message says the pizza is ready. For a code in 1..12, the message is the one the outcome table gives, and the failure counter goes up exactly when the order fails. |
| Pizza.FailureKinds | ProducerConsumer/main.go:39-59 | Inside the quota, the cook dies exactly for code 6 and the shop runs out of ingredients exactly for codes 3, 9 and 12. The two failure kinds never overlap. For a code in 1..12, the order succeeds exactly when the code is not a multiple of three. |
| ProducerConsumer.Produce | ProducerConsumer/main.go:76-97 | The producer emits one order per call, and order k is exactly the order `makePizza` builds from code k after order `last + k`. The numbers run consecutively from the starting number plus one. Every real order names its own number, and every sentinel is bare and unsuccessful. The two counters together grow by exactly the number of calls inside the quota, and neither counter ever decreases. |
| ProducerConsumer.ProduceTally | ProducerConsumer/main.go:43-59 | For codes in 1..12, the made counter grows by exactly the number of successful real orders produced. The failed counter grows by exactly the number of unsuccessful real orders. |
| ProducerConsumer.ProduceFailures | ProducerConsumer/main.go:43-47 | For any codes at all, the failed counter grows by the number of multiples of three among the codes drawn by calls inside the quota. Calls past the quota add nothing. |
| ProducerConsumer.Consume | ProducerConsumer/main.go:120-134 | The consumer reports one line for each order before the first sentinel, and nothing after it. Each line carries its order's message and is green exactly when that order succeeded. `Close` is called exactly when a sentinel is received. |
| ProducerConsumer.ConsumeCounts | ProducerConsumer/main.go:120-126 | If no real order follows a sentinel, the green lines are exactly the made orders and the red lines are exactly the failed orders. |
| ProducerConsumer.RunDayShape | ProducerConsumer/main.go:76-134 | Report line k is about pizza k + 1. If the producer gets past the quota, exactly 10 orders are reported and then `Close` is called; otherwise every order is reported and `Close` is not called. After at least 10 calls, made plus failed equals 10. |
| ProducerConsumer.RunDaySummary | ProducerConsumer/main.go:120-141 | For codes in 1..12, the summary's made and failed counts equal the number of green and red lines the consumer printed. |
| ProducerConsumer.RunDayLines | ProducerConsumer/main.go:39-59 | When the codes drawn inside the quota are in 1..12, report line k announces the outcome the table gives for code k, for pizza k + 1. The line is red exactly when code k is a multiple of three. |
| ProducerConsumer.ScenarioDay | ProducerConsumer/main.go:35-59 | The codes 4, 7, 3, 6, 9, 1, 2, 5, 12, 8, followed by any code, give 6 pizzas made and 4 failed, and the day ends with `Close`. |
| ProducerConsumer.ScenarioFailures | ProducerConsumer/main.go:52-59 | For the same codes, the red lines are exactly those for pizzas 3, 4, 5 and 9. |
| Money.RunIncome | Mutex/Money.go:41-49 | One locked block raises the balance by exactly 52 times the amount, and a negative amount lowers it with no floor. It logs one entry per week, for weeks 1 through 52 in order. |
| Money.SumAmountsPermutation | Mutex/Money.go:37-51 | Any two orderings of the same incomes have the same total amount. |
| Money.RunYear | Mutex/Money.go:19-56 | Starting from zero, the final balance is 52 times the sum of the declared amounts, whatever order the blocks run in. |
| Money.DeclaredIncomesBalance | Mutex/Money.go:28-34 | In any order, the four declared incomes end the year at 800800, which is 52 × 15400. |

## Left out

- Goroutines, channels, `select` and the `quit chan chan error` handshake (`Producer.Close`, the quit branch of `pizzafun`) are concurrency. The model replaces them with the sequential argument given above for why nothing is received after the first sentinel.
- `math/rand`, `rand.Seed` and `time.Sleep` are nondeterminism and timing. The outcome code becomes a parameter, one per `makePizza` call; a call past the quota ignores its code.
- The delay drawn by `makePizza` is left out. It only sets how long the cook sleeps and appears in a printed line, and it has no effect on the returned order or on the counters.
- Produce: the Go producer loops forever. The model runs it over a finite sequence of outcome codes, so whole-day statements hold once that sequence is longer than the quota.
- Printing through `color.*` and `fmt.*` is I/O through an outside library. Messages are an enumeration that carries the pizza number, not the exact strings.
- The `currentPizza != nil` test in `pizzafun` is left out because `makePizza` never returns nil. The unused global `total` is left out too.
- RunIncome: the balance is an unbounded integer, while Go's `int` (Mutex/Money.go:14 and 19) is 64 bits and wraps around. The contract therefore matches the Go program only while every intermediate balance fits in an int64. That includes the claim that a negative amount lowers the balance with no floor.
- RunYear: for the same reason, the final balance of 52 times the sum of the amounts matches the Go program only while every intermediate balance fits in an int64. It does for the declared incomes, which end at 800800.
- `sync.Mutex` and `sync.WaitGroup` in Mutex/Money.go are modelled only by their effect: whole blocks run one after another in some order.
- Mutex/main.go, Mutex/delete.go, waitgroups/main.go, waitgroups/main_test.go and Tasks/challenge-1/challenge-1/main_test.go are not part of this model. They demonstrate concurrency or check printed output, and they hold no sequential behaviour of the two programs above.
