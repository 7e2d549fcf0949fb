/**
 The producer loop (`pizzafun`) and the consumer loop of `main`, with the
 channel taken away.

 The producer starts from 0 and feeds each returned order number back into
 `makePizza`, so the orders it offers are a fold over the outcome codes it
 draws, one per call (a call past the quota ignores its code). The consumer
 receives those orders in the same order, reports each one inside the quota,
 and on the first order past the quota asks the producer to stop. While the
 consumer waits in `Close`, nobody receives from the data channel, so the
 producer's `select` can only take the quit branch: it closes the data
 channel and the consumer's `range` loop ends. Nothing after the first
 sentinel is ever received.
 */
module ProducerConsumer {
  import opened Pizza

  /** The orders offered by a run of the producer, and the counters after it. */
  datatype Batch = Batch(orders: seq<PizzaOrder>, tally: Tally)

  /** Number of calls among `calls` made after order `last` that fall inside
      the quota. */
  function InQuotaCalls(last: int, calls: nat): (q: nat) {
    if last >= NoOfPizzas then 0
    else if calls <= NoOfPizzas - last then calls
    else NoOfPizzas - last
  }

  /** Pizzas made among the orders inside the quota. */
  function MadeIn(orders: seq<PizzaOrder>): (n: nat) {
    if orders == [] then 0
    else (if !IsSentinel(orders[0]) && orders[0].success then 1 else 0) + MadeIn(orders[1..])
  }

  /** Pizzas failed among the orders inside the quota. */
  function FailedIn(orders: seq<PizzaOrder>): (n: nat) {
    if orders == [] then 0
    else (if !IsSentinel(orders[0]) && !orders[0].success then 1 else 0) + FailedIn(orders[1..])
  }

  predicate AllValidRolls(rolls: seq<int>) {
    forall k :: 0 <= k < |rolls| ==> ValidRoll(rolls[k])
  }

  /**
   The producer loop of `pizzafun`: one `makePizza` call per outcome code in
   `rolls`, each call starting from the number the previous call returned.
   */
  function Produce(last: int, rolls: seq<int>, tally: Tally): (b: Batch)
    decreases |rolls|
    ensures |b.orders| == |rolls|
    // order k is the one `makePizza` builds from code k after order `last + k`
    // (the order itself does not depend on the counters passed in)
    ensures forall k :: 0 <= k < |b.orders| ==> b.orders[k] == MakePizza(last + k, rolls[k], tally).order
    // consecutive numbers, right after `last`
    ensures forall k :: 0 <= k < |b.orders| ==> b.orders[k].pizzaNumber == last + k + 1
    // every real order announces its own number; every sentinel is bare
    ensures forall k :: 0 <= k < |b.orders| && !IsSentinel(b.orders[k]) ==>
              b.orders[k].message != NoMessage && b.orders[k].message.pizza == b.orders[k].pizzaNumber
    ensures forall k :: 0 <= k < |b.orders| && IsSentinel(b.orders[k]) ==>
              b.orders[k].message == NoMessage && !b.orders[k].success
    // one counter step per call inside the quota, none past it
    ensures b.tally.made + b.tally.failed == tally.made + tally.failed + InQuotaCalls(last, |rolls|)
    ensures tally.made <= b.tally.made && tally.failed <= b.tally.failed
  {
    if rolls == [] then Batch([], tally)
    else
      var step := MakePizza(last, rolls[0], tally);
      var rest := Produce(step.order.pizzaNumber, rolls[1..], step.tally);
      Batch([step.order] + rest.orders, rest.tally)
  }

  /** For real outcome codes, each counter counts exactly the orders inside
      the quota with the matching outcome. */
  lemma {:induction false} ProduceTally(last: int, rolls: seq<int>, tally: Tally)
    requires AllValidRolls(rolls)
    ensures Produce(last, rolls, tally).tally.made == tally.made + MadeIn(Produce(last, rolls, tally).orders)
    ensures Produce(last, rolls, tally).tally.failed == tally.failed + FailedIn(Produce(last, rolls, tally).orders)
    decreases |rolls|
  {
    if rolls != [] {
      var step := MakePizza(last, rolls[0], tally);
      var rest := Produce(step.order.pizzaNumber, rolls[1..], step.tally);
      assert AllValidRolls(rolls[1..]) by {
        forall k | 0 <= k < |rolls[1..]| ensures ValidRoll(rolls[1..][k]) {
          assert rolls[1..][k] == rolls[k + 1];
        }
      }
      ProduceTally(step.order.pizzaNumber, rolls[1..], step.tally);
      var orders := [step.order] + rest.orders;
      assert orders[0] == step.order && orders[1..] == rest.orders;
      assert ValidRoll(rolls[0]);
    }
  }

  /** One report line of the consumer: green for a pizza made, red for a
      failure. */
  datatype Line = Green(message: Message) | Red(message: Message)

  /** What the consumer did: the lines it reported, and whether it called
      `Close` on the producer. */
  datatype Log = Log(lines: seq<Line>, closed: bool)

  /** The report line for an order inside the quota. */
  function Report(o: PizzaOrder): (line: Line) {
    if o.success then Green(o.message) else Red(o.message)
  }

  /** Index of the first sentinel among `orders`, or `|orders|` if none. */
  function FirstSentinel(orders: seq<PizzaOrder>): (i: nat)
    ensures i <= |orders|
    ensures forall k :: 0 <= k < i ==> !IsSentinel(orders[k])
    ensures i < |orders| ==> IsSentinel(orders[i])
  {
    if orders == [] then 0
    else if IsSentinel(orders[0]) then 0
    else 1 + FirstSentinel(orders[1..])
  }

  /**
   The consumer loop of `main` over the orders it receives: each order inside
   the quota is reported, the first sentinel triggers `Close`, and after it
   the channel is closed so nothing more is received.
   */
  function Consume(orders: seq<PizzaOrder>): (log: Log)
    // a line for every order before the first sentinel, and nothing else
    ensures |log.lines| == FirstSentinel(orders)
    ensures forall k :: 0 <= k < |log.lines| ==>
              log.lines[k].message == orders[k].message &&
              (log.lines[k].Green? <==> orders[k].success)
    // `Close` is called exactly when a sentinel arrives
    ensures log.closed <==> exists k :: 0 <= k < |orders| && IsSentinel(orders[k])
  {
    if orders == [] then Log([], false)
    else if IsSentinel(orders[0]) then Log([], true)
    else
      var rest := Consume(orders[1..]);
      assert forall k :: 1 <= k < |orders| ==> orders[k] == orders[1..][k - 1];
      Log([Report(orders[0])] + rest.lines, rest.closed)
  }

  function Greens(lines: seq<Line>): (n: nat) {
    if lines == [] then 0 else (if lines[0].Green? then 1 else 0) + Greens(lines[1..])
  }

  function Reds(lines: seq<Line>): (n: nat) {
    if lines == [] then 0 else (if lines[0].Red? then 1 else 0) + Reds(lines[1..])
  }

  /** What a whole day of the program amounts to: the consumer's log and the
      counters printed in the summary. */
  datatype Day = Day(log: Log, tally: Tally)

  /** The program's day, driven by the outcome codes `rolls` the producer
      draws. */
  function RunDay(rolls: seq<int>): (d: Day) {
    var batch := Produce(0, rolls, Tally(0, 0));
    Day(Consume(batch.orders), batch.tally)
  }

  /** No order past the quota counts as made or failed. */
  lemma {:induction false} SentinelsUncounted(orders: seq<PizzaOrder>)
    requires forall k :: 0 <= k < |orders| ==> IsSentinel(orders[k])
    ensures MadeIn(orders) == 0 && FailedIn(orders) == 0
    decreases |orders|
  {
    if orders != [] {
      assert forall k :: 0 <= k < |orders[1..]| ==> orders[1..][k] == orders[k + 1];
      SentinelsUncounted(orders[1..]);
    }
  }

  /** When no real order follows a sentinel, the consumer's green and red
      lines are exactly the made and failed orders inside the quota. */
  lemma {:induction false} ConsumeCounts(orders: seq<PizzaOrder>)
    requires forall i, j :: 0 <= i <= j < |orders| && IsSentinel(orders[i]) ==> IsSentinel(orders[j])
    ensures Greens(Consume(orders).lines) == MadeIn(orders)
    ensures Reds(Consume(orders).lines) == FailedIn(orders)
    decreases |orders|
  {
    if orders == [] {
    } else if IsSentinel(orders[0]) {
      SentinelsUncounted(orders);
    } else {
      var rest := orders[1..];
      assert forall k :: 0 <= k < |rest| ==> rest[k] == orders[k + 1];
      ConsumeCounts(rest);
      var lines := Consume(orders).lines;
      assert lines == [Report(orders[0])] + Consume(rest).lines;
      assert lines[1..] == Consume(rest).lines;
    }
  }

  /**
   The shape of a day. The consumer reports orders 1, 2, ... in turn; if the
   producer gets past the quota, exactly `NoOfPizzas` orders are reported
   before `Close` is called, and the counters add up to the quota.
   */
  lemma RunDayShape(rolls: seq<int>)
    ensures |rolls| > NoOfPizzas ==>
              RunDay(rolls).log.closed && |RunDay(rolls).log.lines| == NoOfPizzas
    ensures |rolls| <= NoOfPizzas ==>
              !RunDay(rolls).log.closed && |RunDay(rolls).log.lines| == |rolls|
    ensures forall k :: 0 <= k < |RunDay(rolls).log.lines| ==>
              RunDay(rolls).log.lines[k].message != NoMessage &&
              RunDay(rolls).log.lines[k].message.pizza == k + 1
    ensures |rolls| >= NoOfPizzas ==>
              RunDay(rolls).tally.made + RunDay(rolls).tally.failed == NoOfPizzas
  {
    var orders := Produce(0, rolls, Tally(0, 0)).orders;
    if |rolls| > NoOfPizzas {
      assert IsSentinel(orders[NoOfPizzas]);
    }
  }

  /** With real outcome codes, the summary's counters equal the numbers of
      green and red lines the consumer reported. */
  lemma RunDaySummary(rolls: seq<int>)
    requires AllValidRolls(rolls)
    ensures RunDay(rolls).tally.made == Greens(RunDay(rolls).log.lines)
    ensures RunDay(rolls).tally.failed == Reds(RunDay(rolls).log.lines)
  {
    var batch := Produce(0, rolls, Tally(0, 0));
    ProduceTally(0, rolls, Tally(0, 0));
    ConsumeCounts(batch.orders);
  }

  /** With real outcome codes, report line k announces the outcome the table
      gives for code k, and it is red exactly when code k is a multiple of
      three. */
  lemma RunDayLines(rolls: seq<int>)
    requires forall k :: 0 <= k < |rolls| && k < NoOfPizzas ==> ValidRoll(rolls[k])
    ensures forall k :: 0 <= k < |RunDay(rolls).log.lines| ==>
              RunDay(rolls).log.lines[k].message == Announce(RollTable[rolls[k] - 1], k + 1) &&
              (RunDay(rolls).log.lines[k].Red? <==> rolls[k] % 3 == 0)
  {
    var orders := Produce(0, rolls, Tally(0, 0)).orders;
    var lines := RunDay(rolls).log.lines;
    forall k | 0 <= k < |lines|
      ensures lines[k].message == Announce(RollTable[rolls[k] - 1], k + 1)
      ensures lines[k].Red? <==> rolls[k] % 3 == 0
    {
      assert !IsSentinel(orders[k]);
      assert k < NoOfPizzas && ValidRoll(rolls[k]);
      FailureKinds(k, rolls[k], Tally(0, 0));
    }
  }

  /** Number of codes among `rolls` that the counter test `rnd % 3 == 0`
      sends to the failure counter. */
  function FailingCodes(rolls: seq<int>): (n: nat) {
    if rolls == [] then 0 else (if rolls[0] % 3 == 0 then 1 else 0) + FailingCodes(rolls[1..])
  }

  /** The failure counter grows by the number of multiples of three among the
      codes drawn inside the quota, whatever the codes are. */
  lemma {:induction false} ProduceFailures(last: int, rolls: seq<int>, tally: Tally)
    ensures Produce(last, rolls, tally).tally.failed ==
              tally.failed + FailingCodes(rolls[..InQuotaCalls(last, |rolls|)])
    decreases |rolls|
  {
    var q := InQuotaCalls(last, |rolls|);
    if q == 0 {
      assert rolls[..q] == [];
    } else {
      var step := MakePizza(last, rolls[0], tally);
      ProduceFailures(last + 1, rolls[1..], step.tally);
      assert rolls[..q][0] == rolls[0];
      assert rolls[..q][1..] == rolls[1..][..InQuotaCalls(last + 1, |rolls| - 1)];
    }
  }

  /** Four of the codes 4, 7, 3, 6, 9, 1, 2, 5, 12, 8 are multiples of three. */
  lemma ScenarioCodes()
    ensures FailingCodes([4, 7, 3, 6, 9, 1, 2, 5, 12, 8]) == 4
  {
  }

  /** The day driven by the codes 4, 7, 3, 6, 9, 1, 2, 5, 12, 8 (and any
      code for the sentinel): codes 3, 6, 9 and 12 fail, so six pizzas are
      made and four fail: pizzas 3, 4, 5 and 9. */
  lemma ScenarioDay(extra: int)
    ensures RunDay([4, 7, 3, 6, 9, 1, 2, 5, 12, 8, extra]).tally == Tally(6, 4)
    ensures RunDay([4, 7, 3, 6, 9, 1, 2, 5, 12, 8, extra]).log.closed
  {
    var rolls := [4, 7, 3, 6, 9, 1, 2, 5, 12, 8, extra];
    ProduceFailures(0, rolls, Tally(0, 0));
    assert rolls[..10] == [4, 7, 3, 6, 9, 1, 2, 5, 12, 8];
    ScenarioCodes();
    RunDayShape(rolls);
  }

  /** In that day the red lines are the ones for pizzas 3, 4, 5 and 9. */
  lemma ScenarioFailures(extra: int)
    ensures forall k :: 0 <= k < |RunDay([4, 7, 3, 6, 9, 1, 2, 5, 12, 8, extra]).log.lines| ==>
              (RunDay([4, 7, 3, 6, 9, 1, 2, 5, 12, 8, extra]).log.lines[k].Red? <==> k + 1 in {3, 4, 5, 9})
  {
    var rolls := [4, 7, 3, 6, 9, 1, 2, 5, 12, 8, extra];
    var codes := [4, 7, 3, 6, 9, 1, 2, 5, 12, 8];
    assert forall k :: 0 <= k < 10 ==> rolls[k] == codes[k];
    assert forall k :: 0 <= k < 10 ==> (codes[k] % 3 == 0 <==> k + 1 in {3, 4, 5, 9});
    RunDayLines(rolls);
    RunDayShape(rolls);
  }
}
