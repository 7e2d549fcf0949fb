/**
 A year of weekly income, accumulated into one bank balance.

 Every income source runs in its own goroutine, and each goroutine adds its
 amount once a week for 52 weeks while holding the mutex for the whole year.
 The blocks therefore never interleave: the run is some order of whole
 blocks, chosen by the scheduler. Here that order is a `schedule`, any
 rearrangement of the declared incomes.
 */
module Money {

  datatype Income = Income(source: string, amount: int)

  /** Weeks in the year the loop runs over. */
  const Weeks: int := 52

  /** One line the week loop prints: the week, the amount and its source. */
  datatype Earned = Earned(week: int, amount: int, source: string)

  /** Sum of the amounts of `incomes`. */
  function SumAmounts(incomes: seq<Income>): (total: int) {
    if incomes == [] then 0 else incomes[0].amount + SumAmounts(incomes[1..])
  }

  /**
   The locked block of one goroutine: for weeks 1 through 52 it reads the
   balance into `temp`, adds the amount, and writes it back. A negative
   amount lowers the balance; nothing bounds it from below.
   */
  method RunIncome(balance: int, income: Income) returns (b: int, log: seq<Earned>)
    ensures b == balance + Weeks * income.amount
    ensures income.amount < 0 ==> b < balance
    // one line per week, weeks 1 through 52 in order
    ensures |log| == Weeks
    ensures forall k :: 0 <= k < |log| ==> log[k] == Earned(k + 1, income.amount, income.source)
  {
    b := balance;
    log := [];
    var week := 1;
    while week <= Weeks
      invariant 1 <= week <= Weeks + 1
      invariant b == balance + (week - 1) * income.amount
      invariant |log| == week - 1
      invariant forall k :: 0 <= k < |log| ==> log[k] == Earned(k + 1, income.amount, income.source)
    {
      var temp := b;
      temp := temp + income.amount;
      b := temp;
      log := log + [Earned(week, income.amount, income.source)];
      week := week + 1;
    }
  }

  /** Summing is independent of the order of the incomes. */
  lemma {:induction false} SumAmountsPermutation(xs: seq<Income>, ys: seq<Income>)
    requires multiset(xs) == multiset(ys)
    ensures SumAmounts(xs) == SumAmounts(ys)
    decreases |xs|
  {
    if xs != [] {
      var x := xs[0];
      var j := IndexOf(ys, x);
      var rest := RemoveAt(ys, j);
      DropFirst(xs);
      SumAmountsPermutation(xs[1..], rest);
    }
  }

  /** Dropping the first income takes out one copy of it. */
  lemma DropFirst(xs: seq<Income>)
    requires xs != []
    ensures multiset(xs[1..]) == multiset(xs) - multiset{xs[0]}
  {
    assert xs == [xs[0]] + xs[1..];
  }

  /** An index at which `x` occurs in `ys`. */
  lemma IndexOf(ys: seq<Income>, x: Income) returns (j: nat)
    requires x in multiset(ys)
    ensures j < |ys| && ys[j] == x
  {
    assert x in ys;
    j :| j < |ys| && ys[j] == x;
  }

  /** Taking out the income at index `j` takes out its amount and one copy of
      it, leaving the rest of the incomes in place. */
  lemma RemoveAt(ys: seq<Income>, j: nat) returns (rest: seq<Income>)
    requires j < |ys|
    ensures rest == ys[..j] + ys[j + 1..]
    ensures multiset(rest) == multiset(ys) - multiset{ys[j]}
    ensures SumAmounts(ys) == ys[j].amount + SumAmounts(rest)
  {
    rest := ys[..j] + ys[j + 1..];
    assert ys == ys[..j] + [ys[j]] + ys[j + 1..];
    assert ys == ys[..j] + ([ys[j]] + ys[j + 1..]);
    SumAmountsConcat(ys[..j], [ys[j]] + ys[j + 1..]);
    SumAmountsConcat(ys[..j], ys[j + 1..]);
    assert ([ys[j]] + ys[j + 1..])[1..] == ys[j + 1..];
  }

  lemma {:induction false} SumAmountsConcat(xs: seq<Income>, ys: seq<Income>)
    ensures SumAmounts(xs + ys) == SumAmounts(xs) + SumAmounts(ys)
    decreases |xs|
  {
    if xs != [] {
      assert (xs + ys)[1..] == xs[1..] + ys;
      SumAmountsConcat(xs[1..], ys);
    } else {
      assert xs + ys == ys;
    }
  }

  /**
   The whole program: starting from a zero balance, the goroutines' blocks
   run one after another in the order `schedule`, which holds each declared
   income exactly once. The final balance is 52 times the sum of the
   declared amounts, whatever the schedule.
   */
  method RunYear(incomes: seq<Income>, schedule: seq<Income>) returns (balance: int)
    requires multiset(schedule) == multiset(incomes)
    ensures balance == Weeks * SumAmounts(incomes)
  {
    balance := 0;
    var i := 0;
    while i < |schedule|
      invariant 0 <= i <= |schedule|
      invariant balance == Weeks * SumAmounts(schedule[..i])
    {
      var weekly;
      balance, weekly := RunIncome(balance, schedule[i]);
      assert schedule[..i + 1] == schedule[..i] + [schedule[i]];
      SumAmountsConcat(schedule[..i], [schedule[i]]);
      i := i + 1;
    }
    assert schedule[..i] == schedule;
    SumAmountsPermutation(schedule, incomes);
  }

  /** The incomes the program declares. */
  const DeclaredIncomes: seq<Income> := [
    Income("JOB", 12000),
    Income("Youtube", 1000),
    Income("Investments", -100),
    Income("Freelancing", 2500)
  ]

  /** With the declared incomes the year ends at 52 * 15400 = 800800. */
  lemma DeclaredIncomesBalance(schedule: seq<Income>)
    requires multiset(schedule) == multiset(DeclaredIncomes)
    ensures Weeks * SumAmounts(schedule) == 800800
  {
    SumAmountsPermutation(schedule, DeclaredIncomes);
    assert SumAmounts(DeclaredIncomes) == 15400;
  }
}
