/** `ExamRepository.save`: the static `int` counter `seq` shared by every call, bumped on
    every execution; the execution fails exactly when the new value is a multiple of 5. */
module Exam {
  import opened JavaInt
  import opened Outcomes

  /** The counter's initial value. */
  const InitialSeq: Int32 := 0

  /** What one execution of `save` leaves behind: its outcome and the new counter. */
  datatype SaveStep = SaveStep(outcome: Outcome, counter: Int32)

  /** One execution of `save` from counter value `counter`. The IllegalStateException is a
      fresh object each time; its identity is the counter value that caused it. */
  function Save(counter: Int32): (r: SaveStep)
    ensures counter < MAX ==> r.counter == counter + 1
    ensures counter == MAX ==> r.counter == MIN
    ensures r.outcome.Threw? <==> r.counter % 5 == 0
    ensures r.outcome.Threw? ==> r.outcome.fault == Fault(IllegalState, r.counter)
    ensures r.outcome.Returned? ==> r.outcome.value == Str("ok")
  {
    var next := Inc(counter);
    RemFiveZeroIsDivisibility(next);
    if Rem(next, 5) == 0 then SaveStep(Threw(Fault(IllegalState, next)), next)
    else SaveStep(Returned(Str("ok")), next)
  }

  /** Two executions in a row never both fail, even across the wrap from MAX to MIN. */
  lemma NoTwoFailuresInARow(counter: Int32)
    requires Save(counter).outcome.Threw?
    ensures Save(Save(counter).counter).outcome == Returned(Str("ok"))
  {
    assert MAX % 5 == 2;
  }

  /** Counter after `n` executions in a row, with no wrap-around in between. */
  lemma {:induction false} ExecutionsCount(counter: Int32, n: nat)
    requires counter + n <= MAX
    ensures Repeat(counter, n) == counter + n
    decreases n
  {
    if n > 0 {
      ExecutionsCount(Save(counter).counter, n - 1);
    }
  }

  /** The counter after `n` consecutive executions of `save`, outcomes ignored. */
  function Repeat(counter: Int32, n: nat): Int32
    decreases n
  {
    if n == 0 then counter else Repeat(Save(counter).counter, n - 1)
  }

  /** Starting from 0, exactly the executions numbered 5, 10, 15, ... fail. */
  lemma FailsExactlyOnMultiplesOfFive(n: nat)
    requires n < MAX
    ensures Save(Repeat(InitialSeq, n)).outcome.Threw? <==> (n + 1) % 5 == 0
  {
    ExecutionsCount(InitialSeq, n);
  }
}
