/** Sequence facts used by the task-assignment loops. */
module SeqUtil {

  /** The index of the first element whose key differs from `k`, or the
      length when there is none: how far a loop that stops at the first
      such element gets. */
  function FirstMismatch<X, K(==)>(s: seq<X>, key: X -> K, k: K): (i: nat)
    ensures i <= |s|
    ensures forall j :: 0 <= j < i ==> key(s[j]) == k
    ensures i < |s| ==> key(s[i]) != k
  {
    if s == [] then 0
    else if key(s[0]) != k then 0
    else 1 + FirstMismatch(s[1..], key, k)
  }

  /** `n` copies of `x`. */
  function Repeat<X>(x: X, n: nat): (r: seq<X>)
    ensures |r| == n && forall j :: 0 <= j < n ==> r[j] == x
  {
    seq(n, _ => x)
  }

  /** `n` copies of `x` hold `x` exactly `n` times. */
  lemma {:induction false} RepeatCount<X>(x: X, n: nat)
    ensures multiset(Repeat(x, n))[x] == n
  {
    if n > 0 {
      RepeatCount(x, n - 1);
      assert Repeat(x, n) == Repeat(x, n - 1) + [x];
    }
  }

  /** The two sides of a link list, a task's workers and a worker's tasks,
      count the link equally often before `given` is appended to the first
      and one copy of the task per occurrence of the worker in `given` to
      the second; then they still do. */
  lemma {:induction false} LinksAgree<W, T>(before: seq<W>, given: seq<W>, w: W, tasksBefore: seq<T>, task: T)
    requires multiset(before)[w] == multiset(tasksBefore)[task]
    ensures multiset(before + given)[w] == multiset(tasksBefore + Repeat(task, multiset(given)[w]))[task]
  {
    RepeatCount(task, multiset(given)[w]);
  }

  /** A worker in `given` is linked from both sides once the appends are done. */
  lemma ListedMeansLinked<W, T>(given: seq<W>, w: W, task: T, assignedBefore: seq<W>, tasksBefore: seq<T>)
    requires w in given
    ensures w in assignedBefore + given
    ensures task in tasksBefore + Repeat(task, multiset(given)[w])
  {
    assert multiset(given)[w] > 0;
    assert Repeat(task, multiset(given)[w])[0] == task;
  }
}
