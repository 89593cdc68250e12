/**
 Lists built element by element while one string of state is carried from
 each element to the next. The plugin's builders work this way because
 word_out keeps the PHONE text in a static buffer: a word with no HMM
 leaves the buffer, and so its PHONE, as the previous word left it.
 */
module Threaded {

  /** Elements i .. n-1, element j built by `step(j, state)`; the state
      each step leaves is handed to the next. Returns the elements and the
      final state. */
  function Thread<T>(step: (nat, string) --> (T, string), i: nat, n: nat, state: string): (r: (seq<T>, string))
    requires i <= n
    requires forall j, b :: i <= j < n ==> step.requires(j, b)
    ensures |r.0| == n - i
    decreases n - i
  {
    if i == n then ([], state)
    else
      var first := step(i, state);
      var rest := Thread(step, i + 1, n, first.1);
      ([first.0] + rest.0, rest.1)
  }

  /** The state when element j is reached, starting from `state` at
      element 0. */
  function StateAt<T>(step: (nat, string) --> (T, string), j: nat, state: string): string
    requires forall k: nat, b :: k < j ==> step.requires(k, b)
  {
    if j == 0 then state
    else
      var before := StateAt(step, j - 1, state);
      step(j - 1, before).1
  }

  /** Element k of a threaded list is the step of its own index applied to
      the state reached there, and the list ends in the state reached at n. */
  lemma {:induction false} ThreadAt<T>(step: (nat, string) --> (T, string), i: nat, n: nat, state: string)
    requires i <= n
    requires forall j: nat, b :: j < n ==> step.requires(j, b)
    ensures forall k :: 0 <= k < n - i ==>
              Thread(step, i, n, StateAt(step, i, state)).0[k] == step(i + k, StateAt(step, i + k, state)).0
    ensures Thread(step, i, n, StateAt(step, i, state)).1 == StateAt(step, n, state)
    decreases n - i
  {
    if i < n {
      ThreadAt(step, i + 1, n, state);
      var here := StateAt(step, i, state);
      assert StateAt(step, i + 1, state) == step(i, here).1;
      var rest := Thread(step, i + 1, n, step(i, here).1);
      assert Thread(step, i, n, here).0 == [step(i, here).0] + rest.0;
      forall k | 0 < k < n - i
        ensures Thread(step, i, n, here).0[k] == step(i + k, StateAt(step, i + k, state)).0
      {
        assert Thread(step, i, n, here).0[k] == rest.0[k - 1];
        assert i + k == (i + 1) + (k - 1);
      }
    }
  }

  /** Started at element 0, element k is the step of k on the state there. */
  lemma ThreadElement<T>(step: (nat, string) --> (T, string), n: nat, state: string, k: nat)
    requires forall j: nat, b :: j < n ==> step.requires(j, b)
    requires k < n
    ensures Thread(step, 0, n, state).0[k] == step(k, StateAt(step, k, state)).0
  {
    ThreadAt(step, 0, n, state);
  }
}
