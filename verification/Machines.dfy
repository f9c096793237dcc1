/** Runs of a deterministic machine: a step takes an action to the next state and the events it
    makes visible; a run folds a sequence of actions.
 */
module Machines {
  import opened Wrappers

  datatype Outcome<+S, +E> = Outcome(state: S, events: seq<E>)

  function Fold<S, A, E>(step: (S, A) -> Outcome<S, E>, s: S, actions: seq<A>): Outcome<S, E>
    decreases |actions|
  {
    if actions == [] then Outcome(s, [])
    else
      var before := Fold(step, s, actions[..|actions|-1]);
      var last := step(before.state, actions[|actions|-1]);
      Outcome(last.state, before.events + last.events)
  }

  lemma FoldAppend<S, A, E>(step: (S, A) -> Outcome<S, E>, s: S, actions: seq<A>, a: A)
    ensures var before := Fold(step, s, actions);
            var last := step(before.state, a);
            Fold(step, s, actions + [a]) == Outcome(last.state, before.events + last.events)
  {
    assert (actions + [a])[..|actions + [a]| - 1] == actions;
  }

  lemma FoldOne<S, A, E>(step: (S, A) -> Outcome<S, E>, s: S, a: A)
    ensures Fold(step, s, [a]) == step(s, a)
  {
    FoldAppend(step, s, [], a);
    assert [] + [a] == [a];
    assert [] + step(s, a).events == step(s, a).events;
  }

  lemma {:induction false} FoldConcat<S, A, E>(step: (S, A) -> Outcome<S, E>, s: S, first: seq<A>, second: seq<A>)
    ensures var a := Fold(step, s, first);
            var b := Fold(step, a.state, second);
            Fold(step, s, first + second) == Outcome(b.state, a.events + b.events)
    decreases |second|
  {
    var a := Fold(step, s, first);
    if second == [] {
      assert first + second == first;
      assert a.events + [] == a.events;
    } else {
      var init, last := second[..|second|-1], second[|second|-1];
      FoldConcat(step, s, first, init);
      FoldAppend(step, s, first + init, last);
      assert first + second == (first + init) + [last];
      var mid := Fold(step, a.state, init);
      var o := step(mid.state, last);
      assert (a.events + mid.events) + o.events == a.events + (mid.events + o.events);
    }
  }

  /** Replacing the first action by one that ends in the same state only changes the events in front. */
  lemma FoldSwap<S, A, E>(step: (S, A) -> Outcome<S, E>, s: S, s': S, a: A, a': A, rest: seq<A>, extra: seq<E>)
    requires step(s', a') == Outcome(step(s, a).state, extra + step(s, a).events)
    ensures var o := Fold(step, s, [a] + rest);
            Fold(step, s', [a'] + rest) == Outcome(o.state, extra + o.events)
  {
    FoldConcat(step, s, [a], rest);
    FoldConcat(step, s', [a'], rest);
    FoldOne(step, s, a);
    FoldOne(step, s', a');
    var first, tail := step(s, a), Fold(step, step(s, a).state, rest);
    assert (extra + first.events) + tail.events == extra + (first.events + tail.events);
  }

  lemma FoldTwo<S, A, E>(step: (S, A) -> Outcome<S, E>, s: S, a0: A, a1: A)
    ensures var o0 := step(s, a0);
            var o1 := step(o0.state, a1);
            Fold(step, s, [a0, a1]) == Outcome(o1.state, o0.events + o1.events)
  {
    FoldOne(step, s, a0);
    FoldAppend(step, s, [a0], a1);
    assert [a0] + [a1] == [a0, a1];
  }

  /** A run of four actions, spelled out. */
  lemma FoldFour<S, A, E>(step: (S, A) -> Outcome<S, E>, s: S, a0: A, a1: A, a2: A, a3: A)
    ensures var o0 := step(s, a0);
            var o1 := step(o0.state, a1);
            var o2 := step(o1.state, a2);
            var o3 := step(o2.state, a3);
            Fold(step, s, [a0, a1, a2, a3]) == Outcome(o3.state, o0.events + o1.events + o2.events + o3.events)
  {
    FoldOne(step, s, a0);
    FoldAppend(step, s, [a0], a1);
    FoldAppend(step, s, [a0, a1], a2);
    FoldAppend(step, s, [a0, a1, a2], a3);
    assert [a0] + [a1] == [a0, a1] && [a0, a1] + [a2] == [a0, a1, a2] && [a0, a1, a2] + [a3] == [a0, a1, a2, a3];
  }

  /** What is left of a stock of inputs after a run whose actions are made from it. `take` says what is
      left when an action is due, and nothing if it is not. */
  function Fed<S, A, E, I>(step: (S, A) -> Outcome<S, E>, take: (S, A, I) -> Option<I>, s: S, actions: seq<A>,
                           stock: I): Option<I>
    decreases |actions|
  {
    if actions == [] then Some(stock)
    else
      var init, last := actions[..|actions| - 1], actions[|actions| - 1];
      var left := Fed(step, take, s, init, stock);
      if left.None? then None else take(Fold(step, s, init).state, last, left.value)
  }

  lemma FedAppend<S, A, E, I>(step: (S, A) -> Outcome<S, E>, take: (S, A, I) -> Option<I>, s: S, actions: seq<A>, a: A,
                              stock: I, left: I)
    requires Fed(step, take, s, actions, stock) == Some(left)
    ensures Fed(step, take, s, actions + [a], stock) == take(Fold(step, s, actions).state, a, left)
  {
    assert (actions + [a])[..|actions + [a]| - 1] == actions;
  }

  lemma {:induction false} FedConcat<S, A, E, I>(step: (S, A) -> Outcome<S, E>, take: (S, A, I) -> Option<I>, s: S,
                                                 first: seq<A>,
                                                 second: seq<A>, stock: I, left: I, rest: I)
    requires Fed(step, take, s, first, stock) == Some(left)
    requires Fed(step, take, Fold(step, s, first).state, second, left) == Some(rest)
    ensures Fed(step, take, s, first + second, stock) == Some(rest)
    decreases |second|
  {
    if second == [] {
      assert first + second == first;
    } else {
      var init, last := second[..|second| - 1], second[|second| - 1];
      var mid := Fed(step, take, Fold(step, s, first).state, init, left).value;
      FedConcat(step, take, s, first, init, stock, left, mid);
      FoldConcat(step, s, first, init);
      FedAppend(step, take, s, first + init, last, stock, mid);
      assert first + second == (first + init) + [last];
    }
  }

  /** What an observer remembers after these events. */
  function Watching<W, E>(see: (W, E) -> W, w: W, events: seq<E>): W
    decreases |events|
  {
    if events == [] then w else see(Watching(see, w, events[..|events| - 1]), events[|events| - 1])
  }

  /** The observer agrees to every event when it comes. */
  predicate Allowed<W, E>(see: (W, E) -> W, allow: (W, E) -> bool, w: W, events: seq<E>)
    decreases |events|
  {
    events != [] ==>
      var init, last := events[..|events| - 1], events[|events| - 1];
      Allowed(see, allow, w, init) && allow(Watching(see, w, init), last)
  }

  lemma WatchOne<W, E>(see: (W, E) -> W, allow: (W, E) -> bool, w: W, events: seq<E>, e: E)
    ensures Watching(see, w, events + [e]) == see(Watching(see, w, events), e)
    ensures Allowed(see, allow, w, events + [e]) <==>
            Allowed(see, allow, w, events) && allow(Watching(see, w, events), e)
  {
    assert (events + [e])[..|events + [e]| - 1] == events;
  }

  lemma {:induction false} WatchConcat<W, E>(see: (W, E) -> W, allow: (W, E) -> bool, w: W, first: seq<E>,
                                             second: seq<E>)
    ensures Watching(see, w, first + second) == Watching(see, Watching(see, w, first), second)
    ensures Allowed(see, allow, w, first + second) <==>
            Allowed(see, allow, w, first) && Allowed(see, allow, Watching(see, w, first), second)
    decreases |second|
  {
    if second == [] {
      assert first + second == first;
    } else {
      var init, last := second[..|second| - 1], second[|second| - 1];
      WatchConcat(see, allow, w, first, init);
      WatchOne(see, allow, w, first + init, last);
      WatchOne(see, allow, Watching(see, w, first), init, last);
      assert first + second == (first + init) + [last] && init + [last] == second;
    }
  }

  /** Every event of an allowed sequence was agreed to by what the observer remembered just before. */
  lemma {:induction false} AllowedAt<W, E>(see: (W, E) -> W, allow: (W, E) -> bool, w: W, events: seq<E>, j: nat)
    requires Allowed(see, allow, w, events) && j < |events|
    ensures allow(Watching(see, w, events[..j]), events[j])
    decreases |events|
  {
    if j < |events| - 1 {
      AllowedAt(see, allow, w, events[..|events| - 1], j);
      assert events[..|events| - 1][..j] == events[..j];
    }
  }
}
