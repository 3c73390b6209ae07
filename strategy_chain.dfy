// A hydrator strategy built from other strategies: extraction runs them
// first to last, hydration runs them last to first.

module StrategyChain {

  /**
   * One strategy: how it extracts a value (given the object it is read from,
   * of type O) and how it hydrates one (given the data being hydrated, of
   * type D).
   */
  datatype Strategy<!T, -O, -D> = Strategy(extract: (T, O) -> T, hydrate: (T, D) -> T)

  /** Hydration undoes extraction, whatever the object and the data. */
  ghost predicate Inverts<T(!new), O(!new), D(!new)>(s: Strategy<T, O, D>)
  {
    forall v, o, d :: s.hydrate(s.extract(v, o), d) == v
  }

  /** `array_reverse`. */
  function Reverse<X>(xs: seq<X>): (r: seq<X>)
    ensures |r| == |xs|
    ensures forall i :: 0 <= i < |xs| ==> r[i] == xs[|xs| - 1 - i]
  {
    if xs == [] then [] else Reverse(xs[1..]) + [xs[0]]
  }

  /** The value after each strategy of `ss`, in order, has extracted it. */
  function ExtractAll<T, O, D>(ss: seq<Strategy<T, O, D>>, value: T, o: O): T
  {
    if ss == [] then value else ExtractAll(ss[1..], ss[0].extract(value, o), o)
  }

  /** The value after each strategy of `ss`, in order, has hydrated it. */
  function HydrateAll<T, O, D>(ss: seq<Strategy<T, O, D>>, value: T, d: D): T
  {
    if ss == [] then value else HydrateAll(ss[1..], ss[0].hydrate(value, d), d)
  }

  /** Hydrating with one more strategy at the end applies it last. */
  lemma {:induction false} HydrateAllSnoc<T, O, D>(ss: seq<Strategy<T, O, D>>, s: Strategy<T, O, D>, value: T, d: D)
    ensures HydrateAll(ss + [s], value, d) == s.hydrate(HydrateAll(ss, value, d), d)
  {
    if ss != [] {
      assert (ss + [s])[1..] == ss[1..] + [s];
      HydrateAllSnoc(ss[1..], s, ss[0].hydrate(value, d), d);
    }
  }

  /**
   * When every strategy's hydration undoes its extraction, hydrating with
   * the reversed list undoes extracting with the list.
   */
  lemma {:induction false} ReversedHydrationUndoesExtraction<T(!new), O(!new), D(!new)>(ss: seq<Strategy<T, O, D>>, value: T, o: O, d: D)
    requires forall i :: 0 <= i < |ss| ==> Inverts(ss[i])
    ensures HydrateAll(Reverse(ss), ExtractAll(ss, value, o), d) == value
  {
    if ss != [] {
      var s := ss[0];
      var extracted := s.extract(value, o);
      calc {
        HydrateAll(Reverse(ss), ExtractAll(ss, value, o), d);
        HydrateAll(Reverse(ss[1..]) + [s], ExtractAll(ss[1..], extracted, o), d);
        { HydrateAllSnoc(Reverse(ss[1..]), s, ExtractAll(ss[1..], extracted, o), d); }
        s.hydrate(HydrateAll(Reverse(ss[1..]), ExtractAll(ss[1..], extracted, o), d), d);
        { ReversedHydrationUndoesExtraction(ss[1..], extracted, o, d); }
        s.hydrate(extracted, d);
        { assert Inverts(ss[0]); }
        value;
      }
    }
  }

  class StrategyChain<T, O, D> {
    const extraction: seq<Strategy<T, O, D>>
    const hydration: seq<Strategy<T, O, D>>

    /** The hydration list is the extraction list reversed, fixed at construction. */
    constructor(strategies: seq<Strategy<T, O, D>>)
      ensures extraction == strategies
      ensures hydration == Reverse(strategies)
    {
      extraction := strategies;
      hydration := Reverse(strategies);
    }

    /** `extract`: the value threaded through the strategies first to last. */
    method Extract(value: T, o: O) returns (r: T)
      ensures r == ExtractAll(extraction, value, o)
      ensures extraction == [] ==> r == value
    {
      r := value;
      var i := 0;
      while i < |extraction|
        invariant 0 <= i <= |extraction|
        invariant ExtractAll(extraction[i..], r, o) == ExtractAll(extraction, value, o)
      {
        assert extraction[i..][1..] == extraction[i + 1..];
        r := extraction[i].extract(r, o);
        i := i + 1;
      }
    }

    /** `hydrate`: the value threaded through the reversed list. */
    method Hydrate(value: T, d: D) returns (r: T)
      ensures r == HydrateAll(hydration, value, d)
      ensures hydration == [] ==> r == value
    {
      r := value;
      var i := 0;
      while i < |hydration|
        invariant 0 <= i <= |hydration|
        invariant HydrateAll(hydration[i..], r, d) == HydrateAll(hydration, value, d)
      {
        assert hydration[i..][1..] == hydration[i + 1..];
        r := hydration[i].hydrate(r, d);
        i := i + 1;
      }
    }
  }

  /**
   * A chain of strategies that each undo themselves undoes itself: hydrating
   * what it extracted gives the value back.
   */
  lemma ChainRoundTrip<T(!new), O(!new), D(!new)>(c: StrategyChain<T, O, D>, value: T, o: O, d: D)
    requires c.hydration == Reverse(c.extraction)
    requires forall i :: 0 <= i < |c.extraction| ==> Inverts(c.extraction[i])
    ensures HydrateAll(c.hydration, ExtractAll(c.extraction, value, o), d) == value
  {
    ReversedHydrationUndoesExtraction(c.extraction, value, o, d);
  }
}
