/** `Traversable.sequence`: turns a list of samplers into one sampler of a list. */
module Traversable {
  import opened Base

  /** A generator: one draw from the stream, or an exception. */
  type Sampler<T> = Stream -> Draw<T>

  /** The private indexed recursion: samples `samplers[index]` first, then the
      samplers below it, and appends its own value after theirs. */
  function SequenceFrom<T>(samplers: seq<Sampler<T>>, index: int, s: Stream): (r: Draw<seq<T>>)
    requires -1 <= index < |samplers|
    ensures r.Drawn? ==> |r.value| == index + 1
    decreases index + 1
  {
    if index < 0 then Drawn([], s)
    else match samplers[index](s)
      case Failed(e) => Failed(e)
      case Drawn(g, s1) =>
        match SequenceFrom(samplers, index - 1, s1)
        case Failed(e) => Failed(e)
        case Drawn(r, s2) => Drawn(r + [g], s2)
  }

  /** The public wrapper: starts the recursion at the last sampler. */
  function Sequence<T>(samplers: seq<Sampler<T>>, s: Stream): (r: Draw<seq<T>>)
    ensures r.Drawn? ==> |r.value| == |samplers|
  {
    SequenceFrom(samplers, |samplers| - 1, s)
  }

  // ---------------------------------------------------------------------------
  // A reference definition: draw the samplers in list order.

  function Reversed<T>(xs: seq<T>): (r: seq<T>)
    ensures |r| == |xs|
    ensures forall i :: 0 <= i < |xs| ==> r[i] == xs[|xs| - 1 - i]
  {
    seq(|xs|, i requires 0 <= i < |xs| => xs[|xs| - 1 - i])
  }

  /** Draws `samplers[0]` first, then the rest, keeping the values in draw order. */
  function InOrder<T>(samplers: seq<Sampler<T>>, s: Stream): Draw<seq<T>> {
    if |samplers| == 0 then Drawn([], s)
    else match samplers[0](s)
      case Failed(e) => Failed(e)
      case Drawn(v, t) =>
        match InOrder(samplers[1..], t)
        case Failed(e) => Failed(e)
        case Drawn(vs, u) => Drawn([v] + vs, u)
  }

  function ReverseValues<T>(d: Draw<seq<T>>): Draw<seq<T>> {
    match d
    case Failed(e) => Failed(e)
    case Drawn(vs, t) => Drawn(Reversed(vs), t)
  }

  /** `sequence` samples from the last sampler to the first (the reverse of output
      order) and still lists the values in the samplers' order: it is the in-order
      draw of the reversed list, with the values put back in reverse. The first
      exception met in that order is the one raised. */
  lemma SequenceDrawsLastFirst<T>(samplers: seq<Sampler<T>>, s: Stream)
    ensures Sequence(samplers, s) == ReverseValues(InOrder(Reversed(samplers), s))
  {
    SequenceFromIsInOrder(samplers, |samplers| - 1, s);
    assert samplers[..|samplers|] == samplers;
  }

  lemma {:induction false} SequenceFromIsInOrder<T>(samplers: seq<Sampler<T>>, index: int, s: Stream)
    requires -1 <= index < |samplers|
    ensures SequenceFrom(samplers, index, s) == ReverseValues(InOrder(Reversed(samplers[..index + 1]), s))
    decreases index + 1
  {
    var rev := Reversed(samplers[..index + 1]);
    if index >= 0 {
      assert rev[0] == samplers[index];
      assert rev[1..] == Reversed(samplers[..index]);
      match samplers[index](s)
      case Failed(e) =>
      case Drawn(g, s1) =>
        SequenceFromIsInOrder(samplers, index - 1, s1);
        match InOrder(rev[1..], s1)
        case Failed(e) =>
        case Drawn(vs, u) =>
          assert Reversed([g] + vs) == Reversed(vs) + [g];
    }
  }

  /** Element i of a sample is a value that the i-th sampler produces. */
  lemma SequenceAt<T>(samplers: seq<Sampler<T>>, s: Stream, i: int)
    requires 0 <= i < |samplers|
    requires Sequence(samplers, s).Drawn?
    ensures |Sequence(samplers, s).value| == |samplers|
    ensures exists t :: samplers[i](t).Drawn? && samplers[i](t).value == Sequence(samplers, s).value[i]
  {
    SequenceFromAt(samplers, |samplers| - 1, s, i);
  }

  lemma {:induction false} SequenceFromAt<T>(samplers: seq<Sampler<T>>, index: int, s: Stream, i: int)
    requires -1 <= index < |samplers|
    requires 0 <= i <= index
    requires SequenceFrom(samplers, index, s).Drawn?
    ensures exists t :: samplers[i](t).Drawn? && samplers[i](t).value == SequenceFrom(samplers, index, s).value[i]
    decreases index + 1
  {
    var d := samplers[index](s);
    var rec := SequenceFrom(samplers, index - 1, d.rest);
    if i == index {
      assert SequenceFrom(samplers, index, s).value[i] == d.value;
    } else {
      SequenceFromAt(samplers, index - 1, d.rest, i);
      assert SequenceFrom(samplers, index, s).value[i] == rec.value[i];
    }
  }

  /** With no samplers the result is the empty list, and nothing is drawn. */
  lemma SequenceEmpty<T>(samplers: seq<Sampler<T>>, s: Stream)
    requires |samplers| == 0
    ensures Sequence(samplers, s) == Drawn([], s)
  {
  }

  function Constant<T>(x: T): Sampler<T> {
    (t: Stream) => Drawn(x, t)
  }

  /** Sequencing the constants 1, 2 and 3 yields the list [1, 2, 3] and reads no randomness. */
  lemma SequenceOfConstants(s: Stream)
    ensures Sequence<int>([Constant(1), Constant(2), Constant(3)], s) == Drawn([1, 2, 3], s)
  {
    var ss: seq<Sampler<int>> := [Constant(1), Constant(2), Constant(3)];
    assert ss[2](s) == Drawn(3, s);
    assert ss[1](s) == Drawn(2, s);
    assert ss[0](s) == Drawn(1, s);
    var d0 := SequenceFrom(ss, 0, s);
    assert d0.value == [1] && d0.rest == s;
    var d1 := SequenceFrom(ss, 1, s);
    assert d1.value == [1, 2] && d1.rest == s;
    var d2 := SequenceFrom(ss, 2, s);
    assert d2.value == [1, 2, 3] && d2.rest == s;
  }

  // ---------------------------------------------------------------------------
  // The mutable list the recursion appends to.

  /** A `java.util.ArrayList`: a list updated in place. */
  class ArrayList<T> {
    var elems: seq<T>

    constructor ()
      ensures elems == []
    {
      elems := [];
    }

    method Add(x: T)
      modifies this
      ensures elems == old(elems) + [x]
    {
      elems := elems + [x];
    }
  }

  /** The indexed recursion as the code runs it: draw, recurse, then add the drawn
      value to the list the recursion returned. Every call returns a new list, so
      sampling again never changes a list handed out before. */
  method SequenceIndexed<T>(samplers: seq<Sampler<T>>, index: int, s: Stream) returns (r: Draw<ArrayList<T>>)
    requires -1 <= index < |samplers|
    ensures r.Drawn? <==> SequenceFrom(samplers, index, s).Drawn?
    ensures r.Failed? ==> r.error == SequenceFrom(samplers, index, s).error
    ensures r.Drawn? ==>
              fresh(r.value) && r.value.elems == SequenceFrom(samplers, index, s).value
              && r.rest == SequenceFrom(samplers, index, s).rest
    decreases index + 1
  {
    if index < 0 {
      var list := new ArrayList<T>();
      return Drawn(list, s);
    }
    var gen := samplers[index];
    match gen(s)
    case Failed(e) =>
      r := Failed(e);
    case Drawn(g, s1) =>
      var rec := SequenceIndexed(samplers, index - 1, s1);
      match rec
      case Failed(e) =>
        r := Failed(e);
      case Drawn(list, s2) =>
        list.Add(g);
        r := Drawn(list, s2);
  }

  /** The public `sequence`, sampled once. */
  method SampleSequence<T>(samplers: seq<Sampler<T>>, s: Stream) returns (r: Draw<ArrayList<T>>)
    ensures r.Drawn? <==> Sequence(samplers, s).Drawn?
    ensures r.Failed? ==> r.error == Sequence(samplers, s).error
    ensures r.Drawn? ==>
              fresh(r.value) && r.value.elems == Sequence(samplers, s).value
              && r.rest == Sequence(samplers, s).rest
  {
    r := SequenceIndexed(samplers, |samplers| - 1, s);
  }
}
