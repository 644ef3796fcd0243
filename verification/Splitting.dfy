/** Python's `str.split` and `str.join` on one separating character. */
module Splitting {
  import opened Prelude

  datatype Halves = Halves(head: string, tail: Option<string>)

  /** `s.split(c, 1)`. */
  function Cut(s: string, c: char): (h: Halves)
    ensures c !in h.head
    ensures h.tail.None? ==> s == h.head
    ensures h.tail.Some? ==> s == h.head + [c] + h.tail.value
  {
    if s == [] then Halves([], None)
    else if s[0] == c then Halves([], Some(s[1..]))
    else
      var h := Cut(s[1..], c);
      Halves([s[0]] + h.head, h.tail)
  }

  /** `s.split(c)`. */
  function Split(s: string, c: char): (ps: seq<string>)
    ensures ps != []
    decreases |s|
  {
    var h := Cut(s, c);
    if h.tail.None? then [h.head] else [h.head] + Split(h.tail.value, c)
  }

  /** `c.join(ps)`. */
  function Join(ps: seq<string>, c: char): string {
    if ps == [] then [] else if |ps| == 1 then ps[0] else ps[0] + [c] + Join(ps[1..], c)
  }

  ghost predicate Without(ps: seq<string>, c: char) {
    forall i :: 0 <= i < |ps| ==> c !in ps[i]
  }

  lemma {:induction false} CutAt(h: string, t: string, c: char)
    requires c !in h
    ensures Cut(h + [c] + t, c) == Halves(h, Some(t))
  {
    if h == [] {
      assert h + [c] + t == [c] + t;
    } else {
      CutAt(h[1..], t, c);
      assert (h + [c] + t)[1..] == h[1..] + [c] + t;
    }
  }

  lemma {:induction false} CutNowhere(h: string, c: char)
    requires c !in h
    ensures Cut(h, c) == Halves(h, None)
  {
    if h != [] { CutNowhere(h[1..], c); }
  }

  /** A cut is never made inside a part without the separator. */
  lemma {:induction false} CutPast(h: string, t: string, c: char)
    requires c !in h
    ensures |Cut(h + t, c).head| >= |h|
  {
    if h != [] {
      CutPast(h[1..], t, c);
      assert (h + t)[1..] == h[1..] + t;
    }
  }

  lemma {:induction false} SplitThenJoin(s: string, c: char)
    ensures Join(Split(s, c), c) == s && Without(Split(s, c), c)
    decreases |s|
  {
    var h := Cut(s, c);
    if h.tail.Some? {
      SplitThenJoin(h.tail.value, c);
      assert Split(s, c)[1..] == Split(h.tail.value, c);
    }
  }

  lemma {:induction false} JoinThenSplit(ps: seq<string>, c: char)
    requires ps != [] && Without(ps, c)
    ensures Split(Join(ps, c), c) == ps
  {
    if |ps| == 1 {
      CutNowhere(ps[0], c);
    } else {
      JoinThenSplit(ps[1..], c);
      CutAt(ps[0], Join(ps[1..], c), c);
    }
  }

  lemma {:induction false} JoinIsWithout(ps: seq<string>, c: char, d: char)
    requires Without(ps, d) && c != d
    ensures d !in Join(ps, c)
  {
    if |ps| > 1 { JoinIsWithout(ps[1..], c, d); }
  }
}
