/**
 * A reference statement of how a cache freshens a stored response from a `304 Not Modified`
 * (section 4.3.4 of RFC 7234): every header the 304 carries replaces the stored headers of the
 * same name, and every other stored header is kept. The update304 suite asserts expectations
 * about this merge; this module is what those expectations are checked against.
 */
module Freshening {
  import opened Headers

  /** `hs` with every pair whose name is in `names` dropped, the rest in order. */
  function Without(hs: seq<Header>, names: set<string>): seq<Header>
    decreases |hs|
  {
    if |hs| == 0 then []
    else (if hs[0].name in names then [] else [hs[0]]) + Without(hs[1..], names)
  }

  lemma {:induction false} ValuesOfWithout(hs: seq<Header>, names: set<string>, name: string)
    ensures ValuesOf(Without(hs, names), name) == if name in names then [] else ValuesOf(hs, name)
    decreases |hs|
  {
    if |hs| > 0 {
      var head := if hs[0].name in names then [] else [hs[0]];
      ValuesOfAppend(head, Without(hs[1..], names), name);
      ValuesOfWithout(hs[1..], names, name);
    }
  }

  lemma {:induction false} WithoutAppend(a: seq<Header>, b: seq<Header>, names: set<string>)
    ensures Without(a + b, names) == Without(a, names) + Without(b, names)
    decreases |a|
  {
    if |a| == 0 {
      assert a + b == b;
    } else {
      assert (a + b)[1..] == a[1..] + b;
      WithoutAppend(a[1..], b, names);
    }
  }

  lemma {:induction false} WithoutTwice(hs: seq<Header>, names: set<string>)
    ensures Without(Without(hs, names), names) == Without(hs, names)
    decreases |hs|
  {
    if |hs| > 0 {
      var head := if hs[0].name in names then [] else [hs[0]];
      WithoutAppend(head, Without(hs[1..], names), names);
      WithoutTwice(hs[1..], names);
    }
  }

  lemma {:induction false} WithoutOwnNames(hs: seq<Header>, names: set<string>)
    requires Names(hs) <= names
    ensures Without(hs, names) == []
    decreases |hs|
  {
    if |hs| > 0 {
      assert hs[0] in hs;
      assert Names(hs[1..]) <= Names(hs) by {
        forall n | n in Names(hs[1..]) ensures n in Names(hs) {
          var h :| h in hs[1..] && h.name == n;
          assert h in hs;
        }
      }
      WithoutOwnNames(hs[1..], names);
    }
  }

  /** The stored headers `stored` after freshening them with the headers `update` of a 304. */
  function Freshen(stored: seq<Header>, update: seq<Header>): (r: seq<Header>)
    ensures forall name ::
              ValuesOf(r, name) == (if name in Names(update) then ValuesOf(update, name) else ValuesOf(stored, name))
  {
    var r := Without(stored, Names(update)) + update;
    assert forall name ::
             ValuesOf(r, name) == (if name in Names(update) then ValuesOf(update, name) else ValuesOf(stored, name)) by {
      forall name
        ensures ValuesOf(r, name) ==
          if name in Names(update) then ValuesOf(update, name) else ValuesOf(stored, name)
      {
        ValuesOfAppend(Without(stored, Names(update)), update, name);
        ValuesOfWithout(stored, Names(update), name);
        if name !in Names(update) {
          ValuesOfAbsent(update, name);
        }
      }
    }
    r
  }

  /** A header the 304 does not send keeps its stored values. */
  lemma FreshenKeeps(stored: seq<Header>, update: seq<Header>, name: string)
    requires name !in Names(update)
    ensures ValuesOf(Freshen(stored, update), name) == ValuesOf(stored, name)
  {
  }

  /** Receiving the same 304 twice leaves the stored headers as receiving it once did. */
  lemma FreshenIdempotent(stored: seq<Header>, update: seq<Header>)
    ensures Freshen(Freshen(stored, update), update) == Freshen(stored, update)
  {
    var names := Names(update);
    WithoutAppend(Without(stored, names), update, names);
    WithoutTwice(stored, names);
    WithoutOwnNames(update, names);
    assert Without(stored, names) + [] == Without(stored, names);
  }

}
