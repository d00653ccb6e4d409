/** The part of a run that one actor made: its steps, in order. */
module Selections {

  /** The chosen elements, in order. */
  function Select<T>(es: seq<T>, mine: T -> bool): seq<T> {
    if es == [] then []
    else
      var e := es[|es| - 1];
      Select(es[..|es| - 1], mine) + if mine(e) then [e] else []
  }

  lemma {:induction false} SelectConcat<T>(es: seq<T>, fs: seq<T>, mine: T -> bool)
    ensures Select(es + fs, mine) == Select(es, mine) + Select(fs, mine)
  {
    if fs == [] {
      assert es + fs == es;
    } else {
      var init := fs[..|fs| - 1];
      SelectConcat(es, init, mine);
      assert (es + fs)[..|es + fs| - 1] == es + init;
    }
  }

  lemma {:induction false} SelectNone<T>(es: seq<T>, mine: T -> bool)
    requires forall i | 0 <= i < |es| :: !mine(es[i])
    ensures Select(es, mine) == []
  {
    if es != [] {
      SelectNone(es[..|es| - 1], mine);
    }
  }

  lemma SelectOne<T>(e: T, mine: T -> bool)
    requires mine(e)
    ensures Select([e], mine) == [e]
  {
    assert [e][..0] == [];
  }

  lemma {:induction false} SelectHas<T>(es: seq<T>, mine: T -> bool, e: T)
    ensures e in Select(es, mine) <==> e in es && mine(e)
  {
    if es != [] {
      SelectHas(es[..|es| - 1], mine, e);
      assert es == es[..|es| - 1] + [es[|es| - 1]];
    }
  }

  /** `part` is in `whole`, in this order. */
  ghost predicate Within<T>(part: seq<T>, whole: seq<T>) {
    || part == []
    || (whole != []
        && var init := whole[..|whole| - 1];
           Within(part, init) || (part[|part| - 1] == whole[|whole| - 1] && Within(part[..|part| - 1], init)))
  }

  lemma {:induction false} WithinMore<T>(part: seq<T>, whole: seq<T>, others: seq<T>)
    requires Within(part, whole)
    ensures Within(part, whole + others)
  {
    if others == [] {
      assert whole + others == whole;
    } else {
      WithinMore(part, whole, others[..|others| - 1]);
      assert (whole + others)[..|whole + others| - 1] == whole + others[..|others| - 1];
    }
  }

  lemma {:induction false} WithinConcat<T>(a: seq<T>, b: seq<T>, c: seq<T>)
    requires Within(a, b)
    ensures Within(a + c, b + c)
  {
    if c == [] {
      assert a + c == a && b + c == b;
    } else {
      WithinConcat(a, b, c[..|c| - 1]);
      assert (a + c)[..|a + c| - 1] == a + c[..|c| - 1];
      assert (b + c)[..|b + c| - 1] == b + c[..|c| - 1];
    }
  }

  lemma {:induction false} WithinBoth<T>(a: seq<T>, b: seq<T>, c: seq<T>, d: seq<T>)
    requires Within(a, b) && Within(c, d)
    ensures Within(a + c, b + d)
  {
    if c == [] {
      WithinMore(a, b, d);
      assert a + c == a;
    } else {
      var init := d[..|d| - 1];
      assert (b + d)[..|b + d| - 1] == b + init;
      if Within(c, init) {
        WithinBoth(a, b, c, init);
      } else {
        WithinBoth(a, b, c[..|c| - 1], init);
        assert (a + c)[..|a + c| - 1] == a + c[..|c| - 1];
      }
    }
  }
}
