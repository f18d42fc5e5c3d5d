/**
 * The text encoding of the progress sets: `string.Join(",", items)` on save
 * and `string.Split(',')` on load. Splitting keeps empty fields, so the
 * empty string splits into one empty field.
 */
module ListCodec {

  const Sep: char := ','

  /** `string.Join(",", xs)`: the items with one separator between neighbours. */
  function Join(xs: seq<string>): string
  {
    if |xs| == 0 then "" else if |xs| == 1 then xs[0] else xs[0] + [Sep] + Join(xs[1..])
  }

  /** `s.Split(',')`: the fields between separators, empty ones included. */
  function Split(s: string): (r: seq<string>)
    ensures |r| >= 1
    ensures forall i :: 0 <= i < |r| ==> Sep !in r[i]
  {
    if |s| == 0 then [""]
    else
      var rest := Split(s[1..]);
      if s[0] == Sep then [""] + rest else [[s[0]] + rest[0]] + rest[1..]
  }

  /** The items, as a set. */
  function Elements(xs: seq<string>): (r: set<string>)
    ensures forall i :: 0 <= i < |xs| ==> xs[i] in r
    ensures forall x :: x in r ==> exists i :: 0 <= i < |xs| && xs[i] == x
  {
    set i | 0 <= i < |xs| :: xs[i]
  }

  lemma ElementsSnoc(xs: seq<string>, x: string)
    ensures Elements(xs + [x]) == Elements(xs) + {x}
  {
    var ys := xs + [x];
    assert forall i :: 0 <= i < |xs| ==> ys[i] == xs[i];
    assert ys[|xs|] == x;
  }

  /** `xs` lists every element of `items` once: a set's enumeration order. */
  ghost predicate Enumerates(xs: seq<string>, items: set<string>)
  {
    && Elements(xs) == items
    && (forall i, j :: 0 <= i < j < |xs| ==> xs[i] != xs[j])
  }

  predicate NoSep(items: set<string>)
  {
    forall x :: x in items ==> Sep !in x
  }

  /** A text without a separator is one field. */
  lemma {:induction false} SplitPlain(w: string)
    requires Sep !in w
    ensures Split(w) == [w]
  {
    if |w| > 0 {
      assert w[0] in w;
      SplitPlain(w[1..]);
      assert [w[0]] + w[1..] == w;
    }
  }

  /** A first field without a separator comes off whole. */
  lemma {:induction false} SplitField(w: string, s: string)
    requires Sep !in w
    ensures Split(w + [Sep] + s) == [w] + Split(s)
  {
    var t := w + [Sep] + s;
    if |w| == 0 {
      assert t[1..] == s;
    } else {
      assert t[1..] == w[1..] + [Sep] + s;
      SplitField(w[1..], s);
      assert [w[0]] + w[1..] == w;
    }
  }

  /** Splitting what was joined gives the items back, when none holds the separator. */
  lemma {:induction false} SplitJoin(xs: seq<string>)
    requires |xs| >= 1
    requires forall i :: 0 <= i < |xs| ==> Sep !in xs[i]
    ensures Split(Join(xs)) == xs
  {
    if |xs| == 1 {
      SplitPlain(xs[0]);
    } else {
      SplitJoin(xs[1..]);
      SplitField(xs[0], Join(xs[1..]));
      assert [xs[0]] + xs[1..] == xs;
    }
  }

  /** Joining what was split gives the text back. */
  lemma {:induction false} JoinSplit(s: string)
    ensures Join(Split(s)) == s
  {
    if |s| > 0 {
      JoinSplit(s[1..]);
      var rest := Split(s[1..]);
      if s[0] == Sep {
        assert ([""] + rest)[1..] == rest;
        assert s == [Sep] + s[1..];
      } else {
        var r := [[s[0]] + rest[0]] + rest[1..];
        assert r[1..] == rest[1..];
        if |rest| == 1 {
          assert s == [s[0]] + s[1..];
        } else {
          assert Join(rest) == rest[0] + [Sep] + Join(rest[1..]);
          assert s == [s[0]] + s[1..];
        }
      }
    }
  }

  /** The join is empty exactly for no items or one empty item. */
  lemma JoinEmpty(xs: seq<string>)
    ensures Join(xs) == "" <==> |xs| == 0 || (|xs| == 1 && xs[0] == "")
  {
    if |xs| >= 2 {
      assert Join(xs)[|xs[0]|] == Sep;
    }
  }
}
