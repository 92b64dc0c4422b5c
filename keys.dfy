/** Joining key segments with a delimiter (PHP's `join`) and splitting a
    key back into its segments.

    `Join` is the builtin the reader uses to render every storage key.
    `Split` is its inverse on keys whose segments avoid the delimiter:
    together they show that such keys are unambiguous.
 */
module Keys {

  /** PHP's `join(sep, parts)`: the parts in order, `sep` between neighbours. */
  function Join(sep: string, parts: seq<string>): string
  {
    if |parts| == 0 then ""
    else if |parts| == 1 then parts[0]
    else parts[0] + sep + Join(sep, parts[1..])
  }

  /** Cuts `s` at every occurrence of `d`; the pieces never contain `d`. */
  function Split(d: char, s: string): (pieces: seq<string>)
    ensures |pieces| >= 1
    ensures forall i :: 0 <= i < |pieces| ==> d !in pieces[i]
  {
    if |s| == 0 then [""]
    else
      var rest := Split(d, s[1..]);
      if s[0] == d then [""] + rest
      else [[s[0]] + rest[0]] + rest[1..]
  }

  predicate Avoids(d: char, parts: seq<string>)
  {
    forall i :: 0 <= i < |parts| ==> d !in parts[i]
  }

  /** Joining a head in front of a non-empty tail puts one separator between. */
  lemma JoinCons(sep: string, x: string, ys: seq<string>)
    requires |ys| >= 1
    ensures Join(sep, [x] + ys) == x + sep + Join(sep, ys)
  {
    assert ([x] + ys)[1..] == ys;
  }

  /** Joining two non-empty lists is joining each and putting one separator between. */
  lemma {:induction false} JoinAppend(sep: string, xs: seq<string>, ys: seq<string>)
    requires |xs| >= 1 && |ys| >= 1
    ensures Join(sep, xs + ys) == Join(sep, xs) + sep + Join(sep, ys)
  {
    if |xs| == 1 {
      JoinCons(sep, xs[0], ys);
      assert xs + ys == [xs[0]] + ys;
    } else {
      JoinAppend(sep, xs[1..], ys);
      assert xs + ys == [xs[0]] + (xs[1..] + ys);
      JoinCons(sep, xs[0], xs[1..] + ys);
      JoinCons(sep, xs[0], xs[1..]);
      assert xs == [xs[0]] + xs[1..];
    }
  }

  /** Three parts joined: each neighbour pair separated once. */
  lemma JoinOfThree(sep: string, a: string, b: string, c: string)
    ensures Join(sep, [a, b, c]) == a + sep + b + sep + c
  {
    JoinCons(sep, a, [b, c]);
    JoinCons(sep, b, [c]);
    assert [a] + [b, c] == [a, b, c];
    assert [b] + [c] == [b, c];
  }

  /** The first part is a prefix of the joined string. */
  lemma JoinStartsWithHead(sep: string, parts: seq<string>)
    requires |parts| >= 1
    ensures parts[0] <= Join(sep, parts)
  {
  }

  /** A string without the delimiter is a single piece. */
  lemma {:induction false} SplitWithoutDelimiter(d: char, a: string)
    requires d !in a
    ensures Split(d, a) == [a]
  {
    if |a| > 0 {
      SplitWithoutDelimiter(d, a[1..]);
      assert [a[0]] + a[1..] == a;
    }
  }

  /** A delimiter-free head followed by the delimiter splits off as the first piece. */
  lemma {:induction false} SplitAfterHead(d: char, a: string, t: string)
    requires d !in a
    ensures Split(d, a + [d] + t) == [a] + Split(d, t)
  {
    var s := a + [d] + t;
    if |a| == 0 {
      assert s[0] == d && s[1..] == t;
    } else {
      assert s[0] == a[0];
      assert s[1..] == a[1..] + [d] + t;
      SplitAfterHead(d, a[1..], t);
      assert [a[0]] + a[1..] == a;
    }
  }

  /** Splitting a join gives back the parts, when no part holds the delimiter. */
  lemma {:induction false} SplitJoin(d: char, parts: seq<string>)
    requires |parts| >= 1 && Avoids(d, parts)
    ensures Split(d, Join([d], parts)) == parts
  {
    if |parts| == 1 {
      SplitWithoutDelimiter(d, parts[0]);
    } else {
      SplitJoin(d, parts[1..]);
      SplitAfterHead(d, parts[0], Join([d], parts[1..]));
      assert [parts[0]] + parts[1..] == parts;
    }
  }

  /** Joining the pieces of a split gives back the string: every string is a key of some parts. */
  lemma {:induction false} JoinSplit(d: char, s: string)
    ensures Join([d], Split(d, s)) == s
  {
    if |s| > 0 {
      JoinSplit(d, s[1..]);
      if s[0] == d {
        JoinSplitDelimiter(d, s);
      } else {
        JoinSplitOther(d, s);
      }
    }
  }

  lemma JoinSplitDelimiter(d: char, s: string)
    requires |s| > 0 && s[0] == d
    requires Join([d], Split(d, s[1..])) == s[1..]
    ensures Join([d], Split(d, s)) == s
  {
    var rest := Split(d, s[1..]);
    assert Split(d, s) == [""] + rest;
    JoinCons([d], "", rest);
    assert [d] + s[1..] == s;
  }

  lemma JoinSplitOther(d: char, s: string)
    requires |s| > 0 && s[0] != d
    requires Join([d], Split(d, s[1..])) == s[1..]
    ensures Join([d], Split(d, s)) == s
  {
    var rest := Split(d, s[1..]);
    assert Split(d, s) == [[s[0]] + rest[0]] + rest[1..];
    JoinExtendHead([d], s[0], rest);
    assert [s[0]] + s[1..] == s;
  }

  /** Putting one more character in front of the first part puts it in front of the join. */
  lemma JoinExtendHead(sep: string, c: char, parts: seq<string>)
    requires |parts| >= 1
    ensures Join(sep, [[c] + parts[0]] + parts[1..]) == [c] + Join(sep, parts)
  {
    var head := [c] + parts[0];
    if |parts| > 1 {
      var tail := Join(sep, parts[1..]);
      JoinCons(sep, head, parts[1..]);
      JoinCons(sep, parts[0], parts[1..]);
      assert [parts[0]] + parts[1..] == parts;
      assert head + sep + tail == [c] + (parts[0] + sep + tail);
    }
  }

  /** Two lists of delimiter-free parts with the same join are the same list. */
  lemma JoinInjective(d: char, p: seq<string>, q: seq<string>)
    requires |p| >= 1 && Avoids(d, p)
    requires |q| >= 1 && Avoids(d, q)
    requires Join([d], p) == Join([d], q)
    ensures p == q
  {
    SplitJoin(d, p);
    SplitJoin(d, q);
  }

  /** Appending a possibly empty list adds its join after one more separator, or nothing. */
  lemma JoinMaybeTail(sep: string, xs: seq<string>, opt: seq<string>)
    requires |xs| >= 1
    ensures Join(sep, xs + opt) == Join(sep, xs) + (if opt == [] then "" else sep + Join(sep, opt))
  {
    if opt == [] {
      assert xs + opt == xs;
    } else {
      JoinAppend(sep, xs, opt);
    }
  }

  /** A possibly empty list between two non-empty ones adds its join and one separator, or nothing. */
  lemma JoinMaybeMiddle(sep: string, xs: seq<string>, opt: seq<string>, ys: seq<string>)
    requires |xs| >= 1 && |ys| >= 1
    ensures Join(sep, xs + opt + ys) == Join(sep, xs) + (if opt == [] then "" else sep + Join(sep, opt)) + sep + Join(sep, ys)
  {
    JoinAppend(sep, xs + opt, ys);
    JoinMaybeTail(sep, xs, opt);
  }
}
