/**
 * The string primitives `run.js` relies on: `startsWith('"')`, `endsWith('"')`,
 * `split(' ')` and `join(' ')`, over strings as sequences of characters.
 */
module Text {

  const Quote: char := '"'
  const Space: char := ' '

  /** `s.startsWith('"')` */
  predicate StartsWithQuote(s: string) {
    |s| > 0 && s[0] == Quote
  }

  /** `s.endsWith('"')` */
  predicate EndsWithQuote(s: string) {
    |s| > 0 && s[|s| - 1] == Quote
  }

  /** `parts.join(' ')`: the parts with one space between neighbours. */
  function JoinSpace(parts: seq<string>): string
  {
    if |parts| == 0 then ""
    else if |parts| == 1 then parts[0]
    else parts[0] + " " + JoinSpace(parts[1..])
  }

  /**
   * `s.split(' ')`: the maximal space-free runs of `s`. Every space is a separator,
   * so two spaces in a row give an empty piece, and the empty string gives `[""]`.
   */
  function SplitSpace(s: string): (r: seq<string>)
    ensures |r| >= 1
    ensures forall i :: 0 <= i < |r| ==> Space !in r[i]
  {
    if s == [] then [""]
    else
      var rest := SplitSpace(s[1..]);
      if s[0] == Space then [""] + rest
      else [[s[0]] + rest[0]] + rest[1..]
  }

  /** The pieces of a split put back together give the original string. */
  lemma {:induction false} JoinSplit(s: string)
    ensures JoinSpace(SplitSpace(s)) == s
  {
    if s != [] {
      var rest := SplitSpace(s[1..]);
      JoinSplit(s[1..]);
      if s[0] == Space {
        assert SplitSpace(s) == [""] + rest;
        assert SplitSpace(s)[1..] == rest;
      } else {
        var r := SplitSpace(s);
        assert r == [[s[0]] + rest[0]] + rest[1..];
        assert r[1..] == rest[1..];
        if |rest| == 1 {
          assert s == [s[0]] + s[1..];
        } else {
          assert JoinSpace(rest) == rest[0] + " " + JoinSpace(rest[1..]);
          assert s == [s[0]] + s[1..];
        }
      }
    }
  }

  /** Splitting a space-free prefix followed by a space peels off that prefix as one piece. */
  lemma {:induction false} SplitAfterWord(w: string, t: string)
    requires Space !in w
    ensures SplitSpace(w + " " + t) == [w] + SplitSpace(t)
  {
    if w == [] {
      assert w + " " + t == [Space] + t;
      assert (w + " " + t)[1..] == t;
    } else {
      var s := w + " " + t;
      assert s[1..] == w[1..] + " " + t;
      SplitAfterWord(w[1..], t);
      assert [w[0]] + w[1..] == w;
    }
  }

  /** A split of a space-free string is that string alone. */
  lemma {:induction false} SplitWord(w: string)
    requires Space !in w
    ensures SplitSpace(w) == [w]
  {
    if w != [] {
      SplitWord(w[1..]);
      assert [w[0]] + w[1..] == w;
    }
  }

  /** Joining space-free parts and splitting again gives the parts back. */
  lemma {:induction false} SplitJoin(parts: seq<string>)
    requires |parts| >= 1
    requires forall i :: 0 <= i < |parts| ==> Space !in parts[i]
    ensures SplitSpace(JoinSpace(parts)) == parts
  {
    if |parts| == 1 {
      SplitWord(parts[0]);
    } else {
      SplitJoin(parts[1..]);
      SplitAfterWord(parts[0], JoinSpace(parts[1..]));
      assert [parts[0]] + parts[1..] == parts;
    }
  }

  /** Joining a concatenation puts one space at the seam. */
  lemma {:induction false} JoinSpaceAppend(p: seq<string>, q: seq<string>)
    requires |p| >= 1 && |q| >= 1
    ensures JoinSpace(p + q) == JoinSpace(p) + " " + JoinSpace(q)
  {
    if |p| == 1 {
      assert (p + q)[1..] == q;
    } else {
      JoinSpaceAppend(p[1..], q);
      assert (p + q)[1..] == p[1..] + q;
    }
  }

  /** Splitting around a space splits each side on its own. */
  lemma SplitAround(a: string, b: string)
    ensures SplitSpace(a + " " + b) == SplitSpace(a) + SplitSpace(b)
  {
    JoinSplit(a);
    JoinSplit(b);
    JoinSpaceAppend(SplitSpace(a), SplitSpace(b));
    var parts := SplitSpace(a) + SplitSpace(b);
    assert forall i :: 0 <= i < |parts| ==> Space !in parts[i] by {
      forall i | 0 <= i < |parts| ensures Space !in parts[i] {
        if i < |SplitSpace(a)| { assert parts[i] == SplitSpace(a)[i]; }
        else { assert parts[i] == SplitSpace(b)[i - |SplitSpace(a)|]; }
      }
    }
    SplitJoin(parts);
  }

  /** Space-free words around a space-free word are space-free as one sequence. */
  lemma SpaceFreeAround(mids: seq<string>, w: string, tail: seq<string>)
    requires forall i :: 0 <= i < |mids| ==> Space !in mids[i]
    requires Space !in w
    requires forall i :: 0 <= i < |tail| ==> Space !in tail[i]
    ensures forall i :: 0 <= i < |mids + [w] + tail| ==> Space !in (mids + [w] + tail)[i]
  {
    var parts := mids + [w] + tail;
    forall i | 0 <= i < |parts| ensures Space !in parts[i] {
      if i < |mids| { assert parts[i] == mids[i]; }
      else if i == |mids| { assert parts[i] == w; }
      else { assert parts[i] == tail[i - |mids| - 1]; }
    }
  }
}
