/**
 * `joinQuotes` from `run.js`: a single pass over the space-split arguments that glues
 * the tokens of a quoted argument back together, keeping the quote characters.
 */
module Tokenizer {
  import opened Wrappers
  import opened Text

  /**
   * The failure `joinQuotes` raises: a token ending with a quote while no group is open
   * reaches `compressedArgs.join(' ')` with `compressedArgs === false`, which throws.
   */
  datatype JoinError = CloseWithoutOpen(token: string)

  /**
   * The loop state of `joinQuotes`: the tokens pushed so far and the open group
   * (`compressedArgs`), `None` standing for `false`.
   */
  datatype Scan = Scan(result: seq<string>, group: Option<seq<string>>)

  const Start: Scan := Scan([], None)

  /** One iteration of the `forEach` body. */
  function Step(st: Scan, arg: string): Result<Scan, JoinError>
  {
    var st' :=
      if StartsWithQuote(arg) then st.(group := Some([arg]))
      else if st.group.Some? then st.(group := Some(st.group.value + [arg]))
      else st.(result := st.result + [arg]);
    if !EndsWithQuote(arg) then Success(st')
    else if st'.group.None? then Failure(CloseWithoutOpen(arg))
    else Success(Scan(st'.result + [JoinSpace(st'.group.value)], None))
  }

  /** The iterations over `args` from state `st`, stopping at the first throw. */
  function Fold(st: Scan, args: seq<string>): Result<Scan, JoinError>
    decreases |args|
  {
    if args == [] then Success(st)
    else
      match Step(st, args[0])
      case Failure(e) => Failure(e)
      case Success(st') => Fold(st', args[1..])
  }

  /** What `joinQuotes(args)` returns or throws; a group still open at the end is dropped. */
  function Joined(args: seq<string>): Result<seq<string>, JoinError>
  {
    match Fold(Start, args)
    case Success(st) => Success(st.result)
    case Failure(e) => Failure(e)
  }

  /** `joinQuotes`, with its `result` array and `compressedArgs` buffer as local variables. */
  method JoinQuotes(args: seq<string>) returns (r: Result<seq<string>, JoinError>)
    ensures r == Joined(args)
  {
    var result: seq<string> := [];
    var compressedArgs: Option<seq<string>> := None;
    var i := 0;
    while i < |args|
      invariant 0 <= i <= |args|
      invariant Fold(Start, args) == Fold(Scan(result, compressedArgs), args[i..])
    {
      var arg := args[i];
      assert args[i..][1..] == args[i + 1..];
      if StartsWithQuote(arg) {
        compressedArgs := Some([arg]);
      } else if compressedArgs.Some? {
        compressedArgs := Some(compressedArgs.value + [arg]);
      } else {
        result := result + [arg];
      }
      if EndsWithQuote(arg) {
        if compressedArgs.None? {
          return Failure(CloseWithoutOpen(arg));
        }
        result := result + [JoinSpace(compressedArgs.value)];
        compressedArgs := None;
      }
      i := i + 1;
    }
    assert args[i..] == [];
    r := Success(result);
  }

  /** A token with no quote at either end. */
  predicate Plain(t: string) {
    !StartsWithQuote(t) && !EndsWithQuote(t)
  }

  /**
   * The tokens of one quoted argument: the first opens a quote, the last closes one,
   * and none in between opens or closes (a single token may both open and close).
   */
  predicate QuotedRun(g: seq<string>) {
    && |g| >= 1
    && StartsWithQuote(g[0])
    && EndsWithQuote(g[|g| - 1])
    && (forall i :: 1 <= i < |g| ==> !StartsWithQuote(g[i]))
    && (forall i :: 0 <= i < |g| - 1 ==> !EndsWithQuote(g[i]))
  }

  /** The tokens of a quoted argument that is never closed. */
  predicate UnclosedRun(g: seq<string>) {
    && |g| >= 1
    && StartsWithQuote(g[0])
    && (forall i :: 1 <= i < |g| ==> !StartsWithQuote(g[i]))
    && (forall i :: 0 <= i < |g| ==> !EndsWithQuote(g[i]))
  }

  /** Folding over a concatenation folds over each part in turn. */
  lemma {:induction false} FoldAppend(st: Scan, a: seq<string>, b: seq<string>)
    decreases |a|
    ensures Fold(st, a + b) ==
      match Fold(st, a)
      case Success(st') => Fold(st', b)
      case Failure(e) => Failure(e)
  {
    if a != [] {
      assert (a + b)[0] == a[0];
      assert (a + b)[1..] == a[1..] + b;
      match Step(st, a[0])
      case Failure(e) =>
        assert Fold(st, a + b) == Failure(e);
      case Success(st') =>
        FoldAppend(st', a[1..], b);
        assert Fold(st, a + b) == Fold(st', a[1..] + b);
    } else {
      assert a + b == b;
    }
  }

  /** With no group open, plain tokens are pushed through one by one, in order. */
  lemma {:induction false} PlainTokensPass(st: Scan, ts: seq<string>)
    requires st.group.None?
    requires forall i :: 0 <= i < |ts| ==> Plain(ts[i])
    ensures Fold(st, ts) == Success(Scan(st.result + ts, None))
    decreases |ts|
  {
    if ts != [] {
      assert Plain(ts[0]);
      assert Step(st, ts[0]) == Success(Scan(st.result + [ts[0]], None));
      PlainTokensPass(Scan(st.result + [ts[0]], None), ts[1..]);
      assert st.result + [ts[0]] + ts[1..] == st.result + ts;
    } else {
      assert st.result + ts == st.result;
    }
  }

  /** With a group open, plain tokens are appended to the group and nothing is emitted. */
  lemma {:induction false} GroupAbsorbs(st: Scan, ts: seq<string>)
    requires st.group.Some?
    requires forall i :: 0 <= i < |ts| ==> Plain(ts[i])
    ensures Fold(st, ts) == Success(Scan(st.result, Some(st.group.value + ts)))
    decreases |ts|
  {
    if ts != [] {
      assert Plain(ts[0]);
      assert Step(st, ts[0]) == Success(Scan(st.result, Some(st.group.value + [ts[0]])));
      GroupAbsorbs(Scan(st.result, Some(st.group.value + [ts[0]])), ts[1..]);
      assert st.group.value + [ts[0]] + ts[1..] == st.group.value + ts;
    } else {
      assert st.group.value + ts == st.group.value;
    }
  }

  /**
   * A quoted run emits exactly one token, its tokens joined by single spaces with the
   * quotes kept, from any state: a group that was open before it is discarded.
   */
  lemma QuotedRunJoined(st: Scan, g: seq<string>)
    requires QuotedRun(g)
    ensures Fold(st, g) == Success(Scan(st.result + [JoinSpace(g)], None))
  {
    if |g| == 1 {
      assert g[1..] == [];
    } else {
      var open0 := Scan(st.result, Some([g[0]]));
      assert Step(st, g[0]) == Success(open0);
      var mid := g[1..|g| - 1];
      var last := g[|g| - 1];
      assert g == [g[0]] + mid + [last];
      assert g[1..] == mid + [last];
      assert forall i :: 0 <= i < |mid| ==> Plain(mid[i]) by {
        forall i | 0 <= i < |mid| ensures Plain(mid[i]) { assert mid[i] == g[i + 1]; }
      }
      GroupAbsorbs(open0, mid);
      FoldAppend(open0, mid, [last]);
      assert [g[0]] + mid + [last] == g;
      assert Fold(Scan(st.result, Some([g[0]] + mid)), [last])
        == Success(Scan(st.result + [JoinSpace(g)], None));
    }
  }

  /** An unclosed run leaves `result` alone and its tokens in the open group. */
  lemma UnclosedRunKept(st: Scan, g: seq<string>)
    requires UnclosedRun(g)
    ensures Fold(st, g) == Success(Scan(st.result, Some(g)))
  {
    var open0 := Scan(st.result, Some([g[0]]));
    assert Step(st, g[0]) == Success(open0);
    assert forall i :: 0 <= i < |g[1..]| ==> Plain(g[1..][i]) by {
      forall i | 0 <= i < |g[1..]| ensures Plain(g[1..][i]) { assert g[1..][i] == g[i + 1]; }
    }
    GroupAbsorbs(open0, g[1..]);
    assert [g[0]] + g[1..] == g;
  }

  /** Tokens already in `result` are carried along untouched by the rest of the pass. */
  lemma {:induction false} FoldKeepsPrefix(p: seq<string>, st: Scan, args: seq<string>)
    ensures Fold(Scan(p + st.result, st.group), args) ==
      match Fold(st, args)
      case Success(st') => Success(Scan(p + st'.result, st'.group))
      case Failure(e) => Failure(e)
    decreases |args|
  {
    if args != [] {
      var arg := args[0];
      match Step(st, arg)
      case Failure(e) =>
        assert Step(Scan(p + st.result, st.group), arg) == Failure(e);
      case Success(st') =>
        assert (p + st.result) + [arg] == p + (st.result + [arg]);
        assert (p + st.result) + [JoinSpace([arg])] == p + (st.result + [JoinSpace([arg])]);
        if st.group.Some? {
          assert (p + st.result) + [JoinSpace(st.group.value + [arg])]
            == p + (st.result + [JoinSpace(st.group.value + [arg])]);
        }
        assert Step(Scan(p + st.result, st.group), arg) == Success(Scan(p + st'.result, st'.group));
        FoldKeepsPrefix(p, st', args[1..]);
    }
  }

  /** A plain first token is passed through ahead of whatever the rest joins to. */
  lemma PlainTokenFirst(t: string, args: seq<string>)
    requires Plain(t)
    ensures Joined([t] + args) ==
      match Joined(args)
      case Success(a) => Success([t] + a)
      case Failure(e) => Failure(e)
  {
    assert ([t] + args)[1..] == args;
    assert Start.result + [t] == [t] + Start.result;
    assert Step(Start, t) == Success(Scan([t] + Start.result, None));
    FoldKeepsPrefix([t], Start, args);
  }

  /** If no token opens or closes a quote, `joinQuotes` returns its input unchanged. */
  lemma PlainArgsUnchanged(args: seq<string>)
    requires forall i :: 0 <= i < |args| ==> Plain(args[i])
    ensures Joined(args) == Success(args)
  {
    PlainTokensPass(Start, args);
    assert Start.result + args == args;
  }

  /**
   * A description of a token list as the pieces `joinQuotes` recognises: a plain token,
   * a quoted run, or a run whose quote is never closed.
   */
  datatype Segment = Bare(token: string) | Quoted(tokens: seq<string>) | Unclosed(tokens: seq<string>)

  predicate SegmentOk(s: Segment) {
    match s
    case Bare(t) => Plain(t)
    case Quoted(g) => QuotedRun(g)
    case Unclosed(g) => UnclosedRun(g)
  }

  /**
   * Every segment is well formed, and an unclosed run is followed by nothing or by
   * another quote-opening segment (a plain token after it would join its group).
   */
  predicate WellFormed(segs: seq<Segment>)
    decreases |segs|
  {
    segs == [] ||
      (&& SegmentOk(segs[0])
       && (|segs| == 1 || CanFollow(segs[0], segs[1]))
       && WellFormed(segs[1..]))
  }

  /** A plain token cannot follow an unclosed run: it would join that run's group. */
  predicate CanFollow(prev: Segment, next: Segment) {
    prev.Unclosed? ==> !next.Bare?
  }

  function SegmentTokens(s: Segment): seq<string>
  {
    match s
    case Bare(t) => [t]
    case Quoted(g) => g
    case Unclosed(g) => g
  }

  /** The argument a segment stands for: the token, the joined run, or nothing. */
  function SegmentArguments(s: Segment): seq<string>
  {
    match s
    case Bare(t) => [t]
    case Quoted(g) => [JoinSpace(g)]
    case Unclosed(_) => []
  }

  /** The tokens the segments are made of, in order. */
  function Tokens(segs: seq<Segment>): seq<string>
  {
    if segs == [] then [] else SegmentTokens(segs[0]) + Tokens(segs[1..])
  }

  /** The arguments the segments stand for, in order. */
  function Arguments(segs: seq<Segment>): seq<string>
  {
    if segs == [] then [] else SegmentArguments(segs[0]) + Arguments(segs[1..])
  }

  /** The effect of a single well-formed segment on the loop state. */
  lemma SegmentFold(st: Scan, s: Segment)
    requires SegmentOk(s)
    requires st.group.None? || !s.Bare?
    ensures Fold(st, SegmentTokens(s)) == Success(Scan(
      st.result + SegmentArguments(s),
      if s.Unclosed? then Some(s.tokens) else None))
  {
    match s {
      case Bare(t) =>
        PlainTokensPass(st, [t]);
      case Quoted(g) =>
        QuotedRunJoined(st, g);
      case Unclosed(g) =>
        UnclosedRunKept(st, g);
        assert st.result + [] == st.result;
    }
  }

  /**
   * Dropping the first segment keeps the arrangement well formed, and the rest can
   * follow the state the first segment leaves.
   */
  lemma WellFormedRest(st: Scan, segs: seq<Segment>)
    requires WellFormed(segs) && segs != []
    ensures SegmentOk(segs[0])
    ensures WellFormed(segs[1..])
    ensures segs[1..] == [] || AfterSegment(st, segs[0]).group.None? || !segs[1..][0].Bare?
  {
    assert |segs| > 1 ==> CanFollow(segs[0], segs[1]);
  }

  /** The state after the first segment of `segs`. */
  function AfterSegment(st: Scan, s: Segment): Scan
  {
    Scan(st.result + SegmentArguments(s), if s.Unclosed? then Some(s.tokens) else None)
  }

  /** Folding over segments starts with folding over the first one. */
  lemma SegmentsStep(st: Scan, segs: seq<Segment>)
    requires segs != [] && SegmentOk(segs[0])
    requires st.group.None? || !segs[0].Bare?
    ensures Fold(st, Tokens(segs)) == Fold(AfterSegment(st, segs[0]), Tokens(segs[1..]))
    ensures Arguments(segs) == SegmentArguments(segs[0]) + Arguments(segs[1..])
  {
    assert Tokens(segs) == SegmentTokens(segs[0]) + Tokens(segs[1..]);
    SegmentFold(st, segs[0]);
    FoldAppend(st, SegmentTokens(segs[0]), Tokens(segs[1..]));
  }

  /** The open group after the segments, starting from `group`. */
  function GroupAfter(group: Option<seq<string>>, segs: seq<Segment>): Option<seq<string>>
    decreases |segs|
  {
    if segs == [] then group
    else GroupAfter(if segs[0].Unclosed? then Some(segs[0].tokens) else None, segs[1..])
  }

  /** Only a final unclosed run leaves a group open. */
  lemma {:induction false} GroupAfterClosed(group: Option<seq<string>>, segs: seq<Segment>)
    requires segs != [] && !segs[|segs| - 1].Unclosed?
    ensures GroupAfter(group, segs) == None
    decreases |segs|
  {
    if |segs| > 1 {
      assert segs[1..][|segs| - 2] == segs[|segs| - 1];
      GroupAfterClosed(if segs[0].Unclosed? then Some(segs[0].tokens) else None, segs[1..]);
    }
  }

  /** Output appended in two steps is the output appended at once. */
  lemma AppendInTwoSteps(result: seq<string>, first: seq<string>, rest: seq<string>, whole: seq<string>)
    requires whole == first + rest
    ensures (result + first) + rest == result + whole
  {
  }

  /** The group left by the rest, started after the first segment, is the group left by the whole. */
  lemma GroupThenRest(st: Scan, segs: seq<Segment>)
    requires segs != []
    ensures GroupAfter(AfterSegment(st, segs[0]).group, segs[1..]) == GroupAfter(st.group, segs)
  {
  }

  /** The generalisation of `SegmentsJoined` to any starting state the segments can follow. */
  lemma {:induction false} SegmentsFold(st: Scan, segs: seq<Segment>)
    requires WellFormed(segs)
    requires segs == [] || st.group.None? || !segs[0].Bare?
    ensures Fold(st, Tokens(segs)) == Success(Scan(st.result + Arguments(segs), GroupAfter(st.group, segs)))
    decreases |segs|
  {
    if segs == [] {
      assert st.result + Arguments(segs) == st.result;
    } else {
      var mid := AfterSegment(st, segs[0]);
      WellFormedRest(st, segs);
      SegmentsStep(st, segs);
      SegmentsFold(mid, segs[1..]);
      AppendInTwoSteps(st.result, SegmentArguments(segs[0]), Arguments(segs[1..]), Arguments(segs));
      GroupThenRest(st, segs);
    }
  }

  /**
   * On any well-formed arrangement of plain tokens, quoted runs and unclosed runs,
   * `joinQuotes` succeeds and returns one argument per plain token and per quoted run,
   * in order; the unclosed runs contribute nothing.
   */
  lemma SegmentsJoined(segs: seq<Segment>)
    requires WellFormed(segs)
    ensures Joined(Tokens(segs)) == Success(Arguments(segs))
  {
    SegmentsFold(Start, segs);
    assert Start.result + Arguments(segs) == Arguments(segs);
  }

  /**
   * After any well-formed prefix that does not end inside an unclosed run, a token that
   * ends with a quote without starting one makes `joinQuotes` throw, whatever follows.
   */
  lemma StrayCloseThrows(segs: seq<Segment>, t: string, rest: seq<string>)
    requires WellFormed(segs)
    requires segs == [] || !segs[|segs| - 1].Unclosed?
    requires EndsWithQuote(t) && !StartsWithQuote(t)
    ensures Joined(Tokens(segs) + [t] + rest) == Failure(CloseWithoutOpen(t))
  {
    SegmentsFold(Start, segs);
    if segs != [] {
      GroupAfterClosed(None, segs);
    }
    var st := Fold(Start, Tokens(segs)).value;
    FoldAppend(Start, Tokens(segs), [t] + rest);
    assert Tokens(segs) + [t] + rest == Tokens(segs) + ([t] + rest);
    assert Step(st, t) == Failure(CloseWithoutOpen(t));
  }

  /** Plain tokens followed by a stray closing token throw on that token, whatever follows. */
  lemma PlainThenStrayClose(mids: seq<string>, close: string, tail: seq<string>)
    requires forall i :: 0 <= i < |mids| ==> Plain(mids[i])
    requires EndsWithQuote(close) && !StartsWithQuote(close)
    ensures Joined(mids + [close] + tail) == Failure(CloseWithoutOpen(close))
  {
    assert mids + [close] + tail == mids + ([close] + tail);
    FoldAppend(Start, mids, [close] + tail);
    PlainTokensPass(Start, mids);
    assert Step(Scan(Start.result + mids, None), close) == Failure(CloseWithoutOpen(close));
  }

  /** A throw always names a token of the input that closes a quote without opening one. */
  lemma {:induction false} FailureNamesStrayClose(st: Scan, args: seq<string>)
    requires Fold(st, args).Failure?
    ensures Fold(st, args).error.token in args
    ensures EndsWithQuote(Fold(st, args).error.token)
    ensures !StartsWithQuote(Fold(st, args).error.token)
    decreases |args|
  {
    if args != [] {
      match Step(st, args[0])
      case Failure(e) =>
      case Success(st') =>
        FailureNamesStrayClose(st', args[1..]);
        assert Fold(st, args) == Fold(st', args[1..]);
    }
  }

  /** `cat "the file name"`: the three tokens after `cat` become one quoted argument. */
  lemma QuotedFileNameArgument()
    ensures Joined(["\"the", "file", "name\""]) == Success(["\"the file name\""])
  {
    var g := ["\"the", "file", "name\""];
    assert QuotedRun(g);
    QuotedRunJoined(Start, g);
    assert JoinSpace(g) == "\"the file name\"";
    assert Start.result + [JoinSpace(g)] == ["\"the file name\""];
  }

  /** `cat "nospacequote"`: a token that opens and closes a quote is passed as it is. */
  lemma SingleQuotedArgument()
    ensures Joined(["\"nospacequote\""]) == Success(["\"nospacequote\""])
  {
    QuotedRunJoined(Start, ["\"nospacequote\""]);
    assert JoinSpace(["\"nospacequote\""]) == "\"nospacequote\"";
    assert Start.result + ["\"nospacequote\""] == ["\"nospacequote\""];
  }
}
