/**
 * The answer callbacks every adapter drives, and the measures over a trace
 * of callback invocations that the adapter properties are stated with.
 */
module Callbacks {
  import opened Wrappers

  /**
   * The value a transport hands to an error handler. Only whether it is an
   * `Error` instance changes what the code does with it.
   */
  datatype ErrorValue = ErrorValue(isErrorInstance: bool, description: string)

  /** One invocation of a caller-supplied callback. */
  datatype Callback =
    | Start(content: string)          // startAnswer(content)
    | Append(content: string)         // appendAnswer(content)
    | Image(url: string)              // imageGenerated(url)
    | End(err: Option<ErrorValue>)    // end() or end(err)

  /** Which of the optional callbacks the caller supplied; an absent one is never called. */
  datatype Sinks = Sinks(start: bool, append: bool, image: bool, end: bool)

  /** The invocation `c`, if its callback is present. */
  function Emit(present: bool, c: Callback): seq<Callback> {
    if present then [c] else []
  }

  /** How many times `startAnswer` was called. */
  function Starts(t: seq<Callback>): nat {
    if |t| == 0 then 0 else (if t[0].Start? then 1 else 0) + Starts(t[1..])
  }

  /** The arguments of the `appendAnswer` calls, in order. */
  function Fragments(t: seq<Callback>): seq<string> {
    if |t| == 0 then [] else (if t[0].Append? then [t[0].content] else []) + Fragments(t[1..])
  }

  /** The arguments of the `imageGenerated` calls, in order. */
  function Images(t: seq<Callback>): seq<string> {
    if |t| == 0 then [] else (if t[0].Image? then [t[0].url] else []) + Images(t[1..])
  }

  /** The arguments of the `end` calls, in order (None for `end()`). */
  function EndArgs(t: seq<Callback>): seq<Option<ErrorValue>> {
    if |t| == 0 then [] else (if t[0].End? then [t[0].err] else []) + EndArgs(t[1..])
  }

  /** No `appendAnswer` call comes before the first `startAnswer` call. */
  predicate StartLeads(t: seq<Callback>) {
    |t| == 0 || t[0].Start? || (!t[0].Append? && StartLeads(t[1..]))
  }

  /** The measures of a concatenated trace are those of its halves, concatenated or added. */
  lemma MeasuresOfConcat(a: seq<Callback>, b: seq<Callback>)
    ensures Starts(a + b) == Starts(a) + Starts(b)
    ensures Fragments(a + b) == Fragments(a) + Fragments(b)
    ensures Images(a + b) == Images(a) + Images(b)
    ensures EndArgs(a + b) == EndArgs(a) + EndArgs(b)
  {
    StartsOfConcat(a, b);
    FragmentsOfConcat(a, b);
    ImagesOfConcat(a, b);
    EndArgsOfConcat(a, b);
  }

  lemma {:induction false} StartsOfConcat(a: seq<Callback>, b: seq<Callback>)
    ensures Starts(a + b) == Starts(a) + Starts(b)
    decreases |a|
  {
    if |a| == 0 {
      assert a + b == b;
    } else {
      assert (a + b)[0] == a[0];
      assert (a + b)[1..] == a[1..] + b;
      StartsOfConcat(a[1..], b);
    }
  }

  lemma {:induction false} FragmentsOfConcat(a: seq<Callback>, b: seq<Callback>)
    ensures Fragments(a + b) == Fragments(a) + Fragments(b)
    decreases |a|
  {
    if |a| == 0 {
      assert a + b == b;
    } else {
      assert (a + b)[0] == a[0];
      assert (a + b)[1..] == a[1..] + b;
      FragmentsOfConcat(a[1..], b);
      var h: seq<string> := if a[0].Append? then [a[0].content] else [];
      assert h + (Fragments(a[1..]) + Fragments(b)) == (h + Fragments(a[1..])) + Fragments(b);
    }
  }

  lemma {:induction false} ImagesOfConcat(a: seq<Callback>, b: seq<Callback>)
    ensures Images(a + b) == Images(a) + Images(b)
    decreases |a|
  {
    if |a| == 0 {
      assert a + b == b;
    } else {
      assert (a + b)[0] == a[0];
      assert (a + b)[1..] == a[1..] + b;
      ImagesOfConcat(a[1..], b);
      var h: seq<string> := if a[0].Image? then [a[0].url] else [];
      assert h + (Images(a[1..]) + Images(b)) == (h + Images(a[1..])) + Images(b);
    }
  }

  lemma {:induction false} EndArgsOfConcat(a: seq<Callback>, b: seq<Callback>)
    ensures EndArgs(a + b) == EndArgs(a) + EndArgs(b)
    decreases |a|
  {
    if |a| == 0 {
      assert a + b == b;
    } else {
      assert (a + b)[0] == a[0];
      assert (a + b)[1..] == a[1..] + b;
      EndArgsOfConcat(a[1..], b);
      var h: seq<Option<ErrorValue>> := if a[0].End? then [a[0].err] else [];
      assert h + (EndArgs(a[1..]) + EndArgs(b)) == (h + EndArgs(a[1..])) + EndArgs(b);
    }
  }

  /** The measures of a single invocation. */
  lemma MeasuresOfOne(c: Callback)
    ensures Starts([c]) == (if c.Start? then 1 else 0)
    ensures Fragments([c]) == (if c.Append? then [c.content] else [])
    ensures Images([c]) == (if c.Image? then [c.url] else [])
    ensures EndArgs([c]) == (if c.End? then [c.err] else [])
  {
    assert [c][1..] == [];
  }

  /** A prefix with neither a start nor an append keeps `StartLeads` of what follows. */
  lemma {:induction false} StartLeadsAfterQuiet(a: seq<Callback>, b: seq<Callback>)
    requires Fragments(a) == []
    requires StartLeads(b)
    ensures StartLeads(a + b)
    decreases |a|
  {
    if |a| == 0 {
      assert a + b == b;
    } else {
      assert (a + b)[0] == a[0];
      assert (a + b)[1..] == a[1..] + b;
      assert !a[0].Append?;
      StartLeadsAfterQuiet(a[1..], b);
    }
  }

  /** `StartLeads` says: every append has a start somewhere before it. */
  lemma {:induction false} StartLeadsMeans(t: seq<Callback>)
    ensures StartLeads(t) <==>
      forall i :: 0 <= i < |t| && t[i].Append? ==> Starts(t[..i]) > 0
    decreases |t|
  {
    if |t| > 0 {
      StartLeadsMeans(t[1..]);
      forall i | 0 < i <= |t|
        ensures Starts(t[..i]) == (if t[0].Start? then 1 else 0) + Starts(t[1..][..i - 1])
      {
        assert t[..i][0] == t[0];
        assert t[..i][1..] == t[1..][..i - 1];
      }
      if StartLeads(t) && !t[0].Start? {
        forall i | 0 <= i < |t| && t[i].Append?
          ensures Starts(t[..i]) > 0
        {
          assert i > 0;
          assert t[1..][i - 1] == t[i];
        }
      }
      if !StartLeads(t) {
        if t[0].Append? {
          assert t[..0] == [];
        } else {
          var j :| 0 <= j < |t[1..]| && t[1..][j].Append? && Starts(t[1..][..j]) == 0;
          assert t[j + 1].Append?;
          assert Starts(t[..j + 1]) == 0;
        }
      }
    }
  }
}
