/**
 * `renderMarkdown`'s streaming cursor: the rendered HTML is taken as given
 * (the markdown renderer is not modelled), and while an answer is loading a
 * cursor span is spliced in before the last closing tag, skipping a final
 * `</pre>`, `</ol>` or `</ul>`.
 */
module Markdown {
  import opened Wrappers
  import opened JsString

  /** The blinking cursor inserted while an answer is loading. */
  const CursorSpan: string := "<span class=\"chat-message-loading\">\U{4E28}</span>"

  /** A closing-tag token: `</`, a non-empty run of characters other than `>`, then `>`. */
  predicate IsCloseTag(t: string) {
    |t| >= 4 && t[0] == '<' && t[1] == '/' && t[|t| - 1] == '>' && '>' !in t[2..|t| - 1]
  }

  /** The end (exclusive) of the match of `/<\/[^>]+>/` that starts at `i`, if one does. */
  function MatchAt(s: string, i: nat): (r: Option<nat>)
    ensures r.Some? ==> i + 4 <= r.value <= |s| && IsCloseTag(s[i..r.value])
    ensures r.None? ==> forall e :: i < e <= |s| ==> !IsCloseTag(s[i..e])
  {
    if i + 1 < |s| && s[i] == '<' && s[i + 1] == '/' then
      IndexOfSpec(s[i + 2..], '>');
      match IndexOf(s[i + 2..], '>')
      case Some(j) =>
        if j > 0 then
          var rest := s[i + 2..];
          assert s[i..i + 3 + j][2..j + 2] == rest[..j] by {
            forall q | 0 <= q < j ensures s[i..i + 3 + j][2..j + 2][q] == rest[..j][q] {
              assert rest[q] == s[i + 2 + q];
            }
          }
          assert s[i..i + 3 + j][j + 2] == s[i + 2..][j];
          Some(i + 3 + j)
        else
          NoCloseTagAfterEarlyGt(s, i);
          None
      case None =>
        NoCloseTagWithoutGt(s, i);
        None
    else
      None
  }

  /** A `>` right after `</` leaves the bracketed run empty, so no close tag starts at `i`. */
  lemma NoCloseTagAfterEarlyGt(s: string, i: nat)
    requires i + 2 < |s| && s[i + 2] == '>'
    ensures forall e :: i < e <= |s| ==> !IsCloseTag(s[i..e])
  {
    forall e | i < e <= |s| && |s[i..e]| >= 4
      ensures '>' in s[i..e][2..|s[i..e]| - 1]
    {
      assert s[i..e][2..|s[i..e]| - 1][0] == s[i + 2];
    }
  }

  /** Without any `>` after `</`, no close tag starts at `i`. */
  lemma NoCloseTagWithoutGt(s: string, i: nat)
    requires i + 2 <= |s| && '>' !in s[i + 2..]
    ensures forall e :: i < e <= |s| ==> !IsCloseTag(s[i..e])
  {
    forall e | i < e <= |s| && |s[i..e]| >= 4
      ensures s[i..e][|s[i..e]| - 1] != '>'
    {
      assert s[i..e][|s[i..e]| - 1] == s[i + 2..][e - 1 - (i + 2)];
    }
  }

  /**
   * The matches of the global regular expression from position `i`, as
   * (start, end) pairs, found left to right: try at `i`; after a match resume
   * at its end, otherwise at `i + 1`.
   */
  function ScanFrom(s: string, i: nat): (spans: seq<(nat, nat)>)
    requires i <= |s|
    ensures forall k :: 0 <= k < |spans| ==> i <= spans[k].0 && spans[k].0 + 4 <= spans[k].1 <= |s|
    decreases |s| - i
  {
    if i == |s| then []
    else
      match MatchAt(s, i)
      case Some(e) => [(i, e)] + ScanFrom(s, e)
      case None => ScanFrom(s, i + 1)
  }

  /** Every match found is a closing tag, and the matches come left to right without overlap. */
  lemma {:induction false} ScanFromSound(s: string, i: nat)
    requires i <= |s|
    ensures forall k :: 0 <= k < |ScanFrom(s, i)| ==> IsCloseTag(s[ScanFrom(s, i)[k].0..ScanFrom(s, i)[k].1])
    ensures forall k :: 0 <= k < |ScanFrom(s, i)| - 1 ==> ScanFrom(s, i)[k].1 <= ScanFrom(s, i)[k + 1].0
    decreases |s| - i
  {
    if i < |s| {
      match MatchAt(s, i)
      case Some(e) =>
        ScanFromSound(s, e);
        var rest := ScanFrom(s, e);
        assert ScanFrom(s, i) == [(i, e)] + rest;
        forall k | 0 < k < |ScanFrom(s, i)| ensures ScanFrom(s, i)[k] == rest[k - 1] { }
      case None =>
        ScanFromSound(s, i + 1);
    }
  }

  /** The match found from `i` that covers position `p`, where a match could start. */
  lemma {:induction false} CoveringMatch(s: string, i: nat, p: nat) returns (k: nat)
    requires i <= p < |s| && MatchAt(s, p).Some?
    ensures k < |ScanFrom(s, i)| && ScanFrom(s, i)[k].0 <= p < ScanFrom(s, i)[k].1
    decreases |s| - i
  {
    match MatchAt(s, i)
    case Some(e) =>
      var rest := ScanFrom(s, e);
      assert ScanFrom(s, i) == [(i, e)] + rest;
      if p < e {
        k := 0;
      } else {
        var j := CoveringMatch(s, e, p);
        k := j + 1;
        assert ScanFrom(s, i)[k] == rest[j];
      }
    case None =>
      if p == i {
        assert false;
      }
      k := CoveringMatch(s, i + 1, p);
  }

  /** Every position where a match could start is inside one of the matches found: the gaps hold none. */
  lemma ScanFromComplete(s: string, i: nat, p: nat)
    requires i <= p < |s| && MatchAt(s, p).Some?
    ensures exists k :: 0 <= k < |ScanFrom(s, i)| && ScanFrom(s, i)[k].0 <= p < ScanFrom(s, i)[k].1
  {
    var k := CoveringMatch(s, i, p);
  }

  /** The closing-tag tokens of `html`, left to right: `htmlCode.match(/<\/[^>]+>/g)`, with [] for null. */
  function Tokens(html: string): (tokens: seq<string>)
    ensures |tokens| == |ScanFrom(html, 0)|
  {
    var spans := ScanFrom(html, 0);
    seq(|spans|, k requires 0 <= k < |spans| => html[spans[k].0..spans[k].1])
  }

  /** Each token is the text of its match, and a closing tag. */
  lemma TokenAt(html: string, k: nat)
    requires k < |Tokens(html)|
    ensures Tokens(html)[k] == html[ScanFrom(html, 0)[k].0..ScanFrom(html, 0)[k].1]
    ensures IsCloseTag(Tokens(html)[k])
  {
    ScanFromSound(html, 0);
  }

  /** There is no closing-tag token only when no position starts a match. */
  lemma NoTokensMeansNoMatch(html: string)
    ensures |Tokens(html)| == 0 <==> forall p :: 0 <= p < |html| ==> MatchAt(html, p).None?
  {
    if |Tokens(html)| == 0 {
      forall p | 0 <= p < |html| ensures MatchAt(html, p).None? {
        if MatchAt(html, p).Some? {
          ScanFromComplete(html, 0, p);
        }
      }
    } else {
      var spans := ScanFrom(html, 0);
      ScanFromSound(html, 0);
      assert spans[0].0 < |html|;
      assert IsCloseTag(html[spans[0].0..spans[0].1]);
      assert MatchAt(html, spans[0].0).Some?;
    }
  }

  /** The tags the cursor is not placed before. */
  predicate IsSkipped(t: string) {
    t == "</pre>" || t == "</ol>" || t == "</ul>"
  }

  /** What `lastIndexOf` is asked to find: a token, or `undefined` when `matches[length - 2]` does not exist. */
  datatype Needle = Tag(text: string) | Undefined

  /** The chosen tag: the last token, or the one before it when the last is a skipped tag. */
  function Chosen(tokens: seq<string>): Needle
    requires |tokens| > 0
  {
    var last := tokens[|tokens| - 1];
    if !IsSkipped(last) then Tag(last)
    else if |tokens| >= 2 then Tag(tokens[|tokens| - 2])
    else Undefined
  }

  /** The string `lastIndexOf` searches for: an absent array element converts to "undefined". */
  function NeedleText(n: Needle): string {
    match n
    case Tag(t) => t
    case Undefined => "undefined"
  }

  /** `renderMarkdown` after rendering: the cursor spliced in while loading. */
  function RenderMarkdown(html: string, isLoading: bool): (out: string)
    ensures !isLoading ==> out == html
    ensures isLoading && |Tokens(html)| == 0 ==> out == html
  {
    if !isLoading then html
    else
      var tokens := Tokens(html);
      if |tokens| == 0 then html
      else
        var index := LastIndexOf(html, NeedleText(Chosen(tokens)));
        Substring(html, 0, index) + CursorSpan + SubstringFrom(html, index)
  }

  /** Where the cursor goes: the last occurrence of the chosen tag, with -1 clamped to 0. */
  function CursorIndex(html: string): (k: nat)
    requires |Tokens(html)| > 0
    ensures k <= |html|
  {
    Clamp(LastIndexOf(html, NeedleText(Chosen(Tokens(html)))), |html|)
  }

  /** While loading with at least one token, the output is the input with the cursor spliced in at one index. */
  lemma CursorSplice(html: string)
    requires |Tokens(html)| > 0
    ensures RenderMarkdown(html, true) ==
      html[..CursorIndex(html)] + CursorSpan + html[CursorIndex(html)..]
  {
  }

  /** The output grows by the cursor's length, and cutting the cursor out restores the input. */
  lemma CursorRemovable(html: string)
    requires |Tokens(html)| > 0
    ensures |RenderMarkdown(html, true)| == |html| + |CursorSpan|
    ensures RenderMarkdown(html, true)[CursorIndex(html)..CursorIndex(html) + |CursorSpan|] == CursorSpan
    ensures RenderMarkdown(html, true)[..CursorIndex(html)] + RenderMarkdown(html, true)[CursorIndex(html) + |CursorSpan|..] == html
  {
    CursorSplice(html);
    SpliceParts(html, CursorIndex(html), CursorSpan);
  }

  /** Inserting `x` at `k` and cutting the same stretch out again gives back `s`. */
  lemma SpliceParts(s: string, k: nat, x: string)
    requires k <= |s|
    ensures |s[..k] + x + s[k..]| == |s| + |x|
    ensures (s[..k] + x + s[k..])[k..k + |x|] == x
    ensures (s[..k] + x + s[k..])[..k] + (s[..k] + x + s[k..])[k + |x|..] == s
  {
    var out := s[..k] + x + s[k..];
    assert out[..k] == s[..k];
    assert out[k + |x|..] == s[k..];
    assert s[..k] + s[k..] == s;
  }

  /**
   * When a tag is chosen, the cursor sits immediately before its last
   * occurrence: the tag text starts at the cursor index and occurs nowhere
   * after it.
   */
  lemma CursorBeforeChosenTag(html: string)
    requires |Tokens(html)| > 0 && Chosen(Tokens(html)).Tag?
    ensures OccursAt(html, Chosen(Tokens(html)).text, CursorIndex(html))
    ensures forall k :: CursorIndex(html) < k ==> !OccursAt(html, Chosen(Tokens(html)).text, k)
  {
    var tokens := Tokens(html);
    var n := |tokens|;
    var k: nat := if !IsSkipped(tokens[n - 1]) then n - 1 else n - 2;
    TokenOccurs(html, k);
    LastIndexOfAtLeast(html, tokens[k], ScanFrom(html, 0)[k].0);
  }

  /** Each token occurs in the HTML where it was matched. */
  lemma TokenOccurs(html: string, k: nat)
    requires k < |Tokens(html)|
    ensures OccursAt(html, Tokens(html)[k], ScanFrom(html, 0)[k].0)
  {
    TokenAt(html, k);
  }

  /** `lastIndexOf` finds an occurrence at or after any known one. */
  lemma LastIndexOfAtLeast(s: string, needle: string, p: nat)
    requires OccursAt(s, needle, p)
    ensures p <= LastIndexOf(s, needle) && OccursAt(s, needle, LastIndexOf(s, needle))
  {
  }

  /** A single skipped token sends `lastIndexOf` looking for "undefined"; when the HTML lacks that text the cursor lands at the very start. */
  lemma CursorForLoneSkippedTag(html: string)
    requires |Tokens(html)| == 1 && IsSkipped(Tokens(html)[0])
    requires forall k :: !OccursAt(html, "undefined", k)
    ensures CursorIndex(html) == 0
    ensures RenderMarkdown(html, true) == CursorSpan + html
  {
    CursorSplice(html);
  }

  /**
   * The cursor goes right before the last occurrence of the last closing tag
   * in the HTML, or of the one before it when the last is `</pre>`, `</ol>`
   * or `</ul>`.
   */
  lemma {:induction false} CursorBeforeLastTag(html: string)
    requires |Tokens(html)| > 0
    ensures var last := Tokens(html)[|Tokens(html)| - 1];
      !IsSkipped(last) ==>
        OccursAt(html, last, CursorIndex(html)) &&
        forall k :: CursorIndex(html) < k ==> !OccursAt(html, last, k)
    ensures |Tokens(html)| >= 2 && IsSkipped(Tokens(html)[|Tokens(html)| - 1]) ==>
      var previous := Tokens(html)[|Tokens(html)| - 2];
      OccursAt(html, previous, CursorIndex(html)) &&
      forall k :: CursorIndex(html) < k ==> !OccursAt(html, previous, k)
  {
    var tokens := Tokens(html);
    if Chosen(tokens).Tag? {
      CursorBeforeChosenTag(html);
    }
  }
}
