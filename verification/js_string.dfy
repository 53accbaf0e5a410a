/**
 * JavaScript string behaviour the chat engine depends on, with ECMAScript's
 * semantics written out: `substring` clamps and swaps its arguments,
 * `lastIndexOf` answers -1 when nothing is found, and `??` and truthiness on
 * strings. The character search `IndexOf` stands for the `[^>]+>` part of the
 * closing-tag pattern. `Split`, `Join` and the query readers model no call in
 * the code: they read the built URLs back into their fields, so that the
 * builders' layouts can be stated as round trips.
 */
module JsString {
  import opened Wrappers

  /** `x ?? ''` for an optional string. */
  function OrEmpty(o: Option<string>): string {
    o.GetOr("")
  }

  /** JavaScript truthiness of a string. */
  predicate Truthy(s: string) {
    s != ""
  }

  function Clamp(x: int, n: nat): (r: nat)
    ensures r <= n
  {
    if x < 0 then 0 else if x > n then n else x
  }

  /** `s.substring(start, end)`: both bounds clamped to [0, |s|], swapped when reversed. */
  function Substring(s: string, start: int, end: int): (r: string)
    ensures |r| <= |s|
    ensures Clamp(start, |s|) <= Clamp(end, |s|) ==> r == s[Clamp(start, |s|)..Clamp(end, |s|)]
    ensures Clamp(end, |s|) <= Clamp(start, |s|) ==> r == s[Clamp(end, |s|)..Clamp(start, |s|)]
  {
    var a := Clamp(start, |s|);
    var b := Clamp(end, |s|);
    if a <= b then s[a..b] else s[b..a]
  }

  /** `s.substring(start)`: the end defaults to the length. */
  function SubstringFrom(s: string, start: int): (r: string)
    ensures r == s[Clamp(start, |s|)..]
  {
    Substring(s, start, |s|)
  }

  /** Cutting at any index, even a negative one or one past the end, loses and repeats nothing. */
  lemma SubstringSplit(s: string, k: int)
    ensures Substring(s, 0, k) + SubstringFrom(s, k) == s
  {
  }

  /** Bounds already inside the string and in order select exactly that slice. */
  lemma SubstringInRange(s: string, a: int, b: int)
    requires 0 <= a <= b <= |s|
    ensures Substring(s, a, b) == s[a..b]
  {
  }

  /** `needle` occurs in `s` at index `k`. */
  predicate OccursAt(s: string, needle: string, k: int) {
    0 <= k && k + |needle| <= |s| && s[k..k + |needle|] == needle
  }

  /** The largest index at most `from` where `needle` occurs, or -1. */
  function LastIndexAtOrBelow(s: string, needle: string, from: int): (r: int)
    ensures r == -1 || 0 <= r <= from
    ensures r >= 0 ==> OccursAt(s, needle, r)
    ensures forall k :: r < k <= from ==> !OccursAt(s, needle, k)
    decreases from + 1
  {
    if from < 0 then -1
    else if OccursAt(s, needle, from) then from
    else LastIndexAtOrBelow(s, needle, from - 1)
  }

  /** `s.lastIndexOf(needle)`: the last occurrence of `needle`, or -1 when there is none. */
  function LastIndexOf(s: string, needle: string): (r: int)
    ensures r == -1 <==> forall k :: !OccursAt(s, needle, k)
    ensures r >= 0 ==> OccursAt(s, needle, r)
    ensures forall k :: r < k ==> !OccursAt(s, needle, k)
  {
    LastIndexAtOrBelow(s, needle, |s| - |needle|)
  }

  /** `s.indexOf(c)` for a single character, as an option. */
  function IndexOf(s: string, c: char): (r: Option<nat>)
    ensures r.Some? ==> r.value < |s|
  {
    if |s| == 0 then None
    else if s[0] == c then Some(0)
    else
      match IndexOf(s[1..], c)
      case None => None
      case Some(i) => Some(i + 1)
  }

  /** `indexOf` finds nothing exactly when the character is absent, and otherwise its first occurrence. */
  lemma {:induction false} IndexOfSpec(s: string, c: char)
    ensures IndexOf(s, c).None? <==> c !in s
    ensures IndexOf(s, c).Some? ==> s[IndexOf(s, c).value] == c && c !in s[..IndexOf(s, c).value]
    decreases |s|
  {
    if |s| > 0 && s[0] != c {
      IndexOfSpec(s[1..], c);
      assert s == [s[0]] + s[1..];
      if IndexOf(s[1..], c).Some? {
        var i := IndexOf(s[1..], c).value;
        assert s[..i + 1] == [s[0]] + s[1..][..i];
      }
    }
  }

  /** The first occurrence of a separator in `a + b`, when `a` holds none, is found in `b`. */
  lemma {:induction false} IndexOfAfter(a: string, b: string, c: char)
    requires c !in a
    ensures IndexOf(a + b, c) == (match IndexOf(b, c) case Some(i) => Some(|a| + i) case None => None)
    decreases |a|
  {
    if |a| > 0 {
      assert (a + b)[0] == a[0];
      assert (a + b)[1..] == a[1..] + b;
      IndexOfAfter(a[1..], b, c);
    } else {
      assert a + b == b;
    }
  }

  /** `s.split(sep)` for a one-character separator. */
  function Split(s: string, sep: char): (parts: seq<string>)
    ensures |parts| >= 1
    decreases |s|
  {
    match IndexOf(s, sep)
    case None => [s]
    case Some(i) => [s[..i]] + Split(s[i + 1..], sep)
  }

  /** No part of a split holds the separator. */
  lemma {:induction false} SplitPartsFree(s: string, sep: char)
    ensures forall i :: 0 <= i < |Split(s, sep)| ==> sep !in Split(s, sep)[i]
    decreases |s|
  {
    IndexOfSpec(s, sep);
    match IndexOf(s, sep)
    case None =>
    case Some(i) =>
      SplitPartsFree(s[i + 1..], sep);
      var rest := Split(s[i + 1..], sep);
      assert Split(s, sep) == [s[..i]] + rest;
      forall k | 0 < k < |Split(s, sep)| ensures sep !in Split(s, sep)[k] {
        assert Split(s, sep)[k] == rest[k - 1];
      }
  }

  /** `parts.join(sep)` for a one-character separator. */
  function Join(parts: seq<string>, sep: char): string
    requires |parts| >= 1
  {
    if |parts| == 1 then parts[0] else parts[0] + [sep] + Join(parts[1..], sep)
  }

  /** Joining three pieces puts the separator between each neighbouring pair. */
  lemma Join3(a: string, b: string, c: string, sep: char)
    ensures Join([a, b, c], sep) == a + [sep] + b + [sep] + c
  {
    assert [a, b, c][1..] == [b, c];
    assert [b, c][1..] == [c];
    assert Join([b, c], sep) == b + [sep] + c;
    assert a + [sep] + (b + [sep] + c) == a + [sep] + b + [sep] + c;
  }

  /** A separator-free head, the separator, then a rest: splitting yields the head, then the rest's parts. */
  lemma SplitCons(head: string, rest: string, sep: char)
    requires sep !in head
    ensures Split(head + [sep] + rest, sep) == [head] + Split(rest, sep)
  {
    var s := head + [sep] + rest;
    IndexOfAfter(head, [sep] + rest, sep);
    assert s == head + ([sep] + rest);
    assert s[..|head|] == head;
    assert s[|head| + 1..] == rest;
  }

  /** Joining pieces that hold no separator and splitting again gives the pieces back. */
  lemma {:induction false} SplitJoin(parts: seq<string>, sep: char)
    requires |parts| >= 1
    requires forall i :: 0 <= i < |parts| ==> sep !in parts[i]
    ensures Split(Join(parts, sep), sep) == parts
    decreases |parts|
  {
    if |parts| > 1 {
      SplitCons(parts[0], Join(parts[1..], sep), sep);
      SplitJoin(parts[1..], sep);
      assert parts == [parts[0]] + parts[1..];
    } else {
      IndexOfSpec(parts[0], sep);
    }
  }

  /** Splitting and joining again restores the string. */
  lemma {:induction false} JoinSplit(s: string, sep: char)
    ensures Join(Split(s, sep), sep) == s
    decreases |s|
  {
    IndexOfSpec(s, sep);
    match IndexOf(s, sep)
    case None =>
    case Some(i) =>
      var rest := Split(s[i + 1..], sep);
      assert Split(s, sep) == [s[..i]] + rest;
      assert Split(s, sep)[1..] == rest;
      JoinSplit(s[i + 1..], sep);
      assert s == s[..i] + [sep] + s[i + 1..];
  }

  /** The query string of a URL: what follows its first `?`, or "" when it has none. */
  function QueryOf(url: string): string {
    match IndexOf(url, '?')
    case Some(i) => url[i + 1..]
    case None => ""
  }

  /** The `&`-separated fields of a URL's query string. */
  function QueryFields(url: string): seq<string> {
    Split(QueryOf(url), '&')
  }

  /**
   * A URL built as `base + "?" + fields joined by "&"`, where the base holds
   * no `?` and no field holds a `&`, reads back as exactly those fields.
   */
  lemma {:induction false} QueryFieldsOfBuiltUrl(base: string, fields: seq<string>)
    requires '?' !in base
    requires |fields| >= 1
    requires forall i :: 0 <= i < |fields| ==> '&' !in fields[i]
    ensures QueryFields(base + "?" + Join(fields, '&')) == fields
  {
    var q := Join(fields, '&');
    IndexOfAfter(base, "?" + q, '?');
    assert base + "?" + q == base + ("?" + q);
    assert (base + "?" + q)[|base| + 1..] == q;
    SplitJoin(fields, '&');
  }
}
