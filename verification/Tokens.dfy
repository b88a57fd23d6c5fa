/**
 tokenizeString and hasToken of Linux/utils.  Split says what the tokens of a string are, character by
 character; the loop of tokenizeString, which jumps from delimiter to delimiter, computes it.
 */
module Tokens {

  /** The tokens between delimiters, empty ones included. */
  function Split(s: string, delims: string): (tokens: seq<string>)
    ensures tokens != []
  {
    if s == [] then [""]
    else
      var rest := Split(s[1..], delims);
      if s[0] in delims then [""] + rest else [[s[0]] + rest[0]] + rest[1..]
  }

  function NonEmpty(tokens: seq<string>): seq<string> {
    if tokens == [] then []
    else if tokens[0] == "" then NonEmpty(tokens[1..])
    else [tokens[0]] + NonEmpty(tokens[1..])
  }

  function Tokens(s: string, delims: string, ignoreEmpty: bool): seq<string> {
    if ignoreEmpty then NonEmpty(Split(s, delims)) else Split(s, delims)
  }

  predicate Clean(token: string, delims: string) {
    forall i :: 0 <= i < |token| ==> token[i] !in delims
  }

  /** find_first_of: the first delimiter at or after `from`, or |s|. */
  function NextDelimiter(s: string, delims: string, from: nat): (pos: nat)
    requires from <= |s|
    ensures from <= pos <= |s| && Clean(s[from..pos], delims)
    ensures pos < |s| ==> s[pos] in delims
    decreases |s| - from
  {
    if from == |s| || s[from] in delims then from
    else
      var pos := NextDelimiter(s, delims, from + 1);
      assert s[from..pos] == [s[from]] + s[from + 1..pos];
      pos
  }

  // ----- What NonEmpty keeps -----

  /** The places in `from` are those of the nonempty tokens, in order. */
  ghost predicate Places(tokens: seq<string>, from: seq<nat>) {
    && (forall k :: 0 <= k < |from| ==> from[k] < |tokens| && tokens[from[k]] != "")
    && (forall j, k :: 0 <= j < k < |from| ==> from[j] < from[k])
    && (forall i :: 0 <= i < |tokens| && tokens[i] != "" ==> i in from)
  }

  /** Each token that is kept comes from one place, in order, and every nonempty token is kept. */
  lemma {:induction false} NonEmptyKeepsOrder(tokens: seq<string>) returns (from: seq<nat>)
    ensures Places(tokens, from) && PicksOut(NonEmpty(tokens), tokens, from)
  {
    if tokens == [] {
      from := [];
    } else {
      var rest := NonEmptyKeepsOrder(tokens[1..]);
      from := Shifted(tokens, rest);
      PicksLater(NonEmpty(tokens[1..]), tokens, rest, from);
      if tokens[0] != "" {
        var later := from;
        from := WithFirst(tokens, later);
        PicksFirst(NonEmpty(tokens[1..]), tokens, later, from);
      }
    }
  }

  /** The tokens kept are those at the places in `from`. */
  ghost predicate PicksOut(kept: seq<string>, tokens: seq<string>, from: seq<nat>) {
    |kept| == |from| && forall k :: 0 <= k < |from| ==> from[k] < |tokens| && kept[k] == tokens[from[k]]
  }

  lemma PicksLater(kept: seq<string>, tokens: seq<string>, rest: seq<nat>, later: seq<nat>)
    requires tokens != [] && PicksOut(kept, tokens[1..], rest) && |later| == |rest|
    requires forall k :: 0 <= k < |rest| ==> later[k] == rest[k] + 1
    ensures PicksOut(kept, tokens, later)
  {
  }

  lemma PicksFirst(kept: seq<string>, tokens: seq<string>, later: seq<nat>, from: seq<nat>)
    requires tokens != [] && PicksOut(kept, tokens, later) && |from| == |later| + 1 && from[0] == 0
    requires forall k :: 0 <= k < |later| ==> from[k + 1] == later[k]
    ensures PicksOut([tokens[0]] + kept, tokens, from)
  {
    forall k | 0 < k < |from|
      ensures from[k] < |tokens| && ([tokens[0]] + kept)[k] == tokens[from[k]]
    {
      assert from[k] == later[k - 1];
    }
  }

  lemma WithFirst(tokens: seq<string>, later: seq<nat>) returns (from: seq<nat>)
    requires tokens != [] && tokens[0] != ""
    requires forall k :: 0 <= k < |later| ==> 0 < later[k] < |tokens| && tokens[later[k]] != ""
    requires forall j, k :: 0 <= j < k < |later| ==> later[j] < later[k]
    requires forall i :: 0 < i < |tokens| && tokens[i] != "" ==> i in later
    ensures Places(tokens, from) && |from| == |later| + 1 && from[0] == 0
    ensures forall k :: 0 <= k < |later| ==> from[k + 1] == later[k]
  {
    from := [0] + later;
    assert forall k :: 0 < k < |from| ==> from[k] == later[k - 1];
    assert forall i :: i in later ==> i in from;
    assert from[0] in from;
  }

  /** The places of the later tokens, counted from the beginning. */
  lemma Shifted(tokens: seq<string>, rest: seq<nat>) returns (later: seq<nat>)
    requires tokens != [] && Places(tokens[1..], rest)
    ensures |later| == |rest| && forall k :: 0 <= k < |rest| ==> later[k] == rest[k] + 1
    ensures forall k :: 0 <= k < |later| ==> 0 < later[k] < |tokens| && tokens[later[k]] == tokens[1..][rest[k]]
    ensures forall j, k :: 0 <= j < k < |later| ==> later[j] < later[k]
    ensures forall i :: 0 < i < |tokens| && tokens[i] != "" ==> i in later
  {
    later := seq(|rest|, k requires 0 <= k < |rest| => rest[k] + 1);
    forall i | 0 < i < |tokens| && tokens[i] != ""
      ensures i in later
    {
      assert tokens[1..][i - 1] == tokens[i];
      var k :| 0 <= k < |rest| && rest[k] == i - 1;
      assert later[k] == i;
    }
  }

  // ----- What Split does to a concatenation -----

  lemma {:induction false} SplitClean(s: string, delims: string)
    requires Clean(s, delims)
    ensures Split(s, delims) == [s]
  {
    if s != [] {
      assert s[0] !in delims && s == [s[0]] + s[1..];
      SplitClean(s[1..], delims);
    }
  }

  lemma {:induction false} SplitAtDelimiter(a: string, d: char, b: string, delims: string)
    requires d in delims
    ensures Split(a + [d] + b, delims) == Split(a, delims) + Split(b, delims)
  {
    if a == [] {
      assert a + [d] + b == [d] + b;
    } else {
      assert (a + [d] + b)[1..] == a[1..] + [d] + b;
      SplitAtDelimiter(a[1..], d, b, delims);
    }
  }

  lemma NonEmptyOne(t: string)
    ensures NonEmpty([t]) == if t == "" then [] else [t]
  {
    assert NonEmpty([t][1..]) == [];
  }

  lemma {:induction false} NonEmptyAppend(a: seq<string>, b: seq<string>)
    ensures NonEmpty(a + b) == NonEmpty(a) + NonEmpty(b)
  {
    if a == [] {
      assert a + b == b;
    } else {
      assert (a + b)[1..] == a[1..] + b;
      NonEmptyAppend(a[1..], b);
    }
  }

  /** NonEmpty keeps exactly the nonempty tokens. */
  lemma {:induction false} NonEmptyMembers(tokens: seq<string>, t: string)
    ensures t in NonEmpty(tokens) <==> t in tokens && t != ""
  {
    if tokens != [] {
      NonEmptyMembers(tokens[1..], t);
    }
  }

  lemma SplitParts(whole: string, a: string, d: char, b: string, delims: string)
    requires whole == a + [d] + b && Clean(a, delims) && d in delims
    ensures Split(whole, delims) == [a] + Split(b, delims)
  {
    SplitClean(a, delims);
    SplitAtDelimiter(a, d, b, delims);
  }

  /** The last round of the loop: no delimiter is left. */
  lemma SplitEnd(s: string, delims: string, from: nat)
    requires from <= |s| && NextDelimiter(s, delims, from) == |s|
    ensures Split(s[from..], delims) == [s[from..]]
  {
    assert s[from..|s|] == s[from..];
    SplitClean(s[from..], delims);
  }

  lemma SliceParts(s: string, from: nat, pos: nat)
    requires from <= pos < |s|
    ensures s[from..] == s[from..pos] + [s[pos]] + s[pos + 1..]
  {
  }

  /** Any other round: the tokens of a suffix are its first token and those after the delimiter. */
  lemma SplitRound(s: string, delims: string, from: nat)
    requires from <= |s| && NextDelimiter(s, delims, from) < |s|
    ensures
      var pos := NextDelimiter(s, delims, from);
      Split(s[from..], delims) == [s[from..pos]] + Split(s[pos + 1..], delims)
  {
    var pos := NextDelimiter(s, delims, from);
    SliceParts(s, from, pos);
    SplitParts(s[from..], s[from..pos], s[pos], s[pos + 1..], delims);
  }

  /** What the loop appends for the stretch from `from` to `pos`. */
  function Emitted(s: string, from: nat, pos: nat, ignoreEmpty: bool): seq<string>
    requires from <= pos <= |s|
  {
    if pos != from || !ignoreEmpty then [s[from..pos]] else []
  }

  lemma NonEmptyFirst(t: string, rest: seq<string>)
    ensures NonEmpty([t] + rest) == (if t == "" then [] else [t]) + NonEmpty(rest)
  {
    NonEmptyAppend([t], rest);
    NonEmptyOne(t);
  }

  lemma TokensEnd(s: string, delims: string, from: nat, ignoreEmpty: bool)
    requires from <= |s| && NextDelimiter(s, delims, from) == |s|
    ensures Tokens(s[from..], delims, ignoreEmpty) == Emitted(s, from, |s|, ignoreEmpty)
  {
    SplitEnd(s, delims, from);
    NonEmptyOne(s[from..]);
    assert s[from..|s|] == s[from..];
  }

  lemma TokensRound(s: string, delims: string, from: nat, ignoreEmpty: bool)
    requires from <= |s| && NextDelimiter(s, delims, from) < |s|
    ensures
      var pos := NextDelimiter(s, delims, from);
      Tokens(s[from..], delims, ignoreEmpty) == Emitted(s, from, pos, ignoreEmpty) + Tokens(s[pos + 1..], delims, ignoreEmpty)
  {
    var pos := NextDelimiter(s, delims, from);
    SplitRound(s, delims, from);
    if ignoreEmpty {
      NonEmptyFirst(s[from..pos], Split(s[pos + 1..], delims));
    }
  }

  lemma Regroup(out: seq<string>, emitted: seq<string>, rest: seq<string>, all: seq<string>)
    requires out + (emitted + rest) == all
    ensures (out + emitted) + rest == all
  {
  }

  /** `out` holds the tokens before `from`; the rest of the string will complete it to `all`. */
  ghost predicate Completes(s: string, delims: string, from: nat, ignoreEmpty: bool, out: seq<string>, all: seq<string>)
    requires from <= |s|
  {
    out + Tokens(s[from..], delims, ignoreEmpty) == all
  }

  lemma LastRound(s: string, delims: string, from: nat, ignoreEmpty: bool, out: seq<string>, all: seq<string>)
    requires from <= |s| && NextDelimiter(s, delims, from) == |s| && Completes(s, delims, from, ignoreEmpty, out, all)
    ensures out + Emitted(s, from, |s|, ignoreEmpty) == all
  {
    TokensEnd(s, delims, from, ignoreEmpty);
  }

  lemma OtherRound(s: string, delims: string, from: nat, ignoreEmpty: bool, out: seq<string>, all: seq<string>)
    requires from <= |s| && NextDelimiter(s, delims, from) < |s| && Completes(s, delims, from, ignoreEmpty, out, all)
    ensures
      var pos := NextDelimiter(s, delims, from);
      Completes(s, delims, pos + 1, ignoreEmpty, out + Emitted(s, from, pos, ignoreEmpty), all)
  {
    var pos := NextDelimiter(s, delims, from);
    TokensRound(s, delims, from, ignoreEmpty);
    Regroup(out, Emitted(s, from, pos, ignoreEmpty), Tokens(s[pos + 1..], delims, ignoreEmpty), all);
  }

  /** The tokens are appended to what the vector already holds. */
  method TokenizeString(str: string, tokens: seq<string>, delims: string, ignoreEmpty: bool) returns (out: seq<string>)
    ensures !ignoreEmpty ==> out == tokens + Split(str, delims)
    ensures ignoreEmpty ==> out == tokens + NonEmpty(Split(str, delims))
  {
    out := tokens;
    var lastPos := 0;
    ghost var all := tokens + Tokens(str, delims, ignoreEmpty);
    assert Completes(str, delims, lastPos, ignoreEmpty, out, all) by {
      assert str[0..] == str;
    }
    while true
      invariant 0 <= lastPos <= |str|
      invariant Completes(str, delims, lastPos, ignoreEmpty, out, all)
      decreases |str| - lastPos
    {
      var pos := NextDelimiter(str, delims, lastPos);
      if pos == |str| {
        LastRound(str, delims, lastPos, ignoreEmpty, out, all);
      } else {
        OtherRound(str, delims, lastPos, ignoreEmpty, out, all);
      }
      if pos != lastPos || !ignoreEmpty {
        out := out + [str[lastPos..pos]];
      }
      if pos == |str| {
        return;
      }
      lastPos := pos + 1;
    }
  }

  // ----- Splitting and joining undo each other -----

  function Join(tokens: seq<string>, d: char): string
    requires tokens != []
  {
    if |tokens| == 1 then tokens[0] else tokens[0] + [d] + Join(tokens[1..], d)
  }

  lemma JoinPrepend(c: char, rest: seq<string>, d: char)
    requires rest != []
    ensures Join([[c] + rest[0]] + rest[1..], d) == [c] + Join(rest, d)
  {
    assert ([[c] + rest[0]] + rest[1..])[1..] == rest[1..];
  }

  /** Joining the tokens restores the string. */
  lemma {:induction false} JoinSplit(s: string, d: char)
    ensures Join(Split(s, [d]), d) == s
  {
    if s != [] {
      var rest := Split(s[1..], [d]);
      JoinSplit(s[1..], d);
      if s[0] == d {
        assert ([""] + rest)[1..] == rest;
      } else {
        JoinPrepend(s[0], rest, d);
      }
    }
  }

  /** Splitting the join of delimiter-free tokens restores them. */
  lemma {:induction false} SplitJoin(tokens: seq<string>, d: char)
    requires tokens != [] && forall i :: 0 <= i < |tokens| ==> Clean(tokens[i], [d])
    ensures Split(Join(tokens, d), [d]) == tokens
  {
    SplitClean(tokens[0], [d]);
    if |tokens| > 1 {
      SplitJoin(tokens[1..], d);
      SplitAtDelimiter(tokens[0], d, Join(tokens[1..], d), [d]);
    }
  }

  /** The delimiters of a string, in order. */
  function DelimitersOf(s: string, delims: string): string {
    if s == [] then []
    else if s[0] in delims then [s[0]] + DelimitersOf(s[1..], delims)
    else DelimitersOf(s[1..], delims)
  }

  /** Tokens with separators put back between them. */
  function Weave(tokens: seq<string>, seps: string): string
    requires |tokens| == |seps| + 1
  {
    if seps == [] then tokens[0] else tokens[0] + [seps[0]] + Weave(tokens[1..], seps[1..])
  }

  lemma WeavePrepend(c: char, rest: seq<string>, seps: string)
    requires |rest| == |seps| + 1
    ensures Weave([[c] + rest[0]] + rest[1..], seps) == [c] + Weave(rest, seps)
  {
    assert ([[c] + rest[0]] + rest[1..])[1..] == rest[1..];
  }

  lemma WeaveDelimiter(c: char, rest: seq<string>, seps: string)
    requires |rest| == |seps| + 1
    ensures Weave([""] + rest, [c] + seps) == [c] + Weave(rest, seps)
  {
    assert ([""] + rest)[1..] == rest && ([c] + seps)[1..] == seps;
  }

  /** With any set of delimiters: one token more than delimiters, and together they are the string. */
  lemma {:induction false} WeaveSplit(s: string, delims: string)
    ensures |Split(s, delims)| == |DelimitersOf(s, delims)| + 1
    ensures Weave(Split(s, delims), DelimitersOf(s, delims)) == s
  {
    if s != [] {
      WeaveSplit(s[1..], delims);
      var rest, seps := Split(s[1..], delims), DelimitersOf(s[1..], delims);
      if s[0] in delims {
        WeaveDelimiter(s[0], rest, seps);
      } else {
        WeavePrepend(s[0], rest, seps);
      }
    }
  }

  /** No token contains a delimiter, in either mode. */
  lemma {:induction false} TokensAreClean(s: string, delims: string, ignoreEmpty: bool, t: string)
    requires t in Tokens(s, delims, ignoreEmpty)
    ensures Clean(t, delims)
  {
    NonEmptyMembers(Split(s, delims), t);
    SplitIsClean(s, delims);
  }

  lemma {:induction false} SplitIsClean(s: string, delims: string)
    ensures forall i :: 0 <= i < |Split(s, delims)| ==> Clean(Split(s, delims)[i], delims)
  {
    if s != [] {
      SplitIsClean(s[1..], delims);
      var rest := Split(s[1..], delims);
      assert Clean(rest[0], delims);
      assert forall i :: 0 < i < |rest| ==> rest[1..][i - 1] == rest[i];
    }
  }

  // ----- hasToken -----

  /** s has t at position i, with a delimiter or an end of the string on both sides. */
  ghost predicate TokenAt(s: string, delims: string, t: string, i: nat) {
    && i + |t| <= |s| && s[i..i + |t|] == t
    && (i == 0 || s[i - 1] in delims)
    && (i + |t| == |s| || s[i + |t|] in delims)
  }

  lemma TokenAtShift(s: string, delims: string, t: string, pos: nat, j: nat)
    requires pos < |s| && s[pos] in delims && TokenAt(s[pos + 1..], delims, t, j)
    ensures TokenAt(s, delims, t, pos + 1 + j)
  {
    var i := pos + 1 + j;
    assert s[i..i + |t|] == s[pos + 1..][j..j + |t|];
  }

  /** A token is the first one, or a token of what follows the first delimiter. */
  lemma FirstOrLater(s: string, delims: string, t: string)
    requires t in Split(s, delims)
    ensures
      var pos := NextDelimiter(s, delims, 0);
      t == s[..pos] || (pos < |s| && t in Split(s[pos + 1..], delims))
  {
    var pos := NextDelimiter(s, delims, 0);
    assert s[0..] == s && s[0..pos] == s[..pos];
    if pos == |s| {
      SplitEnd(s, delims, 0);
    } else {
      SplitRound(s, delims, 0);
    }
  }

  lemma {:induction false} TokenOccurs(s: string, delims: string, t: string) returns (i: nat)
    requires t in Split(s, delims)
    ensures TokenAt(s, delims, t, i)
    decreases |s|
  {
    var pos := NextDelimiter(s, delims, 0);
    FirstOrLater(s, delims, t);
    if t == s[..pos] {
      i := 0;
    } else {
      var j := TokenOccurs(s[pos + 1..], delims, t);
      TokenAtShift(s, delims, t, pos, j);
      i := pos + 1 + j;
    }
  }

  lemma OccurrenceIsToken(s: string, delims: string, t: string, i: nat)
    requires TokenAt(s, delims, t, i) && Clean(t, delims)
    ensures t in Split(s, delims)
  {
    var front, back := s[..i + |t|], s[i + |t|..];
    SplitClean(t, delims);
    if i == 0 {
      assert front == t;
    } else {
      assert front == s[..i - 1] + [s[i - 1]] + t;
      SplitAtDelimiter(s[..i - 1], s[i - 1], t, delims);
    }
    assert t in Split(front, delims);
    if back == [] {
      assert front == s;
    } else {
      assert s == front + [back[0]] + back[1..];
      SplitAtDelimiter(front, back[0], back[1..], delims);
    }
  }

  /** A token is exactly a delimiter-free stretch that no neighbouring character could extend. */
  lemma TokenMeansOccurrence(s: string, delims: string, t: string)
    ensures t in Split(s, delims) <==> Clean(t, delims) && exists i :: TokenAt(s, delims, t, i)
  {
    if t in Split(s, delims) {
      TokensAreClean(s, delims, false, t);
      var i := TokenOccurs(s, delims, t);
    }
    if Clean(t, delims) && exists i :: TokenAt(s, delims, t, i) {
      var i :| TokenAt(s, delims, t, i);
      OccurrenceIsToken(s, delims, t, i);
    }
  }

  /** The empty pattern is never found. */
  method HasToken(str: string, delims: string, pattern: string) returns (found: bool)
    ensures found <==> pattern != "" && Clean(pattern, delims) && exists i :: TokenAt(str, delims, pattern, i)
  {
    var tokens := TokenizeString(str, [], delims, true);
    found := pattern in tokens;
    NonEmptyMembers(Split(str, delims), pattern);
    TokenMeansOccurrence(str, delims, pattern);
  }
}
