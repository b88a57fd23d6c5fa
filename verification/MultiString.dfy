/**
 The parsing loop of RegGetMultiString in Windows/registry_wrapper/RegistryAccessor.hpp: a buffer of
 NUL-terminated strings, ended by an empty one.  The original reads through a raw pointer; here a read
 behind the end of the buffer makes the result None.
 */
module MultiString {
  import opened Wrappers

  const NUL := '\0'

  predicate NulFree(s: string) {
    forall i :: 0 <= i < |s| ==> s[i] != NUL
  }

  predicate Storable(strings: seq<string>) {
    forall i :: 0 <= i < |strings| ==> strings[i] != "" && NulFree(strings[i])
  }

  /** The buffer layout of REG_MULTI_SZ. */
  function Encode(strings: seq<string>): string {
    if strings == [] then [NUL] else strings[0] + [NUL] + Encode(strings[1..])
  }

  /** wcslen; None if there is no NUL in the buffer. */
  function Length(buf: string): (n: Option<nat>)
    ensures n.Some? ==> n.value < |buf| && buf[n.value] == NUL && NulFree(buf[..n.value])
    ensures n.None? ==> NulFree(buf)
  {
    if buf == [] then None
    else if buf[0] == NUL then Some(0)
    else
      var n := Length(buf[1..]);
      if n.None? then None else Some(n.value + 1)
  }

  function Parse(buf: string): Option<seq<string>> {
    if buf == [] then None
    else if buf[0] == NUL then Some([])
    else
      var n := Length(buf);
      if n.None? then None
      else
        var rest := Parse(buf[n.value + 1..]);
        if rest.None? then None else Some([buf[..n.value]] + rest.value)
  }

  lemma {:induction false} LengthOf(s: string, rest: string)
    requires NulFree(s)
    ensures Length(s + [NUL] + rest) == Some(|s|)
  {
    if s == [] {
      assert s + [NUL] + rest == [NUL] + rest;
    } else {
      assert forall i :: 0 <= i < |s| - 1 ==> s[1..][i] == s[i + 1];
      assert (s + [NUL] + rest)[1..] == s[1..] + [NUL] + rest;
      LengthOf(s[1..], rest);
    }
  }

  lemma ParseFirst(s: string, rest: string)
    requires s != "" && NulFree(s)
    ensures Parse(s + [NUL] + rest) == if Parse(rest).None? then None else Some([s] + Parse(rest).value)
  {
    var buf := s + [NUL] + rest;
    LengthOf(s, rest);
    assert buf[0] == s[0] && buf[..|s|] == s && buf[|s| + 1..] == rest;
  }

  lemma EncodeFirst(strings: seq<string>, more: string)
    requires strings != []
    ensures Encode(strings) + more == strings[0] + [NUL] + (Encode(strings[1..]) + more)
  {
  }

  /** One string in front of a list that parses back. */
  lemma ParseOneMore(strings: seq<string>, more: string)
    requires strings != [] && strings[0] != "" && NulFree(strings[0])
    requires Parse(Encode(strings[1..]) + more) == Some(strings[1..])
    ensures Parse(Encode(strings) + more) == Some(strings)
  {
    EncodeFirst(strings, more);
    ParseFirst(strings[0], Encode(strings[1..]) + more);
    assert [strings[0]] + strings[1..] == strings;
  }

  /** Parsing an encoded list returns the list, whatever follows in the buffer. */
  lemma {:induction false} ParseEncoded(strings: seq<string>, more: string)
    requires Storable(strings)
    ensures Parse(Encode(strings) + more) == Some(strings)
  {
    if strings != [] {
      assert forall i :: 0 <= i < |strings| - 1 ==> strings[1..][i] == strings[i + 1];
      ParseEncoded(strings[1..], more);
      ParseOneMore(strings, more);
    }
  }

  /** What is parsed can be stored, and encoding it again gives the beginning of the buffer. */
  lemma {:induction false} ParsedIsPrefix(buf: string)
    requires Parse(buf).Some?
    ensures Storable(Parse(buf).value) && Encode(Parse(buf).value) <= buf
    decreases |buf|
  {
    if buf[0] != NUL {
      var n := Length(buf).value;
      var rest := buf[n + 1..];
      ParsedIsPrefix(rest);
      assert Parse(buf).value[1..] == Parse(rest).value;
      assert buf == buf[..n] + [NUL] + rest;
    }
  }

  /** Parsing is exactly the inverse of encoding, up to what follows the terminator. */
  lemma ParseInvertsEncode(buf: string, strings: seq<string>)
    ensures Parse(buf) == Some(strings) <==> Storable(strings) && Encode(strings) <= buf
  {
    if Parse(buf) == Some(strings) {
      ParsedIsPrefix(buf);
    }
    if Storable(strings) && Encode(strings) <= buf {
      ParseEncoded(strings, buf[|Encode(strings)|..]);
      assert buf == Encode(strings) + buf[|Encode(strings)|..];
    }
  }

  /** An empty string at position k: a NUL at the start of the buffer or after another NUL. */
  predicate EmptyStringAt(buf: string, k: nat) {
    k < |buf| && buf[k] == NUL && (k == 0 || buf[k - 1] == NUL)
  }

  lemma {:induction false} ParsedHasTerminator(buf: string) returns (k: nat)
    requires Parse(buf).Some?
    ensures EmptyStringAt(buf, k)
    decreases |buf|
  {
    if buf[0] == NUL {
      k := 0;
    } else {
      var n := Length(buf).value;
      var j := ParsedHasTerminator(buf[n + 1..]);
      k := n + 1 + j;
      assert buf[n + 1..][j] == buf[k];
      assert j > 0 ==> buf[n + 1..][j - 1] == buf[k - 1];
    }
  }

  lemma BeforeLength(buf: string, i: nat)
    requires Length(buf).Some? && i < Length(buf).value
    ensures buf[i] != NUL
  {
    assert buf[..Length(buf).value][i] == buf[i];
  }

  lemma {:induction false} TerminatedParses(buf: string, k: nat)
    requires EmptyStringAt(buf, k)
    ensures Parse(buf).Some?
    decreases |buf|
  {
    if buf[0] != NUL {
      var n := Length(buf).value;
      BeforeLength(buf, n - 1);
      if k < n {
        BeforeLength(buf, k);
      }
      TerminatedParses(buf[n + 1..], k - n - 1);
    }
  }

  /** The loop stays inside the buffer exactly if the buffer contains an empty string. */
  lemma InBoundsIffTerminated(buf: string)
    ensures Parse(buf).Some? <==> exists k :: EmptyStringAt(buf, k)
  {
    if Parse(buf).Some? {
      var k := ParsedHasTerminator(buf);
    }
    if exists k :: EmptyStringAt(buf, k) {
      var k :| EmptyStringAt(buf, k);
      TerminatedParses(buf, k);
    }
  }

  // ----- The loops -----

  /** The NUL-terminated string at `from`; None if no NUL follows. */
  function StringAt(buf: string, from: nat): (r: Option<string>)
    requires from <= |buf|
    ensures r.Some? ==> from + |r.value| < |buf|
  {
    var n := Length(buf[from..]);
    if n.None? then None else Some(buf[from..from + n.value])
  }

  lemma StringUpto(buf: string, from: nat, end: nat)
    requires from <= end <= |buf| && NulFree(buf[from..end]) && (end < |buf| ==> buf[end] == NUL)
    ensures StringAt(buf, from) == if end == |buf| then None else Some(buf[from..end])
  {
    if end == |buf| {
      assert buf[from..] == buf[from..end];
      NoLength(buf[from..]);
    } else {
      assert buf[from..] == buf[from..end] + [NUL] + buf[end + 1..];
      LengthOf(buf[from..end], buf[end + 1..]);
    }
  }

  lemma NoLength(s: string)
    requires NulFree(s)
    ensures Length(s) == None
  {
  }

  /** wcslen, and the string it measures. */
  method ReadString(data: array<char>, from: nat) returns (r: Option<string>)
    requires from < data.Length
    ensures r == StringAt(data[..], from)
  {
    var i := from;
    while i < data.Length && data[i] != NUL
      invariant from <= i <= data.Length
      invariant forall j :: from <= j < i ==> data[j] != NUL
    {
      i := i + 1;
    }
    StringUpto(data[..], from, i);
    if i == data.Length {
      return None;
    }
    assert data[from..i] == data[..][from..i];
    return Some(data[from..i]);
  }

  /** `result` holds the strings before `curr`; the rest of the buffer decides what becomes of it. */
  ghost predicate Continues(buf: string, curr: nat, result: seq<string>, whole: Option<seq<string>>)
    requires curr <= |buf|
  {
    whole == if Parse(buf[curr..]).None? then None else Some(result + Parse(buf[curr..]).value)
  }

  lemma RoundContinues(buf: string, curr: nat, result: seq<string>, whole: Option<seq<string>>)
    requires curr < |buf| && buf[curr] != NUL && Continues(buf, curr, result, whole)
    ensures
      var next := StringAt(buf, curr);
      if next.None? then whole == None
      else Continues(buf, curr + |next.value| + 1, result + [next.value], whole)
  {
    var suffix := buf[curr..];
    var n := Length(suffix);
    if n.Some? {
      assert suffix[n.value + 1..] == buf[curr + n.value + 1..] && suffix[..n.value] == buf[curr..curr + n.value];
      var rest := Parse(suffix[n.value + 1..]);
      if rest.Some? {
        Regroup(result, [suffix[..n.value]], rest.value);
      }
    }
  }

  lemma Regroup(a: seq<string>, b: seq<string>, c: seq<string>)
    ensures a + (b + c) == (a + b) + c
  {
  }

  lemma Begins(buf: string)
    ensures Continues(buf, 0, [], Parse(buf))
  {
    assert buf[0..] == buf;
    if Parse(buf).Some? {
      assert [] + Parse(buf).value == Parse(buf).value;
    }
  }

  lemma Ends(buf: string, curr: nat, result: seq<string>, whole: Option<seq<string>>)
    requires curr <= |buf| && (curr < |buf| ==> buf[curr] == NUL) && Continues(buf, curr, result, whole)
    ensures whole == if curr == |buf| then None else Some(result)
  {
    assert result + [] == result;
  }

  method GetMultiString(data: array<char>) returns (strings: Option<seq<string>>)
    ensures strings == Parse(data[..])
  {
    var result: seq<string> := [];
    var curr := 0;
    Begins(data[..]);
    while curr < data.Length && data[curr] != NUL
      invariant curr <= data.Length && Continues(data[..], curr, result, Parse(data[..]))
    {
      RoundContinues(data[..], curr, result, Parse(data[..]));
      var next := ReadString(data, curr);
      if next.None? {
        return None;
      }
      result := result + [next.value];
      curr := curr + |next.value| + 1;
    }
    Ends(data[..], curr, result, Parse(data[..]));
    return if curr == data.Length then None else Some(result);
  }
}
