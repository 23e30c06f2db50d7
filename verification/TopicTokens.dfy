/** Splitting a topic into levels, as `tokenizeTopic` does, and its inverse. */
module TopicTokens {

  /** Position of the first `d` in `s`, or `|s|` when there is none. */
  function IndexOf(s: string, d: char): (pos: nat)
    ensures pos <= |s|
    ensures d !in s[..pos]
    ensures pos < |s| ==> s[pos] == d
  {
    if s == [] || s[0] == d then 0 else 1 + IndexOf(s[1..], d)
  }

  /** Reference definition of the split: one token per maximal delimiter-free stretch. */
  function Split(s: string, d: char): (tokens: seq<string>)
    ensures |tokens| > 0
  {
    if s == [] then [[]]
    else
      var rest := Split(s[1..], d);
      if s[0] == d then [[]] + rest else [[s[0]] + rest[0]] + rest[1..]
  }

  function Join(tokens: seq<string>, d: char): string
    requires |tokens| > 0
  {
    if |tokens| == 1 then tokens[0] else tokens[0] + [d] + Join(tokens[1..], d)
  }

  function Occurrences(s: string, d: char): nat {
    if s == [] then 0 else (if s[0] == d then 1 else 0) + Occurrences(s[1..], d)
  }

  /** The tokenizer's loop: cut at the first delimiter until none is left. */
  method TokenizeTopic(tokens: string, delimit: char := '/') returns (retval: seq<string>)
    ensures retval == Split(tokens, delimit)
    ensures Join(retval, delimit) == tokens
    ensures forall i :: 0 <= i < |retval| ==> delimit !in retval[i]
    ensures |retval| == Occurrences(tokens, delimit) + 1
  {
    retval := [];
    var s := tokens;
    var pos := IndexOf(s, delimit);
    while pos != |s|
      invariant pos == IndexOf(s, delimit)
      invariant retval + Split(s, delimit) == Split(tokens, delimit)
      decreases |s|
    {
      SplitAtFirst(s, delimit);
      retval := retval + [s[..pos]];
      s := s[pos + 1..];
      pos := IndexOf(s, delimit);
    }
    SplitWithoutDelimiter(s, delimit);
    retval := retval + [s];
    JoinOfSplit(tokens, delimit);
    TokensAreClean(tokens, delimit);
    TokenCount(tokens, delimit);
  }

  lemma {:induction false} SplitWithoutDelimiter(s: string, d: char)
    requires d !in s
    ensures Split(s, d) == [s]
  {
    if s != [] {
      SplitWithoutDelimiter(s[1..], d);
      assert [s[0]] + s[1..] == s;
    }
  }

  lemma {:induction false} SplitAtFirst(s: string, d: char)
    requires IndexOf(s, d) < |s|
    ensures var pos := IndexOf(s, d); Split(s, d) == [s[..pos]] + Split(s[pos + 1..], d)
  {
    if s[0] != d {
      SplitAtFirst(s[1..], d);
      var pos := IndexOf(s, d);
      assert s[1..][..pos - 1] == s[1..pos];
      assert [s[0]] + s[1..pos] == s[..pos];
      assert s[1..][pos..] == s[pos + 1..];
    }
  }

  /** A clean token followed by the delimiter becomes the first token. */
  lemma {:induction false} SplitOfCons(x: string, d: char, u: string)
    requires d !in x
    ensures Split(x + [d] + u, d) == [x] + Split(u, d)
  {
    var s := x + [d] + u;
    if x == [] {
      assert s[1..] == u;
    } else {
      SplitOfCons(x[1..], d, u);
      assert s[1..] == x[1..] + [d] + u;
      assert [x[0]] + x[1..] == x;
    }
  }

  lemma {:induction false} JoinOfSplit(s: string, d: char)
    ensures Join(Split(s, d), d) == s
  {
    if s != [] {
      JoinOfSplit(s[1..], d);
      var rest := Split(s[1..], d);
      var all := Split(s, d);
      if s[0] == d {
        assert all[1..] == rest;
      } else if |rest| > 1 {
        assert all[1..] == rest[1..];
      }
    }
  }

  lemma {:induction false} SplitOfJoin(tokens: seq<string>, d: char)
    requires |tokens| > 0
    requires forall i :: 0 <= i < |tokens| ==> d !in tokens[i]
    ensures Split(Join(tokens, d), d) == tokens
  {
    if |tokens| == 1 {
      SplitWithoutDelimiter(tokens[0], d);
    } else {
      SplitOfJoin(tokens[1..], d);
      SplitOfCons(tokens[0], d, Join(tokens[1..], d));
    }
  }

  lemma {:induction false} TokensAreClean(s: string, d: char)
    ensures forall i :: 0 <= i < |Split(s, d)| ==> d !in Split(s, d)[i]
  {
    if s != [] {
      TokensAreClean(s[1..], d);
    }
  }

  lemma {:induction false} TokenCount(s: string, d: char)
    ensures |Split(s, d)| == Occurrences(s, d) + 1
  {
    if s != [] {
      TokenCount(s[1..], d);
    }
  }

  /** Splitting loses nothing: different topics have different levels. */
  lemma SplitIsInjective(s: string, t: string, d: char)
    requires Split(s, d) == Split(t, d)
    ensures s == t
  {
    JoinOfSplit(s, d);
    JoinOfSplit(t, d);
  }

  /** Tokens hold characters of the input and no others. */
  lemma {:induction false} TokenCharacters(s: string, d: char, c: char)
    requires c != d
    ensures c in s ==> exists i :: 0 <= i < |Split(s, d)| && c in Split(s, d)[i]
    ensures c !in s ==> forall i :: 0 <= i < |Split(s, d)| ==> c !in Split(s, d)[i]
  {
    if s != [] {
      TokenCharacters(s[1..], d, c);
      var rest, all := Split(s[1..], d), Split(s, d);
      assert c in s <==> c == s[0] || c in s[1..];
      if s[0] == d {
        assert forall i :: 0 <= i < |rest| ==> rest[i] == all[i + 1];
      } else {
        assert all[0] == [s[0]] + rest[0];
        assert c in all[0] <==> c == s[0] || c in rest[0];
        assert forall i :: 1 <= i < |rest| ==> rest[i] == all[i];
      }
    }
  }
}
