/** Cutting a verified answer into display-sized chunks. */
module AnswerChunks {
  import opened Common

  /** The length of the first run of characters that are, or are not, whitespace. */
  function Run(t: string, spaces: bool): (n: nat)
    ensures n <= |t|
    ensures forall i :: 0 <= i < n ==> IsSpace(t[i]) == spaces
    ensures n < |t| ==> IsSpace(t[n]) != spaces
  {
    if t != "" && IsSpace(t[0]) == spaces then 1 + Run(t[1..], spaces) else 0
  }

  /** Where the first word and the whitespace after it end. */
  function TokenEnd(t: string): (n: nat)
    requires t != "" && !IsSpace(t[0])
    ensures 1 <= n <= |t| && (n < |t| ==> !IsSpace(t[n]))
  {
    var word := Run(t, false);
    var rest := t[word..];
    var gap := Run(rest, true);
    assert gap < |rest| ==> rest[gap] == t[word + gap];
    word + gap
  }

  lemma {:induction false} StripStartIsSuffix(t: string)
    ensures |StripStart(t)| <= |t|
    ensures StripStart(t) != "" ==> !IsSpace(StripStart(t)[0])
    ensures StripStart(t) == t <==> t == "" || !IsSpace(t[0])
  {
    if t != "" && IsSpace(t[0]) {
      StripStartIsSuffix(t[1..]);
    }
  }

  /** Every word with the whitespace after it, as a pattern of non-spaces followed by spaces finds them. */
  function Tokens(t: string): (tokens: seq<string>)
    ensures forall i :: 0 <= i < |tokens| ==> tokens[i] != ""
    decreases |t|
  {
    var rest := StripStart(t);
    StripStartIsSuffix(t);
    if rest == "" then [] else [rest[..TokenEnd(rest)]] + Tokens(rest[TokenEnd(rest)..])
  }

  lemma {:induction false} ConcatFirst(first: string, rest: seq<string>)
    ensures Concat([first] + rest) == first + Concat(rest)
  {
    if rest == [] {
      assert ([first] + rest)[..0] == [];
    } else {
      var n := |rest| - 1;
      ConcatFirst(first, rest[..n]);
      assert ([first] + rest)[..n + 1] == [first] + rest[..n];
    }
  }

  /** The tokens lose the whitespace before the first word, and nothing else. */
  lemma {:induction false} TokensCover(t: string)
    ensures Concat(Tokens(t)) == StripStart(t)
    decreases |t|
  {
    hide IsSpace, TokenEnd, StripStart;
    var rest := StripStart(t);
    StripStartIsSuffix(t);
    if rest != "" {
      var first, after := rest[..TokenEnd(rest)], rest[TokenEnd(rest)..];
      assert Tokens(t) == [first] + Tokens(after);
      hide Tokens, Concat;
      TokensCover(after);
      StripStartIsSuffix(after);
      ConcatFirst(first, Tokens(after));
    }
  }

  ghost predicate Bounded(chunks: seq<string>, maxChars: int) {
    forall i :: 0 <= i < |chunks| ==> 1 <= |chunks[i]| <= maxChars
  }

  /** The text of the chunks, and what waits for the next one. */
  function Text(chunks: seq<string>, current: string): string { Concat(chunks) + current }

  lemma Flushed(chunks: seq<string>, current: string, rest: string, maxChars: int)
    requires Bounded(chunks, maxChars) && 1 <= |current| <= maxChars
    ensures Text(chunks + [current], rest) == Text(chunks, current + rest)
    ensures Bounded(chunks + [current], maxChars)
  {
    ConcatOneMore(chunks, current);
    hide Concat;
  }

  lemma TextMore(chunks: seq<string>, current: string, token: string)
    ensures Text(chunks, current + token) == Text(chunks, current) + token
    ensures Text(chunks, "") == Concat(chunks)
  {
    hide Concat;
  }

  /** A long word is cut into full chunks; what is left of it fits. */
  method CutLongWord(before: seq<string>, pending: string, word: string, maxChars: int)
    returns (chunks: seq<string>, current: string, token: string)
    requires 1 <= maxChars && Bounded(before, maxChars) && |pending| <= maxChars && word != ""
    ensures Bounded(chunks, maxChars) && |current| <= maxChars && 1 <= |token| <= maxChars
    ensures Text(chunks, current + token) == Text(before, pending + word)
  {
    hide Text, Bounded;
    chunks, current, token := before, pending, word;
    while |token| > maxChars
      invariant token != "" && Bounded(chunks, maxChars) && |current| <= maxChars
      invariant Text(chunks, current + token) == Text(before, pending + word)
    {
      if current != "" {
        Flushed(chunks, current, token, maxChars);
        chunks := chunks + [current];
        current := "";
      }
      assert current + token == token == token[..maxChars] + token[maxChars..];
      Flushed(chunks, token[..maxChars], token[maxChars..], maxChars);
      chunks := chunks + [token[..maxChars]];
      token := token[maxChars..];
      assert current + token == token;
    }
  }

  /** Pack words into chunks, cutting those that are too long. */
  method Pack(tokens: seq<string>, maxChars: int) returns (chunks: seq<string>)
    requires 1 <= maxChars && forall i :: 0 <= i < |tokens| ==> tokens[i] != ""
    ensures Concat(chunks) == Concat(tokens) && Bounded(chunks, maxChars)
  {
    var current: string;
    chunks, current := [], "";
    assert Text(chunks, current) == Concat(tokens[..0]);
    assert Bounded(chunks, maxChars);
    hide Text, Concat, Bounded;
    for i := 0 to |tokens|
      invariant Text(chunks, current) == Concat(tokens[..i])
      invariant Bounded(chunks, maxChars) && |current| <= maxChars
    {
      assert tokens[..i + 1] == tokens[..i] + [tokens[i]];
      ConcatOneMore(tokens[..i], tokens[i]);
      TextMore(chunks, current, tokens[i]);
      var token;
      chunks, current, token := CutLongWord(chunks, current, tokens[i], maxChars);
      if current != "" && |current| + |token| > maxChars {
        Flushed(chunks, current, token, maxChars);
        chunks := chunks + [current];
        current := token;
      } else {
        current := current + token;
      }
    }
    assert tokens[..|tokens|] == tokens;
    if current != "" {
      assert current == current + "";
      Flushed(chunks, current, "", maxChars);
      chunks := chunks + [current];
    }
    TextMore(chunks, "", "");
  }

  /** The exact text is preserved exactly when it does not begin with whitespace. */
  lemma PreservedExactly(answer: string, chunks: seq<string>)
    requires Concat(chunks) == Concat(Tokens(answer))
    ensures Concat(chunks) == answer <==> answer == "" || !IsSpace(answer[0])
  {
    TokensCover(answer);
    StripStartIsSuffix(answer);
  }

  /** None stands for the ValueError. */
  method SplitForStream(answer: string, maxChars: int) returns (r: Option<seq<string>>)
    ensures r.None? <==> answer != "" && maxChars < 1
    ensures r.Some? ==> Concat(r.value) == StripStart(answer) && Bounded(r.value, maxChars)
    ensures r.Some? ==> (Concat(r.value) == answer <==> answer == "" || !IsSpace(answer[0]))
  {
    hide Run, Tokens, IsSpace;
    if answer == "" {
      return Some([]);
    }
    if maxChars < 1 {
      return None;
    }
    TokensCover(answer);
    var chunks := Pack(Tokens(answer), maxChars);
    PreservedExactly(answer, chunks);
    r := Some(chunks);
  }
}
