/** Decoding a byte stream that arrives in chunks. */
module Streams {
  import opened Bytes

  /** One decoding step on the buffered bytes: wait for more, consume some of them, or stop the
  connection for good. */
  datatype Step<T> = More | Taken(outputs: seq<T>, used: nat) | Stop(outputs: seq<T>)

  /** What a decode loop leaves: its outputs and the bytes still buffered, or a closed connection. */
  datatype Decoded<T> = Open(outputs: seq<T>, rest: seq<byte>) | Closed(outputs: seq<T>)

  /** The verdict on some bytes is not changed by the bytes that follow. */
  ghost predicate Stable<T(!new)>(step: seq<byte> -> Step<T>) {
    && (forall s :: step(s).Taken? ==> 0 < step(s).used <= |s|)
    && (forall s, t :: !step(s).More? ==> step(s + t) == step(s))
  }

  /** The decode loop. */
  ghost function Decode<T>(step: seq<byte> -> Step<T>, s: seq<byte>): Decoded<T>
    decreases |s|
  {
    match step(s)
    case More => Open([], s)
    case Stop(outputs) => Closed(outputs)
    case Taken(outputs, used) => if 0 < used <= |s| then After(outputs, Decode(step, s[used..])) else Closed([])
  }

  ghost function After<T>(outputs: seq<T>, d: Decoded<T>): Decoded<T> {
    match d
    case Open(more, rest) => Open(outputs + more, rest)
    case Closed(more) => Closed(outputs + more)
  }

  /** The loop is run again on each arriving chunk; a closed connection reads no more. */
  ghost function Arrive<T>(step: seq<byte> -> Step<T>, d: Decoded<T>, chunk: seq<byte>): Decoded<T> {
    match d
    case Open(outputs, rest) => After(outputs, Decode(step, rest + chunk))
    case Closed(_) => d
  }

  ghost function ArriveAll<T>(step: seq<byte> -> Step<T>, chunks: seq<seq<byte>>): Decoded<T> {
    if chunks == [] then Open([], []) else Arrive(step, ArriveAll(step, chunks[..|chunks| - 1]), chunks[|chunks| - 1])
  }

  lemma ArriveOne<T>(step: seq<byte> -> Step<T>, chunks: seq<seq<byte>>, chunk: seq<byte>)
    ensures ArriveAll(step, chunks + [chunk]) == Arrive(step, ArriveAll(step, chunks), chunk)
  {
    assert (chunks + [chunk])[..|chunks + [chunk]| - 1] == chunks;
  }

  function Concat<T>(chunks: seq<seq<T>>): seq<T> {
    if chunks == [] then [] else chunks[0] + Concat(chunks[1..])
  }

  lemma AfterAfter<T>(a: seq<T>, b: seq<T>, d: Decoded<T>)
    ensures After(a, After(b, d)) == After(a + b, d)
  {
    assert a + (b + d.outputs) == (a + b) + d.outputs;
  }

  /** Decoding all at once is decoding a first part and then resuming. */
  lemma {:induction false} DecodeSplit<T(!new)>(step: seq<byte> -> Step<T>, s: seq<byte>, t: seq<byte>)
    requires Stable(step)
    ensures Decode(step, s + t) == Arrive(step, Decode(step, s), t)
    decreases |s|
  {
    match step(s)
    case More =>
      assert [] + Decode(step, s + t).outputs == Decode(step, s + t).outputs;
    case Stop(outputs) =>
      assert step(s + t) == step(s);
    case Taken(outputs, used) =>
      assert step(s + t) == step(s);
      assert (s + t)[used..] == s[used..] + t;
      DecodeSplit(step, s[used..], t);
      var d := Decode(step, s[used..]);
      if d.Open? { AfterAfter(outputs, d.outputs, Decode(step, d.rest + t)); }
  }

  lemma {:induction false} ConcatJoin<T>(a: seq<seq<T>>, b: seq<seq<T>>)
    ensures Concat(a + b) == Concat(a) + Concat(b)
  {
    if a == [] {
      assert a + b == b;
    } else {
      assert (a + b)[1..] == a[1..] + b;
      ConcatJoin(a[1..], b);
    }
  }

  /** However the bytes are cut into chunks, the outputs and the outcome are the same. */
  lemma {:induction false} ChunkingIrrelevant<T(!new)>(step: seq<byte> -> Step<T>, chunks: seq<seq<byte>>)
    requires Stable(step) && step([]).More?
    ensures ArriveAll(step, chunks) == Decode(step, Concat(chunks))
  {
    if chunks != [] {
      var front, last := chunks[..|chunks| - 1], chunks[|chunks| - 1];
      ChunkingIrrelevant(step, front);
      DecodeSplit(step, Concat(front), last);
      ConcatJoin(front, [last]);
      assert chunks == front + [last] && Concat([last]) == last;
    }
  }

  // ---------------------------------------------------------------- streams of whole items

  /** Each word is one item: taken whole, and not recognised before it is whole. */
  ghost predicate Word<T>(step: seq<byte> -> Step<T>, word: seq<byte>) {
    && step(word).Taken? && step(word).used == |word|
    && forall k :: 0 <= k < |word| ==> step(word[..k]).More?
  }

  ghost predicate Words<T>(step: seq<byte> -> Step<T>, words: seq<seq<byte>>) {
    forall w :: w in words ==> Word(step, w)
  }

  ghost function WordOutputs<T>(step: seq<byte> -> Step<T>, words: seq<seq<byte>>): seq<T>
    requires Words(step, words)
  {
    if words == [] then []
    else assert Word(step, words[0]); step(words[0]).outputs + WordOutputs(step, words[1..])
  }

  lemma {:induction false} WordOutputsAre<T>(step: seq<byte> -> Step<T>, words: seq<seq<byte>>, outs: seq<seq<T>>)
    requires Words(step, words) && |outs| == |words|
    requires forall i :: 0 <= i < |words| ==> step(words[i]) == Taken(outs[i], |words[i]|)
    ensures WordOutputs(step, words) == Concat(outs)
  {
    if words != [] { WordOutputsAre(step, words[1..], outs[1..]); }
  }

  lemma {:induction false} DecodeWords<T(!new)>(step: seq<byte> -> Step<T>, words: seq<seq<byte>>, tail: seq<byte>)
    requires Stable(step) && Words(step, words)
    ensures Decode(step, Concat(words) + tail) == After(WordOutputs(step, words), Decode(step, tail))
    decreases |words|
  {
    if words == [] {
      assert Concat(words) + tail == tail;
      assert [] + Decode(step, tail).outputs == Decode(step, tail).outputs;
    } else {
      var first, others := words[0], Concat(words[1..]);
      assert Word(step, first);
      assert step(first + (others + tail)) == step(first);
      assert (first + (others + tail))[|first|..] == others + tail;
      assert Concat(words) + tail == first + (others + tail);
      DecodeWords(step, words[1..], tail);
      AfterAfter(step(first).outputs, WordOutputs(step, words[1..]), Decode(step, tail));
    }
  }

  lemma WholeWords<T(!new)>(step: seq<byte> -> Step<T>, words: seq<seq<byte>>, chunks: seq<seq<byte>>)
    requires Stable(step) && step([]).More? && Words(step, words) && Concat(chunks) == Concat(words)
    ensures ArriveAll(step, chunks) == Open(WordOutputs(step, words), [])
  {
    ChunkingIrrelevant(step, chunks);
    DecodeWords(step, words, []);
    assert Concat(words) + [] == Concat(words);
    assert WordOutputs(step, words) + [] == WordOutputs(step, words);
  }

  /** How many words are complete after `k` bytes of their stream. */
  ghost function Complete(words: seq<seq<byte>>, k: nat): (n: nat)
    requires k <= |Concat(words)|
    ensures n <= |words| && |Concat(words[..n])| <= k && (n < |words| ==> k < |Concat(words[..n])| + |words[n]|)
  {
    if words == [] || k < |words[0]| then 0
    else
      var n := Complete(words[1..], k - |words[0]|);
      assert words[..n + 1][0] == words[0] && words[..n + 1][1..] == words[1..][..n];
      n + 1
  }

  /** A reader of any part of a stream of words, in any chunks, has output exactly the complete words,
  in order, and holds the beginning of the next one. */
  lemma PartOfStream<T(!new)>(step: seq<byte> -> Step<T>, words: seq<seq<byte>>, chunks: seq<seq<byte>>)
    requires Stable(step) && step([]).More? && Words(step, words) && Concat(chunks) <= Concat(words)
    ensures var n := Complete(words, |Concat(chunks)|);
            var rest := Concat(chunks)[|Concat(words[..n])|..];
            && ArriveAll(step, chunks) == Open(WordOutputs(step, words[..n]), rest)
            && (if n < |words| then rest < words[n] else rest == [])
  {
    ChunkingIrrelevant(step, chunks);
    var s := Concat(chunks);
    var n := Complete(words, |s|);
    var rest := RestOfStream(words, s, n);
    DecodeWords(step, words[..n], rest);
    if n < |words| { StrictPrefixWaits(step, words[n], rest); }
    assert Decode(step, rest) == Open([], rest);
  }

  lemma StrictPrefixWaits<T>(step: seq<byte> -> Step<T>, word: seq<byte>, s: seq<byte>)
    requires Word(step, word) && s < word
    ensures step(s).More?
  {
    assert s == word[..|s|];
  }

  lemma RestOfStream(words: seq<seq<byte>>, s: seq<byte>, n: nat) returns (rest: seq<byte>)
    requires s <= Concat(words) && n == Complete(words, |s|)
    ensures s == Concat(words[..n]) + rest && rest == s[|Concat(words[..n])|..]
    ensures if n < |words| then rest < words[n] else rest == []
  {
    var whole, later := Concat(words[..n]), Concat(words[n..]);
    ConcatJoin(words[..n], words[n..]);
    assert words == words[..n] + words[n..];
    rest := s[|whole|..];
    PrefixTail(whole, later, s);
    if n < |words| {
      assert words[n..][0] == words[n];
      assert rest == words[n][..|rest|];
    }
  }

  lemma PrefixTail<T>(whole: seq<T>, later: seq<T>, s: seq<T>)
    requires s <= whole + later && |whole| <= |s|
    ensures s == whole + s[|whole|..] && s[|whole|..] <= later
  {
    assert forall i :: 0 <= i < |whole| ==> s[i] == (whole + later)[i];
    assert forall i :: |whole| <= i < |s| ==> s[i] == (whole + later)[i];
  }
}
