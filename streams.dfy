// Formatted extraction `in >> v` from a C++ input stream, on a file seen as a
// sequence of whitespace-separated tokens.

module Streams {

  /** A whitespace-separated token of the file, as `>>` sees it. */
  datatype Token = IntTok(i: int) | RealTok(r: real) | Junk

  /** An input stream: its tokens, the read position and the fail bit. */
  datatype Stream = Stream(toks: seq<Token>, pos: nat, fail: bool)

  /** `in >> v` into an int (C++11): after a failure or at the end of input v
      is left as it was; junk stores 0 and fails. A real token is treated like
      junk here: C++ would store its integer prefix (2 for `2.5`) and leave
      the rest (`.5`) for the next extraction, but a token keeps no text to
      split. */
  function ReadInt(s: Stream, v: int): (Stream, int) {
    if s.fail then (s, v)
    else if s.pos >= |s.toks| then (s.(fail := true), v)
    else match s.toks[s.pos]
      case IntTok(i) => (s.(pos := s.pos + 1), i)
      case _ => (s.(fail := true), 0)
  }

  /** `in >> v` into a double or float. */
  function ReadReal(s: Stream, v: real): (Stream, real) {
    if s.fail then (s, v)
    else if s.pos >= |s.toks| then (s.(fail := true), v)
    else match s.toks[s.pos]
      case IntTok(i) => (s.(pos := s.pos + 1), i as real)
      case RealTok(r) => (s.(pos := s.pos + 1), r)
      case Junk => (s.(fail := true), 0.0)
  }

  /** Successive `in >> v` into a row of float variables holding `olds`:
      each read stores what it finds, or leaves its variable alone. */
  function ReadReals(s: Stream, olds: seq<real>): (r: (Stream, seq<real>))
    ensures |r.1| == |olds|
    decreases |olds|
  {
    if olds == [] then (s, [])
    else
      var a := ReadReal(s, olds[0]);
      var rest := ReadReals(a.0, olds[1..]);
      (rest.0, [a.1] + rest.1)
  }

  /** Reads at real tokens take exactly their values and move past them,
      whatever the variables held. */
  lemma {:induction false} ReadRealsAt(toks: seq<Token>, pos: nat, olds: seq<real>, ws: seq<real>)
    requires |ws| == |olds| && pos + |ws| <= |toks|
    requires forall i :: 0 <= i < |ws| ==> toks[pos + i] == RealTok(ws[i])
    ensures ReadReals(Stream(toks, pos, false), olds) == (Stream(toks, pos + |ws|, false), ws)
    decreases |ws|
  {
    if ws != [] {
      assert toks[pos] == RealTok(ws[0]);
      forall i | 0 <= i < |ws| - 1
        ensures toks[pos + 1 + i] == RealTok(ws[1..][i])
      {
        assert toks[pos + (i + 1)] == RealTok(ws[i + 1]);
      }
      ReadRealsAt(toks, pos + 1, olds[1..], ws[1..]);
      assert [ws[0]] + ws[1..] == ws;
    }
  }

  /** Reads after a failure, or at the end of input, store nothing; the
      first of them sets the fail bit. */
  lemma {:induction false} ReadRealsStale(s: Stream, olds: seq<real>)
    requires s.fail || s.pos >= |s.toks|
    ensures ReadReals(s, olds) == (if olds == [] then s else s.(fail := true), olds)
    decreases |olds|
  {
    if olds != [] {
      ReadRealsStale(s.(fail := true), olds[1..]);
      assert [olds[0]] + olds[1..] == olds;
    }
  }
}
