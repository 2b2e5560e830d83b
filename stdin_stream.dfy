/**
 * StdinStream: the input stream the JSON reader pulls from. It reads
 * standard input with `std::cin.read` and keeps its own count `pos_` of
 * the bytes it has handed out.
 */
module Stdin {

  newtype byte = x: int | 0 <= x < 256

  datatype Status = OK | IOError(message: string)

  function Min(a: int, b: int): int {
    if a <= b then a else b
  }

  /**
   * Standard input: the bytes it will deliver before end-of-file, and how
   * many of them have been extracted. `read(out, count)` blocks until
   * `count` bytes have arrived or the input has ended, so it extracts
   * min(count, what is left); `gcount()` is that number.
   */
  class Console {
    const input: seq<byte>
    var cursor: nat

    ghost predicate Valid()
      reads this
    {
      cursor <= |input|
    }

    constructor (input: seq<byte>)
      ensures Valid() && this.input == input && cursor == 0
    {
      this.input := input;
      cursor := 0;
    }

    /** `std::cin.read(out, count)` followed by `std::cin.gcount()`. */
    method Read(out: array<byte>, count: nat) returns (gcount: nat)
      requires Valid() && count <= out.Length
      modifies this, out
      ensures Valid()
      ensures gcount == Min(count, |input| - old(cursor))
      ensures cursor == old(cursor) + gcount
      ensures out[..gcount] == input[old(cursor)..cursor]
      ensures out[gcount..] == old(out[gcount..])
    {
      gcount := Min(count, |input| - cursor);
      forall k | 0 <= k < gcount {
        out[k] := input[cursor + k];
      }
      cursor := cursor + gcount;
    }
  }

  class StdinStream {
    const stdin: Console
    var pos: int
    /** Where standard input stood when the stream was made. */
    ghost const start: nat
    /** Every byte the stream has handed out so far, in order. */
    ghost var delivered: seq<byte>

    /** What the stream has handed out is exactly what it has taken from standard input, and `pos_` counts it. */
    ghost predicate Valid()
      reads this, stdin
    {
      && stdin.Valid()
      && start <= stdin.cursor
      && delivered == stdin.input[start..stdin.cursor]
      && pos == |delivered|
    }

    /** `StdinStream()`: the position starts at 0. */
    constructor (console: Console)
      requires console.Valid()
      ensures Valid() && stdin == console && delivered == [] && pos == 0
    {
      stdin := console;
      pos := 0;
      start := console.cursor;
      delivered := [];
    }

    /** Closing always succeeds; standard input itself stays open. */
    method Close() returns (st: Status)
      ensures st == OK
    {
      st := OK;
    }

    /** The stream never reports itself closed. */
    function Closed(): (b: bool)
      ensures !b
    {
      false
    }

    /** `Tell()`: the number of bytes handed out so far. */
    function Tell(): (p: int)
      reads this, stdin
      requires Valid()
      ensures p == |delivered|
    {
      pos
    }

    /**
     * `Read(nbytes, out)`: at most `nbytes` bytes, the next ones of standard
     * input, placed at the start of `out`; 0 only at the end of the input
     * (or when 0 bytes were asked for). The position moves by the count.
     */
    method ReadInto(nbytes: nat, out: array<byte>) returns (n: nat)
      requires Valid() && nbytes <= out.Length
      modifies this, stdin, out
      ensures Valid()
      ensures n <= nbytes
      ensures stdin.cursor == old(stdin.cursor) + n
      ensures n == Min(nbytes, |stdin.input| - old(stdin.cursor))
      ensures n == 0 ==> nbytes == 0 || old(stdin.cursor) == |stdin.input|
      ensures out[..n] == stdin.input[old(stdin.cursor)..stdin.cursor]
      ensures out[n..] == old(out[n..])
      ensures delivered == old(delivered) + out[..n]
      ensures pos == old(pos) + n
    {
      n := stdin.Read(out, nbytes);
      pos := pos + n;
      delivered := delivered + out[..n];
    }

    /**
     * `Read(nbytes)`: a fresh buffer of `nbytes` bytes is filled by
     * ReadInto and cut down to the count, so its length is the number of
     * bytes read.
     */
    method Read(nbytes: nat) returns (buf: seq<byte>)
      requires Valid()
      modifies this, stdin
      ensures Valid()
      ensures |buf| <= nbytes
      ensures stdin.cursor == old(stdin.cursor) + |buf|
      ensures |buf| == Min(nbytes, |stdin.input| - old(stdin.cursor))
      ensures buf == stdin.input[old(stdin.cursor)..stdin.cursor]
      ensures delivered == old(delivered) + buf
      ensures pos == old(pos) + |buf|
    {
      var data := new byte[nbytes];
      var n := ReadInto(nbytes, data);
      buf := data[..n];
    }
  }

  /** Reading twice hands out consecutive stretches of the input, and Tell counts both. */
  method ReadTwice(console: Console, n1: nat, n2: nat) returns (a: seq<byte>, b: seq<byte>, p: int)
    requires console.Valid() && console.cursor == 0
    modifies console
    ensures |a| + |b| <= |console.input|
    ensures a + b == console.input[..|a| + |b|]
    ensures p == |a| + |b|
    ensures |a| == Min(n1, |console.input|)
  {
    var s := new StdinStream(console);
    a := s.Read(n1);
    b := s.Read(n2);
    p := s.Tell();
  }
}
