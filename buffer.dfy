/** The byte scanner (buffer/lexer.go): the whole input held in one buffer with
    a 0 sentinel appended, a `start`/`pos` cursor pair delimiting the current
    lexeme, bounded lookahead and lexeme extraction. */
module Buffer {
  import opened Common

  /** What Err/PeekErr report: io.EOF once the cursor reaches the sentinel, or
      a read failure latched when the input could not be read. */
  datatype ScanError = EOF | ReadFailure

  /** The buffer ends with the 0 sentinel appended by NewLexerBytes. */
  predicate Terminated(buf: seq<byte>)
  {
    |buf| > 0 && buf[|buf| - 1] == 0
  }

  /** PeekRune on a buffer: the code point and the width of the sequence that
      starts at `i`. The width is read from the lead byte as in RFC 3629
      section 3, but the code point uses the masks of the source as written
      (c & 0xF0 for two- and three-byte leads), so it is not a UTF-8 decoder.
      A continuation byte that is 0 (the sentinel) ends the sequence early.
      The masks are written as integer arithmetic (High4, Low6, Low3); the
      masked fields are disjoint, so the source's `|` is an addition. */
  function DecodeRune(buf: seq<byte>, i: nat): (r: (int, nat))
    requires Terminated(buf) && i < |buf|
    ensures 1 <= r.1 <= 4 && i + r.1 <= |buf|
    ensures r.1 == 1 <==> buf[i] < 0xC0 || buf[i + 1] == 0
    ensures r.1 == 1 ==> r.0 == buf[i]
    ensures i < |buf| - 1 ==> i + r.1 <= |buf| - 1
  {
    var c := buf[i];
    if c < 0xC0 || buf[i + 1] == 0 then
      (c, 1)
    else if c < 0xE0 || buf[i + 2] == 0 then
      (RuneValue(High4(c) * 0x40, Low6(buf[i + 1])), 2)
    else if c < 0xF0 || buf[i + 3] == 0 then
      (RuneValue(High4(c) * 0x1000, Low6(buf[i + 1]) * 0x40 + Low6(buf[i + 2])), 3)
    else
      (RuneValue(Low3(c) * 0x40000, Low6(buf[i + 1]) * 0x1000 + Low6(buf[i + 2]) * 0x40 + Low6(buf[i + 3])), 4)
  }

  /** c & 0xF0 */
  function High4(c: byte): (h: int)
    ensures 0 <= h <= c && h % 16 == 0
  {
    (c / 16) * 16
  }

  /** The masked lead bits joined with the continuation bits. */
  function RuneValue(lead: int, rest: int): int
  {
    lead + rest
  }

  /** c & 0x3F */
  function Low6(c: byte): (l: int)
    ensures 0 <= l < 64
  {
    c % 64
  }

  /** c & 0x07 */
  function Low3(c: byte): (l: int)
    ensures 0 <= l < 8
  {
    c % 8
  }

  /** The lexemes cut out of `buf` at successive cursor positions. */
  function Pieces(buf: seq<byte>, cuts: seq<int>): (r: seq<seq<byte>>)
    requires |cuts| >= 1
    requires forall k :: 0 <= k < |cuts| ==> 0 <= cuts[k] <= |buf|
    requires forall j, k :: 0 <= j <= k < |cuts| ==> cuts[j] <= cuts[k]
    ensures |r| == |cuts| - 1
    ensures forall k :: 0 <= k < |r| ==> r[k] == buf[cuts[k]..cuts[k + 1]]
  {
    if |cuts| == 1 then []
    else Pieces(buf, cuts[..|cuts| - 1]) + [buf[cuts[|cuts| - 2]..cuts[|cuts| - 1]]]
  }

  /** When the cursor only moves forward and every lexeme is taken with Shift,
      the lexemes put back together are the bytes scanned so far. */
  lemma {:induction false} ShiftsConcatenate(buf: seq<byte>, cuts: seq<int>)
    requires |cuts| >= 1
    requires forall k :: 0 <= k < |cuts| ==> 0 <= cuts[k] <= |buf|
    requires forall j, k :: 0 <= j <= k < |cuts| ==> cuts[j] <= cuts[k]
    ensures Flatten(Pieces(buf, cuts)) == buf[cuts[0]..cuts[|cuts| - 1]]
    decreases |cuts|
  {
    if |cuts| > 1 {
      var front := cuts[..|cuts| - 1];
      ShiftsConcatenate(buf, front);
      assert Pieces(buf, cuts)[..|cuts| - 2] == Pieces(buf, front);
      var a, b, c := cuts[0], cuts[|cuts| - 2], cuts[|cuts| - 1];
      assert buf[a..b] + buf[b..c] == buf[a..c];
    }
  }

  /** buffer.Lexer. The Go slice `buf` is `data[..size]`; when the caller's
      slice had spare capacity it is the caller's own array. */
  class Lexer {
    var data: array<byte>
    var size: nat
    var pos: int
    var start: int
    var err: Option<ScanError>
    /** The byte the sentinel overwrote in the caller's array, while it has
        not been written back (the `restore` closure). */
    var restore: Option<byte>

    ghost predicate Valid()
      reads this`size, this`data
    {
      0 < size <= data.Length
    }

    /** The buffer as a value. */
    function Buf(): (b: seq<byte>)
      reads this`size, this`data, data
      requires Valid()
      ensures |b| == size
    {
      data[..size]
    }

    /** NewLexerBytes: `b` is the caller's slice of length `n` over an array
        of capacity `b.Length`. Empty input gets the one-byte buffer {0}; a
        slice with spare capacity is terminated in place (and remembers the
        overwritten byte); otherwise the bytes are copied and 0 appended. */
    constructor NewLexerBytes(b: array<byte>, n: nat)
      requires n <= b.Length
      modifies b
      ensures Valid() && Buf() == old(b[..n]) + [0]
      ensures pos == 0 && start == 0 && err == None
      ensures 0 < n < b.Length ==> data == b && restore == Some(old(b[n]))
      ensures 0 < n < b.Length ==> b[..n] == old(b[..n]) && b[n + 1..] == old(b[n + 1..])
      ensures !(0 < n < b.Length) ==> fresh(data) && restore == None && b[..] == old(b[..])
    {
      pos, start, err := 0, 0, None;
      if n == 0 {
        data := new byte[1](_ => 0);
        size, restore := 1, None;
      } else if n < b.Length {
        var c := b[n];
        b[n] := 0;
        data, size, restore := b, n + 1, Some(c);
      } else {
        var copied := b[..n];
        data := new byte[n + 1](i => if 0 <= i < |copied| then copied[i] else 0);
        size, restore := n + 1, None;
      }
    }

    /** The read-failure branch of NewLexer: a one-byte buffer with the
        error latched. */
    constructor FromReadFailure()
      ensures Valid() && Buf() == [0]
      ensures pos == 0 && start == 0 && err == Some(ReadFailure) && restore == None
    {
      data := new byte[1](_ => 0);
      size, pos, start := 1, 0, 0;
      err, restore := Some(ReadFailure), None;
    }

    /** PeekErr: a latched error always wins; otherwise EOF exactly when
        pos + k reaches the sentinel. */
    function PeekErr(k: int): (r: Option<ScanError>)
      reads this
      ensures err.Some? ==> r == err
      ensures err.None? ==> (r.Some? <==> pos + k >= size - 1)
      ensures err.None? && r.Some? ==> r.value == EOF
    {
      if err.Some? then err
      else if pos + k >= size - 1 then Some(EOF)
      else None
    }

    /** Err is PeekErr at the cursor: the latched read error if there is one,
        otherwise EOF exactly when the cursor is at the sentinel. */
    function Err(): (r: Option<ScanError>)
      reads this
      ensures err.Some? ==> r == err
      ensures err.None? ==> (r.Some? <==> pos >= size - 1)
      ensures err.None? && r.Some? ==> r.value == EOF
    {
      PeekErr(0)
    }

    /** Restore writes back the byte the sentinel replaced, once. */
    method Restore()
      requires Valid()
      modifies data, this`restore
      ensures restore == None
      ensures old(restore).Some? ==> data[..] == old(data[..])[size - 1 := old(restore).value]
      ensures old(restore).None? ==> data[..] == old(data[..])
    {
      if restore.Some? {
        data[size - 1] := restore.value;
        restore := None;
      }
    }

    /** Peek: the byte `k` positions after the cursor. */
    function Peek(k: int): (c: byte)
      reads this, data
      requires Valid() && 0 <= pos + k < size
      ensures c == Buf()[pos + k]
    {
      data[pos + k]
    }

    /** PeekRune at `k` positions after the cursor. */
    function PeekRune(k: int): (r: (int, nat))
      reads this, data
      requires Valid() && Terminated(Buf()) && 0 <= pos + k < size
      ensures 1 <= r.1 <= 4 && pos + k + r.1 <= size
      ensures r.1 == 1 <==> Peek(k) < 0xC0 || Peek(k + 1) == 0
    {
      DecodeRune(Buf(), pos + k)
    }

    method Move(n: int)
      modifies this`pos
      ensures pos == old(pos) + n
    {
      pos := pos + n;
    }

    /** Pos: the length of the current lexeme. */
    function Pos(): int
      reads this
    {
      pos - start
    }

    method Rewind(p: int)
      modifies this`pos
      ensures pos == start + p && Pos() == p
    {
      pos := start + p;
    }

    /** Lexeme: the bytes since `start`, without changing the cursor. */
    function Lexeme(): (b: seq<byte>)
      reads this, data
      requires Valid() && 0 <= start <= pos <= size
      ensures |b| == Pos() && b == Buf()[start..pos]
    {
      data[start..pos]
    }

    method Skip()
      modifies this`start
      ensures start == pos && Pos() == 0
    {
      start := pos;
    }

    /** Shift: returns the current lexeme and starts the next one at the cursor. */
    method Shift() returns (b: seq<byte>)
      requires Valid() && 0 <= start <= pos <= size
      modifies this`start
      ensures b == Buf()[old(start)..pos] && |b| == old(Pos())
      ensures start == pos && Pos() == 0
    {
      assert Buf()[start..pos] == data[start..pos];
      b := data[start..pos];
      start := pos;
    }

    function Offset(): int
      reads this
    {
      pos
    }

    /** Bytes: the buffer without its final (sentinel) byte. */
    function Bytes(): (b: seq<byte>)
      reads this, data
      requires Valid()
      ensures b + [Buf()[size - 1]] == Buf()
    {
      data[..size - 1]
    }
  }

  /** After NewLexerBytes, Bytes() gives back the input and Err() reports EOF
      at once exactly when the input is empty. */
  method NewLexerBytesRoundTrip(b: array<byte>, n: nat) returns (z: Lexer)
    requires n <= b.Length
    modifies b
    ensures z.Valid() && z.Bytes() == old(b[..n])
    ensures z.Err() == (if n == 0 then Some(EOF) else None)
  {
    z := new Lexer.NewLexerBytes(b, n);
    assert z.Bytes() + [z.Buf()[z.size - 1]] == old(b[..n]) + [0];
  }
}
