/** Byte strings: searching, and the chunked transfer coding of section 7.1 of RFC 9112. */
module ByteStreams {
  import opened Common

  newtype byte = b: int | 0 <= b < 256

  type Bytes = seq<byte>

  const CRLF: Bytes := [13, 10]

  /** `d` stands at index `i` of `s`. */
  predicate OccursAt(s: Bytes, d: Bytes, i: nat) { i + |d| <= |s| && s[i..i + |d|] == d }

  /** `slice::find`: where `d` first occurs in `s`. */
  function Find(s: Bytes, d: Bytes): (r: Option<nat>)
    ensures r.Some? ==> r.value + |d| <= |s| && OccursAt(s, d, r.value)
    ensures forall i: nat :: OccursAt(s, d, i) ==> r.Some? && r.value <= i
  {
    if |s| < |d| then None
    else if s[..|d|] == d then assert OccursAt(s, d, 0); Some(0)
    else
      assert forall i: nat :: OccursAt(s, d, i) ==> i > 0 && OccursAt(s[1..], d, i - 1) by { OccursInTail(s, d); }
      var r := Find(s[1..], d);
      if r.None? then None else assert s[1..][r.value..r.value + |d|] == s[r.value + 1..r.value + 1 + |d|]; Some(r.value + 1)
  }

  lemma OccursInTail(s: Bytes, d: Bytes)
    requires s != [] && !OccursAt(s, d, 0)
    ensures forall i: nat :: OccursAt(s, d, i) ==> i > 0 && OccursAt(s[1..], d, i - 1)
  {
    forall i: nat | OccursAt(s, d, i) ensures i > 0 && OccursAt(s[1..], d, i - 1) {
      if i > 0 { assert s[1..][i - 1..i - 1 + |d|] == s[i..i + |d|]; }
    }
  }

  /** An occurrence found in what has been read so far is the first one in the whole stream; where
      none is found, the first one of the stream ends beyond what has been read. */
  lemma FindInPrefix(a: Bytes, b: Bytes, d: Bytes)
    ensures Find(a, d).Some? ==> Find(a + b, d) == Find(a, d)
    ensures Find(a, d).None? && Find(a + b, d).Some? ==> Find(a + b, d).value + |d| > |a|
  {
    hide Find, OccursAt;
    var f, g := Find(a, d), Find(a + b, d);
    if f.Some? { OccursInPrefix(a, b, d, f.value); }
    if g.Some? && g.value + |d| <= |a| { OccursInPrefix(a, b, d, g.value); }
  }

  lemma OccursInPrefix(a: Bytes, b: Bytes, d: Bytes, i: nat)
    requires i + |d| <= |a|
    ensures OccursAt(a, d, i) <==> OccursAt(a + b, d, i)
  {
    assert (a + b)[i..i + |d|] == a[i..i + |d|];
  }

  // ---- The chunked transfer coding

  const MAX_DELIMITED_READ_SIZE := 50 * 1024
  const BAD_REQUEST := 400
  const HEADERS_TOO_LARGE := 431
  const SOCKET_FAILURE := -1   // stands for whatever error the socket reports

  /** What a delimited read makes of a stream: the bytes before the first delimiter if it ends within
      `maxSize` bytes, and the stream after it; else nothing, having used up `maxSize` bytes or all. */
  function ReadTo(s: Bytes, delim: Bytes, maxSize: nat): (r: (Option<Bytes>, Bytes))
    ensures |r.1| <= |s|
  {
    var at := Find(s, delim);
    if at.Some? && at.value + |delim| <= maxSize then (Some(s[..at.value]), s[at.value + |delim|..])
    else (None, if |s| >= maxSize then s[maxSize..] else [])
  }

  /** The error it leaves. */
  function ReadToError(s: Bytes, delim: Bytes, maxSize: nat, error: int, failing: bool): int
  {
    if ReadTo(s, delim, maxSize).0.Some? then error
    else if |s| >= maxSize then HEADERS_TOO_LARGE
    else EndError(failing)
  }

  /** The error of a read that meets the end of the stream. */
  function EndError(failing: bool): int { if failing then SOCKET_FAILURE else BAD_REQUEST }

  predicate IsHex(b: byte) { 48 <= b <= 57 || 65 <= b <= 70 || 97 <= b <= 102 }

  predicate AllHex(s: Bytes) { forall i :: 0 <= i < |s| ==> IsHex(s[i]) }

  function HexDigit(b: byte): nat
    requires IsHex(b)
  {
    if b <= 57 then b as int - 48 else if b <= 70 then b as int - 55 else b as int - 87
  }

  function HexValue(s: Bytes): nat
    requires AllHex(s)
  {
    if s == [] then 0 else 16 * HexValue(s[..|s| - 1]) + HexDigit(s[|s| - 1])
  }

  /** The body (None for a null slice), the rest of the stream and the error. */
  datatype Decoded = Decoded(body: Option<Bytes>, rest: Bytes, error: int)

  /** `readChunkedHTTPBody` on a stream, `body` being what has been decoded before: read a line, the
      chunk whose length it gives and a CRLF, until a chunk is empty. A line that cannot be read
      counts as an empty one, and an empty line as the number 0. */
  function Decode(s: Bytes, body: Bytes, error: int, failing: bool): Decoded
    decreases |s|
  {
    var (line, rest) := ReadTo(s, CRLF, MAX_DELIMITED_READ_SIZE);
    var digits := if line.Some? then line.value else [];
    var error := ReadToError(s, CRLF, MAX_DELIMITED_READ_SIZE, error, failing);
    if !AllHex(digits) then Decoded(None, rest, BAD_REQUEST)
    else
      var n := HexValue(digits) % TWO_64;
      if |rest| < n + 2 then Decoded(None, [], EndError(failing))
      else if rest[n..n + 2] != CRLF then Decoded(None, rest[n + 2..], BAD_REQUEST)
      else if n > 0 then Decode(rest[n + 2..], body + rest[..n], error, failing)
      else Decoded(if body == [] then None else Some(body), rest[2..], error)
  }

  /** A chunk, with the numeral that announces its length. */
  datatype Chunk = Chunk(numeral: Bytes, data: Bytes) {
    /** A chunk of section 7.1 of RFC 9112, without extensions, that fits the line limit. */
    predicate Proper() {
      numeral != [] && data != [] && AllHex(numeral) && HexValue(numeral) == |data| < TWO_64
      && |numeral| + 2 <= MAX_DELIMITED_READ_SIZE
    }

    /** What the decoder takes for a chunk: the length counts modulo 2^64. */
    predicate Accepted() {
      data != [] && AllHex(numeral) && HexValue(numeral) % TWO_64 == |data|
      && |numeral| + 2 <= MAX_DELIMITED_READ_SIZE
    }
  }

  /** A last chunk of the RFC, without trailers. */
  predicate ProperLast(numeral: Bytes) {
    numeral != [] && AllHex(numeral) && HexValue(numeral) == 0 && |numeral| + 2 <= MAX_DELIMITED_READ_SIZE
  }

  predicate AcceptedLast(numeral: Bytes) {
    AllHex(numeral) && HexValue(numeral) % TWO_64 == 0 && |numeral| + 2 <= MAX_DELIMITED_READ_SIZE
  }

  /** A sequence of chunks, and what follows them. */
  function Framed(chunks: seq<Chunk>, tail: Bytes): Bytes
  {
    if chunks == [] then tail
    else chunks[0].numeral + CRLF + chunks[0].data + CRLF + Framed(chunks[1..], tail)
  }

  function Encoded(chunks: seq<Chunk>, last: Bytes): Bytes { Framed(chunks, last + CRLF + CRLF) }

  /** As many bytes as a line may have, and the line does not end in them. */
  predicate Overlong(line: Bytes) { |line| == MAX_DELIMITED_READ_SIZE && Find(line, CRLF).None? }

  function Contents(chunks: seq<Chunk>): Bytes
  {
    if chunks == [] then [] else chunks[0].data + Contents(chunks[1..])
  }

  predicate AllProper(chunks: seq<Chunk>) { forall i :: 0 <= i < |chunks| ==> chunks[i].Proper() }

  predicate AllAccepted(chunks: seq<Chunk>) { forall i :: 0 <= i < |chunks| ==> chunks[i].Accepted() }

  /** A numeral followed by CRLF is read as that line. */
  lemma ReadNumeral(numeral: Bytes, after: Bytes)
    requires AllHex(numeral) && |numeral| + 2 <= MAX_DELIMITED_READ_SIZE
    ensures ReadTo(numeral + CRLF + after, CRLF, MAX_DELIMITED_READ_SIZE) == (Some(numeral), after)
  {
    var s := numeral + CRLF + after;
    assert s[|numeral|..|numeral| + 2] == CRLF;
    assert OccursAt(s, CRLF, |numeral|);
    var at := Find(s, CRLF).value;
    hide Find;
    assert s[at] == s[at..at + 2][0] == 13;
    assert at < |numeral| ==> IsHex(numeral[at]);
    assert s[..|numeral|] == numeral && s[|numeral| + 2..] == after;
  }

  /** One chunk is decoded. */
  lemma DecodeChunk(c: Chunk, after: Bytes, body: Bytes, error: int, failing: bool)
    requires c.Accepted()
    ensures Decode(c.numeral + CRLF + c.data + CRLF + after, body, error, failing)
         == Decode(after, body + c.data, error, failing)
  {
    var s := c.numeral + CRLF + c.data + CRLF + after;
    var rest := c.data + CRLF + after;
    assert s == c.numeral + CRLF + rest;
    ReadNumeral(c.numeral, rest);
    var n := |c.data|;
    assert rest[n..n + 2] == CRLF && rest[n + 2..] == after && rest[..n] == c.data;
    hide ReadTo, HexValue;
  }

  lemma DecodeLast(last: Bytes, after: Bytes, body: Bytes, error: int, failing: bool)
    requires AcceptedLast(last)
    ensures Decode(last + CRLF + CRLF + after, body, error, failing)
         == Decoded(if body == [] then None else Some(body), after, error)
  {
    var rest := CRLF + after;
    assert last + CRLF + CRLF + after == last + CRLF + rest;
    ReadNumeral(last, rest);
    assert rest[0..2] == CRLF && rest[2..] == after;
    hide ReadTo, HexValue;
  }

  /** Chunks are taken off the stream one by one. */
  lemma {:induction false} DecodeFramed(chunks: seq<Chunk>, tail: Bytes, body: Bytes, error: int, failing: bool)
    requires AllAccepted(chunks)
    ensures Decode(Framed(chunks, tail), body, error, failing) == Decode(tail, body + Contents(chunks), error, failing)
  {
    hide Decode;
    if chunks == [] {
      assert body + [] == body;
    } else {
      var c := chunks[0];
      DecodeFramed(chunks[1..], tail, body + c.data, error, failing);
      DecodeChunk(c, Framed(chunks[1..], tail), body, error, failing);
      Regroup(body, c.data, Contents(chunks[1..]));
    }
  }

  lemma {:induction false} FramedMore(chunks: seq<Chunk>, tail: Bytes, after: Bytes)
    ensures Framed(chunks, tail) + after == Framed(chunks, tail + after)
  {
    if chunks != [] {
      var c := chunks[0];
      FramedMore(chunks[1..], tail, after);
      Regroup(c.numeral + CRLF + c.data + CRLF, Framed(chunks[1..], tail), after);
    }
  }

  /** Every sequence of chunks decodes to its contents, and the stream goes on right after the final
      CRLF. */
  lemma DecodeEncoded(chunks: seq<Chunk>, last: Bytes, after: Bytes, body: Bytes, error: int, failing: bool)
    requires AllAccepted(chunks) && AcceptedLast(last)
    ensures Decode(Encoded(chunks, last) + after, body, error, failing)
         == Decoded(if body + Contents(chunks) == [] then None else Some(body + Contents(chunks)), after, error)
  {
    hide Decode;
    FramedMore(chunks, last + CRLF + CRLF, after);
    DecodeFramed(chunks, last + CRLF + CRLF + after, body, error, failing);
    DecodeLast(last, after, body + Contents(chunks), error, failing);
  }

  lemma Regroup(a: Bytes, b: Bytes, c: Bytes)
    ensures a + b + c == a + (b + c)
  {
  }

  /** In the terms of the RFC: a non-empty list of non-empty chunks gives their concatenation, and
      the empty list a null body. */
  lemma DecodeProper(chunks: seq<Chunk>, last: Bytes, after: Bytes, failing: bool)
    requires AllProper(chunks) && ProperLast(last)
    ensures Decode(Encoded(chunks, last) + after, [], 0, failing)
         == Decoded(if chunks == [] then None else Some(Contents(chunks)), after, 0)
  {
    assert AllAccepted(chunks);
    DecodeEncoded(chunks, last, after, [], 0, failing);
    assert [] + Contents(chunks) == Contents(chunks);
    if chunks != [] { assert chunks[0].Proper(); }
  }

  // ---- Hexadecimal numerals

  const LOWER := "0123456789abcdef"
  const UPPER := "0123456789ABCDEF"

  /** The digit for `d`, in small or capital letters. */
  function HexByte(d: nat, capital: bool): (b: byte)
    requires d < 16
  {
    assert forall i :: 0 <= i < 16 ==> LOWER[i] < 128 as char && UPPER[i] < 128 as char;
    (if capital then UPPER[d] else LOWER[d]) as byte
  }

  /** The numeral for `n`, by division and remainder. */
  function Hex(n: nat, capital: bool): (s: Bytes)
  {
    if n < 16 then [HexByte(n, capital)] else Hex(n / 16, capital) + [HexByte(n % 16, capital)]
  }

  function Zeros(k: nat): (s: Bytes)
    ensures |s| == k && forall i :: 0 <= i < k ==> s[i] == 48
  {
    seq(k, i => 48)
  }

  lemma HexByteRead(d: nat, capital: bool)
    requires d < 16
    ensures IsHex(HexByte(d, capital)) && HexDigit(HexByte(d, capital)) == d
  {
  }

  /** Whatever number is written, in either case and with any zeros in front, is the number read. */
  lemma {:induction false} HexRead(n: nat, capital: bool, zeros: nat)
    ensures AllHex(Zeros(zeros) + Hex(n, capital)) && HexValue(Zeros(zeros) + Hex(n, capital)) == n
  {
    if n < 16 {
      ZerosRead(zeros);
      HexReadMore(n, capital, zeros, Zeros(zeros));
    } else {
      HexRead(n / 16, capital, zeros);
      HexReadMore(n, capital, zeros, Zeros(zeros) + Hex(n / 16, capital));
    }
  }

  lemma HexReadMore(n: nat, capital: bool, zeros: nat, front: Bytes)
    requires front == if n < 16 then Zeros(zeros) else Zeros(zeros) + Hex(n / 16, capital)
    requires AllHex(front) && HexValue(front) == n / 16
    ensures AllHex(Zeros(zeros) + Hex(n, capital)) && HexValue(Zeros(zeros) + Hex(n, capital)) == n
  {
    HexByteRead(n % 16, capital);
    HexUnfold(n, capital, zeros);
    hide Hex, HexByte, HexDigit, HexValue, AllHex, IsHex, Zeros;
    HexMore(front, HexByte(n % 16, capital));
  }

  lemma HexUnfold(n: nat, capital: bool, zeros: nat)
    ensures Zeros(zeros) + Hex(n, capital)
         == (if n < 16 then Zeros(zeros) else Zeros(zeros) + Hex(n / 16, capital)) + [HexByte(n % 16, capital)]
  {
    hide HexByte;
  }

  lemma HexMore(s: Bytes, d: byte)
    requires AllHex(s) && IsHex(d)
    ensures AllHex(s + [d]) && HexValue(s + [d]) == 16 * HexValue(s) + HexDigit(d)
  {
    assert (s + [d])[..|s|] == s;
  }

  lemma {:induction false} ZerosRead(k: nat)
    ensures AllHex(Zeros(k)) && HexValue(Zeros(k)) == 0
  {
    if k > 0 {
      ZerosRead(k - 1);
      assert Zeros(k) == Zeros(k - 1) + [48];
      HexMore(Zeros(k - 1), 48);
    }
  }

  /** A piece of a body, and how its length is written. */
  datatype Block = Block(data: Bytes, capital: bool, zeros: nat) {
    function Numeral(): Bytes { Zeros(zeros) + Hex(|data|, capital) }

    /** It is not empty, and its length fits 64 bits and the limit on lines. */
    predicate Fits() { data != [] && |data| < TWO_64 && |Numeral()| + 2 <= MAX_DELIMITED_READ_SIZE }
  }

  /** A body as a sender writes it: for each block its length, CRLF, its data and CRLF; then 0, CRLF, CRLF. */
  function Written(blocks: seq<Block>, lastZeros: nat): Bytes
  {
    if blocks == [] then Zeros(lastZeros) + Hex(0, false) + CRLF + CRLF
    else blocks[0].Numeral() + CRLF + blocks[0].data + CRLF + Written(blocks[1..], lastZeros)
  }

  function Joined(blocks: seq<Block>): Bytes
  {
    if blocks == [] then [] else blocks[0].data + Joined(blocks[1..])
  }

  function ChunksOf(blocks: seq<Block>): (chunks: seq<Chunk>)
    ensures |chunks| == |blocks|
  {
    if blocks == [] then [] else [Chunk(blocks[0].Numeral(), blocks[0].data)] + ChunksOf(blocks[1..])
  }

  lemma {:induction false} WrittenChunks(blocks: seq<Block>, lastZeros: nat)
    requires forall i :: 0 <= i < |blocks| ==> blocks[i].Fits()
    ensures AllProper(ChunksOf(blocks)) && Contents(ChunksOf(blocks)) == Joined(blocks)
    ensures Encoded(ChunksOf(blocks), Zeros(lastZeros) + Hex(0, false)) == Written(blocks, lastZeros)
  {
    if blocks != [] {
      var b, more := blocks[0], blocks[1..];
      WrittenChunks(more, lastZeros);
      HexRead(|b.data|, b.capital, b.zeros);
      assert b.Fits() && Chunk(b.Numeral(), b.data).Proper();
      assert ChunksOf(blocks)[1..] == ChunksOf(more);
      hide HexValue, Hex;
    }
  }

  /** Every body that is written so is read: its blocks in one, and the stream goes on right behind it. */
  lemma DecodeWritten(blocks: seq<Block>, lastZeros: nat, after: Bytes, failing: bool)
    requires forall i :: 0 <= i < |blocks| ==> blocks[i].Fits()
    requires lastZeros + 3 <= MAX_DELIMITED_READ_SIZE
    ensures Decode(Written(blocks, lastZeros) + after, [], 0, failing)
         == Decoded(if blocks == [] then None else Some(Joined(blocks)), after, 0)
  {
    WrittenChunks(blocks, lastZeros);
    HexRead(0, false, lastZeros);
    hide Decode, HexValue, Encoded;
    DecodeProper(ChunksOf(blocks), Zeros(lastZeros) + Hex(0, false), after, failing);
  }

  /** The stream begins with a chunk the decoder takes. */
  predicate BeginsWithChunk(s: Bytes)
  {
    var (line, after) := ReadTo(s, CRLF, MAX_DELIMITED_READ_SIZE);
    && line.Some? && AllHex(line.value)
    && var n := HexValue(line.value) % TWO_64;
       n > 0 && OccursAt(after, CRLF, n)
  }

  lemma FirstChunk(s: Bytes) returns (c: Chunk, rest: Bytes)
    requires BeginsWithChunk(s)
    ensures c.Accepted() && |rest| < |s| && s == c.numeral + CRLF + c.data + CRLF + rest
  {
    LineSplit(s);
    var (line, after) := ReadTo(s, CRLF, MAX_DELIMITED_READ_SIZE);
    hide ReadTo, HexValue;
    var n := HexValue(line.value) % TWO_64;
    c, rest := Chunk(line.value, after[..n]), after[n + 2..];
    CutAt(after, n);
    Regroup(c.numeral + CRLF, c.data + CRLF, rest);
    Regroup(c.numeral + CRLF, c.data, CRLF);
  }

  lemma FramedFirst(c: Chunk, chunks: seq<Chunk>, tail: Bytes)
    ensures Framed([c] + chunks, tail) == c.numeral + CRLF + c.data + CRLF + Framed(chunks, tail)
  {
    assert ([c] + chunks)[1..] == chunks;
  }

  /** Every stream is chunks the decoder takes, and a tail that does not begin with one. */
  lemma {:induction false} Peel(s: Bytes) returns (chunks: seq<Chunk>, tail: Bytes)
    ensures AllAccepted(chunks) && s == Framed(chunks, tail) && !BeginsWithChunk(tail)
    decreases |s|
  {
    hide BeginsWithChunk, Chunk.Accepted;
    if BeginsWithChunk(s) {
      var c, rest := FirstChunk(s);
      chunks, tail := Peel(rest);
      FramedFirst(c, chunks, tail);
      chunks := [c] + chunks;
    } else {
      chunks, tail := [], s;
    }
  }

  lemma LineSplit(s: Bytes)
    ensures var (line, rest) := ReadTo(s, CRLF, MAX_DELIMITED_READ_SIZE);
            line.Some? ==> s == line.value + CRLF + rest && |line.value| + 2 <= MAX_DELIMITED_READ_SIZE
  {
    var at := Find(s, CRLF);
    hide Find;
    if at.Some? { CutAt(s, at.value); }
  }

  lemma CutAt(s: Bytes, n: nat)
    requires OccursAt(s, CRLF, n)
    ensures s == s[..n] + CRLF + s[n + 2..]
  {
    assert s == s[..n] + s[n..n + 2] + s[n + 2..];
  }

  /** The decoder stops at such a tail; without an error or with a body only at an empty chunk, or at what
      it takes for one. */
  lemma TailShape(s: Bytes, body: Bytes, failing: bool)
    requires !BeginsWithChunk(s)
    ensures var d, (line, rest) := Decode(s, body, 0, failing), ReadTo(s, CRLF, MAX_DELIMITED_READ_SIZE);
            d.error == 0 || d.body.Some? ==>
              && (line.Some? ==> AllHex(line.value) && HexValue(line.value) % TWO_64 == 0)
              && OccursAt(rest, CRLF, 0)
              && d == Decoded(if body == [] then None else Some(body), rest[2..],
                              ReadToError(s, CRLF, MAX_DELIMITED_READ_SIZE, 0, failing))
  {
    hide ReadTo, ReadToError;
    EmptyIsZero();
    hide HexValue;
  }

  lemma EmptyIsZero()
    ensures HexValue([]) == 0
  {
  }

  lemma DecodeTail(s: Bytes, body: Bytes, failing: bool)
    requires !BeginsWithChunk(s)
    ensures var d, line := Decode(s, body, 0, failing), ReadTo(s, CRLF, MAX_DELIMITED_READ_SIZE).0;
            d.error == 0 ==> line.Some? && AcceptedLast(line.value) && s == line.value + CRLF + CRLF + d.rest
  {
    TailShape(s, body, failing);
    LineSplit(s);
    hide Find, Decode, HexValue, BeginsWithChunk;
    var (line, rest) := ReadTo(s, CRLF, MAX_DELIMITED_READ_SIZE);
    if Decode(s, body, 0, failing).error == 0 { StartsWithCRLF(line.value + CRLF, rest); }
  }

  /** It ends with a body and an error at a line that is too long, if CRLF comes right after what was read
      of it. */
  lemma DecodeLongTail(s: Bytes, body: Bytes, failing: bool)
    requires !BeginsWithChunk(s) && Decode(s, body, 0, failing).body.Some? && Decode(s, body, 0, failing).error != 0
    ensures body != [] && |s| >= MAX_DELIMITED_READ_SIZE && Overlong(s[..MAX_DELIMITED_READ_SIZE])
    ensures s == s[..MAX_DELIMITED_READ_SIZE] + (CRLF + Decode(s, body, 0, failing).rest)
  {
    TailShape(s, body, failing);
    hide Find, Decode, HexValue, BeginsWithChunk, Overlong;
    var (line, rest) := ReadTo(s, CRLF, MAX_DELIMITED_READ_SIZE);
    assert line.None? && rest == s[MAX_DELIMITED_READ_SIZE..];
    TooLong(s);
    assert s == s[..MAX_DELIMITED_READ_SIZE] + rest;
    StartsWithCRLF([], rest);
  }

  lemma StartsWithCRLF(front: Bytes, rest: Bytes)
    requires OccursAt(rest, CRLF, 0)
    ensures rest == CRLF + rest[2..] && front + rest == front + CRLF + rest[2..]
  {
    CutAt(rest, 0);
  }

  lemma TooLong(s: Bytes)
    requires |s| >= MAX_DELIMITED_READ_SIZE && ReadTo(s, CRLF, MAX_DELIMITED_READ_SIZE).0.None?
    ensures Overlong(s[..MAX_DELIMITED_READ_SIZE])
  {
    assert s == s[..MAX_DELIMITED_READ_SIZE] + s[MAX_DELIMITED_READ_SIZE..];
    FindInPrefix(s[..MAX_DELIMITED_READ_SIZE], s[MAX_DELIMITED_READ_SIZE..], CRLF);
    hide Find;
  }

  /** And conversely: a decoding that reports no error has read such a sequence of chunks. */
  lemma DecodedWasEncoded(s: Bytes, body: Bytes, failing: bool) returns (chunks: seq<Chunk>, last: Bytes)
    requires Decode(s, body, 0, failing).error == 0
    ensures AllAccepted(chunks) && AcceptedLast(last)
    ensures s == Encoded(chunks, last) + Decode(s, body, 0, failing).rest
  {
    hide Decode, ReadTo, BeginsWithChunk;
    var tail;
    chunks, tail := Peel(s);
    DecodeFramed(chunks, tail, body, 0, failing);
    DecodeTail(tail, body + Contents(chunks), failing);
    last := ReadTo(tail, CRLF, MAX_DELIMITED_READ_SIZE).0.value;
    FramedMore(chunks, last + CRLF + CRLF, Decode(s, body, 0, failing).rest);
  }

  // ---- A body and an error at once

  /** A line that is too long is taken for an empty one. */
  lemma DecodeOverlong(line: Bytes, after: Bytes, body: Bytes, error: int, failing: bool)
    requires Overlong(line)
    ensures Decode(line + (CRLF + after), body, error, failing)
         == Decoded(if body == [] then None else Some(body), after, HEADERS_TOO_LARGE)
  {
    var rest := CRLF + after;
    FindInPrefix(line, rest, CRLF);
    hide Find;
    assert (line + rest)[MAX_DELIMITED_READ_SIZE..] == rest && rest[0..2] == CRLF && rest[2..] == after;
  }

  /** One or more chunks, a line that does not end within the limit, and CRLF right behind what was read of
      it. */
  ghost predicate CutShort(s: Bytes)
  {
    exists chunks, line, after :: CutShortAs(s, chunks, line, after)
  }

  predicate CutShortAs(s: Bytes, chunks: seq<Chunk>, line: Bytes, after: Bytes)
  {
    AllAccepted(chunks) && chunks != [] && Overlong(line) && s == Framed(chunks, line + (CRLF + after))
  }

  lemma DecodeCutShort(s: Bytes, chunks: seq<Chunk>, line: Bytes, after: Bytes, failing: bool)
    requires CutShortAs(s, chunks, line, after)
    ensures Decode(s, [], 0, failing) == Decoded(Some(Contents(chunks)), after, HEADERS_TOO_LARGE)
  {
    hide Decode, Overlong;
    DecodeFramed(chunks, line + (CRLF + after), [], 0, failing);
    DecodeOverlong(line, after, Contents(chunks), 0, failing);
    assert [] + Contents(chunks) == Contents(chunks);
    assert chunks[0].Accepted();
  }

  lemma BodyWithErrorWasCutShort(s: Bytes, failing: bool)
    requires Decode(s, [], 0, failing).body.Some? && Decode(s, [], 0, failing).error != 0
    ensures CutShort(s)
  {
    hide Decode, BeginsWithChunk, Overlong;
    var chunks, tail := Peel(s);
    DecodeFramed(chunks, tail, [], 0, failing);
    DecodeLongTail(tail, [] + Contents(chunks), failing);
    assert CutShortAs(s, chunks, tail[..MAX_DELIMITED_READ_SIZE], Decode(s, [], 0, failing).rest);
  }

  /** What was decoded so far is returned, together with the error 431, exactly for such a stream. */
  lemma BodyWithErrorExactly(s: Bytes, failing: bool)
    ensures var d := Decode(s, [], 0, failing); d.body.Some? && d.error != 0 <==> CutShort(s)
    ensures CutShort(s) ==> Decode(s, [], 0, failing).error == HEADERS_TOO_LARGE
  {
    hide Decode, CutShortAs;
    if CutShort(s) {
      var chunks, line, after :| CutShortAs(s, chunks, line, after);
      DecodeCutShort(s, chunks, line, after, failing);
    }
    var d := Decode(s, [], 0, failing);
    if d.body.Some? && d.error != 0 { BodyWithErrorWasCutShort(s, failing); }
  }

  /** One proper chunk, 51200 bytes with no CRLF, then CRLF. */
  lemma BodyWithError(data: byte, fill: byte, after: Bytes, failing: bool)
    requires fill != 13
    ensures var line := seq(MAX_DELIMITED_READ_SIZE, i => fill);
            && Chunk([49], [data]).Proper()
            && Decode([49] + CRLF + [data] + CRLF + (line + (CRLF + after)), [], 0, failing)
               == Decoded(Some([data]), after, HEADERS_TOO_LARGE)
  {
    hide Decode, Find;
    var line, c := seq(MAX_DELIMITED_READ_SIZE, i => fill), Chunk([49], [data]);
    FillIsOverlong(fill);
    assert HexValue([49]) == 1;
    FramedFirst(c, [], line + (CRLF + after));
    assert [c] + [] == [c];
    var s := Framed([c], line + (CRLF + after));
    DecodeCutShort(s, [c], line, after, failing);
    assert Contents([c]) == [data];
  }

  lemma FillIsOverlong(fill: byte)
    requires fill != 13
    ensures Overlong(seq(MAX_DELIMITED_READ_SIZE, i => fill))
  {
    var line := seq(MAX_DELIMITED_READ_SIZE, i => fill);
    var at := Find(line, CRLF);
    hide Find;
    if at.Some? { HasReturn(line, at.value); }
  }

  lemma HasReturn(s: Bytes, i: nat)
    requires OccursAt(s, CRLF, i)
    ensures 13 in s
  {
    assert s[i] == s[i..i + 2][0];
  }
}

/** Networking/TCPSocket.cc: buffered reading with push-back, and writing of several slices. */
module TCPSockets {
  import opened Common
  import opened ByteStreams

  /** What the socket reports when there is nothing more to read. */
  datatype Ending = Eof | WouldBlock | Failed

  const INITIAL_DELIMITED_READ_BUFFER_SIZE := 1024

  /** All the bytes of a vector of slices. */
  function Flat(ranges: seq<Bytes>): Bytes
  {
    if ranges == [] then [] else ranges[0] + Flat(ranges[1..])
  }

  lemma FlatDrop(ranges: seq<Bytes>, i: nat)
    requires i < |ranges|
    ensures Flat(ranges[i..]) == ranges[i] + Flat(ranges[i + 1..])
  {
    assert ranges[i..][1..] == ranges[i + 1..];
  }

  /** The vector after `n` bytes of its first slice have been taken. */
  function CutFirst(ranges: seq<Bytes>, n: nat): (r: seq<Bytes>)
    requires ranges != [] && n < |ranges[0]|
    ensures r != [] && Flat(r) == ranges[0][n..] + Flat(ranges[1..])
  {
    var r := [ranges[0][n..]] + ranges[1..];
    assert r[1..] == ranges[1..];
    r
  }

  lemma DropMore(s: Bytes, k: nat, a: Bytes, b: Bytes, j: nat)
    requires k <= |s| && s[k..] == a + b && j <= |a|
    ensures k + j <= |s| && s[k + j..] == a[j..] + b
  {
    assert s[k + j..] == s[k..][j..];
  }

  class TCPSocket {
    const ending: Ending
    var incoming: Bytes        // what the peer sends that has not been read yet
    var unread: array<byte>    // data pushed back
    var unreadLen: nat         // how much of it there is
    var error: int             // the last error, 0 if none
    var eofOnRead: bool
    var sent: Bytes            // what the socket has taken to send

    ghost predicate Valid()
      reads this`unread, this`unreadLen
    {
      unreadLen <= unread.Length
    }

    /** The bytes the caller has still to read. */
    ghost function Stream(): Bytes
      reads this`unread, this`unreadLen, this`incoming, unread
      requires Valid()
    {
      unread[..unreadLen] + incoming
    }

    constructor (incoming: Bytes, ending: Ending)
      ensures Valid() && fresh(unread) && Stream() == incoming && this.ending == ending && error == 0 && sent == []
    {
      this.incoming, this.ending, error, eofOnRead, sent := incoming, ending, 0, false, [];
      unread, unreadLen := new byte[0], 0;
    }

    /** `_read`: some bytes, at least one, if there are any. */
    method ReadRaw(byteCount: nat) returns (n: int, data: Bytes)
      requires byteCount > 0
      modifies this`incoming, this`error, this`eofOnRead
      ensures n == if old(incoming) != [] then |data| else if ending.Failed? then -1 else 0
      ensures |data| <= byteCount && old(incoming) == data + incoming
      ensures old(incoming) != [] ==> data != []
      ensures error == if old(incoming) == [] && ending.Failed? then SOCKET_FAILURE else old(error)
      ensures eofOnRead == (old(eofOnRead) || (old(incoming) == [] && ending.Eof?))
    {
      if incoming == [] {
        data := [];
        if ending.Failed? {
          error := SOCKET_FAILURE;
          return -1, [];
        }
        if ending.Eof? { eofOnRead := true; }
        return 0, [];
      }
      n :| 1 <= n <= byteCount && n <= |incoming|;
      data := incoming[..n];
      incoming := incoming[n..];
    }

    /** Puts data back in front of what is still unread. */
    method PushUnread(data: Bytes)
      requires Valid()
      modifies this`unread, this`unreadLen, unread
      ensures Valid() && (unread == old(unread) || fresh(unread))
      ensures Stream() == data + old(Stream())
    {
      if data == [] {
        assert data + Stream() == Stream();
        return;
      }
      Reserve(unreadLen + |data|);
      ghost var was := unread[..unreadLen];
      MoveUp(unread, unreadLen, |data|);
      CopyIn(unread, data);
      unreadLen := unreadLen + |data|;
      JoinSlices(unread[..], |data|, unreadLen);
      assert unread[..][..unreadLen] == unread[..unreadLen];
      Regroup(data, was, incoming);
    }

    /** `memmove` of the first `len` bytes, up by `n`. */
    static method MoveUp(a: array<byte>, len: nat, n: nat)
      requires len + n <= a.Length
      modifies a
      ensures a[..][n..n + len] == old(a[..len])
    {
      forall i | n <= i < len + n { a[i] := a[i - n]; }
    }

    /** `memcpy` to the start. */
    static method CopyIn(a: array<byte>, data: Bytes)
      requires |data| <= a.Length
      modifies a
      ensures a[..][..|data|] == data && forall i :: |data| <= i < a.Length ==> a[i] == old(a[i])
    {
      forall i | 0 <= i < |data| { a[i] := data[i]; }
    }

    /** Makes room in the buffer. */
    method Reserve(size: nat)
      requires Valid()
      modifies this`unread
      ensures Valid() && (unread == old(unread) || fresh(unread)) && unread.Length >= size
      ensures unread[..unreadLen] == old(unread[..unreadLen])
    {
      if size > unread.Length {
        var bigger := new byte[size];
        forall i | 0 <= i < unreadLen { bigger[i] := unread[i]; }
        unread := bigger;
      }
    }

    /** Reads what was pushed back, or else from the socket. */
    method Read(byteCount: nat) returns (n: int, data: Bytes)
      requires Valid() && byteCount > 0
      modifies this`incoming, this`error, this`eofOnRead, this`unread, this`unreadLen, unread
      ensures Valid() && (unread == old(unread) || fresh(unread))
      ensures n == if old(Stream()) != [] then |data| else if ending.Failed? then -1 else 0
      ensures |data| <= byteCount && old(Stream()) == data + Stream()
      ensures old(Stream()) != [] ==> data != []
      ensures error == if old(Stream()) == [] && ending.Failed? then SOCKET_FAILURE else old(error)
    {
      if unreadLen > 0 {
        n := Min(byteCount, unreadLen);
        data := unread[..n];
        forall i | 0 <= i < unreadLen - n { unread[i] := unread[i + n]; }
        assert unread[..unreadLen - n] == old(unread[..unreadLen])[n..];
        unreadLen := unreadLen - n;
        if unreadLen == 0 { unread := new byte[0]; }
      } else {
        n, data := ReadRaw(byteCount);
      }
    }

    /** Exactly `byteCount` bytes, if the stream has that many. */
    method ReadExactly(byteCount: nat) returns (n: int, data: Bytes)
      requires Valid()
      modifies this`incoming, this`error, this`eofOnRead, this`unread, this`unreadLen, unread
      ensures Valid() && (unread == old(unread) || fresh(unread))
      ensures var s := old(Stream());
              if |s| >= byteCount then n == byteCount && data == s[..byteCount] && Stream() == s[byteCount..]
              else n == (if ending.Failed? then -1 else 0) && Stream() == []
      ensures error == if |old(Stream())| >= byteCount then old(error) else EndError(ending.Failed?)
    {
      var remaining := byteCount;
      data := [];
      while remaining > 0
        invariant Valid() && (unread == old(unread) || fresh(unread))
        invariant old(Stream()) == data + Stream() && 0 <= remaining == byteCount - |data| && error == old(error)
        decreases remaining
      {
        var k, more := Read(remaining);
        if k < 0 { return k, data; }
        if k == 0 {
          error := BAD_REQUEST;
          return k, data;
        }
        remaining := remaining - k;
        Regroup(data, more, Stream());
        data := data + more;
      }
      assert old(Stream())[..byteCount] == data && old(Stream())[byteCount..] == Stream();
      return byteCount, data;
    }

    /** Reads up to the first delimiter, in a buffer that doubles up to `maxSize`. */
    method ReadToDelimiter(delim: Bytes, includeDelim: bool, maxSize: nat) returns (r: Option<Bytes>)
      requires Valid() && delim != [] && maxSize >= INITIAL_DELIMITED_READ_BUFFER_SIZE
      modifies this`incoming, this`error, this`eofOnRead, this`unread, this`unreadLen, unread
      ensures Valid() && (unread == old(unread) || fresh(unread))
      ensures Delimited(old(Stream()), delim, includeDelim, maxSize, old(error), ending.Failed?, r, Stream(), error)
    {
      assert Find([], delim).None?;
      hide Find, Delimited, TCPSocket.Stream;
      var capacity := INITIAL_DELIMITED_READ_BUFFER_SIZE;
      var result: Bytes := [];
      ghost var stream := Stream();
      while true
        invariant Valid() && (unread == old(unread) || fresh(unread))
        invariant stream == result + Stream() && error == old(error)
        invariant |result| < capacity <= maxSize && Find(result, delim).None?
        decreases maxSize - |result|
      {
        var n, data := Read(capacity - |result|);
        if n <= 0 {
          DelimitedEnd(result, delim, includeDelim, maxSize, old(error), ending.Failed?);
          if n < 0 { return None; }
          error := BAD_REQUEST;
          return None;
        }
        Regroup(result, data, Stream());
        result := result + data;
        var found := Find(result, delim);
        if found.Some? {
          r := UnreadRest(result, found.value, delim, includeDelim, maxSize);
          return;
        }
        if |result| == capacity {
          var newSize := Min(capacity * 2, maxSize);
          if newSize == capacity {
            DelimitedFull(result, Stream(), delim, includeDelim, maxSize, old(error), ending.Failed?);
            error := HEADERS_TOO_LARGE;
            return None;
          }
          capacity := newSize;
        }
      }
    }

    /** The delimiter was found: what follows it is pushed back. */
    method UnreadRest(result: Bytes, at: nat, delim: Bytes, includeDelim: bool, maxSize: nat) returns (r: Option<Bytes>)
      requires Valid() && |result| <= maxSize && Find(result, delim) == Some(at)
      modifies this`unread, this`unreadLen, unread
      ensures Valid() && (unread == old(unread) || fresh(unread))
      ensures Delimited(result + old(Stream()), delim, includeDelim, maxSize, error, ending.Failed?, r, Stream(), error)
    {
      hide Find, Delimited, TCPSocket.Stream;
      var end := at + |delim|;
      FindInPrefix(result, Stream(), delim);
      DelimitedFound(result + Stream(), delim, includeDelim, maxSize, error, ending.Failed?, at);
      SliceOfConcat(result, Stream(), at);
      SliceOfConcat(result, Stream(), end);
      PushUnread(result[end..]);
      r := Some(if includeDelim then result[..end] else result[..at]);
    }

    /** The body of a message in the chunked transfer coding. */
    method ReadChunkedHTTPBody() returns (body: Option<Bytes>)
      requires Valid()
      modifies this`incoming, this`error, this`eofOnRead, this`unread, this`unreadLen, unread
      ensures Valid() && (unread == old(unread) || fresh(unread))
      ensures Decoded(body, Stream(), error) == Decode(old(Stream()), [], old(error), ending.Failed?)
    {
      hide ReadTo, ReadToError, HexValue, TCPSocket.Stream;
      var bytes: Bytes := [];
      while true
        invariant Valid() && (unread == old(unread) || fresh(unread))
        invariant Decode(Stream(), bytes, error, ending.Failed?) == Decode(old(Stream()), [], old(error), ending.Failed?)
        decreases |Stream()|
      {
        var chunk, data := ReadChunk(bytes);
        match chunk {
          case Bad => return None;
          case Last => return if bytes == [] then None else Some(bytes);
          case More => bytes := bytes + data;
        }
      }
    }

    /** One turn of the loop: the line with the length, the data and a CRLF. */
    method ReadChunk(ghost body: Bytes) returns (status: ChunkStatus, data: Bytes)
      requires Valid()
      modifies this`incoming, this`error, this`eofOnRead, this`unread, this`unreadLen, unread
      ensures Valid() && (unread == old(unread) || fresh(unread))
      ensures Decode(old(Stream()), body, old(error), ending.Failed?)
           == match status
              case Bad => Decoded(None, Stream(), error)
              case Last => Decoded(if body == [] then None else Some(body), Stream(), error)
              case More => Decode(Stream(), body + data, error, ending.Failed?)
      ensures status.More? ==> |Stream()| < |old(Stream())|
    {
      hide Find, HexValue, TCPSocket.Stream;
      data := [];
      var line := ReadToDelimiter(CRLF, false, MAX_DELIMITED_READ_SIZE);
      var digits := if line.Some? then line.value else [];
      if !AllHex(digits) {
        error := BAD_REQUEST;
        return Bad, [];
      }
      hide ReadTo, ReadToError;
      status, data := ReadChunkData(HexValue(digits) % TWO_64);
    }

    /** The data of a chunk, and the CRLF after it. */
    method ReadChunkData(chunkLength: nat) returns (status: ChunkStatus, data: Bytes)
      requires Valid()
      modifies this`incoming, this`error, this`eofOnRead, this`unread, this`unreadLen, unread
      ensures Valid() && (unread == old(unread) || fresh(unread))
      ensures var s, n := old(Stream()), chunkLength;
              if |s| < n + 2 then status == Bad && Stream() == [] && error == EndError(ending.Failed?)
              else if s[n..n + 2] != CRLF then status == Bad && Stream() == s[n + 2..] && error == BAD_REQUEST
              else && status == (if n > 0 then More else Last)
                   && data == s[..n] && Stream() == s[n + 2..] && error == old(error)
    {
      hide TCPSocket.Stream;
      data := [];
      if chunkLength > 0 {
        var n;
        n, data := ReadExactly(chunkLength);
        // The comparison is between unsigned numbers: an error, -1, is not less than the length.
        if 0 <= n < chunkLength { return Bad, []; }
      }
      var n, crlf := ReadExactly(2);
      if n < 2 { return Bad, []; }
      if crlf != CRLF {
        error := BAD_REQUEST;
        return Bad, [];
      }
      return if chunkLength > 0 then More else Last, data;
    }

    /** Writes as much of the slices as the socket takes; those that are left, the first of them cut,
        stay in the vector. A failed write returns -1. */
    method Write(ranges: seq<Bytes>) returns (written: int, left: seq<Bytes>)
      modifies this`sent, this`error
      ensures -1 <= written <= |Flat(ranges)|
      ensures written < 0 ==> left == ranges && sent == old(sent) && error == SOCKET_FAILURE
      ensures written >= 0 ==> && Flat(left) == Flat(ranges)[written..] && sent == old(sent) + Flat(ranges)[..written]
                               && (left == [] <==> written == |Flat(ranges)|)
    {
      written :| -1 <= written <= |Flat(ranges)|;
      if written < 0 {
        var fatal: bool := *;
        if fatal {
          error := SOCKET_FAILURE;
          return written, ranges;
        }
        written := 0;
      }
      sent := sent + Flat(ranges)[..written];
      left := EraseWritten(ranges, written);
    }

    /** Takes the first `written` bytes out of a vector of slices. */
    static method EraseWritten(ranges: seq<Bytes>, written: nat) returns (left: seq<Bytes>)
      requires written <= |Flat(ranges)|
      ensures Flat(left) == Flat(ranges)[written..]
      ensures left == [] <==> written == |Flat(ranges)|
    {
      var remaining := written;
      ghost var all := Flat(ranges);
      assert ranges[0..] == ranges;
      for i := 0 to |ranges|
        invariant 0 <= remaining <= written
        invariant Flat(ranges[i..]) == all[written - remaining..]
      {
        FlatDrop(ranges, i);
        if remaining < |ranges[i]| {
          DropMore(all, written - remaining, ranges[i], Flat(ranges[i + 1..]), remaining);
          return CutFirst(ranges[i..], remaining);
        }
        DropMore(all, written - remaining, ranges[i], Flat(ranges[i + 1..]), |ranges[i]|);
        assert [] + Flat(ranges[i + 1..]) == Flat(ranges[i + 1..]);
        remaining := remaining - |ranges[i]|;
      }
      left := [];
    }

    /** Any number of calls, each taking what it can: what has been sent and what is left are always
        the original bytes, in order, each once. */
    method WriteRepeatedly(ranges: seq<Bytes>, calls: nat) returns (left: seq<Bytes>)
      modifies this`sent, this`error
      ensures sent + Flat(left) == old(sent) + Flat(ranges)
    {
      left := ranges;
      for i := 0 to calls
        invariant sent + Flat(left) == old(sent) + Flat(ranges)
      {
        var written, next := Write(left);
        left := next;
      }
    }
  }

  datatype ChunkStatus = Bad | Last | More

  /** A delimited read of `s` may return `r`, leaving `rest` and the error `error'`. */
  predicate Delimited(s: Bytes, delim: Bytes, includeDelim: bool, maxSize: nat, error: int, failing: bool,
                      r: Option<Bytes>, rest: Bytes, error': int)
  {
    var (line, after) := ReadTo(s, delim, maxSize);
    && r == (if line.Some? && includeDelim then Some(line.value + delim) else line)
    && rest == after
    && error' == ReadToError(s, delim, maxSize, error, failing)
  }

  lemma DelimitedFound(s: Bytes, delim: Bytes, includeDelim: bool, maxSize: nat, error: int, failing: bool, at: nat)
    requires Find(s, delim) == Some(at) && at + |delim| <= maxSize
    ensures Delimited(s, delim, includeDelim, maxSize, error, failing,
                      Some(if includeDelim then s[..at + |delim|] else s[..at]), s[at + |delim|..], error)
  {
    hide Find;
    assert s[at..at + |delim|] == delim;
    hide OccursAt;
    JoinSlices(s, at, at + |delim|);
  }

  lemma JoinSlices(a: Bytes, i: nat, j: nat)
    requires i <= j <= |a|
    ensures a[..i] + a[i..j] == a[..j]
  {
  }

  lemma SliceOfConcat(a: Bytes, b: Bytes, i: nat)
    requires i <= |a|
    ensures (a + b)[..i] == a[..i] && (a + b)[i..] == a[i..] + b
  {
  }

  lemma DelimitedFull(a: Bytes, b: Bytes, delim: Bytes, includeDelim: bool, maxSize: nat, error: int, failing: bool)
    requires |a| == maxSize && Find(a, delim).None?
    ensures Delimited(a + b, delim, includeDelim, maxSize, error, failing, None, b, HEADERS_TOO_LARGE)
  {
    FindInPrefix(a, b, delim);
    hide Find;
    assert (a + b)[maxSize..] == b;
  }

  lemma DelimitedEnd(a: Bytes, delim: Bytes, includeDelim: bool, maxSize: nat, error: int, failing: bool)
    requires |a| < maxSize && Find(a, delim).None?
    ensures Delimited(a + [], delim, includeDelim, maxSize, error, failing, None, [], EndError(failing))
  {
    assert a + [] == a;
  }

  /** A sender's chunked body comes out of the socket, and what the peer sends next stays in it. */
  method ReadWritten(blocks: seq<Block>, lastZeros: nat, after: Bytes, ending: Ending)
    returns (socket: TCPSocket, body: Option<Bytes>)
    requires forall i :: 0 <= i < |blocks| ==> blocks[i].Fits()
    requires lastZeros + 3 <= MAX_DELIMITED_READ_SIZE
    ensures body == (if blocks == [] then None else Some(Joined(blocks)))
    ensures socket.Valid() && socket.Stream() == after && socket.error == 0
  {
    DecodeWritten(blocks, lastZeros, after, ending.Failed?);
    hide Decode, Written, Joined;
    socket := new TCPSocket(Written(blocks, lastZeros) + after, ending);
    body := socket.ReadChunkedHTTPBody();
  }
}
