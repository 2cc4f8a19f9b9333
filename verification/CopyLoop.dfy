// Unpadded base64 as in sections 3.2 and 4 of RFC 4648.
module Base64 {
  import opened Wrappers

  type Byte = b: int | 0 <= b < 256
  type Sextet = v: int | 0 <= v < 64

  function Char(v: Sextet): char {
    if v < 26 then ('A' as int + v) as char
    else if v < 52 then ('a' as int + v - 26) as char
    else if v < 62 then ('0' as int + v - 52) as char
    else if v == 62 then '+' else '/'
  }

  function Digit(c: char): Option<Sextet> {
    if 'A' <= c <= 'Z' then Some(c as int - 'A' as int)
    else if 'a' <= c <= 'z' then Some(c as int - 'a' as int + 26)
    else if '0' <= c <= '9' then Some(c as int - '0' as int + 52)
    else if c == '+' then Some(62) else if c == '/' then Some(63) else None
  }

  // The alphabet of RFC 4648, section 4.
  const UPPER: string := "ABCDEFGHIJKLMNOPQRSTUVWXYZ"
  const LOWER: string := "abcdefghijklmnopqrstuvwxyz"
  const DIGITS: string := "0123456789"
  const ALPHABET: string := UPPER + LOWER + DIGITS + "+/"

  lemma UpperAt(i: nat)
    requires i < 26
    ensures |UPPER| == 26 && UPPER[i] as int == 'A' as int + i
  {
  }

  lemma LowerAt(i: nat)
    requires i < 26
    ensures |LOWER| == 26 && LOWER[i] as int == 'a' as int + i
  {
  }

  lemma DigitAt(i: nat)
    requires i < 10
    ensures |DIGITS| == 10 && DIGITS[i] as int == '0' as int + i
  {
  }

  // Each sextet is written as the alphabet's character of that number.
  lemma CharsOfAlphabet(v: Sextet)
    ensures |ALPHABET| == 64 && Char(v) == ALPHABET[v]
  {
    UpperAt(if v < 26 then v else 0);
    LowerAt(if 26 <= v < 52 then v - 26 else 0);
    DigitAt(if 52 <= v < 62 then v - 52 else 0);
  }

  // Three bytes as four sextets, and back.
  function Sextet0(x: Byte): Sextet { x / 4 }

  function Sextet1(x: Byte, y: Byte): Sextet { x % 4 * 16 + y / 16 }

  function Sextet2(y: Byte, z: Byte): Sextet { y % 16 * 4 + z / 64 }

  function Sextet3(z: Byte): Sextet { z % 64 }

  function Byte0(a: Sextet, b: Sextet): Byte { a * 4 + b / 16 }

  function Byte1(b: Sextet, c: Sextet): Byte { b % 16 * 16 + c / 4 }

  function Byte2(c: Sextet, d: Sextet): Byte { c % 4 * 64 + d }

  lemma BytesOfSextets(x: Byte, y: Byte, z: Byte)
    ensures Byte0(Sextet0(x), Sextet1(x, y)) == x
    ensures Byte1(Sextet1(x, y), Sextet2(y, z)) == y
    ensures Byte2(Sextet2(y, z), Sextet3(z)) == z
  {
  }

  function Chars(d: seq<Sextet>): (s: string)
    ensures |s| == |d|
    ensures forall i :: 0 <= i < |d| ==> s[i] == Char(d[i])
  {
    if d == [] then "" else [Char(d[0])] + Chars(d[1..])
  }

  // A last group of one or two bytes is padded with zero bits, not with '='.
  function Encode(data: seq<Byte>): string {
    if |data| == 0 then ""
    else if |data| == 1 then Chars([Sextet0(data[0]), Sextet1(data[0], 0)])
    else if |data| == 2 then Chars([Sextet0(data[0]), Sextet1(data[0], data[1]), Sextet2(data[1], 0)])
    else
      Chars([Sextet0(data[0]), Sextet1(data[0], data[1]), Sextet2(data[1], data[2]), Sextet3(data[2])])
      + Encode(data[3..])
  }

  function Digits(s: string): Option<seq<Sextet>> {
    if s == "" then Some([]) else
      match (Digit(s[0]), Digits(s[1..]))
      case (Some(d), Some(ds)) => Some([d] + ds)
      case _ => None
  }

  function Bytes(d: seq<Sextet>): Option<seq<Byte>> {
    if |d| == 0 then Some([])
    else if |d| == 1 then None
    else if |d| == 2 then Some([Byte0(d[0], d[1])])
    else if |d| == 3 then Some([Byte0(d[0], d[1]), Byte1(d[1], d[2])])
    else
      match Bytes(d[4..])
      case Some(rest) => Some([Byte0(d[0], d[1]), Byte1(d[1], d[2]), Byte2(d[2], d[3])] + rest)
      case None => None
  }

  function Decode(s: string): Option<seq<Byte>> {
    match Digits(s)
    case Some(d) => Bytes(d)
    case None => None
  }

  lemma {:induction false} DigitsOfChars(d: seq<Sextet>, rest: string)
    requires Digits(rest).Some?
    ensures Digits(Chars(d) + rest) == Some(d + Digits(rest).value)
  {
    var s := Chars(d) + rest;
    if d == [] {
      assert s == rest && d + Digits(rest).value == Digits(rest).value;
    } else {
      DigitsOfChars(d[1..], rest);
      FirstOf(Char(d[0]), Chars(d[1..]), rest);
      FirstOf(d[0], d[1..], Digits(rest).value);
      assert d == [d[0]] + d[1..];
    }
  }

  lemma DecodeChars(d: seq<Sextet>)
    ensures Decode(Chars(d)) == Bytes(d)
  {
    DigitsOfChars(d, "");
    assert Chars(d) + "" == Chars(d) && d + [] == d;
  }

  lemma DecodeGroup(d: seq<Sextet>, rest: string)
    requires |d| == 4 && Decode(rest).Some?
    ensures Decode(Chars(d) + rest)
         == Some([Byte0(d[0], d[1]), Byte1(d[1], d[2]), Byte2(d[2], d[3])] + Decode(rest).value)
  {
    DigitsOfChars(d, rest);
    assert (d + Digits(rest).value)[4..] == Digits(rest).value;
  }

  lemma RoundTripOne(x: Byte)
    ensures Decode(Encode([x])) == Some([x])
  {
    var d: seq<Sextet> := [Sextet0(x), Sextet1(x, 0)];
    assert Byte0(d[0], d[1]) == x;
    DecodeChars(d);
    assert Encode([x]) == Chars(d);
  }

  lemma RoundTripTwo(x: Byte, y: Byte)
    ensures Decode(Encode([x, y])) == Some([x, y])
  {
    var d: seq<Sextet> := [Sextet0(x), Sextet1(x, y), Sextet2(y, 0)];
    BytesOfSextets(x, y, 0);
    assert Byte0(d[0], d[1]) == x && Byte1(d[1], d[2]) == y;
    DecodeChars(d);
    assert Encode([x, y]) == Chars(d);
  }

  lemma RoundTripThree(x: Byte, y: Byte, z: Byte, rest: seq<Byte>)
    requires Decode(Encode(rest)) == Some(rest)
    ensures Decode(Encode([x, y, z] + rest)) == Some([x, y, z] + rest)
  {
    BytesOfSextets(x, y, z);
    DecodeGroup([Sextet0(x), Sextet1(x, y), Sextet2(y, z), Sextet3(z)], Encode(rest));
    assert ([x, y, z] + rest)[3..] == rest;
  }

  // Decoding gives back what was encoded.
  lemma {:induction false} RoundTrip(data: seq<Byte>)
    ensures Decode(Encode(data)) == Some(data)
  {
    if |data| == 0 {
    } else if |data| == 1 {
      RoundTripOne(data[0]);
      assert data == [data[0]];
    } else if |data| == 2 {
      RoundTripTwo(data[0], data[1]);
      assert data == [data[0], data[1]];
    } else {
      RoundTrip(data[3..]);
      RoundTripThree(data[0], data[1], data[2], data[3..]);
      assert data == [data[0], data[1], data[2]] + data[3..];
    }
  }

  // The text has no space in it, so it can stand as one field of a log line.
  lemma {:induction false} EncodeHasNoSpace(data: seq<Byte>)
    ensures forall i :: 0 <= i < |Encode(data)| ==> Encode(data)[i] != ' '
  {
    if |data| >= 3 {
      EncodeHasNoSpace(data[3..]);
    }
  }
}

// The loop that copies one direction of a session and keeps a sample of it.
module CopyLoop {
  import opened Wrappers
  import opened Base64

  datatype Error = NoError | EOF | Failed(code: int)

  // What one Read gives: some bytes, and possibly an error with them.
  datatype ReadResult = ReadResult(data: seq<Byte>, err: Error)

  // What one Write does: all of the chunk, or only its first bytes and an error.
  datatype WriteResult = Wrote | Broke(kept: nat, code: int)

  // A reader that is asked again after its last result reports the end.
  class Reader {
    var results: seq<ReadResult>

    constructor (results: seq<ReadResult>)
      ensures this.results == results
    {
      this.results := results;
    }

    method Read(buf: array<Byte>) returns (n: nat, err: Error)
      requires results != [] ==> |results[0].data| <= buf.Length
      modifies this, buf
      ensures n <= buf.Length
      ensures old(results) == [] ==> n == 0 && err == EOF && results == []
      ensures old(results) != [] ==>
        buf[..n] == old(results)[0].data && err == old(results)[0].err && results == old(results)[1..]
    {
      if results == [] {
        return 0, EOF;
      }
      var data := results[0].data;
      n, err := |data|, results[0].err;
      forall i | 0 <= i < n {
        buf[i] := data[i];
      }
      results := results[1..];
    }
  }

  // A writer that outlives its list of results goes on accepting.
  class Writer {
    var results: seq<WriteResult>
    var received: seq<Byte>

    constructor (results: seq<WriteResult>)
      ensures this.results == results && received == []
    {
      this.results := results;
      received := [];
    }

    method Write(chunk: seq<Byte>) returns (err: Error)
      modifies this
      ensures results == Later(old(results))
      ensures received == old(received) + Taken(old(results), chunk)
      ensures err == WriteError(old(results))
    {
      if results == [] {
        received := received + chunk;
        return NoError;
      }
      match results[0] {
        case Wrote => received, err := received + chunk, NoError;
        case Broke(kept, code) =>
          received, err := received + chunk[..if kept < |chunk| then kept else |chunk|], Failed(code);
      }
      results := results[1..];
    }
  }

  function Later(writes: seq<WriteResult>): seq<WriteResult> {
    if writes == [] then [] else writes[1..]
  }

  function WriteError(writes: seq<WriteResult>): Error {
    if writes != [] && writes[0].Broke? then Failed(writes[0].code) else NoError
  }

  function Taken(writes: seq<WriteResult>, chunk: seq<Byte>): seq<Byte> {
    if writes != [] && writes[0].Broke? && writes[0].kept < |chunk| then chunk[..writes[0].kept] else chunk
  }

  predicate Fit(ins: seq<ReadResult>, size: nat) {
    forall i :: 0 <= i < |ins| ==> |ins[i].data| <= size
  }

  // ---- what a copy should do, by the number of reads it takes ----

  function Flatten(ins: seq<ReadResult>): seq<Byte> {
    if ins == [] then [] else Flatten(ins[..|ins| - 1]) + ins[|ins| - 1].data
  }

  // How many writes the first i reads cause: empty reads cause none.
  function WritesBefore(ins: seq<ReadResult>, i: nat): nat
    requires i <= |ins|
  {
    if i == 0 then 0 else WritesBefore(ins, i - 1) + (if ins[i - 1].data != [] then 1 else 0)
  }

  function WritesFrom(ins: seq<ReadResult>, outs: seq<WriteResult>, i: nat): seq<WriteResult>
    requires i <= |ins|
  {
    var n := WritesBefore(ins, i);
    if n <= |outs| then outs[n..] else []
  }

  predicate WriteFails(ins: seq<ReadResult>, outs: seq<WriteResult>, i: nat)
    requires i < |ins|
  {
    ins[i].data != [] && WriteError(WritesFrom(ins, outs, i)) != NoError
  }

  // The copy goes on past read i: it brought no error, and its bytes, if any,
  // were written.
  predicate GoesOn(ins: seq<ReadResult>, outs: seq<WriteResult>, i: nat)
    requires i < |ins|
  {
    ins[i].err == NoError && !WriteFails(ins, outs, i)
  }

  // How many reads the copy takes, the one it stops at included.
  function Reads(ins: seq<ReadResult>, outs: seq<WriteResult>, from: nat): (k: nat)
    requires from <= |ins|
    ensures from <= k <= |ins|
    ensures forall i :: from <= i < k - 1 ==> GoesOn(ins, outs, i)
    ensures k < |ins| ==> k > from && !GoesOn(ins, outs, k - 1)
    decreases |ins| - from
  {
    if from == |ins| then from
    else if GoesOn(ins, outs, from) then Reads(ins, outs, from + 1)
    else from + 1
  }

  lemma {:induction false} FlattenPrefix(ins: seq<ReadResult>, i: nat)
    requires i < |ins|
    ensures Flatten(ins[..i + 1]) == Flatten(ins[..i]) + ins[i].data
  {
    assert ins[..i + 1][..i] == ins[..i];
  }

  function Min(a: nat, b: nat): nat {
    if a < b then a else b
  }

  // What reaches the destination: the reads in order, the last of them cut
  // where its write broke.
  function Delivered(ins: seq<ReadResult>, outs: seq<WriteResult>): seq<Byte> {
    var k := Reads(ins, outs, 0);
    if k == 0 then []
    else if ins[k - 1].data == [] then Flatten(ins[..k - 1])
    else Flatten(ins[..k - 1]) + Taken(WritesFrom(ins, outs, k - 1), ins[k - 1].data)
  }

  // The error the copy ends with; the end of the input is none.
  function Ending(ins: seq<ReadResult>, outs: seq<WriteResult>): Error {
    var k := Reads(ins, outs, 0);
    if k == 0 then NoError
    else if WriteFails(ins, outs, k - 1) then WriteError(WritesFrom(ins, outs, k - 1))
    else if ins[k - 1].err == EOF then NoError
    else ins[k - 1].err
  }

  // Without a failing write the destination gets every byte that was read; with
  // one it gets all reads before it and a prefix of that one.
  lemma DeliveryIsFaithful(ins: seq<ReadResult>, outs: seq<WriteResult>)
    ensures var k := Reads(ins, outs, 0);
      Delivered(ins, outs) <= Flatten(ins[..k]) &&
      (k > 0 ==> Flatten(ins[..k - 1]) <= Delivered(ins, outs)) &&
      ((k > 0 && WriteFails(ins, outs, k - 1)) || Delivered(ins, outs) == Flatten(ins[..k]))
  {
    var k := Reads(ins, outs, 0);
    if k > 0 {
      FlattenPrefix(ins, k - 1);
      var data := ins[k - 1].data;
      ExtendPrefix(Flatten(ins[..k - 1]), if data == [] then [] else Taken(WritesFrom(ins, outs, k - 1), data), data);
    }
  }

  lemma ExtendPrefix(a: seq<Byte>, b: seq<Byte>, c: seq<Byte>)
    requires b <= c
    ensures a <= a + b <= a + c
    ensures b == [] ==> a + b == a
  {
  }

  // Count a chunk of n bytes and keep at most limit bytes of all chunks.
  method AddChunk(copied: nat, sample: seq<Byte>, buf: array<Byte>, n: nat, limit: nat, ghost before: seq<Byte>)
    returns (total: nat, s: seq<Byte>)
    requires n <= buf.Length && copied == |before| && sample == before[..Min(limit, copied)]
    ensures total == |before + buf[..n]| && s == (before + buf[..n])[..Min(limit, total)]
  {
    total, s := copied + n, sample;
    if limit > 0 && |sample| < limit {
      var remain := limit - |sample|;
      if n < remain {
        s := sample + buf[..n];
      } else {
        s := sample + buf[..remain];
      }
    }
  }

  lemma WritesFromNext(ins: seq<ReadResult>, outs: seq<WriteResult>, i: nat)
    requires i < |ins|
    ensures WritesFrom(ins, outs, i + 1)
         == if ins[i].data == [] then WritesFrom(ins, outs, i) else Later(WritesFrom(ins, outs, i))
  {
  }

  // Write the chunk just read, if any, and decide whether to go on.
  method PassOn(dst: Writer, chunk: seq<Byte>, readErr: Error) returns (going: bool, err: Error)
    modifies dst
    ensures var outs := old(dst.results);
      dst.received == old(dst.received) + (if chunk == [] then [] else Taken(outs, chunk)) &&
      dst.results == (if chunk == [] then outs else Later(outs)) &&
      going == (readErr == NoError && (chunk == [] || WriteError(outs) == NoError)) &&
      err == if chunk != [] && WriteError(outs) != NoError then WriteError(outs)
             else if readErr == EOF then NoError else readErr
  {
    going, err := true, NoError;
    if chunk != [] {
      var writeErr := dst.Write(chunk);
      if writeErr != NoError {
        return false, writeErr;
      }
    }
    if readErr != NoError {
      if readErr != EOF {
        err := readErr;
      }
      going := false;
    }
  }

  lemma CopyGoesOn(ins: seq<ReadResult>, outs: seq<WriteResult>, i: nat)
    requires i < |ins| && GoesOn(ins, outs, i)
    ensures Reads(ins, outs, i) == Reads(ins, outs, i + 1)
    ensures Flatten(ins[..i + 1]) == Flatten(ins[..i]) + ins[i].data
    ensures ins[i].data != [] ==> Taken(WritesFrom(ins, outs, i), ins[i].data) == ins[i].data
  {
    FlattenPrefix(ins, i);
  }

  lemma CopyStops(ins: seq<ReadResult>, outs: seq<WriteResult>, i: nat)
    requires i < |ins| && !GoesOn(ins, outs, i) && Reads(ins, outs, 0) == Reads(ins, outs, i)
    ensures Reads(ins, outs, 0) == i + 1
    ensures Flatten(ins[..i + 1]) == Flatten(ins[..i]) + ins[i].data
    ensures Delivered(ins, outs) == Flatten(ins[..i]) +
      (if ins[i].data == [] then [] else Taken(WritesFrom(ins, outs, i), ins[i].data))
    ensures Ending(ins, outs) ==
      if WriteFails(ins, outs, i) then WriteError(WritesFrom(ins, outs, i))
      else if ins[i].err == EOF then NoError else ins[i].err
  {
    FlattenPrefix(ins, i);
  }

  lemma TurnAdds(ins: seq<ReadResult>, outs: seq<WriteResult>, i: nat)
    requires i <= |ins| && Reads(ins, outs, 0) == Reads(ins, outs, i) && (i > 0 ==> GoesOn(ins, outs, i - 1))
    ensures i < |ins| ==> Flatten(ins[..i + 1]) == Flatten(ins[..i]) + ins[i].data
    ensures i < |ins| && GoesOn(ins, outs, i) ==> Flatten(ins[..i]) + Added(ins, outs, i) == Flatten(ins[..i + 1])
    ensures !(i < |ins| && GoesOn(ins, outs, i)) ==> Flatten(ins[..i]) + Added(ins, outs, i) == Delivered(ins, outs)
  {
    if i < |ins| {
      if GoesOn(ins, outs, i) {
        CopyGoesOn(ins, outs, i);
      } else {
        CopyStops(ins, outs, i);
      }
    } else {
      CopyRunsOut(ins, outs);
    }
  }

  lemma CopyRunsOut(ins: seq<ReadResult>, outs: seq<WriteResult>)
    requires Reads(ins, outs, 0) == |ins| && (ins != [] ==> GoesOn(ins, outs, |ins| - 1))
    ensures Delivered(ins, outs) == Flatten(ins[..|ins|])
    ensures Ending(ins, outs) == NoError
  {
    if ins != [] {
      CopyGoesOn(ins, outs, |ins| - 1);
    }
  }

  // Where a copy stands after i reads that all went well.
  ghost predicate Underway(ins: seq<ReadResult>, outs: seq<WriteResult>, i: nat, src: Reader, dst: Writer)
    requires i <= |ins|
    reads src, dst
  {
    src.results == ins[i..] && dst.results == WritesFrom(ins, outs, i) &&
    Reads(ins, outs, 0) == Reads(ins, outs, i) &&
    (i > 0 ==> GoesOn(ins, outs, i - 1))
  }

  // What read i and its write add to the destination.
  function Added(ins: seq<ReadResult>, outs: seq<WriteResult>, i: nat): seq<Byte> {
    if i >= |ins| || ins[i].data == [] then [] else Taken(WritesFrom(ins, outs, i), ins[i].data)
  }

  // One turn of the loop: read i, if there is one, and its write.
  method Turn(dst: Writer, src: Reader, buf: array<Byte>,
              ghost ins: seq<ReadResult>, ghost outs: seq<WriteResult>, ghost i: nat)
    returns (n: nat, going: bool, err: Error)
    requires i <= |ins| && Fit(ins, buf.Length) && Underway(ins, outs, i, src, dst)
    modifies dst, src, buf
    ensures n <= buf.Length && buf[..n] == if i < |ins| then ins[i].data else []
    ensures going == (i < |ins| && GoesOn(ins, outs, i))
    ensures going ==> Underway(ins, outs, i + 1, src, dst) && err == NoError
    ensures !going ==> Reads(ins, outs, 0) == (if i < |ins| then i + 1 else i) && err == Ending(ins, outs)
    ensures dst.received == old(dst.received) + Added(ins, outs, i)
  {
    var readErr;
    n, readErr := src.Read(buf);
    going, err := PassOn(dst, buf[..n], readErr);
    if i < |ins| {
      WritesFromNext(ins, outs, i);
      assert ins[i..][1..] == ins[i + 1..];
      if going {
        CopyGoesOn(ins, outs, i);
      } else {
        CopyStops(ins, outs, i);
      }
    } else {
      CopyRunsOut(ins, outs);
    }
  }

  // The loop itself, with the sample still as bytes.
  method CopyAll(dst: Writer, src: Reader, buf: array<Byte>, limit: nat)
    returns (bytesCopied: nat, sample: seq<Byte>, err: Error)
    requires Fit(src.results, buf.Length)
    modifies dst, src, buf
    ensures var ins, outs := old(src.results), old(dst.results);
      var taken := Flatten(ins[..Reads(ins, outs, 0)]);
      dst.received == old(dst.received) + Delivered(ins, outs) &&
      bytesCopied == |taken| &&
      err == Ending(ins, outs) &&
      sample == taken[..Min(limit, bytesCopied)]
  {
    ghost var ins, outs, start := src.results, dst.results, dst.received;
    ghost var i, taken: seq<Byte> := 0, [];
    var going := true;
    bytesCopied, sample, err := 0, [], NoError;
    while going
      invariant i <= |ins| && taken == Flatten(ins[..i]) && bytesCopied == |taken|
      invariant sample == taken[..Min(limit, bytesCopied)]
      invariant going ==> Underway(ins, outs, i, src, dst) && dst.received == start + taken
      invariant !going ==> i == Reads(ins, outs, 0) && err == Ending(ins, outs)
      invariant !going ==> dst.received == start + Delivered(ins, outs)
      decreases going, |ins| - i
    {
      Assoc(start, taken, Added(ins, outs, i));
      var n;
      n, going, err := Turn(dst, src, buf, ins, outs, i);
      bytesCopied, sample := AddChunk(bytesCopied, sample, buf, n, limit, taken);
      TurnAdds(ins, outs, i);
      i, taken := if i < |ins| then i + 1 else i, taken + buf[..n];
    }
  }

  // The destination gets what was read, up to a write that breaks; the count is
  // of all bytes read; and the log line's sample decodes to the first of them.
  method CopyWithSample(dst: Writer, src: Reader, buf: array<Byte>, sampleLimit: int)
    returns (bytesCopied: nat, sampleB64: string, err: Error)
    requires Fit(src.results, buf.Length)
    modifies dst, src, buf
    ensures var ins, outs := old(src.results), old(dst.results);
      var taken := Flatten(ins[..Reads(ins, outs, 0)]);
      dst.received == old(dst.received) + Delivered(ins, outs) &&
      bytesCopied == |taken| &&
      err == Ending(ins, outs) &&
      Decode(sampleB64) == Some(taken[..Min(if sampleLimit < 0 then 0 else sampleLimit, bytesCopied)])
  {
    var sample;
    bytesCopied, sample, err := CopyAll(dst, src, buf, if sampleLimit < 0 then 0 else sampleLimit);
    sampleB64 := "";
    if |sample| > 0 {
      sampleB64 := Encode(sample);
    }
    RoundTrip(sample);
  }
}
