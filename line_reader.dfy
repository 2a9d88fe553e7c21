/**
 * `StreamingFileReader` (Sources/Tauk/StreamingFileReader.swift): reads a file
 * in 1024-byte chunks and hands out one newline-terminated line per call.
 *
 * The file handle is modelled by the file's contents and the number of bytes
 * already read from it; a handle that could not be opened is `open == false`.
 * UTF-8 decoding (`String(data:encoding:)`) and whitespace trimming
 * (`trimmingCharacters(in: .whitespacesAndNewlines)`) are Foundation's; the
 * reader receives them as the functions `decode` and `trim`.
 */
module LineReader {
  import opened Wrappers

  newtype byte = b: int | 0 <= b < 256

  /** The delimiter, "\n" in UTF-8. */
  const Newline: byte := 10

  /** The length asked of every `readData(ofLength:)`. */
  const ChunkSize: nat := 1024

  /** `buffer.range(of: delimiter)`: the index of the first newline, if any. */
  function FirstDelimiter(s: seq<byte>): (r: Option<nat>)
    ensures r.Some? ==> r.value < |s| && s[r.value] == Newline
  {
    if s == [] then None
    else if s[0] == Newline then Some(0)
    else match FirstDelimiter(s[1..])
      case None => None
      case Some(j) => Some(j + 1)
  }

  /** The newline found is the first one, and none is found only when there is none. */
  lemma {:induction false} FirstDelimiterIsFirst(s: seq<byte>)
    ensures FirstDelimiter(s).Some? ==> forall k :: 0 <= k < FirstDelimiter(s).value ==> s[k] != Newline
    ensures FirstDelimiter(s).None? ==> forall k :: 0 <= k < |s| ==> s[k] != Newline
  {
    if s != [] && s[0] != Newline {
      FirstDelimiterIsFirst(s[1..]);
      assert forall k :: 1 <= k < |s| ==> s[k] == s[1..][k - 1];
    }
  }

  /** Appending bytes behind a newline does not move the first newline. */
  lemma FirstDelimiterOfPrefix(a: seq<byte>, b: seq<byte>)
    requires FirstDelimiter(a).Some?
    ensures FirstDelimiter(a + b) == FirstDelimiter(a)
  {
    var j := FirstDelimiter(a).value;
    FirstDelimiterIsFirst(a);
    FirstDelimiterIsFirst(a + b);
    assert (a + b)[j] == Newline;
    assert forall k :: 0 <= k < j ==> (a + b)[k] == a[k];
  }

  /** The bytes of the next line of `rest`: through the first newline, or all of it when there is none. */
  function RawLine(rest: seq<byte>): seq<byte> {
    match FirstDelimiter(rest)
    case Some(j) => rest[..j + 1]
    case None => rest
  }

  /** The bytes left once the next line is taken off `rest`. */
  function AfterLine(rest: seq<byte>): (after: seq<byte>)
    ensures RawLine(rest) + after == rest
    ensures rest != [] ==> |after| < |rest|
  {
    match FirstDelimiter(rest)
    case Some(j) => rest[j + 1..]
    case None => []
  }

  /**
   * What `readLine` returns when the unread bytes are `rest`: a terminated line
   * decoded and trimmed, an unterminated tail decoded but not trimmed, and
   * nothing when no bytes are left or when the line does not decode.
   */
  function LineOf(rest: seq<byte>, decode: seq<byte> -> Option<string>, trim: string -> string): Option<string> {
    match FirstDelimiter(rest)
    case Some(j) =>
      (match decode(rest[..j + 1])
       case Some(text) => Some(trim(text))
       case None => None)
    case None => if rest == [] then None else decode(rest)
  }

  /** The lines a caller looping `while let line = readLine()` sees: up to the first nil. */
  function Lines(rest: seq<byte>, decode: seq<byte> -> Option<string>, trim: string -> string): seq<string>
    decreases |rest|
  {
    match LineOf(rest, decode, trim)
    case None => []
    case Some(line) => [line] + Lines(AfterLine(rest), decode, trim)
  }

  predicate Terminated(s: seq<byte>) {
    s == [] || s[|s| - 1] == Newline
  }

  /**
   * When every line decodes, the reader yields one line per newline in the
   * file plus one for an unterminated tail: no line is lost or split.
   */
  lemma {:induction false} LinesCount(rest: seq<byte>, decode: seq<byte> -> Option<string>, trim: string -> string)
    requires forall b :: decode(b).Some?
    ensures |Lines(rest, decode, trim)| == multiset(rest)[Newline] + (if Terminated(rest) then 0 else 1)
    decreases |rest|
  {
    if rest != [] {
      var after := AfterLine(rest);
      var line := LineOf(rest, decode, trim);
      assert line.Some?;
      assert Lines(rest, decode, trim) == [line.value] + Lines(after, decode, trim);
      LinesCount(after, decode, trim);
      NewlinesOfNextLine(rest);
    }
  }

  /** Taking one line off `rest` removes exactly the newline that ends it, if any. */
  lemma NewlinesOfNextLine(rest: seq<byte>)
    requires rest != []
    ensures FirstDelimiter(rest).Some? ==> multiset(rest)[Newline] == multiset(AfterLine(rest))[Newline] + 1
    ensures FirstDelimiter(rest).Some? ==> (Terminated(rest) <==> Terminated(AfterLine(rest)))
    ensures FirstDelimiter(rest).None? ==> multiset(rest)[Newline] == 0 && !Terminated(rest)
  {
    FirstDelimiterIsFirst(rest);
    match FirstDelimiter(rest)
    case Some(j) =>
      var head, after := rest[..j], rest[j + 1..];
      assert rest == head + [Newline] + after;
      NewlineJoin(head, after);
    case None =>
      NoNewlineCount(rest);
  }

  /** A line of newline-free bytes and its newline, followed by `after`. */
  lemma NewlineJoin(head: seq<byte>, after: seq<byte>)
    requires forall k :: 0 <= k < |head| ==> head[k] != Newline
    ensures multiset(head + [Newline] + after)[Newline] == multiset(after)[Newline] + 1
    ensures Terminated(head + [Newline] + after) <==> Terminated(after)
  {
    NoNewlineCount(head);
    var s := head + [Newline] + after;
    assert multiset(s) == multiset(head) + multiset{Newline} + multiset(after);
    if after != [] {
      assert s[|s| - 1] == after[|after| - 1];
    }
  }

  lemma NoNewlineCount(s: seq<byte>)
    requires forall k :: 0 <= k < |s| ==> s[k] != Newline
    ensures multiset(s)[Newline] == 0
  {
    assert Newline !in s;
  }

  /** Cutting the line off a buffer that already holds a newline, whatever unread bytes follow it. */
  lemma CutAtDelimiter(buffer: seq<byte>, unread: seq<byte>, decode: seq<byte> -> Option<string>, trim: string -> string)
    requires FirstDelimiter(buffer).Some?
    ensures RawLine(buffer + unread) == RawLine(buffer)
    ensures AfterLine(buffer + unread) == AfterLine(buffer) + unread
    ensures LineOf(buffer + unread, decode, trim) == LineOf(buffer, decode, trim)
  {
    FirstDelimiterOfPrefix(buffer, unread);
    var end := FirstDelimiter(buffer).value + 1;
    assert (buffer + unread)[..end] == buffer[..end];
    assert (buffer + unread)[end..] == buffer[end..] + unread;
  }

  /** An unterminated tail is handed out once: nothing follows it. */
  lemma TailIsLast(rest: seq<byte>, decode: seq<byte> -> Option<string>, trim: string -> string)
    requires rest != [] && FirstDelimiter(rest).None?
    ensures LineOf(rest, decode, trim) == decode(rest)
    ensures AfterLine(rest) == [] && LineOf(AfterLine(rest), decode, trim).None?
  {
  }

  /**
   * Reading the file on from `pos` to `offset` into the buffer keeps the
   * consumed bytes and the buffer a prefix of the file, and leaves the bytes
   * not yet handed out as they were.
   */
  lemma ReadOn(file: seq<byte>, consumed: seq<byte>, buffer: seq<byte>, pos: nat, offset: nat)
    requires pos <= offset <= |file| && consumed + buffer == file[..pos]
    ensures consumed + (buffer + file[pos..offset]) == file[..offset]
    ensures (buffer + file[pos..offset]) + file[offset..] == buffer + file[pos..]
  {
    var read := file[pos..offset];
    assert file[..offset] == file[..pos] + read;
    assert file[pos..] == read + file[offset..];
    assert consumed + (buffer + read) == (consumed + buffer) + read;
  }

  /** The bytes left once `n` successive lines are taken off `rest`. */
  function AfterLines(rest: seq<byte>, n: nat): seq<byte>
    decreases n
  {
    if n == 0 then rest else AfterLine(AfterLines(rest, n - 1))
  }

  /** Taking lines off never lengthens what is left. */
  lemma {:induction false} AfterLinesShrink(rest: seq<byte>, m: nat, n: nat)
    requires m <= n
    ensures |AfterLines(rest, n)| <= |AfterLines(rest, m)|
    decreases n
  {
    if m < n {
      AfterLinesShrink(rest, m, n - 1);
    }
  }

  /** After `k` lines are taken off, the lines still to come are those after the first `k`. */
  lemma {:induction false} LinesAfter(rest: seq<byte>, k: nat, decode: seq<byte> -> Option<string>, trim: string -> string)
    requires k <= |Lines(rest, decode, trim)|
    ensures Lines(AfterLines(rest, k), decode, trim) == Lines(rest, decode, trim)[k..]
    decreases k
  {
    if k > 0 {
      LinesAfter(rest, k - 1, decode, trim);
      var all := Lines(rest, decode, trim);
      var r := AfterLines(rest, k - 1);
      assert Lines(r, decode, trim) == all[k - 1..];
      assert Lines(AfterLine(r), decode, trim) == Lines(r, decode, trim)[1..];
      assert all[k - 1..][1..] == all[k..];
    }
  }

  /** Taking a line off bytes that are not exhausted shortens them for good. */
  lemma AfterLinesStrict(rest: seq<byte>, k: nat, n: nat)
    requires k < n && AfterLines(rest, k) != []
    ensures |AfterLines(rest, n)| < |AfterLines(rest, k)|
  {
    AfterLinesShrink(rest, k + 1, n);
  }

  /** The line handed out after `k` lines are taken off is the `k`-th line. */
  lemma {:induction false} LineAfter(rest: seq<byte>, k: nat, decode: seq<byte> -> Option<string>, trim: string -> string)
    requires k < |Lines(rest, decode, trim)|
    ensures LineOf(AfterLines(rest, k), decode, trim) == Some(Lines(rest, decode, trim)[k])
  {
    LinesAfter(rest, k, decode, trim);
  }

  /** While lines remain to be handed out, bytes remain. */
  lemma {:induction false} NotExhausted(rest: seq<byte>, k: nat, decode: seq<byte> -> Option<string>, trim: string -> string)
    requires k < |Lines(rest, decode, trim)|
    ensures AfterLines(rest, k) != []
  {
    LinesAfter(rest, k, decode, trim);
  }

  /** Once every line is taken off, `readLine` hands out nothing. */
  lemma {:induction false} NothingAfterLines(rest: seq<byte>, decode: seq<byte> -> Option<string>, trim: string -> string)
    ensures LineOf(AfterLines(rest, |Lines(rest, decode, trim)|), decode, trim).None?
  {
    LinesAfter(rest, |Lines(rest, decode, trim)|, decode, trim);
  }

  /** Appending the next `n` bytes of the file to what was read from `offset` on. */
  lemma ReadChunk(file: seq<byte>, buf: seq<byte>, buf': seq<byte>, offset: nat, offset': nat, n: nat)
    requires offset <= offset' && offset' + n <= |file| && buf' == buf + file[offset..offset']
    ensures buf' + file[offset'..offset' + n] == buf + file[offset..offset' + n]
  {
    assert file[offset..offset' + n] == file[offset..offset'] + file[offset'..offset' + n];
  }

  /** Whole chunks leave no partial chunk. */
  lemma WholeChunks(chunks: nat)
    ensures (chunks * ChunkSize) % ChunkSize == 0
  {
  }

  /** Why the filling loop of `readLine` stopped. */
  datatype FillStop = Delimiter(at: nat) | EndOfFile | NoHandle

  class StreamingFileReader {
    /** The bytes the file handle reads, in order (empty when it could not be opened). */
    const file: seq<byte>
    /** Whether `FileHandle(forReadingFrom:)` succeeded. */
    const open: bool
    const decode: seq<byte> -> Option<string>
    const trim: string -> string

    /** The handle's offset: how many bytes have been read from the file. */
    var pos: nat
    var buffer: seq<byte>
    /** Every byte already removed from the buffer, in order. */
    ghost var consumed: seq<byte>

    ghost predicate Valid()
      reads this
    {
      && pos <= |file|
      && consumed + buffer == file[..pos]
      && (!open ==> file == [] && pos == 0 && buffer == [])
    }

    /** The bytes not yet handed out: the buffer followed by the unread part of the file. */
    function Remaining(): (rest: seq<byte>)
      reads this
      requires Valid()
      ensures consumed + rest == file
    {
      assert file == file[..pos] + file[pos..];
      buffer + file[pos..]
    }

    constructor (contents: Option<seq<byte>>, decode: seq<byte> -> Option<string>, trim: string -> string)
      ensures Valid()
      ensures open == contents.Some?
      ensures file == (if contents.Some? then contents.value else [])
      ensures this.decode == decode && this.trim == trim
      ensures pos == 0 && buffer == [] && consumed == []
    {
      this.file := if contents.Some? then contents.value else [];
      this.open := contents.Some?;
      this.decode := decode;
      this.trim := trim;
      pos := 0;
      buffer := [];
      consumed := [];
    }

    /**
     * The loop of `readLine`, on the buffer `buf` and the handle offset
     * `offset`: while the buffer holds no newline, reads the next chunk of at
     * most 1024 bytes and appends it. Stops at the first newline, at end of
     * file, or at once when there is no file handle.
     */
    method Fill(buf: seq<byte>, offset: nat) returns (stop: FillStop, buf': seq<byte>, offset': nat)
      requires offset <= |file|
      ensures offset <= offset' <= |file| && buf' == buf + file[offset..offset']
      ensures stop.Delimiter? ==> FirstDelimiter(buf') == Some(stop.at)
      ensures stop.EndOfFile? ==> open && offset' == |file| && FirstDelimiter(buf').None?
      ensures stop.NoHandle? ==> !open && offset' == offset
      ensures stop.NoHandle? || stop.EndOfFile? ==> FirstDelimiter(buf).None?
      ensures !open && FirstDelimiter(buf).None? ==> stop.NoHandle?
      ensures offset' > offset ==> FirstDelimiter(buf).None?
      ensures offset' > offset && stop.Delimiter? ==> |buf'| - (stop.at + 1) < ChunkSize
      ensures offset' > offset ==> forall k :: 0 <= k < |buf'| - ChunkSize ==> buf'[k] != Newline
      ensures (offset' - offset) % ChunkSize == 0 || offset' == |file|
    {
      buf', offset' := buf, offset;
      var delimiterAt := FirstDelimiter(buf');
      ghost var lastStart := 0;
      ghost var chunks: nat := 0;
      while delimiterAt.None?
        invariant offset <= offset' <= |file| && buf' == buf + file[offset..offset']
        invariant delimiterAt == FirstDelimiter(buf')
        invariant offset' > offset ==> FirstDelimiter(buf).None?
        invariant offset' > offset ==> lastStart <= |buf'| && |buf'| - lastStart <= ChunkSize
        invariant offset' > offset ==> forall k :: 0 <= k < lastStart ==> buf'[k] != Newline
        invariant !open ==> offset' == offset
        invariant offset' == offset + chunks * ChunkSize || offset' == |file|
        decreases |file| - offset'
      {
        if !open {
          return NoHandle, buf', offset';
        }
        var n := if |file| - offset' < ChunkSize then |file| - offset' else ChunkSize;
        var chunk := file[offset'..offset' + n];
        if |chunk| == 0 {
          return EndOfFile, buf', offset';
        }
        FirstDelimiterIsFirst(buf');
        lastStart := |buf'|;
        ReadChunk(file, buf, buf', offset, offset', n);
        buf' := buf' + chunk;
        offset' := offset' + n;
        chunks := chunks + 1;
        delimiterAt := FirstDelimiter(buf');
      }
      stop := Delimiter(delimiterAt.value);
      WholeChunks(chunks);
    }

    /** `readLine`'s filling loop run on the reader's own buffer and handle. */
    method FillBuffer() returns (stop: FillStop)
      requires Valid()
      modifies this`pos, this`buffer
      ensures Valid() && Remaining() == old(Remaining())
      ensures stop.Delimiter? ==> FirstDelimiter(buffer) == Some(stop.at)
      ensures stop.EndOfFile? ==> open && pos == |file| && FirstDelimiter(buffer).None?
      ensures stop.NoHandle? <==> !open
      ensures old(FirstDelimiter(buffer)).Some? ==> pos == old(pos) && buffer == old(buffer)
      ensures pos > old(pos) && stop.Delimiter? ==> |buffer| - (stop.at + 1) < ChunkSize
      ensures pos == old(pos) ==> buffer == old(buffer)
    {
      ghost var rest0 := Remaining();
      var buf, offset;
      stop, buf, offset := Fill(buffer, pos);
      ReadOn(file, consumed, buffer, pos, offset);
      buffer, pos := buf, offset;
      assert Valid();
      assert Remaining() == rest0;
    }

    /**
     * The end of `readLine` once the buffer holds a newline at `at`: the line
     * through it is cut off the buffer, decoded and trimmed.
     */
    method CutLine(at: nat) returns (line: Option<string>)
      requires Valid() && FirstDelimiter(buffer) == Some(at)
      modifies this`buffer, this`consumed
      ensures Valid()
      ensures line == LineOf(old(Remaining()), decode, trim)
      ensures Remaining() == AfterLine(old(Remaining()))
      ensures consumed == old(consumed) + RawLine(old(Remaining()))
      ensures buffer == old(buffer)[at + 1..]
    {
      var end := at + 1;
      ghost var unread := file[pos..];
      CutAtDelimiter(buffer, unread, decode, trim);
      var raw, left := buffer[..end], buffer[end..];
      assert RawLine(buffer) == raw && AfterLine(buffer) == left;
      assert consumed + raw + left == consumed + buffer;
      consumed := consumed + raw;
      buffer := left;
      var text := decode(raw);
      line := if text.Some? then Some(trim(text.value)) else None;
    }

    /**
     * The end of `readLine` at end of file with no newline in the buffer: an
     * unterminated rest is handed out once, decoded but not trimmed, and the
     * buffer emptied; an empty buffer gives nothing.
     */
    method TakeTail() returns (line: Option<string>)
      requires Valid() && pos == |file| && FirstDelimiter(buffer).None?
      modifies this`buffer, this`consumed
      ensures Valid()
      ensures line == LineOf(old(Remaining()), decode, trim)
      ensures Remaining() == AfterLine(old(Remaining()))
      ensures consumed == old(consumed) + RawLine(old(Remaining()))
      ensures buffer == []
    {
      assert file[pos..] == [] && Remaining() == buffer;
      if |buffer| > 0 {
        TailIsLast(buffer, decode, trim);
        line := decode(buffer);
        consumed := consumed + buffer;
        buffer := [];
      } else {
        line := None;
      }
    }

    /**
     * `readLine`: fills the buffer up to a newline, then cuts the line through
     * the first newline off the buffer; at end of file an unterminated rest is
     * handed out once, decoded but not trimmed, and the buffer emptied.
     */
    method ReadLine() returns (line: Option<string>)
      requires Valid()
      modifies this`pos, this`buffer, this`consumed
      ensures Valid()
      ensures line == LineOf(old(Remaining()), decode, trim)
      ensures Remaining() == AfterLine(old(Remaining()))
      ensures consumed == old(consumed) + RawLine(old(Remaining()))
      ensures !open ==> line.None? && pos == old(pos) && buffer == old(buffer)
      ensures old(FirstDelimiter(buffer)).Some? ==> pos == old(pos)
      ensures pos > old(pos) ==> |buffer| < ChunkSize
    {
      var stop := FillBuffer();
      match stop
      case NoHandle =>
        line := None;
      case EndOfFile =>
        line := TakeTail();
      case Delimiter(at) =>
        line := CutLine(at);
    }
  }
}
