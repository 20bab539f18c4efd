/** The log reader of internal/logging: the last lines of a file, read backwards in
    fixed-size chunks, against "split the whole file and keep the last n lines". */
module LogTail {
  import opened Text

  type Byte = x: int | 0 <= x < 256

  const NEWLINE: Byte := 10
  const CHUNK_SIZE: nat := 8192

  /** Number of newline bytes. */
  function Newlines(data: seq<Byte>): nat {
    if data == [] then 0
    else (if data[0] == NEWLINE then 1 else 0) + Newlines(data[1..])
  }

  /** strings.TrimRight(data, "\n"). */
  function Chomp(data: seq<Byte>): (trimmed: seq<Byte>)
    ensures trimmed <= data
    ensures trimmed == [] || trimmed[|trimmed| - 1] != NEWLINE
    ensures forall i :: |trimmed| <= i < |data| ==> data[i] == NEWLINE
  {
    if data != [] && data[|data| - 1] == NEWLINE then Chomp(data[..|data| - 1]) else data
  }

  /** How many newlines end the data. */
  function TrailingNewlines(data: seq<Byte>): nat {
    |data| - |Chomp(data)|
  }

  /** The lines of a byte string; trailing newlines do not make empty lines. */
  function Lines(data: seq<Byte>): seq<seq<Byte>> {
    if Chomp(data) == [] then [] else Split(Chomp(data), NEWLINE)
  }

  /** At most the last n elements. */
  function LastN<T>(s: seq<T>, n: nat): seq<T> {
    if |s| > n then s[|s| - n..] else s
  }

  /** Where the chunk that ends at `offset` begins. */
  function NextOffset(offset: nat): (next: nat)
    requires offset > 0
    ensures next < offset
  {
    if offset < CHUNK_SIZE then 0 else offset - CHUNK_SIZE
  }

  /** Where the backward reader stops: it goes back chunk by chunk until it has seen more than
      n newlines or reached the start. The caller can compute it from the file alone. */
  function StopOffset(data: seq<Byte>, n: nat, offset: nat): (stop: nat)
    requires offset <= |data|
    ensures stop <= offset
    decreases offset
  {
    if offset == 0 then 0
    else
      var next := NextOffset(offset);
      if Newlines(data[next..]) > n then next else StopOffset(data, n, next)
  }

  method CountNewlines(data: seq<Byte>) returns (count: nat)
    ensures count == Newlines(data)
  {
    count := 0;
    for i := 0 to |data|
      invariant count + Newlines(data[i..]) == Newlines(data)
    {
      if data[i] == NEWLINE {
        count := count + 1;
      }
      assert data[i..][1..] == data[i + 1..];
    }
  }

  // ---------------------------------------------------------------- counting lines

  lemma {:induction false} NewlinesAppend(a: seq<Byte>, b: seq<Byte>)
    ensures Newlines(a + b) == Newlines(a) + Newlines(b)
  {
    if a == [] {
      assert a + b == b;
    } else {
      assert (a + b)[1..] == a[1..] + b;
      NewlinesAppend(a[1..], b);
    }
  }

  lemma {:induction false} NewlinesOfNewlines(data: seq<Byte>)
    requires forall i :: 0 <= i < |data| ==> data[i] == NEWLINE
    ensures Newlines(data) == |data|
  {
    if data != [] {
      NewlinesOfNewlines(data[1..]);
    }
  }

  lemma {:induction false} SplitCount(data: seq<Byte>)
    ensures |Split(data, NEWLINE)| == Newlines(data) + 1
  {
    if data != [] {
      SplitCount(data[1..]);
    }
  }

  lemma NewlinesChomp(data: seq<Byte>)
    ensures Newlines(data) == Newlines(Chomp(data)) + TrailingNewlines(data)
  {
    var t := Chomp(data);
    assert data == t + data[|t|..];
    NewlinesAppend(t, data[|t|..]);
    NewlinesOfNewlines(data[|t|..]);
  }

  /** Reading the file from `stop` on is enough: everything was read, or the file has no line at
      all, or the part read holds, besides the newlines that end the file, enough newlines for n
      whole lines. */
  predicate EnoughRead(data: seq<Byte>, stop: nat, n: nat)
    requires stop <= |data|
  {
    var inner := Newlines(data[stop..]) - TrailingNewlines(data);
    || stop == 0
    || Chomp(data) == []
    || (stop < |Chomp(data)| && (inner >= n || (inner == n - 1 && data[stop - 1] == NEWLINE)))
  }

  /** Exactly the files on which reading backwards gives the right answer. */
  predicate TailIsExact(data: seq<Byte>, n: nat) {
    EnoughRead(data, StopOffset(data, n, |data|), n)
  }

  lemma StopOffsetSeesEnough(data: seq<Byte>, n: nat, offset: nat)
    requires offset <= |data|
    ensures var stop := StopOffset(data, n, offset);
            stop == 0 || Newlines(data[stop..]) > n || stop == offset
    decreases offset
  {
    if offset != 0 {
      var next := NextOffset(offset);
      if Newlines(data[next..]) <= n {
        StopOffsetSeesEnough(data, n, next);
      }
    }
  }

  lemma {:induction false} ChompUnique(data: seq<Byte>, head: seq<Byte>)
    requires head <= data
    requires head == [] || head[|head| - 1] != NEWLINE
    requires forall i :: |head| <= i < |data| ==> data[i] == NEWLINE
    ensures Chomp(data) == head
  {
  }

  /** Cutting a file inside its last line or before leaves the trailing newlines alone. */
  lemma ChompSuffix(data: seq<Byte>, stop: nat)
    requires stop <= |data|
    ensures Chomp(data[stop..]) == if stop < |Chomp(data)| then Chomp(data)[stop..] else []
  {
    if stop < |Chomp(data)| {
      ChompUnique(data[stop..], Chomp(data)[stop..]);
    } else {
      ChompUnique(data[stop..], []);
    }
  }

  lemma {:induction false} LinesOfSuffix(data: seq<Byte>, stop: nat)
    requires stop < |Chomp(data)|
    ensures var f := Split(data[..stop], NEWLINE); var b := Lines(data[stop..]);
            && b != []
            && Lines(data) == Fuse(f, b)
            && |b| == Newlines(data[stop..]) - TrailingNewlines(data) + 1
  {
    ChompSuffix(data, stop);
    var t := Chomp(data);
    assert t == data[..stop] + t[stop..];
    SplitAppend(data[..stop], t[stop..], NEWLINE);
    SplitCount(t[stop..]);
    NewlinesChomp(data[stop..]);
  }

  lemma LastNOfFused(front: seq<seq<Byte>>, back: seq<seq<Byte>>, n: nat)
    requires front != [] && back != [] && n > 0
    ensures LastN(back, n) == LastN(Fuse(front, back), n) <==>
            (|back| > n || ((|back| == n || |front| == 1) && front[|front| - 1] == []))
  {
    var whole := Fuse(front, back);
    var k := |front| - 1;
    assert whole[k + 1..] == back[1..];
    assert whole[k] == front[k] + back[0];
    assert front[k] == [] <==> whole[k] == back[0] by {
      assert |whole[k]| == |front[k]| + |back[0]|;
    }
    if |back| > n {
      assert LastN(whole, n) == whole[k + 1..][|back| - 1 - n..];
      assert LastN(back, n) == back[1..][|back| - 1 - n..];
    } else if |back| == n || |front| == 1 {
      assert LastN(whole, n) == whole[k..];
      assert whole[k..] == [whole[k]] + whole[k + 1..];
      assert back == [back[0]] + back[1..];
    }
  }

  lemma {:induction false} LastLinesInside(data: seq<Byte>, stop: nat, n: nat)
    requires n > 0 && 0 < stop < |Chomp(data)|
    ensures LastN(Lines(data[stop..]), n) == LastN(Lines(data), n) <==> EnoughRead(data, stop, n)
  {
    hide Newlines, Chomp, Split, Lines, LastN, Fuse, TrailingNewlines;
    LinesOfSuffix(data, stop);
    var front := data[..stop];
    LastPieceEmpty(front, NEWLINE);
    LastNOfFused(Split(front, NEWLINE), Lines(data[stop..]), n);
    JoinSplit(front, NEWLINE);
  }

  /** Cutting a file anywhere keeps its last n lines exactly when enough of it is kept. */
  lemma LastLinesFrom(data: seq<Byte>, stop: nat, n: nat)
    requires n > 0 && stop <= |data|
    ensures LastN(Lines(data[stop..]), n) == LastN(Lines(data), n) <==> EnoughRead(data, stop, n)
  {
    if stop == 0 {
      assert data[stop..] == data;
    } else if stop >= |Chomp(data)| {
      ChompSuffix(data, stop);
      if Chomp(data) != [] {
        SplitCount(Chomp(data));
      }
    } else {
      LastLinesInside(data, stop, n);
    }
  }

  /** The reader returns the last n lines exactly when TailIsExact says so. */
  lemma {:induction false} TailExactness(data: seq<Byte>, n: nat)
    requires n > 0
    ensures LastN(Lines(data[StopOffset(data, n, |data|)..]), n) == LastN(Lines(data), n) <==> TailIsExact(data, n)
  {
    LastLinesFrom(data, StopOffset(data, n, |data|), n);
  }

  /** With at most one newline at the end -- what the structured log handler writes -- the chunked
      reader is the simple one: no line is ever cut at a chunk boundary. */
  lemma {:induction false} TailRefinesSimple(data: seq<Byte>, n: nat)
    requires n > 0
    requires TrailingNewlines(data) <= 1
    ensures LastN(Lines(data[StopOffset(data, n, |data|)..]), n) == LastN(Lines(data), n)
  {
    var stop := StopOffset(data, n, |data|);
    StopOffsetSeesEnough(data, n, |data|);
    TailExactness(data, n);
    if 0 < stop {
      if stop == |data| {
        StopOffsetBelow(data, n);
      }
      var inner := Newlines(data[stop..]) - TrailingNewlines(data);
    }
  }

  lemma StopOffsetBelow(data: seq<Byte>, n: nat)
    requires data != []
    ensures StopOffset(data, n, |data|) < |data|
  {
  }

  /** Enough blank lines at the end hide the text from the reader: it stops inside them. */
  lemma TailMissesTextBeforeBlankLines(text: Byte)
    requires text != NEWLINE
    ensures var data := [text] + seq(CHUNK_SIZE, _ => NEWLINE);
            && LastN(Lines(data[StopOffset(data, 1, |data|)..]), 1) == []
            && LastN(Lines(data), 1) == [[text]]
  {
    var blank := seq(CHUNK_SIZE, _ => NEWLINE);
    var data := [text] + blank;
    NewlinesOfNewlines(blank);
    assert data[1..] == blank;
    ChompUnique(blank, []);
    ChompUnique(data, [text]);
    SplitWithoutSeparator([text], NEWLINE);
  }

  lemma LinesOfNothing()
    ensures Lines([]) == []
  {
  }

  /** The chunked reader. It hands back the lines of the part of the file it has read. */
  method TailFile(file: seq<Byte>, n: nat) returns (lines: seq<seq<Byte>>)
    ensures lines == LastN(Lines(file[StopOffset(file, n, |file|)..]), n)
  {
    hide Newlines, Chomp, Split;
    var size := |file|;
    if size == 0 {
      LinesOfNothing();
      assert file[0..] == [];
      return [];
    }
    var buffer: seq<Byte> := [];
    var offset := size;
    while offset > 0
      invariant 0 <= offset <= size
      invariant buffer == file[offset..]
      invariant StopOffset(file, n, offset) == StopOffset(file, n, |file|)
      decreases offset
    {
      var readSize := CHUNK_SIZE;
      if offset < readSize {
        readSize := offset;
      }
      offset := offset - readSize;
      var chunk := file[offset..offset + readSize];
      buffer := chunk + buffer;
      assert buffer == file[offset..];
      var count := CountNewlines(buffer);
      if count > n {
        break;
      }
    }
    lines := Lines(buffer);
    if |lines| > n {
      lines := lines[|lines| - n..];
    }
  }

  /** The exported reader; a request for no lines gets none. */
  method Tail(file: seq<Byte>, n: int) returns (lines: seq<seq<Byte>>)
    ensures n <= 0 ==> lines == []
    ensures n > 0 && TrailingNewlines(file) <= 1 ==> lines == LastN(Lines(file), n)
    ensures n > 0 ==> (lines == LastN(Lines(file), n) <==> TailIsExact(file, n))
  {
    if n <= 0 {
      return [];
    }
    lines := TailFile(file, n);
    TailExactness(file, n);
    if TrailingNewlines(file) <= 1 {
      TailRefinesSimple(file, n);
    }
  }
}
