/**
 Fragmentation of a line into IRC messages, as `Sender::send_raw_message` does it.

 A Rust `str` is a sequence of Unicode scalar values; offsets into it are byte offsets of its UTF-8
 form. Lines are modelled as strings, with `Bytes` giving the offsets.
 */
module Fragments {
  import opened Outcomes

  /** `MESSAGE_MAX_LEN`. */
  const MAX_LEN: nat := 350

  /** The number of octets of a character in UTF-8 (RFC 3629, section 3). */
  function Width(c: char): (w: nat)
    ensures 1 <= w <= 4
  {
    if c as int < 0x80 then 1 else if c as int < 0x800 then 2 else if c as int < 0x10000 then 3 else 4
  }

  function Bytes(s: string): (n: nat)
    ensures |s| <= n
  {
    if s == [] then 0 else Width(s[0]) + Bytes(s[1..])
  }

  function Concat(chunks: seq<string>): string {
    if chunks == [] then [] else chunks[0] + Concat(chunks[1..])
  }

  predicate Ascii(s: string) {
    forall c <- s :: Width(c) == 1
  }

  lemma {:induction false} BytesAppend(a: string, b: string)
    ensures Bytes(a + b) == Bytes(a) + Bytes(b)
  {
    if a == [] {
      assert a + b == b;
    } else {
      BytesAppend(a[1..], b);
      assert (a + b)[1..] == a[1..] + b;
    }
  }

  lemma BytesStep(s: string, k: nat)
    requires k < |s|
    ensures Bytes(s[..k + 1]) == Bytes(s[..k]) + Width(s[k])
  {
    BytesAppend(s[..k], [s[k]]);
    assert s[..k + 1] == s[..k] + [s[k]];
  }

  lemma {:induction false} BytesAscii(s: string)
    requires Ascii(s)
    ensures Bytes(s) == |s|
  {
    if s != [] { BytesAscii(s[1..]); }
  }

  /** Where the first line of a text ends. */
  function LineEnd(text: string): (k: nat)
    ensures k <= |text|
    ensures '\n' !in text[..k]
    ensures k < |text| ==> text[k] == '\n'
  {
    if text == [] || text[0] == '\n' then 0
    else
      assert forall j :: 0 <= j <= |text| - 1 ==> text[..j + 1] == [text[0]] + text[1..][..j];
      1 + LineEnd(text[1..])
  }

  function WithoutReturn(line: string): string {
    if line != [] && line[|line| - 1] == '\r' then line[..|line| - 1] else line
  }

  /** `str::lines`: split after each newline, and drop the line ending. */
  function Lines(text: string): (lines: seq<string>)
    ensures forall l <- lines :: '\n' !in l
  {
    if text == [] then []
    else
      var k := LineEnd(text);
      [WithoutReturn(text[..k])] + (if k < |text| then Lines(text[k + 1..]) else [])
  }

  /** Everything `send_raw_message` sends of a text, in order. */
  function Chunks(lines: seq<string>): seq<string> {
    if lines == [] then [] else Sent(lines[0], true) + Chunks(lines[1..])
  }

  /** How many characters it takes to reach `need` bytes; all of them when they do not reach. */
  function Reach(s: string, need: nat): (k: nat)
    ensures k <= |s|
  {
    if need == 0 || s == [] then 0
    else 1 + Reach(s[1..], if need <= Width(s[0]) then 0 else need - Width(s[0]))
  }

  lemma {:induction false} ReachBounds(s: string, need: nat)
    ensures var k := Reach(s, need);
            && (k < |s| ==> need <= Bytes(s[..k]))
            && (0 < need ==> Bytes(s[..k]) < need + 4)
            && (forall j :: 0 <= j < k ==> Bytes(s[..j]) < need)
            && (Ascii(s) ==> Bytes(s[..k]) <= need)
            && (0 < need && s != [] ==> 0 < k)
            && (Bytes(s) < need ==> k == |s|)
  {
    if need != 0 && s != [] {
      var need' := if need <= Width(s[0]) then 0 else need - Width(s[0]);
      ReachBounds(s[1..], need');
      var k := Reach(s, need);
      assert s[..k][1..] == s[1..][..k - 1];
      forall j | 0 <= j < k ensures Bytes(s[..j]) < need {
        if j > 0 { assert s[..j][1..] == s[1..][..j - 1]; }
      }
    }
  }

  /** Where the next fragment of `rest` ends. */
  function Cut(rest: string): (k: nat)
    ensures k <= |rest|
    ensures rest != [] ==> 0 < k
  {
    Reach(rest, MAX_LEN)
  }

  /** What is sent of the text from the last cut on. A text that fits is sent whole, but only when
      some character of it is still to be looked at: after a cut, the one at its start is not. */
  function Sent(rest: string, untouched: bool): seq<string> {
    if rest == [] then []
    else if Bytes(rest) <= MAX_LEN then if untouched || |rest| >= 2 then [rest] else []
    else if Cut(rest) < |rest| then [rest[..Cut(rest)]] + Sent(rest[Cut(rest)..], false)
    else []
  }

  /** What is left of the text when no further cut has a character after it. */
  function Remainder(rest: string): string {
    if Bytes(rest) > MAX_LEN && Cut(rest) < |rest| then Remainder(rest[Cut(rest)..]) else rest
  }

  /** The scan over the characters, resumed at the `j`-th one after the last cut. */
  function Resume(rest: string, j: nat): seq<string>
    decreases |rest|, |rest| - j
  {
    if j >= |rest| then []
    else if j > 0 && Bytes(rest[..j]) >= MAX_LEN then [rest[..j]] + Resume(rest[j..], 1)
    else if Bytes(rest) <= MAX_LEN then [rest]
    else Resume(rest, j + 1)
  }

  lemma {:induction false} ResumeSends(rest: string, j: nat)
    requires j <= Cut(rest)
    ensures Bytes(rest) > MAX_LEN ==> Resume(rest, j) == Sent(rest, false) == Sent(rest, true)
    ensures Bytes(rest) <= MAX_LEN ==> Resume(rest, 0) == Sent(rest, true) && Resume(rest, 1) == Sent(rest, false)
    decreases |rest|, |rest| - j
  {
    if Bytes(rest) <= MAX_LEN {
      if |rest| >= 2 {
        assert rest == rest[..1] + rest[1..];
        BytesAppend(rest[..1], rest[1..]);
      }
    } else {
      ReachBounds(rest, MAX_LEN);
      var k := Cut(rest);
      if j < k {
        if j < |rest| { ResumeSends(rest, j + 1); }
      } else if k < |rest| {
        var next := rest[k..];
        ReachBounds(next, MAX_LEN);
        ResumeSends(next, 1);
      }
    }
  }

  /** Byte offsets relative to a cut. */
  lemma {:induction false} Offsets(line: string, from: nat, k: nat)
    requires from <= k <= |line|
    ensures Bytes(line[..k]) == Bytes(line[..from]) + Bytes(line[from..][..k - from])
    ensures Bytes(line) == Bytes(line[..from]) + Bytes(line[from..])
    ensures line[from..][..k - from] == line[from..k]
    ensures line[from..][k - from..] == line[k..]
  {
    var done, rest := line[..from], line[from..];
    BytesAppend(done, rest);
    assert done + rest == line;
    BytesAppend(done, rest[..k - from]);
    assert done + rest[..k - from] == line[..k];
  }

  function Added(chunks: seq<string>, part: string): seq<string> {
    if |part| > 0 then chunks + [part] else chunks
  }

  /** The scan before character `k`, the last cut being at character `from`: what is cut so far and what
      the rest of the scan cuts are the fragments. */
  ghost predicate Scanning(line: string, chunks: seq<string>, from: nat, k: nat) {
    && from <= |line| && k <= |line|
    && (if from == |line| then chunks == Sent(line, true)
        else from <= k && (from == k ==> k == 0) && chunks + Resume(line[from..], k - from) == Sent(line, true))
  }

  lemma {:induction false} ScanStart(line: string)
    ensures Scanning(line, [], 0, 0)
  {
    ResumeSends(line, 0);
    assert line[0..] == line && [] + Resume(line, 0) == Resume(line, 0);
  }

  /** One look of the scan. */
  lemma {:induction false} ScanStep(line: string, chunks: seq<string>, from: nat, k: nat)
    requires Scanning(line, chunks, from, k) && k < |line|
    ensures var i, last := Bytes(line[..k]), Bytes(line[..from]);
            if i >= last + MAX_LEN then from <= k && Scanning(line, Added(chunks, line[from..k]), k, k + 1)
            else if last + MAX_LEN >= Bytes(line) then Scanning(line, Added(chunks, line[from..]), |line|, k + 1)
            else Scanning(line, chunks, from, k + 1)
  {
    hide Sent, Bytes;
    if from < |line| {
      Offsets(line, from, k);
      Regroup(chunks, [line[from..k]], Resume(line[k..], 1));
      assert chunks + [] == chunks;
    } else {
      Offsets(line, k, |line|);
      assert line[..|line|] == line;
    }
  }

  lemma ScanDone(line: string, chunks: seq<string>, from: nat)
    requires Scanning(line, chunks, from, |line|)
    ensures chunks == Sent(line, true)
  {
    hide Sent;
    assert chunks + [] == chunks;
  }

  /** The scan of the source: one look at every character, with `last` the byte offset of the last
      cut and `from` the character it falls on. */
  method SplitLine(line: string) returns (chunks: seq<string>)
    ensures chunks == Sent(line, true)
  {
    hide Scanning, Sent;
    var last, from: nat := 0, 0;
    var i := 0;
    chunks := [];
    ScanStart(line);
    for k := 0 to |line|
      invariant from <= |line| && i == Bytes(line[..k]) && last == Bytes(line[..from])
      invariant Scanning(line, chunks, from, k)
    {
      ScanStep(line, chunks, from, k);
      if i >= last + MAX_LEN {
        var part := line[from..k];
        chunks := if |part| > 0 then chunks + [part] else chunks;
        last, from := i, k;
      } else if last + MAX_LEN >= Bytes(line) {
        var part := line[from..];
        chunks := if |part| > 0 then chunks + [part] else chunks;
        last, from := Bytes(line), |line|;
        assert line[..|line|] == line;
      }
      BytesStep(line, k);
      i := i + Width(line[k]);
    }
    ScanDone(line, chunks, from);
  }

  /** When the scan sends everything: the line fits in one message, or what is left after the last
      cut fits and has a second character at which the scan notices that. */
  predicate Flushed(line: string) {
    || Bytes(line) <= MAX_LEN
    || (Bytes(Remainder(line)) <= MAX_LEN && |Remainder(line)| >= 2)
  }

  predicate IsChunk(c: string) {
    0 < |c| && Bytes(c) < MAX_LEN + 4 && (Ascii(c) ==> Bytes(c) <= MAX_LEN)
  }

  lemma {:induction false} SentChunks(rest: string, untouched: bool)
    ensures forall c <- Sent(rest, untouched) :: IsChunk(c)
  {
    var k := Cut(rest);
    if Bytes(rest) > MAX_LEN && k < |rest| {
      ReachBounds(rest, MAX_LEN);
      if Ascii(rest[..k]) { AsciiCut(rest); }
      SentChunks(rest[k..], false);
    }
  }

  /** What is not sent of the text from the last cut on. */
  function Unsent(rest: string, untouched: bool): string {
    var r := Remainder(rest);
    if Bytes(r) <= MAX_LEN && (|r| >= 2 || (untouched && r == rest)) then [] else r
  }

  lemma {:induction false} SentAndUnsent(rest: string, untouched: bool)
    ensures Concat(Sent(rest, untouched)) + Unsent(rest, untouched) == rest
  {
    var k := Cut(rest);
    if Bytes(rest) <= MAX_LEN {
      assert Remainder(rest) == rest;
      assert Concat([rest]) == rest + [];
    } else if k < |rest| {
      SentAndUnsent(rest[k..], false);
      UnsentLater(rest, untouched);
      ConcatFront(rest[..k], Sent(rest[k..], false), Unsent(rest[k..], false));
      assert rest == rest[..k] + rest[k..];
    }
  }

  lemma {:induction false} UnsentLater(rest: string, untouched: bool)
    requires Bytes(rest) > MAX_LEN && Cut(rest) < |rest|
    ensures Unsent(rest, untouched) == Unsent(rest[Cut(rest)..], false)
  {
    RemainderShape(rest[Cut(rest)..]);
  }

  lemma {:induction false} ConcatFront(c: string, chunks: seq<string>, tail: string)
    ensures Concat([c] + chunks) + tail == c + (Concat(chunks) + tail)
  {
    assert ([c] + chunks)[1..] == chunks;
  }

  /** A fragment of one-byte characters has no overshoot, whatever follows it. */
  lemma {:induction false} AsciiCut(rest: string)
    requires Cut(rest) < |rest| && Ascii(rest[..Cut(rest)])
    ensures Bytes(rest[..Cut(rest)]) <= MAX_LEN
  {
    ReachBounds(rest, MAX_LEN);
    var k := Cut(rest);
    if k > 0 {
      BytesStep(rest, k - 1);
      assert rest[k - 1] == rest[..k][k - 1];
    }
  }

  /** Exactness of the splitter: chunks are non-empty pieces of at most 353 bytes (350 when ASCII),
      together they are the line up to what follows the last cut, and that rest is sent exactly when
      `Flushed` holds. */
  lemma {:induction false} SplitExact(line: string)
    ensures forall c <- Sent(line, true) :: IsChunk(c)
    ensures Concat(Sent(line, true)) <= line
    ensures Concat(Sent(line, true)) + (if Flushed(line) then [] else Remainder(line)) == line
    ensures Concat(Sent(line, true)) == line <==> Flushed(line)
  {
    SentChunks(line, true);
    SentAndUnsent(line, true);
    RemainderShape(line);
    if !Flushed(line) {
      assert |Concat(Sent(line, true))| < |line|;
    }
  }

  /** What a lossy line loses: its last character alone, just after a cut; or a fragment of 351 to
      353 bytes whose last character straddles the limit. */
  lemma {:induction false} RemainderShape(line: string)
    ensures var r := Remainder(line);
            && |r| <= |line|
            && (Bytes(line) <= MAX_LEN ==> r == line)
            && (Bytes(line) > MAX_LEN ==> r != [])
            && (Bytes(r) > MAX_LEN ==>
                  && Bytes(r) < MAX_LEN + 4 && Bytes(r[..|r| - 1]) < MAX_LEN
                  && Bytes(r[..|r| - 1]) + Width(r[|r| - 1]) > MAX_LEN)
    ensures !Flushed(line) ==> |Remainder(line)| == 1 || Bytes(Remainder(line)) > MAX_LEN
  {
    ReachBounds(line, MAX_LEN);
    var k := Cut(line);
    if Bytes(line) > MAX_LEN {
      if k < |line| {
        RemainderShape(line[k..]);
      } else {
        assert line[..k] == line;
        BytesStep(line, |line| - 1);
      }
    }
  }

  /** For ASCII the loss is a matter of length alone. */
  lemma {:induction false} AsciiExact(line: string)
    requires Ascii(line)
    ensures Concat(Sent(line, true)) == line <==> |line| <= MAX_LEN || |line| % MAX_LEN != 1
  {
    SplitExact(line);
    BytesAscii(line);
    if |line| > MAX_LEN {
      AsciiRemainder(line);
      BytesAscii(Remainder(line));
    }
  }

  lemma {:induction false} AsciiRemainder(line: string)
    requires Ascii(line) && line != []
    ensures Ascii(Remainder(line))
    ensures 0 < |Remainder(line)| <= MAX_LEN
    ensures |Remainder(line)| % MAX_LEN == |line| % MAX_LEN
  {
    BytesAscii(line);
    if |line| > MAX_LEN {
      ReachBounds(line, MAX_LEN);
      var k := Cut(line);
      BytesAscii(line[..k]);
      assert line[..|line|] == line;
      assert k == MAX_LEN;
      AsciiRemainder(line[k..]);
    }
  }

  /** A line of 348 ASCII characters and one four-byte character is not sent at all. */
  lemma {:induction false} NothingSent(text: string, last: char)
    requires Ascii(text) && |text| == 348 && Width(last) == 4
    ensures Sent(text + [last], true) == []
    ensures !Flushed(text + [last])
  {
    var line := text + [last];
    BytesAscii(text);
    BytesAppend(text, [last]);
    assert Bytes([last]) == 4;
    assert line[..348] == text;
    ReachBounds(line, MAX_LEN);
    if Cut(line) < |line| {
      Offsets(line, Cut(line), 348);
      assert false;
    }
  }

  lemma {:induction false} ConcatAppend(chunks: seq<string>, c: string)
    ensures Concat(chunks + [c]) == Concat(chunks) + c
  {
    if chunks == [] {
      assert [c][1..] == [];
    } else {
      assert (chunks + [c])[1..] == chunks[1..] + [c];
      ConcatAppend(chunks[1..], c);
    }
  }

  predicate Pieces(chunks: seq<string>, done: string) {
    Concat(chunks) == done && forall c <- chunks :: 0 < |c| && Bytes(c) < MAX_LEN + 4
  }

  lemma {:induction false} AddPiece(chunks: seq<string>, line: string, from: nat, to: nat)
    requires from < to <= |line| && Pieces(chunks, line[..from]) && Bytes(line[from..to]) < MAX_LEN + 4
    ensures Pieces(chunks + [line[from..to]], line[..to])
  {
    ConcatAppend(chunks, line[from..to]);
    assert line[..from] + line[from..to] == line[..to];
  }

  /** The flushing scan before character `k`: what is cut so far, and that no cut is overdue. */
  ghost predicate Flushing(line: string, chunks: seq<string>, from: nat, k: nat) {
    && from <= |line| && k <= |line| && Pieces(chunks, line[..from])
    && (from < |line| ==> from <= k && (from == k ==> k == 0))
    && (from < k && from < |line| ==> Bytes(line[from..k - 1]) < MAX_LEN)
  }

  lemma {:induction false} FlushStep(line: string, chunks: seq<string>, from: nat, k: nat)
    requires Flushing(line, chunks, from, k) && k < |line|
    ensures if from <= k && Bytes(line[from..k]) >= MAX_LEN then Flushing(line, chunks + [line[from..k]], k, k + 1)
            else if Bytes(line[from..]) <= MAX_LEN then Flushing(line, Added(chunks, line[from..]), |line|, k + 1)
            else Flushing(line, chunks, from, k + 1)
  {
    assert line[k..k] == [] && line[from..from] == [] && Bytes([]) == 0;
    hide Pieces, Bytes;
    if from < k && from < |line| { PieceStep(line, from, k); }
    if from <= k && Bytes(line[from..k]) >= MAX_LEN {
      AddPiece(chunks, line, from, k);
    } else if Bytes(line[from..]) <= MAX_LEN && from < |line| {
      assert line[from..|line|] == line[from..];
      AddPiece(chunks, line, from, |line|);
    }
  }

  lemma {:induction false} FlushDone(line: string, chunks: seq<string>, from: nat)
    requires Flushing(line, chunks, from, |line|)
    ensures Pieces(Added(chunks, line[from..]), line)
  {
    hide Pieces, Bytes;
    assert line[..|line|] == line;
    if from < |line| {
      assert line[from..|line|] == line[from..];
      PieceStep(line, from, |line|);
      AddPiece(chunks, line, from, |line|);
    }
  }

  lemma NothingCut(line: string)
    ensures Flushing(line, [], 0, 0)
  {
    assert line[..0] == [];
  }

  /** The same scan followed by a flush of `line[last..]`: lossless on every line. */
  method SplitAndFlush(line: string) returns (chunks: seq<string>)
    ensures Concat(chunks) == line
    ensures forall c <- chunks :: 0 < |c| && Bytes(c) < MAX_LEN + 4
  {
    hide Flushing, Bytes, Concat;
    var from: nat := 0;
    chunks := [];
    NothingCut(line);
    for k := 0 to |line|
      invariant from <= |line| && Flushing(line, chunks, from, k)
    {
      FlushStep(line, chunks, from, k);
      if from <= k && Bytes(line[from..k]) >= MAX_LEN {
        chunks := chunks + [line[from..k]];
        from := k;
      } else if Bytes(line[from..]) <= MAX_LEN {
        if from < |line| {
          chunks := chunks + [line[from..]];
        }
        from := |line|;
      }
    }
    FlushDone(line, chunks, from);
    if from < |line| {
      chunks := chunks + [line[from..]];
    }
  }

  lemma {:induction false} PieceStep(line: string, from: nat, k: nat)
    requires from < k <= |line|
    ensures Bytes(line[from..k]) == Bytes(line[from..k - 1]) + Width(line[k - 1])
    ensures k == |line| ==> line[from..k] == line[from..]
  {
    BytesAppend(line[from..k - 1], [line[k - 1]]);
    assert line[from..k] == line[from..k - 1] + [line[k - 1]];
  }
}
