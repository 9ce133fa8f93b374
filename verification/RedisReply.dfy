/** The guard in front of the Redis reply parser: what it refuses before the parser
    sees it (src/Data/Redis/Connection.cpp, check_header and read_reply). Every
    chunk is one successful read, so it holds between 1 and 4096 bytes. */
module RedisReply {
  import opened Prelude

  const CR: Byte := 13
  const LF: Byte := 10
  const DOLLAR: Byte := 36
  const MINUS: Byte := 45
  const HEADER_LIMIT: nat := 4096
  const CHUNK_LIMIT: nat := 4096
  const REPLY_TYPES: seq<Byte> := [43, 45, 58, 36] // + - : $
  const INT64_MAX: int := 0x7FFF_FFFF_FFFF_FFFF

  datatype Refusal = IoError | ResultTooLarge

  // ------------------------------------------------------------ one-shot scan

  predicate Digit(b: Byte) { 48 <= b <= 57 }

  ghost predicate AllDigits(s: Bytes)
  {
    forall i :: 0 <= i < |s| ==> Digit(s[i])
  }

  function Decimal(s: Bytes): nat
    requires AllDigits(s)
  {
    if s == [] then 0 else 10 * Decimal(s[..|s| - 1]) + (s[|s| - 1] as nat - 48)
  }

  // A decimal 64-bit number that takes up the whole text.
  ghost function Number(s: Bytes): Option<int>
  {
    var digits := if s != [] && s[0] == MINUS then s[1..] else s;
    if digits == [] || !AllDigits(digits) then None
    else
      var n: int := Decimal(digits);
      var value := if s[0] == MINUS then -n else n;
      if -INT64_MAX - 1 <= value <= INT64_MAX then Some(value) else None
  }

  // What the first line says: a bulk reply announces its length in it.
  ghost function LineRefusal(line: Bytes, bulkLimit: nat): Option<Refusal>
  {
    if line == [] || line[0] != DOLLAR then None
    else
      match Number(line[1..])
      case None => Some(IoError)
      case Some(n) =>
        if n < -1 then Some(IoError) else if n >= 0 && n > bulkLimit then Some(ResultTooLarge) else None
  }

  predicate CrLfAt(s: Bytes, p: nat) { p + 2 <= |s| && s[p] == CR && s[p + 1] == LF }

  // The position of the first line end.
  function FirstCrLf(s: Bytes): (r: Option<nat>)
    ensures r.Some? ==> r.value + 2 <= |s|
  {
    if |s| < 2 then None
    else
      var shorter := FirstCrLf(s[..|s| - 1]);
      if shorter.Some? then shorter
      else if CrLfAt(s, |s| - 2) then Some(|s| - 2) else None
  }

  lemma {:induction false} FirstCrLfIsFirst(s: Bytes)
    ensures FirstCrLf(s).Some? ==> CrLfAt(s, FirstCrLf(s).value) && forall p :: 0 <= p < FirstCrLf(s).value ==> !CrLfAt(s, p)
    ensures FirstCrLf(s).None? ==> forall p :: 0 <= p < |s| ==> !CrLfAt(s, p)
  {
    if |s| >= 2 {
      FirstCrLfIsFirst(s[..|s| - 1]);
      assert forall p :: 0 <= p < |s| - 2 ==> CrLfAt(s, p) == CrLfAt(s[..|s| - 1], p);
    }
  }

  datatype Verdict = Undecided | Passed | Refused(why: Refusal)

  function Front(s: Bytes): Bytes { if |s| <= HEADER_LIMIT then s else s[..HEADER_LIMIT] }

  /** One look at the bytes so far: the first line has to end within the first
      4096 bytes, and what it announces has to fit. */
  ghost function Scan(stream: Bytes, bulkLimit: nat): Verdict
  {
    match FirstCrLf(Front(stream))
    case Some(p) =>
      (match LineRefusal(stream[..p], bulkLimit)
       case Some(why) => Refused(why)
       case None => Passed)
    case None => if |stream| > HEADER_LIMIT then Refused(ResultTooLarge) else Undecided
  }

  // The scan with the check of the reply type before it.
  ghost function OneShot(stream: Bytes, bulkLimit: nat): Verdict
  {
    if stream == [] then Undecided
    else if stream[0] !in REPLY_TYPES then Refused(IoError)
    else Scan(stream, bulkLimit)
  }

  // ------------------------------------------------------------- byte by byte

  // header_ and header_checked_, with the refusal if there was one.
  datatype Header = Header(text: Bytes, checked: bool, refusal: Option<Refusal>)

  ghost function Next(h: Header, b: Byte, bulkLimit: nat): Header
  {
    if h.checked || h.refusal.Some? then h
    else if |h.text| >= HEADER_LIMIT then h.(refusal := Some(ResultTooLarge))
    else
      var text := h.text + [b];
      if |text| < 2 || !CrLfAt(text, |text| - 2) then h.(text := text)
      else Header(text, true, LineRefusal(text[..|text| - 2], bulkLimit))
  }

  ghost function Read(h: Header, bytes: Bytes, bulkLimit: nat): Header
  {
    if bytes == [] then h else Next(Read(h, bytes[..|bytes| - 1], bulkLimit), bytes[|bytes| - 1], bulkLimit)
  }

  const START := Header([], false, None)

  lemma {:induction false} ReadAppend(h: Header, a: Bytes, b: Bytes, bulkLimit: nat)
    ensures Read(h, a + b, bulkLimit) == Read(Read(h, a, bulkLimit), b, bulkLimit)
  {
    if b == [] {
      assert a + b == a;
    } else {
      assert (a + b)[..|a + b| - 1] == a + b[..|b| - 1];
      ReadAppend(h, a, b[..|b| - 1], bulkLimit);
    }
  }

  lemma {:induction false} DecidedStays(h: Header, bytes: Bytes, bulkLimit: nat)
    requires h.checked || h.refusal.Some?
    ensures Read(h, bytes, bulkLimit) == h
  {
    if bytes != [] {
      DecidedStays(h, bytes[..|bytes| - 1], bulkLimit);
    }
  }

  // One byte more, and what follows once the header is decided.
  lemma ReadTaken(h: Header, bytes: Bytes, i: nat, bulkLimit: nat)
    requires i < |bytes|
    ensures
      var read := Read(h, bytes[..i + 1], bulkLimit);
      && read == Next(Read(h, bytes[..i], bulkLimit), bytes[i], bulkLimit)
      && (read.checked || read.refusal.Some? ==> Read(h, bytes, bulkLimit) == read)
  {
    assert bytes[..i + 1][..i] == bytes[..i];
    assert bytes == bytes[..i + 1] + bytes[i + 1..];
    ReadAppend(h, bytes[..i + 1], bytes[i + 1..], bulkLimit);
    var read := Read(h, bytes[..i + 1], bulkLimit);
    if read.checked || read.refusal.Some? {
      DecidedStays(read, bytes[i + 1..], bulkLimit);
    }
  }

  function VerdictOf(h: Header): Verdict
  {
    match h.refusal
    case Some(why) => Refused(why)
    case None => if h.checked then Passed else Undecided
  }

  lemma FirstCrLfPrefix(s: Bytes, b: Byte)
    ensures FirstCrLf(s).Some? ==> FirstCrLf(s + [b]) == FirstCrLf(s)
    ensures FirstCrLf(s).None? && |s| > 0 ==>
              FirstCrLf(s + [b]) == if CrLfAt(s + [b], |s| - 1) then Some(|s| - 1) else None
    ensures |s| == 0 ==> FirstCrLf(s + [b]).None?
  {
    assert (s + [b])[..|s|] == s;
  }

  /** Reading byte by byte comes to what one scan of all the bytes says. */
  lemma {:induction false} ReadIsScan(stream: Bytes, bulkLimit: nat)
    ensures VerdictOf(Read(START, stream, bulkLimit)) == Scan(stream, bulkLimit)
    ensures Scan(stream, bulkLimit) == Undecided ==> Read(START, stream, bulkLimit) == Header(stream, false, None)
    ensures |Read(START, stream, bulkLimit).text| <= HEADER_LIMIT
  {
    if stream != [] {
      var front, last := stream[..|stream| - 1], stream[|stream| - 1];
      ReadIsScan(front, bulkLimit);
      ScanOneMore(front, last, bulkLimit);
      NextDecides(Read(START, front, bulkLimit), last, bulkLimit);
      assert stream == front + [last];
      assert Read(START, stream, bulkLimit) == Next(Read(START, front, bulkLimit), last, bulkLimit);
    }
  }

  lemma NextDecides(h: Header, b: Byte, bulkLimit: nat)
    requires |h.text| <= HEADER_LIMIT
    ensures |Next(h, b, bulkLimit).text| <= HEADER_LIMIT
    ensures VerdictOf(h) != Undecided ==> Next(h, b, bulkLimit) == h
    ensures VerdictOf(Next(h, b, bulkLimit)) == Undecided ==> Next(h, b, bulkLimit) == Header(h.text + [b], false, None)
  {
  }

  lemma ScanOneMore(s: Bytes, b: Byte, bulkLimit: nat)
    ensures Scan(s, bulkLimit) != Undecided ==> Scan(s + [b], bulkLimit) == Scan(s, bulkLimit)
    ensures Scan(s, bulkLimit) == Undecided ==>
              VerdictOf(Next(Header(s, false, None), b, bulkLimit)) == Scan(s + [b], bulkLimit)
  {
    if |s| < HEADER_LIMIT {
      WithinFront(s, b, bulkLimit);
    } else {
      BeyondFront(s, b, bulkLimit);
    }
  }

  lemma WithinFront(s: Bytes, b: Byte, bulkLimit: nat)
    requires |s| < HEADER_LIMIT
    ensures Scan(s, bulkLimit) != Undecided ==> Scan(s + [b], bulkLimit) == Scan(s, bulkLimit)
    ensures Scan(s, bulkLimit) == Undecided ==>
              VerdictOf(Next(Header(s, false, None), b, bulkLimit)) == Scan(s + [b], bulkLimit)
  {
    FirstCrLfPrefix(s, b);
    assert Front(s + [b]) == s + [b];
    if FirstCrLf(s).Some? {
      assert (s + [b])[..FirstCrLf(s).value] == s[..FirstCrLf(s).value];
    }
  }

  lemma BeyondFront(s: Bytes, b: Byte, bulkLimit: nat)
    requires |s| >= HEADER_LIMIT
    ensures Scan(s, bulkLimit) != Undecided ==> Scan(s + [b], bulkLimit) == Scan(s, bulkLimit)
    ensures Scan(s, bulkLimit) == Undecided ==> |s| == HEADER_LIMIT && Scan(s + [b], bulkLimit) == Refused(ResultTooLarge)
  {
    assert Front(s + [b]) == Front(s);
    if FirstCrLf(Front(s)).Some? {
      assert (s + [b])[..FirstCrLf(Front(s)).value] == s[..FirstCrLf(Front(s)).value];
    }
  }

  // ------------------------------------------------------------ chunk by chunk

  // What the parser says after a chunk.
  datatype Parse = More | Whole(trailing: bool) | Broken

  datatype Outcome = Reading | Done | Failed(why: Refusal)

  datatype Guard = Guard(replyLimit: nat, bulkLimit: nat, header: Header, received: nat, fed: Bytes, outcome: Outcome)

  function Started(replyLimit: nat, bulkLimit: nat): Guard
  {
    Guard(replyLimit, bulkLimit, START, 0, [], Reading)
  }

  function AfterParse(g: Guard, parse: Parse): Guard
  {
    match parse
    case More => g
    case Whole(trailing) => g.(outcome := if trailing then Failed(IoError) else Done)
    case Broken => g.(outcome := Failed(IoError))
  }

  ghost function OnChunk(g: Guard, chunk: Bytes, parse: Parse): Guard
    requires chunk != []
  {
    if g.outcome != Reading then g
    else if g.received == 0 && chunk[0] !in REPLY_TYPES then g.(outcome := Failed(IoError))
    else if |chunk| > g.replyLimit - g.received then g.(outcome := Failed(ResultTooLarge))
    else
      var read := g.(received := g.received + |chunk|, header := Read(g.header, chunk, g.bulkLimit));
      if read.header.refusal.Some? then read.(outcome := Failed(read.header.refusal.value))
      else AfterParse(read.(fed := g.fed + chunk), parse)
  }

  ghost predicate Chunks(chunks: seq<Bytes>)
  {
    forall i :: 0 <= i < |chunks| ==> 0 < |chunks[i]| <= CHUNK_LIMIT
  }

  ghost function Play(replyLimit: nat, bulkLimit: nat, chunks: seq<Bytes>, parses: seq<Parse>): Guard
    requires Chunks(chunks) && |parses| == |chunks|
  {
    if chunks == [] then Started(replyLimit, bulkLimit)
    else
      var n := |chunks| - 1;
      OnChunk(Play(replyLimit, bulkLimit, chunks[..n], parses[..n]), chunks[n], parses[n])
  }

  // What reached the parser is what was received up to the last chunk that was
  // let through.
  ghost predicate Inv(g: Guard)
  {
    && g.received <= g.replyLimit && |g.fed| <= g.received
    && (g.outcome == Reading ==>
          && |g.fed| == g.received && g.header == Read(START, g.fed, g.bulkLimit) && g.header.refusal.None?
          && (g.fed != [] ==> g.fed[0] in REPLY_TYPES))
    && Harmless(g.fed, g.bulkLimit)
    && |g.header.text| <= HEADER_LIMIT
  }

  // Bytes in which no look finds a reason to refuse.
  ghost predicate Harmless(bytes: Bytes, bulkLimit: nat)
  {
    !OneShot(bytes, bulkLimit).Refused?
  }

  lemma OnChunkKeeps(g: Guard, chunk: Bytes, parse: Parse)
    requires Inv(g) && chunk != []
    ensures Inv(OnChunk(g, chunk, parse))
    ensures OnChunk(g, chunk, parse).replyLimit == g.replyLimit && OnChunk(g, chunk, parse).bulkLimit == g.bulkLimit
  {
    var t := OnChunk(g, chunk, parse);
    if g.outcome == Reading && t.received != g.received {
      ReadAppend(START, g.fed, chunk, g.bulkLimit);
      ReadIsScan(g.fed + chunk, g.bulkLimit);
      assert (g.fed + chunk)[0] == if g.fed == [] then chunk[0] else g.fed[0];
    }
  }

  lemma StartKeeps(replyLimit: nat, bulkLimit: nat)
    ensures Inv(Started(replyLimit, bulkLimit))
  {
  }

  ghost predicate Guarded(g: Guard, replyLimit: nat, bulkLimit: nat)
  {
    Inv(g) && g.replyLimit == replyLimit && g.bulkLimit == bulkLimit
  }

  lemma {:induction false} PlayKeeps(replyLimit: nat, bulkLimit: nat, chunks: seq<Bytes>, parses: seq<Parse>)
    requires Chunks(chunks) && |parses| == |chunks|
    ensures Guarded(Play(replyLimit, bulkLimit, chunks, parses), replyLimit, bulkLimit)
  {
    if chunks == [] {
      StartKeeps(replyLimit, bulkLimit);
    } else {
      var n := |chunks| - 1;
      var before := Play(replyLimit, bulkLimit, chunks[..n], parses[..n]);
      PlayKeeps(replyLimit, bulkLimit, chunks[..n], parses[..n]);
      OnChunkKeeps(before, chunks[n], parses[n]);
      assert Play(replyLimit, bulkLimit, chunks, parses) == OnChunk(before, chunks[n], parses[n]);
    }
  }

  // ------------------------------------------------------------- main results

  /** Whatever the chunks and whatever the parser says: no more is received than
      the reply limit, and the parser is never fed bytes that one look at them
      would refuse. In particular the chunk that completes a header with too large
      a length is refused before the parser gets it. */
  lemma ParserIsGuarded(replyLimit: nat, bulkLimit: nat, chunks: seq<Bytes>, parses: seq<Parse>)
    requires Chunks(chunks) && |parses| == |chunks|
    ensures
      var g := Play(replyLimit, bulkLimit, chunks, parses);
      |g.fed| <= g.received <= replyLimit && !OneShot(g.fed, bulkLimit).Refused?
  {
    PlayKeeps(replyLimit, bulkLimit, chunks, parses);
  }

  // The parser asks for more each time.
  ghost predicate Unfinished(parses: seq<Parse>)
  {
    forall i :: 0 <= i < |parses| ==> parses[i] == More
  }

  function OutcomeOf(v: Verdict): Outcome
  {
    match v
    case Refused(why) => Failed(why)
    case Undecided => Reading
    case Passed => Reading
  }

  /** The verdict does not depend on the chunking: as long as the parser asks for
      more, a reply within the limit is refused exactly when one look at all its
      bytes refuses it, and for the same reason. A reply beyond the limit is
      refused in any chunking. */
  lemma {:induction false} ChunkingIsIrrelevant(replyLimit: nat, bulkLimit: nat, chunks: seq<Bytes>, parses: seq<Parse>)
    requires Chunks(chunks) && |parses| == |chunks| && Unfinished(parses)
    ensures
      var g, stream := Play(replyLimit, bulkLimit, chunks, parses), Flatten(chunks);
      && (|stream| <= replyLimit ==> g.outcome == OutcomeOf(OneShot(stream, bulkLimit)))
      && (|stream| > replyLimit ==> g.outcome.Failed?)
      && (g.outcome == Reading ==> g.fed == stream)
  {
    if chunks != [] {
      var n := |chunks| - 1;
      ChunkingIsIrrelevant(replyLimit, bulkLimit, chunks[..n], parses[..n]);
      PlayKeeps(replyLimit, bulkLimit, chunks[..n], parses[..n]);
      OneMoreChunk(Play(replyLimit, bulkLimit, chunks[..n], parses[..n]), Flatten(chunks[..n]), chunks[n]);
    }
  }

  lemma OneMoreChunk(g: Guard, stream: Bytes, chunk: Bytes)
    requires Inv(g) && chunk != []
    requires |stream| <= g.replyLimit ==> g.outcome == OutcomeOf(OneShot(stream, g.bulkLimit))
    requires |stream| > g.replyLimit ==> g.outcome.Failed?
    requires g.outcome == Reading ==> g.fed == stream
    ensures
      var t, all := OnChunk(g, chunk, More), stream + chunk;
      && (|all| <= g.replyLimit ==> t.outcome == OutcomeOf(OneShot(all, g.bulkLimit)))
      && (|all| > g.replyLimit ==> t.outcome.Failed?)
      && (t.outcome == Reading ==> t.fed == all)
  {
    var all := stream + chunk;
    ReadAppend(START, stream, chunk, g.bulkLimit);
    ReadIsScan(stream, g.bulkLimit);
    ReadIsScan(all, g.bulkLimit);
    if OneShot(stream, g.bulkLimit).Refused? && stream[0] in REPLY_TYPES {
      DecidedStays(Read(START, stream, g.bulkLimit), chunk, g.bulkLimit);
    }
  }

  /** Once everything has been let through the parser has the last word: the reply is
      done exactly when the parser has a whole reply and no byte behind it, it is
      refused as malformed when there are more bytes or the parser gives up, and
      otherwise the reading goes on. */
  lemma ParserDecides(replyLimit: nat, bulkLimit: nat, chunks: seq<Bytes>, chunk: Bytes, parse: Parse)
    requires Chunks(chunks) && 0 < |chunk| <= CHUNK_LIMIT
    requires |Flatten(chunks) + chunk| <= replyLimit && !OneShot(Flatten(chunks) + chunk, bulkLimit).Refused?
    requires !OneShot(Flatten(chunks), bulkLimit).Refused?
    ensures Chunks(chunks + [chunk])
    ensures
      var g := Play(replyLimit, bulkLimit, chunks + [chunk], Mores(|chunks|) + [parse]);
      && g.fed == Flatten(chunks) + chunk
      && g.outcome == match parse
                      case More => Reading
                      case Whole(trailing) => if trailing then Failed(IoError) else Done
                      case Broken => Failed(IoError)
  {
    var stream := Flatten(chunks);
    var all, parses := chunks + [chunk], Mores(|chunks|) + [parse];
    assert all[..|chunks|] == chunks && parses[..|chunks|] == Mores(|chunks|);
    ChunkingIsIrrelevant(replyLimit, bulkLimit, chunks, Mores(|chunks|));
    PlayKeeps(replyLimit, bulkLimit, chunks, Mores(|chunks|));
    ReadAppend(START, stream, chunk, bulkLimit);
    ReadIsScan(stream + chunk, bulkLimit);
    assert (stream + chunk)[0] == if stream == [] then chunk[0] else stream[0];
  }

  // ----------------------------------------------- what the first line may say

  lemma LineEndsHere(line: Bytes, rest: Bytes)
    requires |line| <= 4094 && CR !in line
    ensures FirstCrLf(Front(line + [13, 10] + rest)) == Some(|line|)
    ensures (line + [13, 10] + rest)[..|line|] == line
  {
    var front := Front(line + [13, 10] + rest);
    FirstCrLfIsFirst(front);
    assert CrLfAt(front, |line|);
    forall p | 0 <= p < |line|
      ensures !CrLfAt(front, p)
    {
      assert front[p] == line[p];
    }
  }

  lemma BulkLineDecides(text: Bytes, rest: Bytes, bulkLimit: nat)
    requires |text| <= 4093 && CR !in text
    ensures OneShot([DOLLAR] + text + [13, 10] + rest, bulkLimit)
         == match Number(text)
            case None => Refused(IoError)
            case Some(n) =>
              if n < -1 then Refused(IoError) else if n > bulkLimit then Refused(ResultTooLarge) else Passed
  {
    LineEndsHere([DOLLAR] + text, rest);
    assert ([DOLLAR] + text)[1..] == text;
  }

  /** A bulk reply is let through exactly when its length is a decimal number of 64
      bits that the limit allows, or -1: a larger one is too large, and what is no such
      number is malformed. Every other type of reply passes with any first line. */
  lemma BulkLengthDecides(digits: Bytes, rest: Bytes, bulkLimit: nat)
    requires digits != [] && AllDigits(digits) && |digits| <= 4093
    ensures OneShot([DOLLAR] + digits + [13, 10] + rest, bulkLimit)
         == if Decimal(digits) > INT64_MAX then Refused(IoError)
            else if Decimal(digits) > bulkLimit then Refused(ResultTooLarge) else Passed
  {
    BulkLineDecides(digits, rest, bulkLimit);
    assert digits[0] != MINUS;
  }

  lemma NegativeLengthDecides(digits: Bytes, rest: Bytes, bulkLimit: nat)
    requires digits != [] && AllDigits(digits) && |digits| <= 4092
    ensures OneShot([DOLLAR] + ([MINUS] + digits) + [13, 10] + rest, bulkLimit)
         == if Decimal(digits) <= 1 then Passed else Refused(IoError)
  {
    BulkLineDecides([MINUS] + digits, rest, bulkLimit);
    assert ([MINUS] + digits)[1..] == digits;
  }

  lemma NoLengthIsMalformed(text: Bytes, rest: Bytes, bulkLimit: nat)
    requires |text| <= 4093 && CR !in text
    requires text == [] || text == [MINUS] || (!AllDigits(text) && !(text[0] == MINUS && AllDigits(text[1..])))
    ensures OneShot([DOLLAR] + text + [13, 10] + rest, bulkLimit) == Refused(IoError)
  {
    BulkLineDecides(text, rest, bulkLimit);
  }

  lemma OtherTypesPass(line: Bytes, rest: Bytes, bulkLimit: nat)
    requires 1 <= |line| <= 4094 && CR !in line && line[0] in {43, 45, 58}
    ensures OneShot(line + [13, 10] + rest, bulkLimit) == Passed
  {
    LineEndsHere(line, rest);
  }

  lemma UnknownTypeIsMalformed(stream: Bytes, bulkLimit: nat)
    requires stream != [] && stream[0] !in {36, 43, 45, 58}
    ensures OneShot(stream, bulkLimit) == Refused(IoError)
  {
  }

  /** A first line that does not end within 4096 bytes is too large as soon as there
      are more, and undecided before. */
  lemma EndlessLineIsTooLarge(stream: Bytes, bulkLimit: nat)
    requires TypeIsGood(stream) && CR !in stream
    ensures OneShot(stream, bulkLimit) == if |stream| > 4096 then Refused(ResultTooLarge) else Undecided
  {
    FirstCrLfIsFirst(Front(stream));
    forall p | 0 <= p < |Front(stream)|
      ensures !CrLfAt(Front(stream), p)
    {
      assert Front(stream)[p] == stream[p];
    }
  }

  // ------------------------------------------- when the reason depends on chunks

  function Mores(n: nat): seq<Parse> { seq(n, _ => More) }

  // What a chunking comes to while the parser asks for more.
  ghost function Result(replyLimit: nat, bulkLimit: nat, chunks: seq<Bytes>): Outcome
    requires Chunks(chunks)
  {
    Play(replyLimit, bulkLimit, chunks, Mores(|chunks|)).outcome
  }

  lemma MoresFront(n: nat)
    requires n > 0
    ensures Mores(n)[..n - 1] == Mores(n - 1)
  {
  }

  // The bytes of the chunks up to the last boundary within the limit.
  function Within(limit: nat, chunks: seq<Bytes>): Bytes
  {
    if |Flatten(chunks)| <= limit || chunks == [] then Flatten(chunks) else Within(limit, chunks[..|chunks| - 1])
  }

  ghost predicate TypeIsGood(stream: Bytes)
  {
    stream != [] && stream[0] in REPLY_TYPES
  }

  function BeyondLimit(v: Verdict): Outcome
  {
    match v
    case Refused(why) => Failed(why)
    case _ => Failed(ResultTooLarge)
  }

  lemma FlattenFront(chunks: seq<Bytes>)
    requires chunks != []
    ensures Flatten(chunks) == Flatten(chunks[..|chunks| - 1]) + chunks[|chunks| - 1]
  {
  }

  /** Beyond the limit it is the last boundary within it that decides: what a scan
      refuses up to there is the reason, and otherwise the size is. */
  lemma {:induction false} BoundaryDecides(replyLimit: nat, bulkLimit: nat, chunks: seq<Bytes>)
    requires Chunks(chunks) && |Flatten(chunks)| > replyLimit && TypeIsGood(Flatten(chunks))
    ensures Result(replyLimit, bulkLimit, chunks) == BeyondLimit(OneShot(Within(replyLimit, chunks), bulkLimit))
  {
    var n := |chunks| - 1;
    var front, last := chunks[..n], chunks[n];
    FlattenFront(chunks);
    MoresFront(|chunks|);
    var g := Play(replyLimit, bulkLimit, front, Mores(n));
    PlayKeeps(replyLimit, bulkLimit, front, Mores(n));
    ChunkingIsIrrelevant(replyLimit, bulkLimit, front, Mores(n));
    assert Play(replyLimit, bulkLimit, chunks, Mores(|chunks|)) == OnChunk(g, last, More);
    if |Flatten(front)| > replyLimit {
      assert Flatten(front)[0] == Flatten(chunks)[0];
      BoundaryDecides(replyLimit, bulkLimit, front);
    } else {
      assert Within(replyLimit, front) == Flatten(front);
      assert Flatten(front) == [] ==> Flatten(chunks)[0] == last[0];
    }
  }

  lemma {:induction false} ScanPersists(s: Bytes, t: Bytes, bulkLimit: nat)
    requires Scan(s, bulkLimit) != Undecided
    ensures Scan(s + t, bulkLimit) == Scan(s, bulkLimit)
  {
    if t == [] {
      assert s + t == s;
    } else {
      ScanPersists(s, t[..|t| - 1], bulkLimit);
      ScanOneMore(s + t[..|t| - 1], t[|t| - 1], bulkLimit);
      assert s + t == s + t[..|t| - 1] + [t[|t| - 1]];
    }
  }

  // Two prefixes of one stream: a decision on the shorter one is that on the longer.
  lemma PrefixScan(stream: Bytes, m: nat, n: nat, bulkLimit: nat)
    requires m <= n <= |stream| && Scan(stream[..m], bulkLimit) != Undecided
    ensures Scan(stream[..n], bulkLimit) == Scan(stream[..m], bulkLimit)
  {
    ScanPersists(stream[..m], stream[m..n], bulkLimit);
    assert stream[..m] + stream[m..n] == stream[..n];
  }

  // The boundary is a prefix of the stream, and one chunk away from the limit.
  lemma {:induction false} WithinIsPrefix(limit: nat, chunks: seq<Bytes>)
    requires Chunks(chunks) && |Flatten(chunks)| > limit
    ensures |Within(limit, chunks)| <= limit < |Within(limit, chunks)| + CHUNK_LIMIT
    ensures Within(limit, chunks) <= Flatten(chunks)
  {
    var front := chunks[..|chunks| - 1];
    FlattenFront(chunks);
    if |Flatten(front)| > limit {
      WithinIsPrefix(limit, front);
    }
  }

  // Where the last chunk that crosses the limit must begin, at the earliest.
  function Earliest(limit: nat): nat { if limit + 1 >= CHUNK_LIMIT then limit + 1 - CHUNK_LIMIT else 0 }

  /** The condition on the stream and the limits: the reply type is good, the stream
      is longer than the limit, its header is bad within the limit, and the header
      ends late enough for one chunk to reach from before its end past the limit. */
  ghost predicate ReasonOpen(replyLimit: nat, bulkLimit: nat, stream: Bytes)
  {
    && TypeIsGood(stream) && |stream| > replyLimit
    && Scan(stream[..replyLimit], bulkLimit) == Refused(IoError)
    && Scan(stream[..Earliest(replyLimit)], bulkLimit) == Undecided
  }

  ghost predicate Refuses(replyLimit: nat, bulkLimit: nat, stream: Bytes, chunks: seq<Bytes>, why: Refusal)
  {
    Chunks(chunks) && Flatten(chunks) == stream && Result(replyLimit, bulkLimit, chunks) == Failed(why)
  }

  function Singles(s: Bytes): (r: seq<Bytes>)
    ensures |r| == |s|
  {
    seq(|s|, i requires 0 <= i < |s| => [s[i]])
  }

  lemma {:induction false} SinglesFlatten(s: Bytes)
    ensures Flatten(Singles(s)) == s && Chunks(Singles(s))
  {
    if s != [] {
      var front := s[..|s| - 1];
      SinglesFlatten(front);
      assert Singles(s)[..|s| - 1] == Singles(front);
    }
  }

  lemma {:induction false} WithinAppend(limit: nat, a: seq<Bytes>, b: seq<Bytes>)
    requires |Flatten(a)| <= limit && b != [] && |Flatten(a)| + |b[0]| > limit
    ensures Within(limit, a + b) == Flatten(a)
    decreases |b|
  {
    var ab := a + b;
    assert ab[..|ab| - 1] == a + b[..|b| - 1];
    FlattenAppend(a, b);
    FlattenPushFront(b[0], b[1..]);
    assert b == [b[0]] + b[1..];
    if |b| == 1 {
      assert a + b[..0] == a;
    } else {
      WithinAppend(limit, a, b[..|b| - 1]);
    }
  }

  // With the stream cut after n bytes, then up to m, then byte by byte.
  function CutTwice(stream: Bytes, n: nat, m: nat): seq<Bytes>
    requires n < m <= |stream|
  {
    Singles(stream[..n]) + ([stream[n..m]] + Singles(stream[m..]))
  }

  lemma CutTwiceWithin(stream: Bytes, n: nat, m: nat, limit: nat)
    requires n <= limit < m <= |stream| && m - n <= CHUNK_LIMIT
    ensures Chunks(CutTwice(stream, n, m)) && Flatten(CutTwice(stream, n, m)) == stream
    ensures Within(limit, CutTwice(stream, n, m)) == stream[..n]
  {
    var a, b := Singles(stream[..n]), [stream[n..m]] + Singles(stream[m..]);
    SinglesFlatten(stream[..n]);
    SinglesFlatten(stream[m..]);
    FlattenAppend(a, b);
    FlattenPushFront(stream[n..m], Singles(stream[m..]));
    assert stream[..n] + (stream[n..m] + stream[m..]) == stream;
    WithinAppend(limit, a, b);
  }

  // With a boundary at n and the next one at m, the scan up to n decides.
  lemma CutDecides(replyLimit: nat, bulkLimit: nat, stream: Bytes, n: nat, m: nat)
    requires TypeIsGood(stream) && n <= replyLimit < m <= |stream| && m - n <= CHUNK_LIMIT
    ensures Chunks(CutTwice(stream, n, m)) && Flatten(CutTwice(stream, n, m)) == stream
    ensures Result(replyLimit, bulkLimit, CutTwice(stream, n, m)) == BeyondLimit(Scan(stream[..n], bulkLimit))
  {
    CutTwiceWithin(stream, n, m, replyLimit);
    BoundaryDecides(replyLimit, bulkLimit, CutTwice(stream, n, m));
    if n == 0 {
      ScanOfNothing(stream[..0], bulkLimit);
    }
  }

  lemma ScanOfNothing(s: Bytes, bulkLimit: nat)
    requires s == []
    ensures Scan(s, bulkLimit) == Undecided
  {
  }

  lemma CutRefuses(replyLimit: nat, bulkLimit: nat, stream: Bytes, n: nat, why: Refusal)
    requires TypeIsGood(stream) && n <= replyLimit < |stream| && replyLimit + 1 - n <= CHUNK_LIMIT
    requires BeyondLimit(Scan(stream[..n], bulkLimit)) == Failed(why)
    ensures Refuses(replyLimit, bulkLimit, stream, CutTwice(stream, n, replyLimit + 1), why)
  {
    CutDecides(replyLimit, bulkLimit, stream, n, replyLimit + 1);
  }

  // The chunkings that show it.
  lemma OpenReasonShows(replyLimit: nat, bulkLimit: nat, stream: Bytes)
    requires ReasonOpen(replyLimit, bulkLimit, stream)
    ensures Refuses(replyLimit, bulkLimit, stream, CutTwice(stream, Earliest(replyLimit), replyLimit + 1), ResultTooLarge)
    ensures Refuses(replyLimit, bulkLimit, stream, CutTwice(stream, replyLimit, replyLimit + 1), IoError)
  {
    CutRefuses(replyLimit, bulkLimit, stream, Earliest(replyLimit), ResultTooLarge);
    CutRefuses(replyLimit, bulkLimit, stream, replyLimit, IoError);
  }

  // A stream that does not meet the condition has one reason in all chunkings.
  lemma ClosedReason(replyLimit: nat, bulkLimit: nat, stream: Bytes, bad: seq<Bytes>, big: seq<Bytes>)
    requires Refuses(replyLimit, bulkLimit, stream, bad, IoError)
    requires Refuses(replyLimit, bulkLimit, stream, big, ResultTooLarge)
    ensures ReasonOpen(replyLimit, bulkLimit, stream)
  {
    ChunkingIsIrrelevant(replyLimit, bulkLimit, bad, Mores(|bad|));
    ChunkingIsIrrelevant(replyLimit, bulkLimit, big, Mores(|big|));
    assert |stream| > replyLimit;
    GoodTypeWhenTooLarge(replyLimit, bulkLimit, big);
    BoundaryDecides(replyLimit, bulkLimit, bad);
    BoundaryDecides(replyLimit, bulkLimit, big);
    WithinIsPrefix(replyLimit, bad);
    WithinIsPrefix(replyLimit, big);
    var m, n := |Within(replyLimit, bad)|, |Within(replyLimit, big)|;
    assert Within(replyLimit, bad) == stream[..m] && Within(replyLimit, big) == stream[..n];
    PrefixScan(stream, m, replyLimit, bulkLimit);
    if Scan(stream[..n], bulkLimit) != Undecided {
      PrefixScan(stream, n, replyLimit, bulkLimit);
    }
    if Scan(stream[..Earliest(replyLimit)], bulkLimit) != Undecided {
      PrefixScan(stream, Earliest(replyLimit), n, bulkLimit);
    }
  }

  // A stream of a bad type is refused for its type, however it is cut.
  lemma {:induction false} GoodTypeWhenTooLarge(replyLimit: nat, bulkLimit: nat, chunks: seq<Bytes>)
    requires Chunks(chunks) && Result(replyLimit, bulkLimit, chunks) == Failed(ResultTooLarge)
    ensures TypeIsGood(Flatten(chunks))
  {
    if chunks != [] {
      var n := |chunks| - 1;
      var front, last := chunks[..n], chunks[n];
      FlattenFront(chunks);
      MoresFront(|chunks|);
      var g := Play(replyLimit, bulkLimit, front, Mores(n));
      assert Play(replyLimit, bulkLimit, chunks, Mores(|chunks|)) == OnChunk(g, last, More);
      PlayKeeps(replyLimit, bulkLimit, front, Mores(n));
      ChunkingIsIrrelevant(replyLimit, bulkLimit, front, Mores(n));
      if g.outcome != Reading {
        GoodTypeWhenTooLarge(replyLimit, bulkLimit, front);
      } else if g.fed != [] {
        assert Flatten(chunks)[0] == g.fed[0];
      } else {
        assert Flatten(chunks)[0] == last[0];
      }
    }
  }

  ghost predicate TwoReasons(replyLimit: nat, bulkLimit: nat, stream: Bytes)
  {
    exists bad, big :: Refuses(replyLimit, bulkLimit, stream, bad, IoError)
                       && Refuses(replyLimit, bulkLimit, stream, big, ResultTooLarge)
  }

  /** Exactly when the reason for refusing a reply depends on the chunking: there are
      two chunkings of a stream that are refused for different reasons if and only if
      the condition on the stream and the limits holds. */
  lemma ReasonDependsOnChunking(replyLimit: nat, bulkLimit: nat, stream: Bytes)
    ensures TwoReasons(replyLimit, bulkLimit, stream) <==> ReasonOpen(replyLimit, bulkLimit, stream)
  {
    if ReasonOpen(replyLimit, bulkLimit, stream) {
      OpenReasonShows(replyLimit, bulkLimit, stream);
    }
    if TwoReasons(replyLimit, bulkLimit, stream) {
      var bad, big :| Refuses(replyLimit, bulkLimit, stream, bad, IoError)
                      && Refuses(replyLimit, bulkLimit, stream, big, ResultTooLarge);
      ClosedReason(replyLimit, bulkLimit, stream, bad, big);
    }
  }

  // The limits of an authentication: 4096 bytes of reply and no bulk.
  const AUTH_REPLY_LIMIT: nat := 4096

  // An empty bulk length and then 4094 bytes of anything.
  function BadHeaderReply(rest: Bytes): Bytes { [DOLLAR, CR, LF] + rest }

  /** An input at a limit the client uses: with an empty bulk length at the front of
      4097 bytes, one read of "$" and one of the 4096 bytes after it are refused for
      the size, and a first read that ends behind the header is refused for the
      header. */
  lemma ReasonCanDiffer(rest: Bytes)
    requires |rest| == 4094
    ensures TwoReasons(AUTH_REPLY_LIMIT, 0, BadHeaderReply(rest))
    ensures
      var stream := BadHeaderReply(rest);
      && Refuses(AUTH_REPLY_LIMIT, 0, stream, [stream[..1], stream[1..]], ResultTooLarge)
      && Refuses(AUTH_REPLY_LIMIT, 0, stream, [stream[..3], stream[3..]], IoError)
  {
    var stream := BadHeaderReply(rest);
    BadHeader(stream[..3]);
    assert stream[..3] == [DOLLAR, CR, LF];
    TwoChunks(AUTH_REPLY_LIMIT, 0, stream, 1);
    TwoChunks(AUTH_REPLY_LIMIT, 0, stream, 3);
    assert Scan(stream[..1], 0) == Undecided;
    var early, late := [stream[..3], stream[3..]], [stream[..1], stream[1..]];
    assert Refuses(AUTH_REPLY_LIMIT, 0, stream, early, IoError);
    assert Refuses(AUTH_REPLY_LIMIT, 0, stream, late, ResultTooLarge);
  }

  lemma TwoChunks(replyLimit: nat, bulkLimit: nat, stream: Bytes, n: nat)
    requires TypeIsGood(stream) && 0 < n <= replyLimit < |stream|
    requires n <= CHUNK_LIMIT && |stream| - n <= CHUNK_LIMIT
    ensures Chunks([stream[..n], stream[n..]]) && Flatten([stream[..n], stream[n..]]) == stream
    ensures Result(replyLimit, bulkLimit, [stream[..n], stream[n..]]) == BeyondLimit(Scan(stream[..n], bulkLimit))
  {
    var a, b := [stream[..n]], [stream[n..]];
    assert [stream[..n], stream[n..]] == a + b;
    FlattenAppend(a, b);
    assert a[..0] == [] && b[..0] == [];
    assert Flatten(a) == [] + stream[..n] && Flatten(b) == [] + stream[n..];
    assert stream[..n] + stream[n..] == stream;
    WithinAppend(replyLimit, a, b);
    BoundaryDecides(replyLimit, bulkLimit, a + b);
  }

  lemma BadHeader(bad: Bytes)
    requires bad == [DOLLAR, CR, LF]
    ensures Scan(bad, 0) == Refused(IoError)
  {
    FirstCrLfIsFirst(bad);
    assert CrLfAt(bad, 1) && !CrLfAt(bad, 0);
    assert Front(bad) == bad && FirstCrLf(bad) == Some(1);
    assert bad[..1] == [DOLLAR] && [DOLLAR][1..] == [];
  }

  // ------------------------------------------------------- the imperative form

  class ReplyGuard {
    var header: Bytes
    var headerChecked: bool
    var received: nat
    var outcome: Outcome
    const replyLimit: nat
    const bulkLimit: nat
    ghost var fed: Bytes

    ghost function HeaderState(): Header
      reads this
    {
      Header(header, headerChecked, if outcome.Failed? then Some(outcome.why) else None)
    }

    // A reply that is not settled yet.
    ghost predicate Open(g: Guard)
      reads this
    {
      && outcome == Reading && g.outcome == Reading
      && g == Guard(replyLimit, bulkLimit, HeaderState(), received, fed, outcome)
    }

    constructor (maximumReply: nat)
      ensures replyLimit == maximumReply
      ensures bulkLimit == if maximumReply > HEADER_LIMIT then maximumReply - HEADER_LIMIT else 0
      ensures Open(Started(replyLimit, bulkLimit))
    {
      replyLimit := maximumReply;
      bulkLimit := if maximumReply > HEADER_LIMIT then maximumReply - HEADER_LIMIT else 0;
      header, headerChecked, received, outcome, fed := [], false, 0, Reading, [];
    }

    // The whole text as a decimal 64-bit number.
    static method ParseLength(text: Bytes) returns (n: Option<int>)
      ensures n == Number(text)
    {
      var negative := text != [] && text[0] == MINUS;
      var digits := if negative then text[1..] else text;
      if digits == [] {
        return None;
      }
      var value := 0;
      for i := 0 to |digits|
        invariant AllDigits(digits[..i]) && value == Decimal(digits[..i])
      {
        if !Digit(digits[i]) {
          return None;
        }
        assert digits[..i + 1][..i] == digits[..i];
        value := 10 * value + (digits[i] as int - 48);
      }
      assert digits[..|digits|] == digits;
      var signed := if negative then -value else value;
      return if -INT64_MAX - 1 <= signed <= INT64_MAX then Some(signed) else None;
    }

    method CheckLine(line: Bytes) returns (refusal: Option<Refusal>)
      ensures refusal == LineRefusal(line, bulkLimit)
    {
      if line == [] || line[0] != DOLLAR {
        return None;
      }
      var length := ParseLength(line[1..]);
      if length.None? || length.value < -1 {
        return Some(IoError);
      }
      return if length.value >= 0 && length.value > bulkLimit then Some(ResultTooLarge) else None;
    }

    method PushByte(b: Byte)
      requires outcome == Reading && !headerChecked
      modifies this`header, this`headerChecked, this`outcome
      ensures HeaderState() == Next(old(HeaderState()), b, bulkLimit)
      ensures outcome != Done
    {
      if |header| >= HEADER_LIMIT {
        outcome := Failed(ResultTooLarge);
        return;
      }
      header := header + [b];
      var count := |header|;
      if count < 2 || header[count - 2] != CR || header[count - 1] != LF {
        return;
      }
      headerChecked := true;
      var refusal := CheckLine(header[..count - 2]);
      if refusal.Some? {
        outcome := Failed(refusal.value);
      }
    }

    method CheckHeader(bytes: Bytes) returns (ok: bool)
      requires outcome == Reading
      modifies this`header, this`headerChecked, this`outcome
      ensures HeaderState() == Read(old(HeaderState()), bytes, bulkLimit)
      ensures ok <==> outcome == Reading
      ensures outcome != Done
    {
      if headerChecked {
        DecidedStays(HeaderState(), bytes, bulkLimit);
        return true;
      }
      for i := 0 to |bytes|
        invariant HeaderState() == Read(old(HeaderState()), bytes[..i], bulkLimit)
        invariant outcome == Reading && !headerChecked
      {
        PushByte(bytes[i]);
        ReadTaken(old(HeaderState()), bytes, i, bulkLimit);
        if headerChecked || outcome != Reading {
          return outcome == Reading;
        }
      }
      assert bytes[..|bytes|] == bytes;
      return true;
    }

    // One completed read, and what the parser says once it has been fed.
    method OnRead(chunk: Bytes, parse: Parse, ghost g: Guard)
      requires chunk != [] && Open(g) && received <= replyLimit
      modifies this
      ensures received <= replyLimit
      ensures
        var t := OnChunk(g, chunk, parse);
        outcome == t.outcome && received == t.received && fed == t.fed && (outcome == Reading ==> Open(t))
    {
      if received == 0 && chunk[0] !in REPLY_TYPES {
        outcome := Failed(IoError);
        return;
      }
      if |chunk| > replyLimit - received {
        outcome := Failed(ResultTooLarge);
        return;
      }
      received := received + |chunk|;
      var ok := CheckHeader(chunk);
      if !ok {
        return;
      }
      fed := fed + chunk;
      match parse
      case More =>
      case Whole(trailing) => outcome := if trailing then Failed(IoError) else Done;
      case Broken => outcome := Failed(IoError);
    }
  }
}
