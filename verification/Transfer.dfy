/** Downloads: which response a request gets, which octets follow it, and what a client that resumes makes of them. */
module Transfer {
  import opened Text
  import opened ByteRange

  const DOWNLOAD_SLICE: nat := 512 * 1024

  /** How a transfer ended: all sent, the client hung up, or the connection was dropped by the server. */
  datatype Ending = Complete | ClientGone | Aborted

  /**
   * What the world does to a transfer: before slice i the client may be gone, the read of slice i
   * fetches at most gives(i) octets, and the write of slice i may fail. A read that ends exactly at the end
   * of the file may report that end at once.
   */
  datatype World = World(gone: nat -> bool, gives: nat -> nat, endsEarly: nat -> bool, writeFails: nat -> bool)

  /** The octets between two places that a file really holds. */
  function Part(file: Octets, from: nat, end: nat): Octets
    requires from <= end
  {
    if from >= |file| then [] else file[from..Min(|file|, end)]
  }

  lemma PartSlice(file: Octets, from: nat, end: nat, at: nat, n: nat)
    requires from + at + n <= |file| && from + at + n <= end && from < |file|
    ensures at + n <= |Part(file, from, end)| && file[from + at..from + at + n] == Part(file, from, end)[at..at + n]
  {
    var part := Part(file, from, end);
    assert part == file[from..Min(|file|, end)];
    var cut, want := part[at..at + n], file[from + at..from + at + n];
    forall i | 0 <= i < n
      ensures cut[i] == want[i]
    {
      assert part[at + i] == file[from + at + i];
    }
    assert cut == want;
  }

  /** Nothing is in the way of a transfer. */
  ghost predicate IsCalm(world: World)
  {
    forall i :: !world.gone(i) && !world.writeFails(i) && world.gives(i) >= DOWNLOAD_SLICE
  }

  /** Sends what lies between two places of a blob, which is nothing if they are the same. */
  method StreamRange(blob: Option<Octets>, from: nat, end: nat, world: World) returns (sent: Octets, ending: Ending)
    requires from <= end
    ensures blob.None? ==> sent == [] && ending == Aborted
    ensures blob.Some? ==> sent <= Part(blob.value, from, end)
    ensures blob.Some? ==> (ending == Complete <==> |sent| == end - from)
    ensures blob.Some? && IsCalm(world) ==>
              && ending == (if from == end || end <= |blob.value| then Complete else Aborted)
              && sent == Part(blob.value, from, end)
  {
    if blob.None? {
      return [], Aborted;
    }
    var file := blob.value;
    ghost var whole := Part(file, from, end);
    ghost var calm := IsCalm(world);
    sent := [];
    var offset, remaining, i := from, end - from, 0;
    while remaining > 0
      invariant remaining >= 0
      invariant offset + remaining == end && offset == from + |sent|
      invariant sent <= whole
      decreases remaining
    {
      if world.gone(i) {
        return sent, ClientGone;
      }
      var size := Min(DOWNLOAD_SLICE, remaining);
      var available := if offset < |file| then |file| - offset else 0;
      var n := Min(size, Min(available, world.gives(i)));
      if n > 0 {
        if world.writeFails(i) {
          return sent, ClientGone;
        }
        PartSlice(file, from, end, |sent|, n);
        sent := sent + file[offset..offset + n];
        offset := offset + n;
        remaining := remaining - n;
      }
      if n < size || (offset == |file| && world.endsEarly(i)) {
        if remaining > 0 {
          assert calm ==> offset >= |file|;
          return sent, Aborted;
        }
        return sent, Complete;
      }
      i := i + 1;
    }
    return sent, Complete;
  }

  predicate IsSpaceOrTab(c: Octet)
  {
    c == ' ' || c == '\t'
  }

  /** What is left of a text between its outer spaces and tabs. */
  ghost predicate IsTrimmed(text: Octets, trimmed: Octets, m: nat)
  {
    && m + |trimmed| <= |text| && trimmed == text[m..m + |trimmed|]
    && (forall i :: 0 <= i < m || m + |trimmed| <= i < |text| ==> IsSpaceOrTab(text[i]))
    && (trimmed != [] ==> !IsSpaceOrTab(text[m]) && !IsSpaceOrTab(text[m + |trimmed| - 1]))
  }

  /** Whether an If-None-Match header names an entity tag, outer spaces and tabs aside. */
  ghost predicate Names(header: Octets, etag: Octets)
  {
    header != [] && exists m :: IsTrimmed(header, etag, m)
  }

  lemma TrimmedOnce(text: Octets, a: Octets, m: nat, b: Octets, n: nat)
    requires IsTrimmed(text, a, m) && IsTrimmed(text, b, n)
    ensures a == b
  {
  }

  method TrimBlanks(text: Octets) returns (trimmed: Octets)
    ensures exists m :: IsTrimmed(text, trimmed, m)
  {
    var m, n := 0, |text|;
    while m < n && (text[m] == ' ' || text[m] == '\t')
      invariant 0 <= m <= n && forall i :: 0 <= i < m ==> IsSpaceOrTab(text[i])
    {
      m := m + 1;
    }
    while m < n && (text[n - 1] == ' ' || text[n - 1] == '\t')
      invariant m <= n <= |text| && forall i :: n <= i < |text| ==> IsSpaceOrTab(text[i])
      invariant m < n ==> !IsSpaceOrTab(text[m])
    {
      n := n - 1;
    }
    trimmed := text[m..n];
    assert IsTrimmed(text, trimmed, m);
  }

  datatype Response = Response(status: nat, contentLength: Option<nat>, sent: Octets, ending: Ending)

  /**
   * A response to a download request, for a chunk whose sidecar gives its size and entity tag. A finished GET
   * delivered exactly as many octets as its Content-Length promised, and they are the ones the range asked for;
   * one that was cut delivered the first of them.
   */
  ghost predicate IsResponse(range: Octets, ifNoneMatch: Octets, isHead: bool, size: nat, etag: Octets,
      blob: Option<Octets>, r: Response)
  {
    && r.status in {200, 206, 304, 416}
    && (r.status == 416 <==> ParseByteRange(range, size) == Unsatisfiable)
    && (r.status == 206 <==> ParseByteRange(range, size).Satisfiable?)
    && (r.status == 304 <==> ParseByteRange(range, size) == Whole && Names(ifNoneMatch, etag))
    && r.contentLength == (match r.status
                           case 416 => Some(0)
                           case 206 => Some(ParseByteRange(range, size).span.Length())
                           case 200 => Some(size)
                           case _ => None)
    && (isHead || r.status == 304 || r.status == 416 ==> r.sent == [] && r.ending == Complete)
    && (!isHead && r.status in {200, 206} ==>
          if blob.None? then r.sent == [] && r.ending == Aborted
          else
            var (from, end) := if r.status == 200 then (0, size)
                else (ParseByteRange(range, size).span.from, ParseByteRange(range, size).span.to + 1);
            && r.sent <= Part(blob.value, from, end)
            && (r.ending == Complete <==> |r.sent| == r.contentLength.value == end - from))
  }

  /** serveChunk. */
  method ServeChunk(range: Octets, ifNoneMatch: Octets, isHead: bool, size: nat, etag: Octets,
                    blob: Option<Octets>, world: World)
    returns (r: Response)
    ensures IsResponse(range, ifNoneMatch, isHead, size, etag, blob, r)
    ensures IsCalm(world) && blob.Some? && |blob.value| == size ==> r.ending == Complete
  {
    hide ParseByteRange;
    var verdict := ParseByteRange(range, size);
    match verdict
    case Unsatisfiable =>
      return Response(416, Some(0), [], Complete);
    case Satisfiable(span) =>
      if isHead {
        return Response(206, Some(span.Length()), [], Complete);
      }
      var sent, ending := StreamRange(blob, span.from, span.to + 1, world);
      return Response(206, Some(span.Length()), sent, ending);
    case Whole =>
      if ifNoneMatch != [] {
        var candidate := TrimBlanks(ifNoneMatch);
        ghost var m :| IsTrimmed(ifNoneMatch, candidate, m);
        forall n | IsTrimmed(ifNoneMatch, etag, n)
          ensures candidate == etag
        {
          TrimmedOnce(ifNoneMatch, candidate, m, etag, n);
        }
        if candidate == etag {
          return Response(304, None, [], Complete);
        }
      }
      if isHead {
        return Response(200, Some(size), [], Complete);
      }
      var sent, ending := StreamRange(blob, 0, size, world);
      return Response(200, Some(size), sent, ending);
  }

  /** What a client that has received some octets asks for next: the rest. */
  function TheRest(received: nat): Octets
  {
    "bytes=" + (Decimal(received) + ['-'] + [])
  }

  /**
   * The responses to a client with no more state than what it has received: it asks for the rest, keeps
   * whatever arrives before the connection is cut, and asks again until it has everything.
   */
  ghost predicate Resumes(body: Octets, etag: Octets, got: Octets, responses: seq<Response>)
    decreases |responses|
  {
    responses == [] ||
    (&& |got| < |body|
     && IsResponse(TheRest(|got|), [], false, |body|, etag, Some(body), responses[0])
     && Resumes(body, etag, got + responses[0].sent, responses[1..]))
  }

  function Received(got: Octets, responses: seq<Response>): Octets
    decreases |responses|
  {
    if responses == [] then got else Received(got + responses[0].sent, responses[1..])
  }

  /** The answer to a client that asks for the rest goes on where it stopped, and is all of the rest if it finishes. */
  lemma AnswerGoesOn(body: Octets, etag: Octets, got: Octets, r: Response)
    requires got <= body && |got| < |body| <= MAX_INT64
    requires IsResponse(TheRest(|got|), [], false, |body|, etag, Some(body), r)
    ensures r.status == 206 && got + r.sent <= body && (r.ending == Complete <==> got + r.sent == body)
  {
    hide ParseByteRange, Decimal;
    ResumeRange(|got|, |body|);
    assert Part(body, |got|, |body|) == body[|got|..];
    assert got + body[|got|..] == body;
    assert (got + body[|got|..])[..|got| + |r.sent|] == got + body[|got|..][..|r.sent|];
  }

  /**
   * However its transfers are cut, a client that resumes has at all times a prefix of the entity, and has the
   * whole of it exactly when a transfer finishes.
   */
  lemma {:induction false} ResumingYieldsTheEntity(body: Octets, etag: Octets, got: Octets, responses: seq<Response>)
    requires got <= body && |body| <= MAX_INT64 && Resumes(body, etag, got, responses)
    ensures Received(got, responses) <= body
    ensures responses != [] ==>
              (Received(got, responses) == body <==> responses[|responses| - 1].ending == Complete)
    decreases |responses|
  {
    hide IsResponse;
    if responses != [] {
      AnswerGoesOn(body, etag, got, responses[0]);
      ResumingYieldsTheEntity(body, etag, got + responses[0].sent, responses[1..]);
    }
  }
}
