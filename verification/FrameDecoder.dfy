/** The incremental frame decoder: a buffer and an index into it. */
module FrameDecoderClass {
  import opened Wrappers
  import opened BigEndian
  import opened EventStream
  import Headers

  class FrameDecoder {
    const crc: Crc
    var buf: seq<byte>
    /** Bytes consumed from the front of `buf` but not yet drained. */
    var start: nat
    /** All bytes that were ever pushed. */
    ghost var received: seq<byte>
    /** How many of them were handed out in frames. */
    ghost var consumed: nat
    /** How many bytes draining has moved to the front so far. */
    ghost var moved: nat

    ghost predicate Valid()
      reads this
    {
      && start <= |buf|
      && consumed <= |received|
      && buf[start..] == received[consumed..]
      && start + moved <= consumed
      && (0 < moved ==> start + moved < consumed)
    }

    /** The unconsumed suffix of everything that was pushed. */
    ghost function Pending(): seq<byte>
      reads this
      requires Valid()
    {
      received[consumed..]
    }

    constructor (crc: Crc)
      ensures Valid() && received == [] && consumed == 0 && moved == 0 && this.crc == crc
    {
      this.crc := crc;
      buf, start := [], 0;
      received, consumed, moved := [], 0, 0;
    }

    /** The buffer stays within twice what was pending plus what is new, and all draining so far
        has moved fewer bytes than were consumed. */
    method Push(bytes: seq<byte>)
      requires Valid()
      modifies this
      ensures Valid()
      ensures received == old(received) + bytes && consumed == old(consumed)
      ensures Pending() == old(Pending()) + bytes
      ensures |buf| <= 2 * |old(Pending())| + |bytes|
      ensures moved <= consumed && (0 < moved ==> moved < consumed)
    {
      Extended(buf, start, bytes);
      Extended(received, consumed, bytes);
      assert |buf| - start == |Pending()|;
      if start > 0 && start * 2 > |buf| {
        moved := moved + (|buf| - start);
        buf := buf[start..];
        start := 0;
      }
      buf := buf + bytes;
      received := received + bytes;
    }

    function PendingLen(): (n: nat)
      reads this
      requires Valid()
      ensures n == |Pending()|
    {
      |buf| - start
    }

    function Finish(): (r: Result<(), FrameError>)
      reads this
      requires Valid()
      ensures r == if Pending() == [] then Ok(()) else Err(Truncated(|Pending()|))
    {
      match PendingLen()
      case 0 => Ok(())
      case pending => Err(Truncated(pending))
    }

    /** The next complete frame, if the pending bytes start with one. */
    method NextFrame() returns (r: Result<Option<Frame>, FrameError>)
      requires Valid()
      modifies this`start, this`consumed
      ensures Valid()
      ensures match Decode(crc, old(Pending()))
              case NeedMore => r == Ok(None) && Pending() == old(Pending())
              case Bad(e) => r == Err(e) && Pending() == old(Pending())
              case Got(f, n) => r == Ok(Some(f)) && Pending() == old(Pending())[n..] && consumed == old(consumed) + n
    {
      hide Headers.ParseAll;
      hide FromBE;
      var data := buf[start..];
      assert data == Pending();
      if |data| < PRELUDE_LEN {
        return Ok(None);
      }
      ghost var p := data[..PRELUDE_LEN];
      assert data[..4] == p[..4] && data[4..8] == p[4..8] && data[8..12] == p[8..] && data[..8] == p[..8];
      var total := FromBE(data[..4]);
      var headersLen := FromBE(data[4..8]);
      var expected := FromBE(data[8..12]);
      var computed := crc(data[..8]);
      if computed != expected {
        return Err(PreludeCrc(computed, expected));
      }
      if total < MIN_FRAME_LEN {
        return Err(TooSmall(total));
      }
      if total > MAX_FRAME_BYTES {
        return Err(TooLarge(total, MAX_FRAME_BYTES));
      }
      var bodyLen := total - PRELUDE_LEN;
      if headersLen > bodyLen - 4 {
        return Err(HeadersOverrun(headersLen));
      }
      if headersLen > MAX_HEADERS_BYTES {
        return Err(HeadersOverrun(headersLen));
      }
      if |data| < total {
        return Ok(None);
      }
      var frameBytes := data[..total];
      var msgExpected := FromBE(frameBytes[total - 4..]);
      var msgComputed := crc(frameBytes[..total - 4]);
      if msgComputed != msgExpected {
        return Err(MessageCrc(msgComputed, msgExpected));
      }
      var headers := Headers.ParseHeaders(frameBytes[PRELUDE_LEN..PRELUDE_LEN + headersLen]);
      if headers.Err? {
        return Err(BadHeader(headers.error));
      }
      var payload := frameBytes[PRELUDE_LEN + headersLen..total - 4];
      Advanced(buf, start, received, consumed, total);
      start := start + total;
      consumed := consumed + total;
      r := Ok(Some(Frame(headers.value, payload)));
    }
  }

  lemma Extended(s: seq<byte>, i: nat, more: seq<byte>)
    requires i <= |s|
    ensures (s + more)[i..] == s[i..] + more
  {
  }

  /** Two suffixes that are equal stay equal when both lose the same bytes. */
  lemma Advanced(a: seq<byte>, i: nat, b: seq<byte>, j: nat, n: nat)
    requires i <= |a| && j <= |b| && a[i..] == b[j..] && n <= |a| - i
    ensures j + n <= |b| && a[i + n..] == b[j + n..] && b[j + n..] == b[j..][n..]
  {
    assert |a[i..]| == |b[j..]|;
    assert a[i + n..] == a[i..][n..] && b[j + n..] == b[j..][n..];
  }
}
