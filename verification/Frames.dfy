/** The server's message decoder: frames of a 4-byte length and a body, cut into reads
    anyhow. */
module Frames {

  const BUFFER_SIZE := 4096
  const HEADER := 4

  /** The length in a header, most significant byte first. */
  function Length(h: seq<nat>): nat
    requires |h| >= HEADER
  {
    ((h[0] * 256 + h[1]) * 256 + h[2]) * 256 + h[3]
  }

  predicate LengthOk(n: nat) { 0 < n <= BUFFER_SIZE - HEADER }

  /** What a stream of bytes says: its messages, and the bytes after the last one, or that
      the next length is not acceptable. */
  datatype Parsed = Parsed(messages: seq<seq<nat>>, rest: seq<nat>, rejected: bool)

  /** The decoder that sees the whole stream at once. */
  function Parse(s: seq<nat>): (r: Parsed)
    ensures !r.rejected ==> |r.rest| < BUFFER_SIZE
    decreases |s|
  {
    if |s| < HEADER then Parsed([], s, false)
    else
      var n := Length(s);
      if !LengthOk(n) then Parsed([], [], true)
      else if |s| < HEADER + n then Parsed([], s, false)
      else
        var r := Parse(s[HEADER + n..]);
        r.(messages := [s[HEADER..HEADER + n]] + r.messages)
  }

  /** `r` and then `t`. */
  function After(r: Parsed, t: Parsed): Parsed { t.(messages := r.messages + t.messages) }

  /** A stream may be parsed up to anywhere first, and the rest with what was left over. */
  lemma {:induction false} ParseMore(s: seq<nat>, e: seq<nat>)
    ensures Parse(s).rejected ==> Parse(s + e) == Parse(s)
    ensures !Parse(s).rejected ==> Parse(s + e) == After(Parse(s), Parse(Parse(s).rest + e))
    decreases |s|
  {
    hide Length;
    if |s| < HEADER {
      assert [] + Parse(s + e).messages == Parse(s + e).messages;
    } else {
      var n := Length(s);
      SameLength(s + e, s);
      if !LengthOk(n) {
      } else if |s| < HEADER + n {
        assert [] + Parse(s + e).messages == Parse(s + e).messages;
      } else {
        var rest := s[HEADER + n..];
        ParseMore(rest, e);
        SlicesMore(s, e, HEADER + n);
        if !Parse(s).rejected {
          AfterFirst(s[HEADER..HEADER + n], Parse(rest), Parse(Parse(rest).rest + e));
        }
      }
    }
  }

  lemma SlicesMore(s: seq<nat>, e: seq<nat>, k: nat)
    requires HEADER <= k <= |s|
    ensures (s + e)[k..] == s[k..] + e && (s + e)[HEADER..k] == s[HEADER..k]
  {
  }

  lemma AfterFirst(m: seq<nat>, r: Parsed, t: Parsed)
    ensures After(r.(messages := [m] + r.messages), t) == After(r, t).(messages := [m] + After(r, t).messages)
  {
    assert ([m] + r.messages) + t.messages == [m] + (r.messages + t.messages);
  }

  lemma SameLength(a: seq<nat>, b: seq<nat>)
    requires |a| >= HEADER && |b| >= HEADER && a[0] == b[0] && a[1] == b[1] && a[2] == b[2] && a[3] == b[3]
    ensures Length(a) == Length(b)
  {
  }

  /** One whole message. */
  lemma ParseExact(q: seq<nat>)
    requires |q| >= HEADER && LengthOk(Length(q)) && |q| == HEADER + Length(q)
    ensures Parse(q) == Parsed([q[HEADER..]], [], false)
  {
    hide Length;
    var n := Length(q);
    assert q[HEADER..HEADER + n] == q[HEADER..] && q[HEADER + n..] == [];
    assert Parse(q).messages == [q[HEADER..]] + [] == [q[HEADER..]];
  }

  /** A few more bytes, within a header or within a body. */
  lemma ParsePart(s: seq<nat>, r: seq<nat>, part: seq<nat>)
    requires !Parse(s).rejected && Parse(s).rest == r
    ensures |r| + |part| < HEADER ==> Parse(s + part) == Parsed(Parse(s).messages, r + part, false)
    ensures |r| < HEADER == |r| + |part| ==>
      Parse(s + part) == if LengthOk(Length(r + part)) then Parsed(Parse(s).messages, r + part, false)
        else Parsed(Parse(s).messages, [], true)
    ensures |r| >= HEADER ==> LengthOk(Length(r)) && |r| < HEADER + Length(r)
    ensures |r| >= HEADER && |r| + |part| < HEADER + Length(r) ==>
      Parse(s + part) == Parsed(Parse(s).messages, r + part, false)
    ensures |r| >= HEADER && |r| + |part| == HEADER + Length(r) ==>
      Parse(s + part) == Parsed(Parse(s).messages + [(r + part)[HEADER..]], [], false)
  {
    hide Length;
    ParseLeft(s);
    ParseMore(s, part);
    var q, m := r + part, Parse(s).messages;
    if |q| >= HEADER {
      if |r| >= HEADER { SameLength(q, r); }
      var n := Length(q);
      if LengthOk(n) && |q| == HEADER + n { ParseExact(q); }
    }
    assert m + [] == m;
  }

  lemma ParseLeft(s: seq<nat>)
    requires !Parse(s).rejected
    ensures Parse(Parse(s).rest) == Parsed([], Parse(s).rest, false)
    decreases |s|
  {
  }

  class Client {
    const buffer: array<nat>
    var used: nat
    var expected: nat
    var valid: bool
    /** What on_client_data was called with. */
    var delivered: seq<seq<nat>>

    ghost predicate Ready()
      reads this, buffer
    {
      && buffer.Length == BUFFER_SIZE && used < BUFFER_SIZE
      && (valid && used < HEADER ==> expected == 0)
      && (valid && used >= HEADER ==>
        expected == Length(buffer[..used]) && LengthOk(expected) && used < HEADER + expected)
    }

    /** The connection after a stream: the messages in it were delivered, and what follows the
        last one is in the buffer. */
    ghost predicate Decoded(s: seq<nat>)
      reads this, buffer
    {
      && Ready() && delivered == Parse(s).messages && (valid <==> !Parse(s).rejected)
      && (valid ==> buffer[..used] == Parse(s).rest)
    }

    constructor ()
      ensures Decoded([]) && fresh(buffer) && valid
    {
      buffer := new nat[BUFFER_SIZE];
      used, expected, valid, delivered := 0, 0, true, [];
    }

    /** process_message, for a callback that does not close the client. */
    method Process(data: seq<nat>)
      requires valid
      modifies this`delivered
      ensures delivered == old(delivered) + [data]
    {
      delivered := delivered + [data];
    }

    method Copy(data: seq<nat>, offset: nat, n: nat)
      requires offset + n <= |data| && used + n <= buffer.Length
      modifies this`used, buffer
      ensures used == old(used) + n && buffer[..used] == old(buffer[..used]) + data[offset..offset + n]
    {
      forall i | 0 <= i < n {
        buffer[used + i] := data[offset + i];
      }
      used := used + n;
    }

    /** The header is not complete: more of it. */
    method ReadHeader(data: seq<nat>, offset: nat, ghost s: seq<nat>) returns (next: nat)
      requires Decoded(s) && valid && used < HEADER && offset < |data|
      modifies this, buffer
      ensures offset < next <= |data| && Decoded(s + data[offset..next])
    {
      hide Length;
      var remaining := |data| - offset;
      var toCopy := HEADER - used;
      if toCopy > remaining { toCopy := remaining; }
      next := offset + toCopy;
      ParsePart(s, buffer[..used], data[offset..next]);
      Copy(data, offset, toCopy);
      if used == HEADER {
        var n := Length(buffer[..HEADER]);
        if n == 0 || n > BUFFER_SIZE - HEADER {
          valid := false;
        } else {
          expected := n;
        }
      }
    }

    /** The header is there: more of the body, and the message when it is complete. */
    method ReadBody(data: seq<nat>, offset: nat, ghost s: seq<nat>) returns (next: nat)
      requires Decoded(s) && valid && used >= HEADER && offset < |data|
      modifies this, buffer
      ensures offset < next <= |data| && valid && Decoded(s + data[offset..next])
    {
      hide Length;
      var remaining := |data| - offset;
      var total := HEADER + expected;
      var toCopy := total - used;
      if toCopy > remaining { toCopy := remaining; }
      next := offset + toCopy;
      ghost var r := buffer[..used];
      ParsePart(s, r, data[offset..next]);
      Copy(data, offset, toCopy);
      SameLength(buffer[..used], r);
      if used == total {
        assert buffer[HEADER..HEADER + expected] == buffer[..used][HEADER..];
        Process(buffer[HEADER..HEADER + expected]);
        used := 0;
        expected := 0;
      }
    }

    /** on_read, with the bytes that arrived. */
    method OnRead(data: seq<nat>, ghost s: seq<nat>)
      requires Decoded(s)
      modifies this, buffer
      ensures Decoded(s + data)
    {
      hide Parse, Ready;
      ParseMore(s, data);
      if !valid { return; }
      var offset := 0;
      assert data[..0] == [] && s + [] == s;
      while offset < |data|
        invariant offset <= |data| && valid && Decoded(s + data[..offset])
      {
        ghost var from := offset;
        if used < HEADER {
          offset := ReadHeader(data, offset, s + data[..offset]);
        } else {
          offset := ReadBody(data, offset, s + data[..offset]);
        }
        assert (s + data[..from]) + data[from..offset] == s + data[..offset];
        if !valid {
          ParseMore(s + data[..offset], data[offset..]);
          assert (s + data[..offset]) + data[offset..] == s + data;
          return;
        }
      }
      assert data[..offset] == data;
    }
  }

  function Concat(chunks: seq<seq<nat>>): seq<nat> {
    if chunks == [] then [] else Concat(chunks[..|chunks| - 1]) + chunks[|chunks| - 1]
  }

  /** However a stream is cut into reads, the connection ends as the one-shot decoder says. */
  method Receive(chunks: seq<seq<nat>>) returns (client: Client)
    ensures client.Decoded(Concat(chunks))
  {
    client := new Client();
    for i := 0 to |chunks|
      invariant fresh(client) && fresh(client.buffer) && client.Decoded(Concat(chunks[..i]))
    {
      assert chunks[..i + 1][..i] == chunks[..i];
      client.OnRead(chunks[i], Concat(chunks[..i]));
    }
    assert chunks[..|chunks|] == chunks;
  }

  /** Two ways to cut the same stream cannot be told apart. */
  lemma SameStream(a: seq<seq<nat>>, b: seq<seq<nat>>, c: Client, d: Client)
    requires Concat(a) == Concat(b) && c.Decoded(Concat(a)) && d.Decoded(Concat(b))
    ensures c.delivered == d.delivered && c.valid == d.valid
    ensures c.valid ==> c.used == d.used && c.expected == d.expected && c.buffer[..c.used] == d.buffer[..d.used]
  {
    if c.valid { assert |c.buffer[..c.used]| == |d.buffer[..d.used]|; }
  }
}
