/** The codec as it runs: a decoder that advances through its input and an encoder that appends to
    a buffer, both proved to compute the reference functions of `Canonical`. */
module CanonicalCodec {
  import opened Canonical

  function Value<T>(read: Read<T>): Result<T> {
    match read
    case Got(value, _) => Ok(value)
    case Bad(error) => Err(error)
  }

  class Decoder {
    const input: seq<u8>
    var position: nat

    constructor (input: seq<u8>)
      ensures this.input == input && position == 0
    {
      this.input := input;
      position := 0;
    }

    method Byte() returns (r: Result<u8>)
      modifies this
      ensures r == Value(ReadByte(input, old(position)))
      ensures r.Ok? ==> position == ReadByte(input, old(position)).next
    {
      if position >= |input| {
        return Err(Malformed);
      }
      r := Ok(input[position]);
      position := position + 1;
    }

    method Take(length: nat) returns (r: Result<seq<u8>>)
      modifies this
      ensures r == Value(ReadTake(input, old(position), length))
      ensures r.Ok? ==> position == ReadTake(input, old(position), length).next
    {
      var end := position + length;
      if end >= 0x1_0000_0000_0000_0000 {
        return Err(Limit);
      }
      if end > |input| {
        return Err(Malformed);
      }
      r := Ok(input[position..end]);
      position := end;
    }

    method Head(expectedMajor: Major) returns (r: Result<nat>)
      modifies this
      ensures r == Value(ReadHead(input, old(position), expectedMajor))
      ensures r.Ok? ==> position == ReadHead(input, old(position), expectedMajor).next
    {
      var first :- Byte();
      if first / 32 != expectedMajor {
        return Err(Malformed);
      }
      var additional := first % 32;
      var value: nat := additional;
      if additional == 24 {
        value :- Byte();
      } else if 25 <= additional <= 27 {
        var bytes :- Take(if additional == 25 then 2 else if additional == 26 then 4 else 8);
        value := FromBigEndian(bytes);
      } else if additional > 27 {
        return Err(Malformed);
      }
      if (additional == 24 && value < 24) || (additional == 25 && value <= 0xff)
         || (additional == 26 && value <= 0xffff) || (additional == 27 && value <= 0xffff_ffff) {
        return Err(NonCanonical);
      }
      return Ok(value);
    }

    method Key(expected: u64) returns (r: Result<()>)
      modifies this
      ensures r == Value(ReadKey(input, old(position), expected))
      ensures r.Ok? ==> position == ReadKey(input, old(position), expected).next
    {
      var key :- Head(0);
      if key != expected {
        return Err(NonCanonical);
      }
      return Ok(());
    }

    method Count(major: Major, expected: u64) returns (r: Result<()>)
      modifies this
      ensures r == Value(ReadCount(input, old(position), major, expected))
      ensures r.Ok? ==> position == ReadCount(input, old(position), major, expected).next
    {
      var count :- Head(major);
      if count != expected {
        return Err(Malformed);
      }
      return Ok(());
    }

    method FixedBytes() returns (r: Result<Capability>)
      modifies this
      ensures r == Value(ReadFixed(input, old(position)))
      ensures r.Ok? ==> position == ReadFixed(input, old(position)).next
    {
      var length :- Head(2);
      if length != 32 {
        return Err(Malformed);
      }
      var bytes :- Take(32);
      return Ok(bytes);
    }

    method Text(minimum: nat, maximum: nat) returns (r: Result<seq<u8>>)
      modifies this
      ensures r == Value(ReadText(input, old(position), minimum, maximum))
      ensures r.Ok? ==> position == ReadText(input, old(position), minimum, maximum).next
    {
      var length :- Head(3);
      if length < minimum || length > maximum {
        return Err(Limit);
      }
      var bytes :- Take(length);
      if !Utf8(bytes) {
        return Err(Malformed);
      }
      return Ok(bytes);
    }

    method Time(key: u64) returns (r: Result<DateTime>)
      modifies this
      ensures r == Value(ReadTime(input, old(position), key))
      ensures r.Ok? ==> position == ReadTime(input, old(position), key).next
    {
      var _ :- Key(key);
      var seconds :- Head(0);
      if seconds > MAX_TIMESTAMP {
        return Err(InvalidField);
      }
      return Ok(DateTime(seconds, 0));
    }

    method Number() returns (r: Result<u16>)
      modifies this
      ensures r == Value(ReadU16(input, old(position)))
      ensures r.Ok? ==> position == ReadU16(input, old(position)).next
    {
      var value :- Head(0);
      if value >= 0x1_0000 {
        return Err(InvalidField);
      }
      return Ok(value);
    }

    /** Fields 5, 6 and 7. */
    method Access() returns (r: Result<(Capability, Version, bool)>)
      modifies this
      ensures r == Value(ReadAccess(input, old(position)))
      ensures r.Ok? ==> position == ReadAccess(input, old(position)).next
    {
      var _ :- Key(5);
      var capability :- FixedBytes();
      var _ :- Key(6);
      var _ :- Count(4, 3);
      var major :- Number();
      var minor :- Number();
      var patch :- Number();
      var _ :- Key(7);
      var ssh :- Byte();
      if ssh != 0xf4 && ssh != 0xf5 {
        return Err(InvalidField);
      }
      return Ok((capability, Version(major, minor, patch), ssh == 0xf5));
    }

    /** Fields 1 to 7. */
    method Fields() returns (r: Result<Descriptor>)
      requires position == 0
      modifies this
      ensures r == Value(ReadFields(input))
      ensures r.Ok? ==> position == ReadFields(input).next
    {
      var _ :- Count(5, 7);
      var _ :- Key(1);
      var name :- Text(1, MAX_HOST_LABEL_BYTES);
      var issued :- Time(2);
      var expires :- Time(3);
      var _ :- Key(4);
      var ticket :- Text(1, MAX_ENDPOINT_TICKET_LEN);
      var access :- Access();
      return Ok(Descriptor(name, issued, expires, ticket, access.0, access.1, access.2));
    }
  }

  method Decode(input: seq<u8>, tickets: Tickets) returns (r: Result<Descriptor>)
    ensures r == DecodeSpec(input, tickets)
  {
    if |input| > MAX_DESCRIPTOR_LEN {
      return Err(Limit);
    }
    var decoder := new Decoder(input);
    var d :- decoder.Fields();
    if decoder.position != |input| {
      return Err(Malformed);
    }
    var _ :- Validate(d, tickets);
    var canonical :- Encode(d, tickets);
    if canonical != input {
      return Err(NonCanonical);
    }
    return Ok(d);
  }

  method PutHead(out: seq<u8>, major: Major, value: u64) returns (next: seq<u8>)
    ensures next == out + Head(major, value)
  {
    if value < 24 {
      next := out + [major * 32 + value];
    } else {
      var extra := if value < 0x100 then 1 else if value < 0x1_0000 then 2 else if value < 0x1_0000_0000 then 4 else 8;
      next := out + [major * 32 + if extra == 1 then 24 else if extra == 2 then 25 else if extra == 4 then 26 else 27];
      next := next + BigEndian(value, extra);
      assert next == out + Head(major, value);
    }
  }

  lemma Joined(a: seq<u8>, b: seq<u8>, c: seq<u8>)
    ensures (a + b) + c == a + (b + c)
  {
  }

  method PutText(out: seq<u8>, text: Short) returns (next: seq<u8>)
    ensures next == out + Text(text)
  {
    next := PutHead(out, 3, |text|);
    next := next + text;
    Joined(out, Head(3, |text|), text);
  }

  method PutCapability(out: seq<u8>, c: Capability) returns (next: seq<u8>)
    ensures next == out + CapabilityPart(c)
  {
    next := PutHead(out, 0, 5);
    next := PutHead(next, 2, 32);
    next := next + c;
    Joined(out + Head(0, 5), Head(2, 32), c);
    Joined(out, Head(0, 5), Head(2, 32) + c);
  }

  method PutNumbers(out: seq<u8>, v: Version) returns (next: seq<u8>)
    ensures next == out + Numbers(v)
  {
    next := PutHead(out, 0, v.major);
    next := PutHead(next, 0, v.minor);
    next := PutHead(next, 0, v.patch);
    Joined(out + Head(0, v.major), Head(0, v.minor), Head(0, v.patch));
    Joined(out, Head(0, v.major), Head(0, v.minor) + Head(0, v.patch));
  }

  method PutVersion(out: seq<u8>, v: Version) returns (next: seq<u8>)
    ensures next == out + VersionPart(v)
  {
    next := PutHead(out, 0, 6);
    next := PutHead(next, 4, 3);
    next := PutNumbers(next, v);
    Joined(out + Head(0, 6), Head(4, 3), Numbers(v));
    Joined(out, Head(0, 6), Head(4, 3) + Numbers(v));
  }

  method PutAccess(out: seq<u8>, c: Capability, v: Version, ssh: bool) returns (next: seq<u8>)
    ensures next == out + AccessPart(c, v, ssh)
  {
    next := PutCapability(out, c);
    next := PutVersion(next, v);
    var sent := next;
    next := PutHead(next, 0, 7);
    next := next + [if ssh then 0xf5 else 0xf4];
    Joined(sent, Head(0, 7), [if ssh then 0xf5 else 0xf4]);
    Joined(out + CapabilityPart(c), VersionPart(v), SshPart(ssh));
    Joined(out, CapabilityPart(c), VersionPart(v) + SshPart(ssh));
  }

  method PutRoute(out: seq<u8>, ticket: Short, c: Capability, v: Version, ssh: bool) returns (next: seq<u8>)
    ensures next == out + RoutePart(ticket, c, v, ssh)
  {
    next := PutHead(out, 0, 4);
    next := PutText(next, ticket);
    next := PutAccess(next, c, v, ssh);
    Joined(out, Head(0, 4), Text(ticket));
    Joined(out, TicketPart(ticket), AccessPart(c, v, ssh));
  }

  method PutTimes(out: seq<u8>, issued: u64, expires: u64) returns (next: seq<u8>)
    ensures next == out + TimePart(issued, expires)
  {
    next := PutHead(out, 0, 2);
    next := PutHead(next, 0, issued);
    var sent := next;
    next := PutHead(next, 0, 3);
    next := PutHead(next, 0, expires);
    Joined(sent, Head(0, 3), Head(0, expires));
    Joined(out, Head(0, 2), Head(0, issued));
    Joined(out, Head(0, 2) + Head(0, issued), Head(0, 3) + Head(0, expires));
  }

  method PutLabel(out: seq<u8>, name: Short) returns (next: seq<u8>)
    ensures next == out + LabelPart(name)
  {
    next := PutHead(out, 5, 7);
    next := PutHead(next, 0, 1);
    next := PutText(next, name);
    Joined(out + Head(5, 7), Head(0, 1), Text(name));
    Joined(out, Head(5, 7), Head(0, 1) + Text(name));
  }

  method PutDescriptor(d: Descriptor) returns (out: seq<u8>)
    requires Encodable(d)
    ensures out == Bytes(d)
  {
    out := PutLabel([], d.hostLabel);
    assert out == LabelPart(d.hostLabel);
    out := PutTimes(out, d.issued.seconds, d.expires.seconds);
    out := PutRoute(out, d.ticket, d.capability, d.version, d.ssh);
    Joined(LabelPart(d.hostLabel), TimePart(d.issued.seconds, d.expires.seconds),
           RoutePart(d.ticket, d.capability, d.version, d.ssh));
  }

  method Encode(d: Descriptor, tickets: Tickets) returns (r: Result<seq<u8>>)
    ensures r == EncodeSpec(d, tickets)
  {
    var _ :- Validate(d, tickets);
    var out := PutDescriptor(d);
    if |out| > MAX_DESCRIPTOR_LEN {
      return Err(Limit);
    }
    return Ok(out);
  }
}
