/** The canonical CBOR form of a host access descriptor: an encoder and a strict decoder for the
    deterministic encoding of section 4.2.1 of RFC 8949, restricted to one fixed map. */
module Canonical {

  type u8 = x: int | 0 <= x < 0x100
  type u16 = x: int | 0 <= x < 0x1_0000
  type u64 = x: int | 0 <= x < 0x1_0000_0000_0000_0000

  const MAX_DESCRIPTOR_LEN := 65_536
  const MAX_HOST_LABEL_BYTES := 64
  const MAX_ENDPOINT_TICKET_LEN := 4_096
  const MIN_LIFETIME := 60
  const MAX_LIFETIME := 900
  const MAX_TIMESTAMP := 8_210_266_876_799 // last second a chrono date-time can represent
  const MIN_TIMESTAMP := -8_334_601_228_800

  type Seconds = x: int | MIN_TIMESTAMP <= x <= MAX_TIMESTAMP

  type SubSecond = x: int | 0 <= x < 1_000_000_000

  datatype DateTime = DateTime(seconds: Seconds, nanos: SubSecond)

  datatype Error = Malformed | NonCanonical | Limit | InvalidField | Endpoint | Expired | Decryption

  datatype Result<+T> = Ok(value: T) | Err(error: Error) {
    predicate IsFailure() { Err? }
    function PropagateFailure<U>(): Result<U> requires Err? { Err(error) }
    function Extract(): T requires Ok? { value }
  }

  datatype Version = Version(major: u16, minor: u16, patch: u16)

  type Capability = c: seq<u8> | |c| == 32 witness seq(32, _ => 0)

  datatype Descriptor = Descriptor(
    hostLabel: seq<u8>, issued: DateTime, expires: DateTime, ticket: seq<u8>,
    capability: Capability, version: Version, ssh: bool)

  /** Which byte strings the ticket library parses and prints back unchanged. */
  type Tickets = seq<u8> -> bool

  // ----- validation -----

  predicate Alphanumeric(b: u8) {
    0x30 <= b <= 0x39 || 0x41 <= b <= 0x5a || 0x61 <= b <= 0x7a
  }

  predicate LabelOk(name: seq<u8>) {
    && 0 < |name| <= MAX_HOST_LABEL_BYTES
    && Alphanumeric(name[0])
    && forall i :: 0 <= i < |name| ==> Alphanumeric(name[i]) || name[i] in {0x2e, 0x5f, 0x2d}
  }

  predicate Ascii(s: seq<u8>) {
    forall i :: 0 <= i < |s| ==> s[i] < 0x80
  }

  function Nanos(t: DateTime): int {
    t.seconds * 1_000_000_000 + t.nanos
  }

  function Validate(d: Descriptor, tickets: Tickets): (r: Result<()>)
    ensures r.Ok? ==> d.issued.nanos == 0 && d.expires.nanos == 0 && 0 <= d.issued.seconds
    ensures r.Ok? ==> MIN_LIFETIME <= d.expires.seconds - d.issued.seconds <= MAX_LIFETIME
    ensures r.Ok? ==> Ascii(d.hostLabel) && Ascii(d.ticket)
  {
    if !LabelOk(d.hostLabel) || d.issued.seconds < 0 || d.expires.seconds < 0
       || d.issued.nanos != 0 || d.expires.nanos != 0 || Nanos(d.issued) >= Nanos(d.expires) then
      Err(InvalidField)
    else if !(MIN_LIFETIME <= d.expires.seconds - d.issued.seconds <= MAX_LIFETIME) then
      Err(InvalidField)
    else if d.ticket == [] || |d.ticket| > MAX_ENDPOINT_TICKET_LEN || !Ascii(d.ticket) then
      Err(Limit)
    else if !tickets(d.ticket) then
      Err(Endpoint)
    else
      Ok(())
  }

  /** A label of 1 to 64 letters, digits, dots, underscores and hyphens that begins with a letter or a digit. */
  ghost predicate LabelFits(name: seq<u8>) {
    && 1 <= |name| <= 64
    && (48 <= name[0] <= 57 || 65 <= name[0] <= 90 || 97 <= name[0] <= 122)
    && forall i :: 0 <= i < |name| ==>
         || 48 <= name[i] <= 57 || 65 <= name[i] <= 90 || 97 <= name[i] <= 122
         || name[i] == 45 || name[i] == 46 || name[i] == 95
  }

  /** Whole seconds since the epoch, and a lifetime of 60 to 900 of them. */
  ghost predicate TimesFit(issued: DateTime, expires: DateTime) {
    issued.nanos == 0 && expires.nanos == 0 && 0 <= issued.seconds && 60 <= expires.seconds - issued.seconds <= 900
  }

  /** 1 to 4,096 bytes of ASCII. */
  ghost predicate TicketFits(ticket: seq<u8>) {
    1 <= |ticket| <= 4_096 && forall i :: 0 <= i < |ticket| ==> ticket[i] < 128
  }

  /** Exactly which descriptors are valid, and the error for each that is not. */
  lemma ValidateIs(d: Descriptor, tickets: Tickets)
    ensures Validate(d, tickets) ==
              if !LabelFits(d.hostLabel) || !TimesFit(d.issued, d.expires) then Err(InvalidField)
              else if !TicketFits(d.ticket) then Err(Limit)
              else if !tickets(d.ticket) then Err(Endpoint)
              else Ok(())
  {
    assert LabelOk(d.hostLabel) <==> LabelFits(d.hostLabel);
    assert Ascii(d.ticket) <==> forall i :: 0 <= i < |d.ticket| ==> d.ticket[i] < 128;
  }

  predicate Valid(d: Descriptor, tickets: Tickets) {
    Validate(d, tickets).Ok?
  }

  /** Well-formed UTF-8, as `str::from_utf8` accepts it. */
  predicate Utf8(s: seq<u8>) {
    Utf8From(s, 0)
  }

  predicate Utf8From(s: seq<u8>, i: nat)
    requires i <= |s|
    decreases |s| - i
  {
    || i == |s|
    || (s[i] < 0x80 && Utf8From(s, i + 1))
    || (i + 2 <= |s| && 0xc2 <= s[i] <= 0xdf && Tail(s[i + 1]) && Utf8From(s, i + 2))
    || (i + 3 <= |s| && 0xe0 <= s[i] <= 0xef && Tail(s[i + 1]) && Tail(s[i + 2])
        && (s[i] == 0xe0 ==> s[i + 1] >= 0xa0) && (s[i] == 0xed ==> s[i + 1] < 0xa0) && Utf8From(s, i + 3))
    || (i + 4 <= |s| && 0xf0 <= s[i] <= 0xf4 && Tail(s[i + 1]) && Tail(s[i + 2]) && Tail(s[i + 3])
        && (s[i] == 0xf0 ==> s[i + 1] >= 0x90) && (s[i] == 0xf4 ==> s[i + 1] < 0x90) && Utf8From(s, i + 4))
  }

  predicate Tail(b: u8) {
    0x80 <= b < 0xc0
  }

  lemma {:induction false} AsciiIsUtf8(s: seq<u8>, i: nat)
    requires Ascii(s) && i <= |s|
    ensures Utf8From(s, i)
    decreases |s| - i
  {
    if i < |s| {
      AsciiIsUtf8(s, i + 1);
    }
  }

  // ----- the reference encoding -----

  /** The `n` low-order bytes of `v`, most significant first. */
  function BigEndian(v: nat, n: nat): (b: seq<u8>)
    ensures |b| == n
  {
    if n == 0 then [] else BigEndian(v / 0x100, n - 1) + [v % 0x100]
  }

  function FromBigEndian(b: seq<u8>): nat {
    if b == [] then 0 else FromBigEndian(b[..|b| - 1]) * 0x100 + b[|b| - 1]
  }

  function Power256(n: nat): (p: nat)
    ensures p > 0
  {
    if n == 0 then 1 else 0x100 * Power256(n - 1)
  }

  lemma {:induction false} BigEndianInverts(v: nat, n: nat)
    requires v < Power256(n)
    ensures FromBigEndian(BigEndian(v, n)) == v
  {
    if n > 0 {
      BigEndianInverts(v / 0x100, n - 1);
      assert BigEndian(v, n)[..n - 1] == BigEndian(v / 0x100, n - 1);
    }
  }

  lemma {:induction false} FromBigEndianBelow(b: seq<u8>)
    ensures FromBigEndian(b) < Power256(|b|)
  {
    if b != [] {
      FromBigEndianBelow(b[..|b| - 1]);
    }
  }

  /** Appending a low-order byte. */
  lemma BigEndianAppends(v: nat, low: u8, n: nat)
    ensures BigEndian(v * 0x100 + low, n + 1) == BigEndian(v, n) + [low]
  {
    assert (v * 0x100 + low) / 0x100 == v && (v * 0x100 + low) % 0x100 == low;
  }

  lemma {:induction false} FromBigEndianInverts(b: seq<u8>)
    ensures BigEndian(FromBigEndian(b), |b|) == b
  {
    if b != [] {
      var front, low := b[..|b| - 1], b[|b| - 1];
      FromBigEndianInverts(front);
      BigEndianAppends(FromBigEndian(front), low, |front|);
      assert b == front + [low];
    }
  }

  type Major = x: int | 0 <= x < 8

  /** The shortest head of major type `major` carrying `v`. */
  function Head(major: Major, v: u64): (b: seq<u8>)
    ensures |b| == HeadSize(v)
  {
    if v < 24 then [major * 32 + v]
    else
      [major * 32 + Additional(v)] + BigEndian(v, HeadSize(v) - 1)
  }

  /** The low five bits of a long head, which tell its width. */
  function Additional(v: u64): (a: nat)
    ensures 24 <= a <= 27
  {
    if v < 0x100 then 24 else if v < 0x1_0000 then 25 else if v < 0x1_0000_0000 then 26 else 27
  }

  function HeadSize(v: u64): nat {
    if v < 24 then 1 else if v < 0x100 then 2 else if v < 0x1_0000 then 3 else if v < 0x1_0000_0000 then 5 else 9
  }

  /** Its bytes, as section 3 of RFC 8949 lays them out. */
  lemma HeadBytes(major: Major, v: u64)
    ensures v < 24 ==> Head(major, v) == [major * 32 + v]
    ensures 24 <= v < 0x100 ==> Head(major, v) == [major * 32 + 24, v]
    ensures 0x100 <= v < 0x1_0000 ==> Head(major, v) == [major * 32 + 25, v / 0x100, v % 0x100]
    ensures 0x1_0000 <= v < 0x1_0000_0000 ==> Head(major, v) == [major * 32 + 26] + BigEndian(v, 4)
    ensures 0x1_0000_0000 <= v ==> Head(major, v) == [major * 32 + 27] + BigEndian(v, 8)
  {
    OneByte(v);
    TwoBytes(v);
  }

  lemma OneByte(v: nat)
    ensures v < 0x100 ==> BigEndian(v, 1) == [v]
  {
    assert BigEndian(v / 0x100, 0) == [];
  }

  lemma TwoBytes(v: nat)
    ensures v < 0x1_0000 ==> BigEndian(v, 2) == [v / 0x100, v % 0x100]
  {
    if v < 0x1_0000 {
      OneByte(v / 0x100);
    }
  }

  type Short = s: seq<u8> | |s| <= MAX_ENDPOINT_TICKET_LEN

  function Text(s: Short): (b: seq<u8>)
    ensures |b| == HeadSize(|s|) + |s|
  {
    Head(3, |s|) + s
  }

  function LabelPart(name: Short): (b: seq<u8>)
    ensures |b| == 2 + HeadSize(|name|) + |name|
  {
    Head(5, 7) + (Head(0, 1) + Text(name))
  }

  function TimePart(issued: u64, expires: u64): (b: seq<u8>)
    ensures |b| == 2 + HeadSize(issued) + HeadSize(expires)
  {
    (Head(0, 2) + Head(0, issued)) + (Head(0, 3) + Head(0, expires))
  }

  function TicketPart(ticket: Short): (b: seq<u8>)
    ensures |b| == 1 + HeadSize(|ticket|) + |ticket|
  {
    Head(0, 4) + Text(ticket)
  }

  function CapabilityPart(c: Capability): (b: seq<u8>)
    ensures |b| == 35
  {
    Head(0, 5) + (Head(2, 32) + c)
  }

  function Numbers(v: Version): (b: seq<u8>)
    ensures |b| == HeadSize(v.major) + HeadSize(v.minor) + HeadSize(v.patch)
  {
    Head(0, v.major) + (Head(0, v.minor) + Head(0, v.patch))
  }

  function VersionPart(v: Version): (b: seq<u8>)
    ensures |b| == 2 + HeadSize(v.major) + HeadSize(v.minor) + HeadSize(v.patch)
  {
    Head(0, 6) + (Head(4, 3) + Numbers(v))
  }

  function SshPart(ssh: bool): (b: seq<u8>)
    ensures |b| == 2
  {
    Head(0, 7) + [if ssh then 0xf5 else 0xf4]
  }

  function AccessPart(c: Capability, v: Version, ssh: bool): (b: seq<u8>)
    ensures |b| == 37 + |VersionPart(v)|
  {
    CapabilityPart(c) + (VersionPart(v) + SshPart(ssh))
  }

  function RoutePart(ticket: Short, c: Capability, v: Version, ssh: bool): (b: seq<u8>)
    ensures |b| == |TicketPart(ticket)| + |AccessPart(c, v, ssh)|
  {
    TicketPart(ticket) + AccessPart(c, v, ssh)
  }

  predicate Encodable(d: Descriptor) {
    && |d.hostLabel| <= MAX_HOST_LABEL_BYTES && |d.ticket| <= MAX_ENDPOINT_TICKET_LEN
    && 0 <= d.issued.seconds && 0 <= d.expires.seconds
  }

  function BodyPart(d: Descriptor): (b: seq<u8>)
    requires Encodable(d)
    ensures |b| == |TimePart(d.issued.seconds, d.expires.seconds)|
                   + |RoutePart(d.ticket, d.capability, d.version, d.ssh)|
  {
    TimePart(d.issued.seconds, d.expires.seconds) + RoutePart(d.ticket, d.capability, d.version, d.ssh)
  }

  /** The one encoding of a valid descriptor; far below the limit the encoder checks. */
  function Bytes(d: Descriptor): (b: seq<u8>)
    requires Encodable(d)
    ensures |b| == |LabelPart(d.hostLabel)| + |BodyPart(d)|
    ensures |b| <= 4_236
  {
    LabelPart(d.hostLabel) + BodyPart(d)
  }

  // Every part, byte by byte: keys 1 to 7 in order inside a map of seven, texts and bytes behind their heads.

  lemma LabelBytes(name: Short)
    ensures LabelPart(name) == [0xa7, 0x01] + (Head(3, |name|) + name)
  {
    HeadBytes(5, 7);
    HeadBytes(0, 1);
  }

  lemma TimeBytes(issued: u64, expires: u64)
    ensures TimePart(issued, expires) == ([0x02] + Head(0, issued)) + ([0x03] + Head(0, expires))
  {
    HeadBytes(0, 2);
    HeadBytes(0, 3);
  }

  lemma TicketBytes(ticket: Short)
    ensures TicketPart(ticket) == [0x04] + (Head(3, |ticket|) + ticket)
  {
    HeadBytes(0, 4);
  }

  lemma CapabilityBytes(c: Capability)
    ensures CapabilityPart(c) == [0x05, 0x58, 0x20] + c
  {
    HeadBytes(0, 5);
    HeadBytes(2, 32);
    assert Head(0, 5) + (Head(2, 32) + c) == (Head(0, 5) + Head(2, 32)) + c;
  }

  lemma VersionBytes(v: Version)
    ensures VersionPart(v) == [0x06, 0x83] + (Head(0, v.major) + (Head(0, v.minor) + Head(0, v.patch)))
  {
    HeadBytes(0, 6);
    HeadBytes(4, 3);
  }

  lemma SshBytes(ssh: bool)
    ensures SshPart(ssh) == if ssh then [0x07, 0xf5] else [0x07, 0xf4]
  {
    HeadBytes(0, 7);
  }

  /** And so the whole encoding. */
  lemma EncodingIs(d: Descriptor)
    requires Encodable(d)
    ensures Bytes(d) ==
              ([0xa7, 0x01] + (Head(3, |d.hostLabel|) + d.hostLabel))
              + ((([0x02] + Head(0, d.issued.seconds)) + ([0x03] + Head(0, d.expires.seconds)))
                 + (([0x04] + (Head(3, |d.ticket|) + d.ticket))
                    + (([0x05, 0x58, 0x20] + d.capability)
                       + (([0x06, 0x83] + (Head(0, d.version.major) + (Head(0, d.version.minor) + Head(0, d.version.patch))))
                          + (if d.ssh then [0x07, 0xf5] else [0x07, 0xf4])))))
  {
    LabelBytes(d.hostLabel);
    TimeBytes(d.issued.seconds, d.expires.seconds);
    TicketBytes(d.ticket);
    CapabilityBytes(d.capability);
    VersionBytes(d.version);
    SshBytes(d.ssh);
  }

  // ----- reading -----

  /** A value read at a position, and the position after it. */
  datatype Read<+T> = Got(value: T, next: nat) | Bad(error: Error) {
    predicate IsFailure() { Bad? }
    function PropagateFailure<U>(): Read<U> requires Bad? { Bad(error) }
    function Extract(): (T, nat) requires Got? { (value, next) }
  }

  function ReadByte(input: seq<u8>, pos: nat): Read<u8> {
    if pos < |input| then Got(input[pos], pos + 1) else Bad(Malformed)
  }

  function ReadTake(input: seq<u8>, pos: nat, n: nat): Read<seq<u8>> {
    if pos + n >= 0x1_0000_0000_0000_0000 then Bad(Limit)
    else if pos + n <= |input| then Got(input[pos..pos + n], pos + n)
    else Bad(Malformed)
  }

  function ReadHead(input: seq<u8>, pos: nat, major: Major): Read<nat> {
    var (first, p) :- ReadByte(input, pos);
    if first / 32 != major then Bad(Malformed)
    else if first % 32 < 24 then Got(first % 32, p)
    else if first % 32 == 24 then
      var (b, p) :- ReadByte(input, p);
      if b < 24 then Bad(NonCanonical) else Got(b, p)
    else if first % 32 == 25 then
      var (b, p) :- ReadTake(input, p, 2);
      if FromBigEndian(b) <= 0xff then Bad(NonCanonical) else Got(FromBigEndian(b), p)
    else if first % 32 == 26 then
      var (b, p) :- ReadTake(input, p, 4);
      if FromBigEndian(b) <= 0xffff then Bad(NonCanonical) else Got(FromBigEndian(b), p)
    else if first % 32 == 27 then
      var (b, p) :- ReadTake(input, p, 8);
      if FromBigEndian(b) <= 0xffff_ffff then Bad(NonCanonical) else Got(FromBigEndian(b), p)
    else Bad(Malformed)
  }

  function ReadKey(input: seq<u8>, pos: nat, expected: u64): Read<()> {
    var (k, p) :- ReadHead(input, pos, 0);
    if k == expected then Got((), p) else Bad(NonCanonical)
  }

  function ReadFixed(input: seq<u8>, pos: nat): Read<Capability> {
    var (n, p) :- ReadHead(input, pos, 2);
    if n != 32 then Bad(Malformed)
    else
      var (b, p) :- ReadTake(input, p, 32);
      Got(b, p)
  }

  function ReadText(input: seq<u8>, pos: nat, minimum: nat, maximum: nat): Read<seq<u8>> {
    var (n, p) :- ReadHead(input, pos, 3);
    if n < minimum || n > maximum then Bad(Limit)
    else
      var (b, p) :- ReadTake(input, p, n);
      if Utf8(b) then Got(b, p) else Bad(Malformed)
  }

  function ReadTime(input: seq<u8>, pos: nat, key: u64): Read<DateTime> {
    var (_, p) :- ReadKey(input, pos, key);
    var (s, p) :- ReadHead(input, p, 0);
    if s <= MAX_TIMESTAMP then Got(DateTime(s, 0), p) else Bad(InvalidField)
  }

  function ReadU16(input: seq<u8>, pos: nat): Read<u16> {
    var (v, p) :- ReadHead(input, pos, 0);
    if v < 0x1_0000 then Got(v, p) else Bad(InvalidField)
  }

  function ReadLabelPart(input: seq<u8>, pos: nat): Read<seq<u8>> {
    var (_, p) :- ReadCount(input, pos, 5, 7);
    var (_, p) :- ReadKey(input, p, 1);
    ReadText(input, p, 1, MAX_HOST_LABEL_BYTES)
  }

  function ReadTicketPart(input: seq<u8>, pos: nat): Read<seq<u8>> {
    var (_, p) :- ReadKey(input, pos, 4);
    ReadText(input, p, 1, MAX_ENDPOINT_TICKET_LEN)
  }

  function ReadCapabilityPart(input: seq<u8>, pos: nat): Read<Capability> {
    var (_, p) :- ReadKey(input, pos, 5);
    ReadFixed(input, p)
  }

  function ReadNumbers(input: seq<u8>, pos: nat): Read<Version> {
    var (major, p) :- ReadU16(input, pos);
    var (minor, p) :- ReadU16(input, p);
    var (patch, p) :- ReadU16(input, p);
    Got(Version(major, minor, patch), p)
  }

  /** The head of a map or array of exactly `count` elements. */
  function ReadCount(input: seq<u8>, pos: nat, major: Major, count: u64): Read<()> {
    var (n, p) :- ReadHead(input, pos, major);
    if n == count then Got((), p) else Bad(Malformed)
  }

  function ReadVersionPart(input: seq<u8>, pos: nat): Read<Version> {
    var (_, p) :- ReadKey(input, pos, 6);
    var (_, p) :- ReadCount(input, p, 4, 3);
    ReadNumbers(input, p)
  }

  function ReadSshPart(input: seq<u8>, pos: nat): Read<bool> {
    var (_, p) :- ReadKey(input, pos, 7);
    var (b, p) :- ReadByte(input, p);
    if b == 0xf4 then Got(false, p) else if b == 0xf5 then Got(true, p) else Bad(InvalidField)
  }

  function ReadTimes(input: seq<u8>, pos: nat): Read<(DateTime, DateTime)> {
    var (issued, p) :- ReadTime(input, pos, 2);
    var (expires, p) :- ReadTime(input, p, 3);
    Got((issued, expires), p)
  }

  function ReadAccess(input: seq<u8>, pos: nat): Read<(Capability, Version, bool)> {
    var (capability, p) :- ReadCapabilityPart(input, pos);
    var (version, p) :- ReadVersionPart(input, p);
    var (ssh, p) :- ReadSshPart(input, p);
    Got((capability, version, ssh), p)
  }

  function ReadRoute(input: seq<u8>, pos: nat): Read<(seq<u8>, (Capability, Version, bool))> {
    var (ticket, p) :- ReadTicketPart(input, pos);
    var (access, p) :- ReadAccess(input, p);
    Got((ticket, access), p)
  }

  function ReadBody(input: seq<u8>, pos: nat, name: seq<u8>): Read<Descriptor> {
    var (times, p) :- ReadTimes(input, pos);
    var (route, p) :- ReadRoute(input, p);
    Got(Descriptor(name, times.0, times.1, route.0, route.1.0, route.1.1, route.1.2), p)
  }

  function ReadFields(input: seq<u8>): Read<Descriptor> {
    var (name, p) :- ReadLabelPart(input, 0);
    ReadBody(input, p, name)
  }

  /** The decoder without its final comparison against the re-encoded descriptor. */
  function Parse(input: seq<u8>, tickets: Tickets): Result<Descriptor> {
    if |input| > MAX_DESCRIPTOR_LEN then Err(Limit)
    else match ReadFields(input)
      case Bad(error) => Err(error)
      case Got(d, p) =>
        if p != |input| then Err(Malformed)
        else
          var _ :- Validate(d, tickets);
          Ok(d)
  }

  function EncodeSpec(d: Descriptor, tickets: Tickets): Result<seq<u8>> {
    var _ :- Validate(d, tickets);
    if |Bytes(d)| > MAX_DESCRIPTOR_LEN then Err(Limit) else Ok(Bytes(d))
  }

  function DecodeSpec(input: seq<u8>, tickets: Tickets): Result<Descriptor> {
    var d :- Parse(input, tickets);
    var canonical :- EncodeSpec(d, tickets);
    if canonical != input then Err(NonCanonical) else Ok(d)
  }

  // ----- reading a head inverts writing it -----

  /** `part` stands in `input` at `pos`. */
  ghost predicate At(input: seq<u8>, pos: nat, part: seq<u8>) {
    pos + |part| <= |input| && input[pos..pos + |part|] == part
  }

  lemma Halves(input: seq<u8>, pos: nat, a: seq<u8>, b: seq<u8>)
    ensures At(input, pos, a + b) <==> At(input, pos, a) && At(input, pos + |a|, b)
  {
    if At(input, pos, a + b) {
      assert a == (a + b)[..|a|] == input[pos..pos + |a + b|][..|a|];
      assert b == (a + b)[|a|..] == input[pos..pos + |a + b|][|a|..];
    }
    if At(input, pos, a) && At(input, pos + |a|, b) {
      assert input[pos..pos + |a + b|] == input[pos..pos + |a|] + input[pos + |a|..pos + |a| + |b|];
    }
  }

  lemma Joins(input: seq<u8>, pos: nat, a: seq<u8>, b: seq<u8>)
    requires At(input, pos, a) && At(input, pos + |a|, b)
    ensures At(input, pos, a + b)
  {
    Halves(input, pos, a, b);
  }

  lemma Parts(input: seq<u8>, pos: nat, a: seq<u8>, b: seq<u8>)
    requires At(input, pos, a + b)
    ensures At(input, pos, a) && At(input, pos + |a|, b)
  {
    Halves(input, pos, a, b);
  }

  lemma Powers()
    ensures Power256(1) == 0x100 && Power256(2) == 0x1_0000
    ensures Power256(4) == 0x1_0000_0000 && Power256(8) == 0x1_0000_0000_0000_0000
  {
    assert Power256(3) == 0x100_0000;
    assert Power256(6) == 0x1_0000_0000_0000;
  }

  /** The bytes after the first of a long head carry its value. */
  lemma HeadCarries(input: seq<u8>, pos: nat, major: Major, v: u64)
    requires v >= 24 && At(input, pos, Head(major, v))
    ensures var n := HeadSize(v) - 1;
            pos + 1 + n <= |input| && FromBigEndian(input[pos + 1..pos + 1 + n]) == v
  {
    var n := HeadSize(v) - 1;
    Powers();
    BigEndianInverts(v, n);
    assert Head(major, v)[1..] == BigEndian(v, n);
    assert input[pos + 1..pos + 1 + n] == Head(major, v)[1..];
  }

  lemma WrittenHeadReads(input: seq<u8>, pos: nat, major: Major, v: u64)
    requires |input| <= MAX_DESCRIPTOR_LEN && At(input, pos, Head(major, v))
    ensures ReadHead(input, pos, major) == Got(v, pos + HeadSize(v))
  {
    assert input[pos] == Head(major, v)[0];
    if v >= 24 {
      HeadCarries(input, pos, major, v);
      if v < 0x100 {
        assert input[pos + 1..pos + 2] == [input[pos + 1]];
        assert FromBigEndian([input[pos + 1]]) == input[pos + 1];
      }
    }
  }

  /** The value of a slice fits its width. */
  lemma CarriedBelow(b: seq<u8>)
    ensures |b| == 1 ==> FromBigEndian(b) == b[0]
    ensures |b| == 2 ==> FromBigEndian(b) < 0x1_0000
    ensures |b| == 4 ==> FromBigEndian(b) < 0x1_0000_0000
    ensures |b| == 8 ==> FromBigEndian(b) < 0x1_0000_0000_0000_0000
  {
    Powers();
    FromBigEndianBelow(b);
    if |b| == 1 {
      assert b[..0] == [];
    }
  }

  /** A long head stands where its first byte and then its value stand. */
  lemma LongHeadStands(input: seq<u8>, pos: nat, major: Major, v: u64, n: nat)
    requires v >= 24 && n == HeadSize(v) - 1 && pos + 1 + n <= |input|
    requires input[pos] == major * 32 + Additional(v) && FromBigEndian(input[pos + 1..pos + 1 + n]) == v
    ensures At(input, pos, Head(major, v))
  {
    var tail := input[pos + 1..pos + 1 + n];
    FromBigEndianInverts(tail);
    HeadIs(major, v, tail);
    FirstAndTail(input, pos, n);
  }

  lemma HeadIs(major: Major, v: u64, tail: seq<u8>)
    requires v >= 24 && BigEndian(v, HeadSize(v) - 1) == tail
    ensures Head(major, v) == [major * 32 + Additional(v)] + tail
  {
  }

  lemma FirstAndTail(input: seq<u8>, pos: nat, n: nat)
    requires pos + 1 + n <= |input|
    ensures At(input, pos, [input[pos]] + input[pos + 1..pos + 1 + n])
  {
    assert input[pos..pos + 1 + n] == [input[pos]] + input[pos + 1..pos + 1 + n];
  }

  lemma ByteHeadWasWritten(input: seq<u8>, pos: nat, major: Major)
    requires ReadHead(input, pos, major).Got? && input[pos] % 32 == 24
    ensures HeadStands(input, pos, major)
  {
    CarriedBelow(input[pos + 1..pos + 2]);
    LongHeadStands(input, pos, major, ReadHead(input, pos, major).value, 1);
  }

  lemma ShortHeadWasWritten(input: seq<u8>, pos: nat, major: Major)
    requires ReadHead(input, pos, major).Got? && input[pos] % 32 == 25
    ensures HeadStands(input, pos, major)
  {
    CarriedBelow(input[pos + 1..pos + 3]);
    LongHeadStands(input, pos, major, ReadHead(input, pos, major).value, 2);
  }

  lemma WordHeadWasWritten(input: seq<u8>, pos: nat, major: Major)
    requires ReadHead(input, pos, major).Got? && input[pos] % 32 == 26
    ensures HeadStands(input, pos, major)
  {
    CarriedBelow(input[pos + 1..pos + 5]);
    LongHeadStands(input, pos, major, ReadHead(input, pos, major).value, 4);
  }

  lemma WideHeadWasWritten(input: seq<u8>, pos: nat, major: Major)
    requires ReadHead(input, pos, major).Got? && input[pos] % 32 == 27
    ensures HeadStands(input, pos, major)
  {
    CarriedBelow(input[pos + 1..pos + 9]);
    LongHeadStands(input, pos, major, ReadHead(input, pos, major).value, 8);
  }

  /** The head that was read stands there, and it is the shortest for its value. */
  ghost predicate HeadStands(input: seq<u8>, pos: nat, major: Major)
    requires ReadHead(input, pos, major).Got?
  {
    var Got(v, next) := ReadHead(input, pos, major);
    v < 0x1_0000_0000_0000_0000 && next == pos + HeadSize(v) && At(input, pos, Head(major, v))
  }

  lemma ReadHeadWasWritten(input: seq<u8>, pos: nat, major: Major)
    requires ReadHead(input, pos, major).Got?
    ensures HeadStands(input, pos, major)
  {
    if input[pos] % 32 == 24 {
      ByteHeadWasWritten(input, pos, major);
    } else if input[pos] % 32 == 25 {
      ShortHeadWasWritten(input, pos, major);
    } else if input[pos] % 32 == 26 {
      WordHeadWasWritten(input, pos, major);
    } else if input[pos] % 32 == 27 {
      WideHeadWasWritten(input, pos, major);
    } else {
      assert input[pos..pos + 1] == [input[pos]];
    }
  }

  lemma HeadIff(input: seq<u8>, pos: nat, major: Major, v: u64, next: nat)
    requires |input| <= MAX_DESCRIPTOR_LEN
    ensures ReadHead(input, pos, major) == Got(v, next) <==>
              At(input, pos, Head(major, v)) && next == pos + |Head(major, v)|
  {
    if At(input, pos, Head(major, v)) {
      WrittenHeadReads(input, pos, major, v);
    }
    if ReadHead(input, pos, major).Got? {
      ReadHeadWasWritten(input, pos, major);
    }
  }

  lemma KeyIff(input: seq<u8>, pos: nat, key: u64)
    requires |input| <= MAX_DESCRIPTOR_LEN && key < 24
    ensures ReadKey(input, pos, key).Got? <==> At(input, pos, Head(0, key))
    ensures ReadKey(input, pos, key).Got? ==> ReadKey(input, pos, key).next == pos + 1
  {
    HeadIff(input, pos, 0, key, pos + 1);
    if ReadHead(input, pos, 0).Got? {
      ReadHeadWasWritten(input, pos, 0);
    }
  }

  lemma CountIff(input: seq<u8>, pos: nat, major: Major, count: u64)
    requires |input| <= MAX_DESCRIPTOR_LEN && count < 24
    ensures ReadCount(input, pos, major, count).Got? <==> At(input, pos, Head(major, count))
    ensures ReadCount(input, pos, major, count).Got? ==> ReadCount(input, pos, major, count).next == pos + 1
  {
    HeadIff(input, pos, major, count, pos + 1);
    if ReadHead(input, pos, major).Got? {
      ReadHeadWasWritten(input, pos, major);
    }
  }

  // ----- and so it does for every part -----

  lemma TextIff(input: seq<u8>, pos: nat, text: Short, maximum: nat, next: nat)
    requires |input| <= MAX_DESCRIPTOR_LEN && maximum <= MAX_ENDPOINT_TICKET_LEN
    ensures ReadText(input, pos, 1, maximum) == Got(text, next) <==>
              At(input, pos, Text(text)) && next == pos + |Text(text)| && 1 <= |text| <= maximum && Utf8(text)
  {
    Halves(input, pos, Head(3, |text|), text);
    if At(input, pos, Text(text)) {
      WrittenHeadReads(input, pos, 3, |text|);
    } else if ReadText(input, pos, 1, maximum) == Got(text, next) {
      ReadTextWasWritten(input, pos, maximum);
    }
  }

  /** A text that was read is the slice that its head announces. */
  lemma TextSlice(input: seq<u8>, pos: nat, maximum: nat)
    requires ReadText(input, pos, 1, maximum).Got?
    ensures ReadHead(input, pos, 3).Got?
    ensures var Got(n, p) := ReadHead(input, pos, 3);
            1 <= n <= maximum && p + n <= |input| && ReadText(input, pos, 1, maximum) == Got(input[p..p + n], p + n)
  {
  }

  lemma ReadTextWasWritten(input: seq<u8>, pos: nat, maximum: nat)
    requires ReadText(input, pos, 1, maximum).Got? && maximum <= MAX_ENDPOINT_TICKET_LEN
    ensures |ReadText(input, pos, 1, maximum).value| <= maximum
    ensures At(input, pos, Text(ReadText(input, pos, 1, maximum).value))
  {
    TextSlice(input, pos, maximum);
    ReadHeadWasWritten(input, pos, 3);
    var Got(n, p) := ReadHead(input, pos, 3);
    SliceStands(input, pos, p, n);
  }

  lemma SliceStands(input: seq<u8>, pos: nat, p: nat, n: nat)
    requires n <= MAX_ENDPOINT_TICKET_LEN && p == pos + HeadSize(n) && p + n <= |input| && At(input, pos, Head(3, n))
    ensures At(input, pos, Text(input[p..p + n]))
  {
    Halves(input, pos, Head(3, n), input[p..p + n]);
  }

  lemma LabelPartIff(input: seq<u8>, pos: nat, name: Short, next: nat)
    requires |input| <= MAX_DESCRIPTOR_LEN
    ensures ReadLabelPart(input, pos) == Got(name, next) <==>
              && At(input, pos, LabelPart(name)) && next == pos + |LabelPart(name)|
              && 1 <= |name| <= MAX_HOST_LABEL_BYTES && Utf8(name)
  {
    CountIff(input, pos, 5, 7);
    KeyIff(input, pos + 1, 1);
    TextIff(input, pos + 2, name, MAX_HOST_LABEL_BYTES, next);
    Halves(input, pos, Head(5, 7), Head(0, 1) + Text(name));
    Halves(input, pos + 1, Head(0, 1), Text(name));
  }

  lemma TimeIff(input: seq<u8>, pos: nat, key: u64, t: DateTime, next: nat)
    requires |input| <= MAX_DESCRIPTOR_LEN && key < 24
    ensures ReadTime(input, pos, key) == Got(t, next) <==>
              && t.nanos == 0 && 0 <= t.seconds
              && At(input, pos, Head(0, key) + Head(0, t.seconds)) && next == pos + 1 + HeadSize(t.seconds)
  {
    KeyIff(input, pos, key);
    if 0 <= t.seconds {
      HeadIff(input, pos + 1, 0, t.seconds, next);
      Halves(input, pos, Head(0, key), Head(0, t.seconds));
    }
  }

  lemma TicketPartIff(input: seq<u8>, pos: nat, ticket: Short, next: nat)
    requires |input| <= MAX_DESCRIPTOR_LEN
    ensures ReadTicketPart(input, pos) == Got(ticket, next) <==>
              At(input, pos, TicketPart(ticket)) && next == pos + |TicketPart(ticket)| && 1 <= |ticket| && Utf8(ticket)
  {
    KeyIff(input, pos, 4);
    TextIff(input, pos + 1, ticket, MAX_ENDPOINT_TICKET_LEN, next);
    Halves(input, pos, Head(0, 4), Text(ticket));
  }

  lemma CapabilityPartIff(input: seq<u8>, pos: nat, c: Capability, next: nat)
    requires |input| <= MAX_DESCRIPTOR_LEN
    ensures ReadCapabilityPart(input, pos) == Got(c, next) <==> At(input, pos, CapabilityPart(c)) && next == pos + 35
  {
    KeyIff(input, pos, 5);
    HeadIff(input, pos + 1, 2, 32, pos + 3);
    Halves(input, pos, Head(0, 5), Head(2, 32) + c);
    Halves(input, pos + 1, Head(2, 32), c);
    if ReadHead(input, pos + 1, 2).Got? {
      ReadHeadWasWritten(input, pos + 1, 2);
    }
  }

  lemma NumberIff(input: seq<u8>, pos: nat, v: u16, next: nat)
    requires |input| <= MAX_DESCRIPTOR_LEN
    ensures ReadU16(input, pos) == Got(v, next) <==> At(input, pos, Head(0, v)) && next == pos + HeadSize(v)
  {
    HeadIff(input, pos, 0, v, next);
  }

  lemma NumbersIff(input: seq<u8>, pos: nat, v: Version, next: nat)
    requires |input| <= MAX_DESCRIPTOR_LEN
    ensures ReadNumbers(input, pos) == Got(v, next) <==>
              At(input, pos, Numbers(v)) && next == pos + |Numbers(v)|
  {
    var a := pos + HeadSize(v.major);
    var b := a + HeadSize(v.minor);
    NumberIff(input, pos, v.major, a);
    NumberIff(input, a, v.minor, b);
    NumberIff(input, b, v.patch, next);
    Halves(input, pos, Head(0, v.major), Head(0, v.minor) + Head(0, v.patch));
    Halves(input, a, Head(0, v.minor), Head(0, v.patch));
    if ReadNumbers(input, pos) == Got(v, next) {
      NumberIff(input, pos, v.major, ReadU16(input, pos).next);
      NumberIff(input, a, v.minor, ReadU16(input, a).next);
    }
  }

  lemma VersionPartIff(input: seq<u8>, pos: nat, v: Version, next: nat)
    requires |input| <= MAX_DESCRIPTOR_LEN
    ensures ReadVersionPart(input, pos) == Got(v, next) <==>
              At(input, pos, VersionPart(v)) && next == pos + |VersionPart(v)|
  {
    KeyIff(input, pos, 6);
    CountIff(input, pos + 1, 4, 3);
    NumbersIff(input, pos + 2, v, next);
    Halves(input, pos, Head(0, 6), Head(4, 3) + Numbers(v));
    Halves(input, pos + 1, Head(4, 3), Numbers(v));
  }

  lemma SshPartIff(input: seq<u8>, pos: nat, ssh: bool, next: nat)
    requires |input| <= MAX_DESCRIPTOR_LEN
    ensures ReadSshPart(input, pos) == Got(ssh, next) <==> At(input, pos, SshPart(ssh)) && next == pos + 2
  {
    KeyIff(input, pos, 7);
    Halves(input, pos, Head(0, 7), [if ssh then 0xf5 else 0xf4]);
    assert pos + 1 < |input| ==> input[pos + 1..pos + 2] == [input[pos + 1]];
  }

  // ----- the whole descriptor -----

  lemma TimesIff(input: seq<u8>, pos: nat, a: DateTime, b: DateTime, next: nat)
    requires |input| <= MAX_DESCRIPTOR_LEN && 0 <= a.seconds && 0 <= b.seconds
    ensures ReadTimes(input, pos) == Got((a, b), next) <==>
              && At(input, pos, TimePart(a.seconds, b.seconds)) && next == pos + |TimePart(a.seconds, b.seconds)|
              && a.nanos == 0 && b.nanos == 0
  {
    var m := pos + 1 + HeadSize(a.seconds);
    TimeIff(input, pos, 2, a, m);
    TimeIff(input, m, 3, b, next);
    Halves(input, pos, Head(0, 2) + Head(0, a.seconds), Head(0, 3) + Head(0, b.seconds));
    if ReadTime(input, pos, 2).Got? {
      TimeIff(input, pos, 2, ReadTime(input, pos, 2).value, ReadTime(input, pos, 2).next);
    }
  }

  // Each composite is read piece by piece; the pieces stand next to each other, and so does the whole.

  lemma AccessSteps(input: seq<u8>, pos: nat)
    requires ReadAccess(input, pos).Got?
    ensures ReadCapabilityPart(input, pos).Got?
    ensures ReadVersionPart(input, ReadCapabilityPart(input, pos).next).Got?
    ensures var Got(c, m) := ReadCapabilityPart(input, pos);
            var Got(v, q) := ReadVersionPart(input, m);
            ReadSshPart(input, q).Got? && ReadAccess(input, pos) == Got((c, v, ReadSshPart(input, q).value), ReadSshPart(input, q).next)
  {
  }

  lemma AccessPieces(input: seq<u8>, pos: nat, c: Capability, m: nat, v: Version, q: nat, ssh: bool, next: nat)
    requires |input| <= MAX_DESCRIPTOR_LEN && ReadCapabilityPart(input, pos) == Got(c, m)
    requires ReadVersionPart(input, m) == Got(v, q) && ReadSshPart(input, q) == Got(ssh, next)
    ensures At(input, pos, CapabilityPart(c)) && m == pos + 35 && At(input, m, VersionPart(v))
    ensures q == m + |VersionPart(v)| && At(input, q, SshPart(ssh)) && next == q + 2
  {
    CapabilityPartIff(input, pos, c, m);
    VersionPartIff(input, m, v, q);
    SshPartIff(input, q, ssh, next);
  }

  lemma AccessStands(input: seq<u8>, pos: nat, c: Capability, v: Version, ssh: bool)
    ensures At(input, pos, AccessPart(c, v, ssh)) <==>
              && At(input, pos, CapabilityPart(c)) && At(input, pos + 35, VersionPart(v))
              && At(input, pos + 35 + |VersionPart(v)|, SshPart(ssh))
  {
    Halves(input, pos, CapabilityPart(c), VersionPart(v) + SshPart(ssh));
    Halves(input, pos + 35, VersionPart(v), SshPart(ssh));
  }

  lemma ReadAccessWasWritten(input: seq<u8>, pos: nat, c: Capability, v: Version, ssh: bool, next: nat)
    requires |input| <= MAX_DESCRIPTOR_LEN && ReadAccess(input, pos) == Got((c, v, ssh), next)
    ensures At(input, pos, AccessPart(c, v, ssh)) && next == pos + |AccessPart(c, v, ssh)|
  {
    AccessSteps(input, pos);
    var m := ReadCapabilityPart(input, pos).next;
    AccessPieces(input, pos, c, m, v, ReadVersionPart(input, m).next, ssh, next);
    AccessStands(input, pos, c, v, ssh);
  }

  lemma RouteSteps(input: seq<u8>, pos: nat)
    requires ReadRoute(input, pos).Got?
    ensures ReadTicketPart(input, pos).Got? && ReadAccess(input, ReadTicketPart(input, pos).next).Got?
    ensures var Got(k, m) := ReadTicketPart(input, pos);
            var Got(a, next) := ReadAccess(input, m);
            ReadRoute(input, pos) == Got((k, a), next)
  {
  }

  lemma RoutePieces(input: seq<u8>, pos: nat, k: Short, m: nat, c: Capability, v: Version, ssh: bool, next: nat)
    requires |input| <= MAX_DESCRIPTOR_LEN
    requires ReadTicketPart(input, pos) == Got(k, m) && ReadAccess(input, m) == Got((c, v, ssh), next)
    ensures At(input, pos, TicketPart(k)) && m == pos + |TicketPart(k)| && 1 <= |k| && Utf8(k)
    ensures At(input, m, AccessPart(c, v, ssh)) && next == m + |AccessPart(c, v, ssh)|
  {
    TicketPartIff(input, pos, k, m);
    ReadAccessWasWritten(input, m, c, v, ssh, next);
  }

  lemma ReadRouteWasWritten(input: seq<u8>, pos: nat, k: Short, c: Capability, v: Version, ssh: bool, next: nat)
    requires |input| <= MAX_DESCRIPTOR_LEN && ReadRoute(input, pos) == Got((k, (c, v, ssh)), next)
    ensures At(input, pos, RoutePart(k, c, v, ssh)) && next == pos + |RoutePart(k, c, v, ssh)|
    ensures 1 <= |k| && Utf8(k)
  {
    RouteSteps(input, pos);
    RouteWritten(input, pos, k, ReadTicketPart(input, pos).next, c, v, ssh, next);
  }

  lemma RouteWritten(input: seq<u8>, pos: nat, k: Short, m: nat, c: Capability, v: Version, ssh: bool, next: nat)
    requires |input| <= MAX_DESCRIPTOR_LEN
    requires ReadTicketPart(input, pos) == Got(k, m) && ReadAccess(input, m) == Got((c, v, ssh), next)
    ensures At(input, pos, RoutePart(k, c, v, ssh)) && next == pos + |RoutePart(k, c, v, ssh)|
    ensures 1 <= |k| && Utf8(k)
  {
    RoutePieces(input, pos, k, m, c, v, ssh, next);
    RouteStands(input, pos, k, m, c, v, ssh);
  }

  lemma RouteStands(input: seq<u8>, pos: nat, k: Short, m: nat, c: Capability, v: Version, ssh: bool)
    requires At(input, pos, TicketPart(k)) && m == pos + |TicketPart(k)| && At(input, m, AccessPart(c, v, ssh))
    ensures At(input, pos, RoutePart(k, c, v, ssh))
  {
    Joins(input, pos, TicketPart(k), AccessPart(c, v, ssh));
  }

  lemma BodySteps(input: seq<u8>, pos: nat, name: seq<u8>)
    requires ReadBody(input, pos, name).Got?
    ensures ReadTimes(input, pos).Got? && ReadRoute(input, ReadTimes(input, pos).next).Got?
    ensures var Got(t, m) := ReadTimes(input, pos);
            var Got(r, next) := ReadRoute(input, m);
            ReadBody(input, pos, name) == Got(Descriptor(name, t.0, t.1, r.0, r.1.0, r.1.1, r.1.2), next)
  {
  }

  lemma BodyPieces(input: seq<u8>, pos: nat, d: Descriptor, m: nat, next: nat)
    requires |input| <= MAX_DESCRIPTOR_LEN && Encodable(d)
    requires ReadTimes(input, pos) == Got((d.issued, d.expires), m)
    requires ReadRoute(input, m) == Got((d.ticket, (d.capability, d.version, d.ssh)), next)
    ensures var t := TimePart(d.issued.seconds, d.expires.seconds); At(input, pos, t) && m == pos + |t|
    ensures var r := RoutePart(d.ticket, d.capability, d.version, d.ssh); At(input, m, r) && next == m + |r|
    ensures d.issued.nanos == 0 && d.expires.nanos == 0 && 1 <= |d.ticket| && Utf8(d.ticket)
  {
    TimesIff(input, pos, d.issued, d.expires, m);
    ReadRouteWasWritten(input, m, d.ticket, d.capability, d.version, d.ssh, next);
  }

  lemma ReadBodyWasWritten(input: seq<u8>, pos: nat, d: Descriptor, next: nat)
    requires |input| <= MAX_DESCRIPTOR_LEN && Encodable(d) && ReadBody(input, pos, d.hostLabel) == Got(d, next)
    ensures At(input, pos, BodyPart(d)) && next == pos + |BodyPart(d)|
    ensures d.issued.nanos == 0 && d.expires.nanos == 0 && 1 <= |d.ticket| && Utf8(d.ticket)
  {
    BodySteps(input, pos, d.hostLabel);
    BodyWritten(input, pos, d, ReadTimes(input, pos).next, next);
  }

  lemma BodyWritten(input: seq<u8>, pos: nat, d: Descriptor, m: nat, next: nat)
    requires |input| <= MAX_DESCRIPTOR_LEN && Encodable(d)
    requires ReadTimes(input, pos) == Got((d.issued, d.expires), m)
    requires ReadRoute(input, m) == Got((d.ticket, (d.capability, d.version, d.ssh)), next)
    ensures At(input, pos, BodyPart(d)) && next == pos + |BodyPart(d)|
    ensures d.issued.nanos == 0 && d.expires.nanos == 0 && 1 <= |d.ticket| && Utf8(d.ticket)
  {
    BodyPieces(input, pos, d, m, next);
    BodyStands(input, pos, d, m);
  }

  lemma BodyStands(input: seq<u8>, pos: nat, d: Descriptor, m: nat)
    requires Encodable(d) && At(input, pos, TimePart(d.issued.seconds, d.expires.seconds))
    requires m == pos + |TimePart(d.issued.seconds, d.expires.seconds)|
    requires At(input, m, RoutePart(d.ticket, d.capability, d.version, d.ssh))
    ensures At(input, pos, BodyPart(d))
  {
    Joins(input, pos, TimePart(d.issued.seconds, d.expires.seconds), RoutePart(d.ticket, d.capability, d.version, d.ssh));
  }

  lemma FieldPieces(input: seq<u8>, d: Descriptor, m: nat)
    requires |input| <= MAX_DESCRIPTOR_LEN && Encodable(d)
    requires ReadLabelPart(input, 0) == Got(d.hostLabel, m) && ReadBody(input, m, d.hostLabel) == Got(d, |input|)
    ensures At(input, 0, LabelPart(d.hostLabel)) && m == |LabelPart(d.hostLabel)|
    ensures At(input, m, BodyPart(d)) && |input| == m + |BodyPart(d)|
    ensures d.issued.nanos == 0 && d.expires.nanos == 0
    ensures 1 <= |d.hostLabel| && Utf8(d.hostLabel) && 1 <= |d.ticket| && Utf8(d.ticket)
  {
    LabelPartIff(input, 0, d.hostLabel, m);
    ReadBodyWasWritten(input, m, d, |input|);
  }

  lemma ReadFieldsWereWritten(input: seq<u8>, d: Descriptor)
    requires |input| <= MAX_DESCRIPTOR_LEN && Encodable(d) && ReadFields(input) == Got(d, |input|)
    ensures Bytes(d) == input
    ensures d.issued.nanos == 0 && d.expires.nanos == 0
    ensures 1 <= |d.hostLabel| && Utf8(d.hostLabel) && 1 <= |d.ticket| && Utf8(d.ticket)
  {
    FieldPieces(input, d, ReadLabelPart(input, 0).next);
    FieldsStand(input, d);
  }

  lemma FieldsStand(input: seq<u8>, d: Descriptor)
    requires Encodable(d) && At(input, 0, LabelPart(d.hostLabel)) && At(input, |LabelPart(d.hostLabel)|, BodyPart(d))
    requires |input| == |LabelPart(d.hostLabel)| + |BodyPart(d)|
    ensures Bytes(d) == input
  {
    Joins(input, 0, LabelPart(d.hostLabel), BodyPart(d));
    assert input[0..|input|] == input;
  }

  // ----- and what was written is read -----

  // Where each part of an encoding stands.

  function TimesAt(d: Descriptor): nat requires Encodable(d) {
    |LabelPart(d.hostLabel)|
  }

  function RouteAt(d: Descriptor): nat requires Encodable(d) {
    TimesAt(d) + |TimePart(d.issued.seconds, d.expires.seconds)|
  }

  function AccessAt(d: Descriptor): nat requires Encodable(d) {
    RouteAt(d) + |TicketPart(d.ticket)|
  }

  function SshAt(d: Descriptor): nat requires Encodable(d) {
    AccessAt(d) + 35 + |VersionPart(d.version)|
  }

  lemma BytesStand(d: Descriptor)
    requires Encodable(d)
    ensures At(Bytes(d), 0, LabelPart(d.hostLabel)) && At(Bytes(d), TimesAt(d), BodyPart(d))
  {
    assert Bytes(d)[0..|Bytes(d)|] == Bytes(d);
    Parts(Bytes(d), 0, LabelPart(d.hostLabel), BodyPart(d));
  }

  lemma BodyStandsIn(d: Descriptor)
    requires Encodable(d)
    ensures At(Bytes(d), TimesAt(d), TimePart(d.issued.seconds, d.expires.seconds))
    ensures At(Bytes(d), RouteAt(d), RoutePart(d.ticket, d.capability, d.version, d.ssh))
  {
    BytesStand(d);
    Parts(Bytes(d), TimesAt(d), TimePart(d.issued.seconds, d.expires.seconds),
          RoutePart(d.ticket, d.capability, d.version, d.ssh));
  }

  lemma RouteStandsIn(d: Descriptor)
    requires Encodable(d)
    ensures At(Bytes(d), RouteAt(d), TicketPart(d.ticket))
    ensures At(Bytes(d), AccessAt(d), AccessPart(d.capability, d.version, d.ssh))
  {
    BodyStandsIn(d);
    Parts(Bytes(d), RouteAt(d), TicketPart(d.ticket), AccessPart(d.capability, d.version, d.ssh));
  }

  lemma CapabilityStandsIn(d: Descriptor)
    requires Encodable(d)
    ensures At(Bytes(d), AccessAt(d), CapabilityPart(d.capability))
  {
    RouteStandsIn(d);
    AccessStands(Bytes(d), AccessAt(d), d.capability, d.version, d.ssh);
  }

  lemma VersionStandsIn(d: Descriptor)
    requires Encodable(d)
    ensures At(Bytes(d), AccessAt(d) + 35, VersionPart(d.version))
  {
    assert At(Bytes(d), AccessAt(d), AccessPart(d.capability, d.version, d.ssh)) by {
      RouteStandsIn(d);
    }
    AccessStands(Bytes(d), AccessAt(d), d.capability, d.version, d.ssh);
  }

  lemma SshStandsIn(d: Descriptor)
    requires Encodable(d)
    ensures At(Bytes(d), SshAt(d), SshPart(d.ssh))
  {
    RouteStandsIn(d);
    AccessStands(Bytes(d), AccessAt(d), d.capability, d.version, d.ssh);
  }

  // The composite readers read their parts one after the other.

  lemma AccessCombines(input: seq<u8>, pos: nat, c: Capability, m: nat, v: Version, q: nat, ssh: bool, next: nat)
    requires ReadCapabilityPart(input, pos) == Got(c, m) && ReadVersionPart(input, m) == Got(v, q)
    requires ReadSshPart(input, q) == Got(ssh, next)
    ensures ReadAccess(input, pos) == Got((c, v, ssh), next)
  {
  }

  lemma RouteCombines(input: seq<u8>, pos: nat, k: seq<u8>, m: nat, access: (Capability, Version, bool), next: nat)
    requires ReadTicketPart(input, pos) == Got(k, m) && ReadAccess(input, m) == Got(access, next)
    ensures ReadRoute(input, pos) == Got((k, access), next)
  {
  }

  lemma BodyCombines(input: seq<u8>, pos: nat, d: Descriptor, m: nat, next: nat)
    requires ReadTimes(input, pos) == Got((d.issued, d.expires), m)
    requires ReadRoute(input, m) == Got((d.ticket, (d.capability, d.version, d.ssh)), next)
    ensures ReadBody(input, pos, d.hostLabel) == Got(d, next)
  {
  }

  lemma FieldsCombine(input: seq<u8>, d: Descriptor, m: nat, next: nat)
    requires ReadLabelPart(input, 0) == Got(d.hostLabel, m) && ReadBody(input, m, d.hostLabel) == Got(d, next)
    ensures ReadFields(input) == Got(d, next)
  {
  }

  // Wherever the parts stand one after the other, they are read one after the other.

  lemma AccessReads(input: seq<u8>, pos: nat, c: Capability, v: Version, q: nat, ssh: bool)
    requires |input| <= MAX_DESCRIPTOR_LEN && At(input, pos, CapabilityPart(c)) && At(input, pos + 35, VersionPart(v))
    requires q == pos + 35 + |VersionPart(v)| && At(input, q, SshPart(ssh))
    ensures ReadAccess(input, pos) == Got((c, v, ssh), q + 2)
  {
    assert ReadCapabilityPart(input, pos) == Got(c, pos + 35) by {
      CapabilityPartIff(input, pos, c, pos + 35);
    }
    assert ReadVersionPart(input, pos + 35) == Got(v, q) by {
      VersionPartIff(input, pos + 35, v, q);
    }
    assert ReadSshPart(input, q) == Got(ssh, q + 2) by {
      SshPartIff(input, q, ssh, q + 2);
    }
    AccessCombines(input, pos, c, pos + 35, v, q, ssh, q + 2);
  }

  lemma RouteReads(input: seq<u8>, pos: nat, k: Short, m: nat, access: (Capability, Version, bool), next: nat)
    requires |input| <= MAX_DESCRIPTOR_LEN && At(input, pos, TicketPart(k)) && m == pos + |TicketPart(k)|
    requires 1 <= |k| && Utf8(k) && ReadAccess(input, m) == Got(access, next)
    ensures ReadRoute(input, pos) == Got((k, access), next)
  {
    assert ReadTicketPart(input, pos) == Got(k, m) by {
      TicketPartIff(input, pos, k, m);
    }
    RouteCombines(input, pos, k, m, access, next);
  }

  lemma BodyReads(input: seq<u8>, pos: nat, d: Descriptor, m: nat, next: nat)
    requires |input| <= MAX_DESCRIPTOR_LEN && Encodable(d) && d.issued.nanos == 0 && d.expires.nanos == 0
    requires At(input, pos, TimePart(d.issued.seconds, d.expires.seconds))
    requires m == pos + |TimePart(d.issued.seconds, d.expires.seconds)|
    requires ReadRoute(input, m) == Got((d.ticket, (d.capability, d.version, d.ssh)), next)
    ensures ReadBody(input, pos, d.hostLabel) == Got(d, next)
  {
    assert ReadTimes(input, pos) == Got((d.issued, d.expires), m) by {
      TimesIff(input, pos, d.issued, d.expires, m);
    }
    BodyCombines(input, pos, d, m, next);
  }

  lemma FieldsRead(input: seq<u8>, d: Descriptor, m: nat, next: nat)
    requires |input| <= MAX_DESCRIPTOR_LEN && Encodable(d) && 1 <= |d.hostLabel| && Utf8(d.hostLabel)
    requires At(input, 0, LabelPart(d.hostLabel)) && m == |LabelPart(d.hostLabel)|
    requires ReadBody(input, m, d.hostLabel) == Got(d, next)
    ensures ReadFields(input) == Got(d, next)
  {
    assert ReadLabelPart(input, 0) == Got(d.hostLabel, m) by {
      LabelPartIff(input, 0, d.hostLabel, m);
    }
    FieldsCombine(input, d, m, next);
  }

  lemma AccessRead(d: Descriptor)
    requires Encodable(d)
    ensures ReadAccess(Bytes(d), AccessAt(d)) == Got((d.capability, d.version, d.ssh), |Bytes(d)|)
  {
    CapabilityStandsIn(d);
    VersionStandsIn(d);
    SshStandsIn(d);
    AccessReads(Bytes(d), AccessAt(d), d.capability, d.version, SshAt(d), d.ssh);
  }

  lemma RouteRead(d: Descriptor)
    requires Encodable(d) && 1 <= |d.ticket| && Utf8(d.ticket)
    ensures ReadRoute(Bytes(d), RouteAt(d)) == Got((d.ticket, (d.capability, d.version, d.ssh)), |Bytes(d)|)
  {
    RouteStandsIn(d);
    AccessRead(d);
    RouteReads(Bytes(d), RouteAt(d), d.ticket, AccessAt(d), (d.capability, d.version, d.ssh), |Bytes(d)|);
  }

  lemma BodyRead(d: Descriptor)
    requires Encodable(d) && d.issued.nanos == 0 && d.expires.nanos == 0 && 1 <= |d.ticket| && Utf8(d.ticket)
    ensures ReadBody(Bytes(d), TimesAt(d), d.hostLabel) == Got(d, |Bytes(d)|)
  {
    BodyStandsIn(d);
    RouteRead(d);
    BodyReads(Bytes(d), TimesAt(d), d, RouteAt(d), |Bytes(d)|);
  }

  lemma WrittenFieldsRead(d: Descriptor)
    requires Encodable(d) && d.issued.nanos == 0 && d.expires.nanos == 0
    requires 1 <= |d.hostLabel| && Utf8(d.hostLabel) && 1 <= |d.ticket| && Utf8(d.ticket)
    ensures ReadFields(Bytes(d)) == Got(d, |Bytes(d)|)
  {
    BytesStand(d);
    BodyRead(d);
    FieldsRead(Bytes(d), d, TimesAt(d), |Bytes(d)|);
  }

  /** The field reader yields `d` exactly on the encoding of `d`. */
  lemma FieldsIff(input: seq<u8>, d: Descriptor)
    requires |input| <= MAX_DESCRIPTOR_LEN && Encodable(d)
    ensures ReadFields(input) == Got(d, |input|) <==>
              && Bytes(d) == input && d.issued.nanos == 0 && d.expires.nanos == 0
              && 1 <= |d.hostLabel| && Utf8(d.hostLabel) && 1 <= |d.ticket| && Utf8(d.ticket)
  {
    if ReadFields(input) == Got(d, |input|) {
      ReadFieldsWereWritten(input, d);
    } else if Bytes(d) == input && d.issued.nanos == 0 && d.expires.nanos == 0
              && 1 <= |d.hostLabel| && Utf8(d.hostLabel) && 1 <= |d.ticket| && Utf8(d.ticket) {
      WrittenFieldsRead(d);
    }
  }

  lemma TicketBounded(input: seq<u8>, pos: nat)
    requires ReadTicketPart(input, pos).Got?
    ensures |ReadTicketPart(input, pos).value| <= MAX_ENDPOINT_TICKET_LEN
  {
    TextSlice(input, ReadKey(input, pos, 4).next, MAX_ENDPOINT_TICKET_LEN);
  }

  lemma TimesBounded(input: seq<u8>, pos: nat)
    requires ReadTimes(input, pos).Got?
    ensures 0 <= ReadTimes(input, pos).value.0.seconds && 0 <= ReadTimes(input, pos).value.1.seconds
  {
  }

  lemma LabelBounded(input: seq<u8>)
    requires ReadLabelPart(input, 0).Got?
    ensures |ReadLabelPart(input, 0).value| <= MAX_HOST_LABEL_BYTES
  {
    TextSlice(input, ReadKey(input, ReadCount(input, 0, 5, 7).next, 1).next, MAX_HOST_LABEL_BYTES);
  }

  lemma RouteBounded(input: seq<u8>, pos: nat)
    requires ReadRoute(input, pos).Got?
    ensures |ReadRoute(input, pos).value.0| <= MAX_ENDPOINT_TICKET_LEN
  {
    RouteSteps(input, pos);
    TicketBounded(input, pos);
  }

  lemma BodyEncodable(input: seq<u8>, pos: nat, name: seq<u8>)
    requires ReadBody(input, pos, name).Got? && |name| <= MAX_HOST_LABEL_BYTES
    ensures Encodable(ReadBody(input, pos, name).value)
  {
    BodySteps(input, pos, name);
    TimesBounded(input, pos);
    RouteBounded(input, ReadTimes(input, pos).next);
  }

  lemma FieldSteps(input: seq<u8>)
    requires ReadFields(input).Got?
    ensures ReadLabelPart(input, 0).Got?
    ensures var Got(name, m) := ReadLabelPart(input, 0); ReadFields(input) == ReadBody(input, m, name)
  {
  }

  lemma FieldsEncodable(input: seq<u8>)
    requires ReadFields(input).Got?
    ensures Encodable(ReadFields(input).value)
  {
    FieldSteps(input);
    LabelBounded(input);
    BodyEncodable(input, ReadLabelPart(input, 0).next, ReadLabelPart(input, 0).value);
  }

  /** The decoder, even without its final comparison, accepts exactly the encodings of valid
      descriptors, and returns the descriptor that was encoded. */
  lemma ParseIff(input: seq<u8>, tickets: Tickets, d: Descriptor)
    ensures Parse(input, tickets) == Ok(d) <==> Valid(d, tickets) && Bytes(d) == input
  {
    assert input[0..|input|] == input;
    if Valid(d, tickets) && Bytes(d) == input {
      AsciiIsUtf8(d.hostLabel, 0);
      AsciiIsUtf8(d.ticket, 0);
      FieldsIff(input, d);
    }
    if Parse(input, tickets) == Ok(d) {
      FieldsEncodable(input);
      FieldsIff(input, d);
    }
  }

  /** So the comparison never fires: the decoder is its own parser. */
  lemma ComparisonNeverFires(input: seq<u8>, tickets: Tickets)
    ensures DecodeSpec(input, tickets) == Parse(input, tickets)
  {
    if Parse(input, tickets).Ok? {
      ParseIff(input, tickets, Parse(input, tickets).value);
    }
  }

  /** The decoder accepts exactly the encodings of valid descriptors. */
  lemma DecodeIff(input: seq<u8>, tickets: Tickets, d: Descriptor)
    ensures DecodeSpec(input, tickets) == Ok(d) <==> Valid(d, tickets) && Bytes(d) == input
  {
    ComparisonNeverFires(input, tickets);
    ParseIff(input, tickets, d);
  }

  /** The encoder's size limit never fires, decoding inverts encoding, and equal bytes mean equal descriptors. */
  lemma RoundTrip(d: Descriptor, tickets: Tickets)
    requires Valid(d, tickets)
    ensures EncodeSpec(d, tickets) == Ok(Bytes(d))
    ensures DecodeSpec(Bytes(d), tickets) == Ok(d)
    ensures forall e: Descriptor :: Valid(e, tickets) && Bytes(e) == Bytes(d) ==> e == d
  {
    DecodeIff(Bytes(d), tickets, d);
    forall e: Descriptor | Valid(e, tickets) && Bytes(e) == Bytes(d)
      ensures e == d
    {
      DecodeIff(Bytes(d), tickets, e);
    }
  }

  /** The bound on encodings is exact: whatever ticket of the largest size is accepted, some valid descriptor
      with it takes 4,236 bytes. */
  lemma LongestEncoding(ticket: seq<u8>, tickets: Tickets) returns (d: Descriptor)
    requires |ticket| == MAX_ENDPOINT_TICKET_LEN && Ascii(ticket) && tickets(ticket)
    ensures Valid(d, tickets) && |Bytes(d)| == 4_236
  {
    var issued := 0x1_0000_0000;
    d := Descriptor(seq(64, _ => 0x61), DateTime(issued, 0), DateTime(issued + 60, 0), ticket, seq(32, _ => 0),
                    Version(0xffff, 0xffff, 0xffff), true);
  }
}
