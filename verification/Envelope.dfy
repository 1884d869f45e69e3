/** Sealing and opening a descriptor: the authenticated cipher is abstract, the size path and the
    acceptance window are exact. */
module Envelope {
  import opened Common
  import opened Canonical

  const MAX_CIPHERTEXT_LEN := 65_792
  const TAG_LEN := 16
  const MAX_FUTURE_CLOCK_SKEW := 60
  const SECOND := 1_000_000_000 // nanoseconds

  type Id = b: seq<u8> | |b| == 16 witness seq(16, _ => 0)
  type Key = b: seq<u8> | |b| == 32 witness seq(32, _ => 0)
  type Nonce = b: seq<u8> | |b| == 24 witness seq(24, _ => 0)

  datatype Sealed = Sealed(nonce: Nonce, ciphertext: seq<u8>)

  /** Key derivation and the authenticated cipher, as functions of key, nonce, associated data and text. */
  datatype Suite = Suite(
    derive: (Key, Id) -> Key,
    seal: (Key, Nonce, seq<u8>, seq<u8>) -> seq<u8>,
    open: (Key, Nonce, seq<u8>, seq<u8>) -> Option<seq<u8>>)

  /** Opening accepts exactly what sealing produces, and a tag is appended. */
  ghost predicate Inverse(suite: Suite) {
    && (forall k: Key, n: Nonce, a: seq<u8>, m: seq<u8> ::
          suite.open(k, n, a, suite.seal(k, n, a, m)) == Some(m) && |suite.seal(k, n, a, m)| == |m| + TAG_LEN)
    && (forall k: Key, n: Nonce, a: seq<u8>, c: seq<u8> ::
          suite.open(k, n, a, c).Some? ==> c == suite.seal(k, n, a, suite.open(k, n, a, c).value))
  }

  const AAD_DOMAIN: seq<u8> := [ // attached/host-sync/envelope-aad/v1\0
    0x61, 0x74, 0x74, 0x61, 0x63, 0x68, 0x65, 0x64, 0x2f, 0x68, 0x6f, 0x73, 0x74, 0x2d, 0x73, 0x79, 0x6e, 0x63,
    0x2f, 0x65, 0x6e, 0x76, 0x65, 0x6c, 0x6f, 0x70, 0x65, 0x2d, 0x61, 0x61, 0x64, 0x2f, 0x76, 0x31, 0x00]

  function Aad(account: Id, record: Id): seq<u8> {
    AAD_DOMAIN + account + record + [0, 1]
  }

  /** The associated data, field by field: the domain with its final zero, the account, the record, version 1. */
  lemma AadFields(account: Id, record: Id)
    ensures var aad, domain := Aad(account, record), "attached/host-sync/envelope-aad/v1";
            && |domain| == 34 && |aad| == 69
            && (forall i :: 0 <= i < 34 ==> aad[i] == domain[i] as int) && aad[34] == 0
            && aad[35..51] == account && aad[51..67] == record && aad[67..] == [0, 1]
  {
    var aad, domain := Aad(account, record), "attached/host-sync/envelope-aad/v1";
    assert forall i :: 0 <= i < 34 ==> AAD_DOMAIN[i] == domain[i] as int;
  }

  /** An envelope is bound to one account and one record. */
  lemma AadBinds(a1: Id, r1: Id, a2: Id, r2: Id)
    ensures Aad(a1, r1) == Aad(a2, r2) <==> a1 == a2 && r1 == r2
  {
    if Aad(a1, r1) == Aad(a2, r2) {
      var n := |AAD_DOMAIN|;
      assert a1 == Aad(a1, r1)[n..n + 16] == Aad(a2, r2)[n..n + 16] == a2;
      assert r1 == Aad(a1, r1)[n + 16..n + 32] == Aad(a2, r2)[n + 16..n + 32] == r2;
    }
  }

  function Seal(suite: Suite, tickets: Tickets, d: Descriptor, root: Key, account: Id, record: Id, nonce: Nonce)
    : Result<Sealed>
  {
    var plaintext :- EncodeSpec(d, tickets);
    var ciphertext := suite.seal(suite.derive(root, account), nonce, Aad(account, record), plaintext);
    if |ciphertext| > MAX_CIPHERTEXT_LEN then Err(Limit) else Ok(Sealed(nonce, ciphertext))
  }

  function Open(suite: Suite, tickets: Tickets, e: Sealed, root: Key, account: Id, record: Id, now: DateTime)
    : Result<Descriptor>
  {
    if |e.ciphertext| > MAX_CIPHERTEXT_LEN then Err(Limit)
    else
      match suite.open(suite.derive(root, account), e.nonce, Aad(account, record), e.ciphertext)
      case None => Err(Decryption)
      case Some(plaintext) =>
        var d :- DecodeSpec(plaintext, tickets);
        if now.seconds + MAX_FUTURE_CLOCK_SKEW > MAX_TIMESTAMP then Err(InvalidField)
        else if Nanos(d.issued) > Nanos(now) + MAX_FUTURE_CLOCK_SKEW * SECOND || Nanos(now) >= Nanos(d.expires) then
          Err(Expired)
        else Ok(d)
  }

  /** The clock readings at which a descriptor is accepted: the half-open interval from 60 seconds
      before it was issued to its expiry. */
  ghost predicate InWindow(d: Descriptor, now: DateTime) {
    Nanos(d.issued) - 60_000_000_000 <= Nanos(now) < Nanos(d.expires)
  }

  /** The envelope carries exactly this descriptor for this account and record. */
  ghost predicate Carries(suite: Suite, e: Sealed, root: Key, account: Id, record: Id, d: Descriptor)
    requires Encodable(d)
  {
    e.ciphertext == suite.seal(suite.derive(root, account), e.nonce, Aad(account, record), Bytes(d))
  }

  /** Sealing a valid descriptor always succeeds; the two size limits are out of reach. */
  lemma SealSucceeds(suite: Suite, tickets: Tickets, d: Descriptor, root: Key, account: Id, record: Id, nonce: Nonce)
    requires Inverse(suite)
    ensures Valid(d, tickets) <==> Seal(suite, tickets, d, root, account, record, nonce).Ok?
    ensures Valid(d, tickets) ==>
              var e := Seal(suite, tickets, d, root, account, record, nonce).value;
              Carries(suite, e, root, account, record, d) && e.nonce == nonce && |e.ciphertext| <= 4_252
  {
  }

  /** Opening returns `d` if and only if the envelope carries the valid descriptor `d` and the clock is
      inside its window (and sixty seconds later is still a representable time). */
  lemma OpenIff(suite: Suite, tickets: Tickets, e: Sealed, root: Key, account: Id, record: Id,
                now: DateTime, d: Descriptor)
    requires Inverse(suite)
    ensures Open(suite, tickets, e, root, account, record, now) == Ok(d) <==>
              && Valid(d, tickets) && Carries(suite, e, root, account, record, d)
              && InWindow(d, now) && now.seconds + 60 <= 8_210_266_876_799
  {
    var text := suite.open(suite.derive(root, account), e.nonce, Aad(account, record), e.ciphertext);
    if text.Some? {
      DecodeIff(text.value, tickets, d);
    }
  }

  /** What opening an envelope that carries a valid descriptor answers. */
  lemma OpenCarried(suite: Suite, tickets: Tickets, e: Sealed, root: Key, account: Id, record: Id, now: DateTime, d: Descriptor)
    requires Inverse(suite) && Valid(d, tickets) && Carries(suite, e, root, account, record, d)
    ensures Open(suite, tickets, e, root, account, record, now) ==
              if now.seconds + 60 > 8_210_266_876_799 then Err(InvalidField)
              else if InWindow(d, now) then Ok(d) else Err(Expired)
  {
    DecodeIff(Bytes(d), tickets, d);
  }

  /** What is too long is refused as such, and what nobody sealed for this account and record is not decrypted. */
  lemma OpenRefuses(suite: Suite, tickets: Tickets, e: Sealed, root: Key, account: Id, record: Id, now: DateTime)
    requires Inverse(suite)
    ensures |e.ciphertext| > 65_792 ==> Open(suite, tickets, e, root, account, record, now) == Err(Limit)
    ensures |e.ciphertext| <= 65_792
            && (forall text: seq<u8> ::
                  e.ciphertext != suite.seal(suite.derive(root, account), e.nonce, Aad(account, record), text)) ==>
              Open(suite, tickets, e, root, account, record, now) == Err(Decryption)
  {
    var text := suite.open(suite.derive(root, account), e.nonce, Aad(account, record), e.ciphertext);
    if text.Some? {
      assert e.ciphertext == suite.seal(suite.derive(root, account), e.nonce, Aad(account, record), text.value);
    }
  }

  /** Replaying one envelope: all clock readings at which it opens lie in one interval of at most 960
      seconds, and it opens at every reading in between, to the same descriptor. */
  lemma ReplayWindow(suite: Suite, tickets: Tickets, e: Sealed, root: Key, account: Id, record: Id,
                     first: DateTime, between: DateTime, last: DateTime, d1: Descriptor, d2: Descriptor)
    requires Inverse(suite)
    requires Open(suite, tickets, e, root, account, record, first) == Ok(d1)
    requires Open(suite, tickets, e, root, account, record, last) == Ok(d2)
    requires Nanos(first) <= Nanos(between) <= Nanos(last)
    ensures d1 == d2
    ensures Nanos(last) - Nanos(first) < 960 * SECOND
    ensures Open(suite, tickets, e, root, account, record, between) == Ok(d1)
  {
    OpenIff(suite, tickets, e, root, account, record, first, d1);
    OpenIff(suite, tickets, e, root, account, record, last, d2);
    var k, a := suite.derive(root, account), Aad(account, record);
    assert suite.open(k, e.nonce, a, e.ciphertext) == Some(Bytes(d1));
    assert suite.open(k, e.nonce, a, e.ciphertext) == Some(Bytes(d2));
    RoundTrip(d1, tickets);
    OpenIff(suite, tickets, e, root, account, record, between, d1);
  }
}
